/**
  `ChatUIManager`: turns the input line into a chat send (a `/w <name> <text>`
  line becomes a whisper, anything else goes to the global topic) and
  appends each incoming chat message to the history text.
*/
module ChatUI {
  import opened Common
  import opened Envelopes
  import opened WebSocketSharp
  import opened PhoenixChat

  /** The topic used when there is no client to ask for its global topic. */
  const DefaultGlobalTopic := "chat:global"
  const WhisperCommand := "/w "
  const WhisperTopicPrefix := "chat:whisper:"

  /** The index of the first `c` in `s`. */
  function IndexOf(s: string, c: char): (i: nat)
    requires c in s
    ensures i < |s| && s[i] == c && c !in s[..i]
  {
    if s[0] == c then 0 else 1 + IndexOf(s[1..], c)
  }

  /**
    `s.Split(new char[] { c }, count)`: the pieces between occurrences of `c`,
    at most `count` of them, the last holding the rest of `s` unsplit; empty
    pieces are kept.
  */
  function Split(s: string, c: char, count: nat): (parts: seq<string>)
    requires count >= 1
    ensures 1 <= |parts| <= count
    decreases count
  {
    if count == 1 || c !in s then [s]
    else
      var i := IndexOf(s, c);
      [s[..i]] + Split(s[i + 1..], c, count - 1)
  }

  /** `string.Join(c, parts)`. */
  function JoinWith(parts: seq<string>, c: char): string
  {
    if parts == [] then ""
    else if |parts| == 1 then parts[0]
    else parts[0] + [c] + JoinWith(parts[1..], c)
  }

  /** Joining the pieces back with the separator gives the original string; only the last piece may hold it. */
  lemma {:induction false} SplitJoin(s: string, c: char, count: nat)
    requires count >= 1
    ensures JoinWith(Split(s, c, count), c) == s
    ensures forall k :: 0 <= k < |Split(s, c, count)| - 1 ==> c !in Split(s, c, count)[k]
    decreases count
  {
    if count > 1 && c in s {
      var i := IndexOf(s, c);
      SplitJoin(s[i + 1..], c, count - 1);
      var rest := Split(s[i + 1..], c, count - 1);
      assert Split(s, c, count)[1..] == rest;
      assert s == s[..i] + [c] + s[i + 1..];
    }
  }

  /** Where a send goes and what it says. */
  datatype Route = Route(to: string, message: string)

  /**
    The routing of `SendFromInput`: nothing for empty input; a whisper to
    `chat:whisper:<name>` when the line starts with `/w ` and splits on spaces
    into at least three parts; otherwise the line itself, to `globalTopic`.
  */
  function RouteInput(input: string, globalTopic: string): (r: Option<Route>)
    ensures r.None? <==> input == ""
  {
    if input == "" then None
    else
      var parts := Split(input, ' ', 3);
      if StartsWith(input, WhisperCommand) && |parts| >= 3 then
        Some(Route(WhisperTopicPrefix + parts[1], parts[2]))
      else
        Some(Route(globalTopic, input))
  }

  /** Splitting a `/w ` line cuts off `/w` at its first space and splits the rest in two. */
  lemma WhisperSplitHead(rest: string)
    ensures Split(WhisperCommand + rest, ' ', 3) == ["/w"] + Split(rest, ' ', 2)
  {
    var s := WhisperCommand + rest;
    assert s[0] == '/' && s[1..][0] == 'w' && s[1..][1..][0] == ' ';
    assert IndexOf(s, ' ') == 2;
    assert s[..2] == "/w";
    assert s[3..] == rest;
  }

  /** Splitting in two cuts at the first space, when there is one. */
  lemma SplitTwo(rest: string)
    ensures |Split(rest, ' ', 2)| == 2 <==> ' ' in rest
    ensures ' ' in rest ==> Split(rest, ' ', 2) == [rest[..IndexOf(rest, ' ')], rest[IndexOf(rest, ' ') + 1..]]
  {
  }

  /** After `/w `, the split has three parts exactly when another space follows, cut at the first one. */
  lemma WhisperSplit(rest: string)
    ensures var parts := Split(WhisperCommand + rest, ' ', 3);
      && (|parts| >= 3 <==> ' ' in rest)
      && (' ' in rest ==> parts == ["/w", rest[..IndexOf(rest, ' ')], rest[IndexOf(rest, ' ') + 1..]])
  {
    WhisperSplitHead(rest);
    SplitTwo(rest);
  }

  /** A `/w ` line with a space after the name. */
  predicate IsWhisper(input: string)
  {
    StartsWith(input, WhisperCommand) && ' ' in input[3..]
  }

  /** The name of a whisper line: up to the first space after `/w `. */
  function WhisperName(input: string): string
    requires IsWhisper(input)
  {
    input[3..][..IndexOf(input[3..], ' ')]
  }

  /** The text of a whisper line: everything after that space, spaces kept. */
  function WhisperText(input: string): string
    requires IsWhisper(input)
  {
    input[3..][IndexOf(input[3..], ' ') + 1..]
  }

  /** A non-empty line that is not a whisper goes unchanged to the global topic, a `/w ` line without a second space included. */
  lemma RouteGlobal(input: string, globalTopic: string)
    requires input != "" && !IsWhisper(input)
    ensures RouteInput(input, globalTopic) == Some(Route(globalTopic, input))
  {
    if StartsWith(input, WhisperCommand) {
      var rest := input[3..];
      assert input == WhisperCommand + rest;
      WhisperSplit(rest);
    }
  }

  /** Name and text of a whisper line put back together give the line; the name holds no space. */
  lemma WhisperParts(input: string)
    requires IsWhisper(input)
    ensures input == WhisperCommand + WhisperName(input) + " " + WhisperText(input)
    ensures ' ' !in WhisperName(input)
  {
    var rest := input[3..];
    var k := IndexOf(rest, ' ');
    var name, text := rest[..k], rest[k + 1..];
    assert rest == name + " " + text;
    assert input == WhisperCommand + rest;
    assert WhisperCommand + rest == WhisperCommand + name + " " + text;
  }

  /** A whisper line goes to `chat:whisper:<name>` with the text after the first space following the name. */
  lemma RouteWhisper(input: string, globalTopic: string)
    requires IsWhisper(input)
    ensures RouteInput(input, globalTopic) == Some(Route(WhisperTopicPrefix + WhisperName(input), WhisperText(input)))
  {
    var rest := input[3..];
    assert input == WhisperCommand + rest;
    WhisperSplit(rest);
  }

  /** The first space of `name + " " + text`, for a space-free `name`, is the one after it. */
  lemma {:induction false} IndexOfAfterName(name: string, text: string)
    requires ' ' !in name
    ensures IndexOf(name + " " + text, ' ') == |name|
    decreases |name|
  {
    if name != [] {
      assert (name + " " + text)[1..] == name[1..] + " " + text;
      IndexOfAfterName(name[1..], text);
    }
  }

  /** A whisper typed as `/w <name> <text>`, with no space in the name, reaches `chat:whisper:<name>` with the text intact. */
  lemma WhisperRoundTrip(name: string, text: string, globalTopic: string)
    requires ' ' !in name
    ensures RouteInput(WhisperCommand + name + " " + text, globalTopic)
            == Some(Route(WhisperTopicPrefix + name, text))
  {
    var rest := name + " " + text;
    assert WhisperCommand + name + " " + text == WhisperCommand + rest;
    IndexOfAfterName(name, text);
    assert rest[..|name|] == name && rest[|name| + 1..] == text;
    WhisperSplit(rest);
    assert StartsWith(WhisperCommand + rest, WhisperCommand);
  }

  /** The history line `OnChatMessage` adds for a payload. */
  function HistoryLine(p: ChatPayload): string
  {
    "[" + p.from + "] " + p.text + "\n"
  }

  /** The history after one incoming message: unchanged for a null payload. */
  function AppendChat(history: string, msg: PhoenixMessage): string
  {
    if msg.payload.None? then history else history + HistoryLine(msg.payload.value)
  }

  /** The history after a series of incoming messages, one at a time. */
  function AppendAll(history: string, msgs: seq<PhoenixMessage>): string
    decreases |msgs|
  {
    if msgs == [] then history else AppendAll(AppendChat(history, msgs[0]), msgs[1..])
  }

  /** The lines the messages with a payload contribute, in order. */
  function Lines(msgs: seq<PhoenixMessage>): string
    decreases |msgs|
  {
    if msgs == [] then ""
    else (if msgs[0].payload.None? then "" else HistoryLine(msgs[0].payload.value)) + Lines(msgs[1..])
  }

  function CountNewlines(s: string): nat
  {
    if s == [] then 0 else (if s[0] == '\n' then 1 else 0) + CountNewlines(s[1..])
  }

  lemma {:induction false} CountNewlinesAppend(a: string, b: string)
    ensures CountNewlines(a + b) == CountNewlines(a) + CountNewlines(b)
    decreases |a|
  {
    if a != [] {
      assert (a + b)[0] == a[0];
      assert (a + b)[1..] == a[1..] + b;
      CountNewlinesAppend(a[1..], b);
    } else {
      assert a + b == b;
    }
  }

  /** The history only grows: it is the old history followed by one line per message with a payload. */
  lemma {:induction false} AppendAllIsConcat(history: string, msgs: seq<PhoenixMessage>)
    ensures AppendAll(history, msgs) == history + Lines(msgs)
    decreases |msgs|
  {
    if msgs != [] {
      AppendAllIsConcat(AppendChat(history, msgs[0]), msgs[1..]);
    }
  }

  /** A message whose sender and text hold no line break adds exactly one line to the history. */
  lemma HistoryLineIsOneLine(p: ChatPayload)
    requires '\n' !in p.from && '\n' !in p.text
    ensures CountNewlines(HistoryLine(p)) == 1
    ensures HistoryLine(p)[|HistoryLine(p)| - 1] == '\n'
  {
    NoNewlines(p.from);
    NoNewlines(p.text);
    CountNewlinesAppend("[" + p.from + "] " + p.text, "\n");
    CountNewlinesAppend("[" + p.from + "] ", p.text);
    CountNewlinesAppend("[" + p.from, "] ");
    CountNewlinesAppend("[", p.from);
  }

  lemma {:induction false} NoNewlines(s: string)
    requires '\n' !in s
    ensures CountNewlines(s) == 0
    decreases |s|
  {
    if s != [] {
      NoNewlines(s[1..]);
    }
  }

  class ChatUIManager {
    var chatClient: PhoenixChatClient?
    /** `inputField.text`; a null text is the empty string. */
    var inputText: string
    /** `chatHistoryText.text`. */
    var chatHistory: string

    constructor (chatClient: PhoenixChatClient?)
      ensures this.chatClient == chatClient && inputText == "" && chatHistory == ""
    {
      this.chatClient := chatClient;
      inputText := "";
      chatHistory := "";
    }

    /** Routes the input line through the client's `SendChat` and clears the input. */
    method SendFromInput()
      requires chatClient != null ==> chatClient.Valid()
      modifies this`inputText, chatClient
      ensures chatClient != null ==> chatClient.Valid()
      ensures old(inputText) == "" ==> inputText == "" && (chatClient != null ==> unchanged(chatClient))
      ensures old(inputText) != "" ==> inputText == ""
      ensures chatClient != null ==>
        && chatClient.socket == old(chatClient.socket)
        && chatClient.chatNotifications == old(chatClient.chatNotifications)
        && chatClient.playerName == old(chatClient.playerName)
        && chatClient.globalTopic == old(chatClient.globalTopic)
        && chatClient.socketUrl == old(chatClient.socketUrl)
      ensures chatClient != null && old(inputText) != "" ==>
        var r := RouteInput(old(inputText), old(chatClient.globalTopic)).value;
        var client := chatClient;
        if client.socket != null && client.socket.readyState == Open then
          && client.outbox == old(client.outbox)
               + [ChatFrame(ChatEnvelope(old(client.playerName), r.to, r.message, old(client.refCounter)))]
          && client.refCounter == old(client.refCounter) + 1
        else unchanged(client)
    {
      if inputText == "" {
        return;
      }
      var to := if chatClient != null then chatClient.globalTopic else DefaultGlobalTopic;
      var message := inputText;
      if StartsWith(message, WhisperCommand) {
        var parts := Split(message, ' ', 3);
        if |parts| >= 3 {
          to := WhisperTopicPrefix + parts[1];
          message := parts[2];
        }
      }
      if chatClient != null {
        chatClient.SendChat(to, message);
      }
      inputText := "";
    }

    /** Appends `[from] text` and a line break to the history, unless the payload is null. */
    method OnChatMessage(msg: PhoenixMessage)
      modifies this`chatHistory
      ensures chatHistory == AppendChat(old(chatHistory), msg)
    {
      if msg.payload.None? {
        return;
      }
      var line := "[" + msg.payload.value.from + "] " + msg.payload.value.text;
      chatHistory := chatHistory + line + "\n";
    }
  }
}
