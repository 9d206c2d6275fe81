/**
  `PhoenixChatClient`: a channel connection that holds at most one socket,
  joins the global topic when the socket opens, numbers every outbound
  envelope from a counter starting at 1, and hands inbound chat messages to
  its subscribers.
*/
module PhoenixChat {
  import opened Common
  import opened Envelopes
  import opened WebSocketSharp

  /** The join request for `topic` carrying counter value `n`. */
  function JoinRequest(topic: string, n: nat): JoinMessage
  {
    JoinMessage(topic, PhxJoin, EmptyPayload, Decimal(n))
  }

  /** The chat envelope sent by `from` to `toTopic` carrying counter value `n`. */
  function ChatEnvelope(from: string, toTopic: string, text: string, n: nat): PhoenixMessage
  {
    PhoenixMessage(toTopic, MessageEvent, Some(ChatPayload(from, toTopic, text)), Some(Decimal(n)), None)
  }

  /**
    The message an inbound frame delivers to chat subscribers, if any: text
    frames that parse as an envelope with event `message`. Everything else,
    `phx_reply` included, notifies nobody.
  */
  function ChatDelivery(isText: bool, decoded: Option<PhoenixMessage>): (r: Option<PhoenixMessage>)
    ensures r.Some? <==> isText && decoded.Some? && decoded.value.event == MessageEvent
    ensures r.Some? ==> r == decoded
  {
    if !isText then None
    else match decoded
      case None => None
      case Some(msg) => if msg.event == MessageEvent then Some(msg) else None
  }

  class PhoenixChatClient {
    var socketUrl: string
    var playerName: string
    var globalTopic: string
    var socket: WebSocket?
    var refCounter: int
    /** The frames handed to `socket.Send`, oldest first. */
    var outbox: seq<OutFrame>
    /** The messages `OnChatMessage` was raised with, oldest first. */
    var chatNotifications: seq<PhoenixMessage>

    /** Every frame sent consumed one counter value, starting from 1. */
    ghost predicate Valid()
      reads this
    {
      refCounter == |outbox| + 1 && RefsSequential(outbox)
    }

    constructor (socketUrl: string, playerName: string, globalTopic: string)
      ensures Valid()
      ensures this.socketUrl == socketUrl && this.playerName == playerName && this.globalTopic == globalTopic
      ensures socket == null && refCounter == 1 && outbox == [] && chatNotifications == []
    {
      this.socketUrl := socketUrl;
      this.playerName := playerName;
      this.globalTopic := globalTopic;
      socket := null;
      refCounter := 1;
      outbox := [];
      chatNotifications := [];
    }

    /**
      Opens a socket unless one is held. `ConnectAsync` only reports whether
      an `OnOpen` handler is subscribed; this method then runs that handler,
      which joins the global topic while the socket is `Open`.
    */
    method Connect()
      requires Valid()
      modifies this
      ensures Valid()
      ensures old(socket) != null ==> unchanged(this)
      ensures old(socket) == null ==>
        && socket != null && fresh(socket)
        && socket.readyState == Open && socket.url == socketUrl
        && outbox == old(outbox) + [JoinFrame(JoinRequest(globalTopic, old(refCounter)))]
        && refCounter == old(refCounter) + 1
        && chatNotifications == old(chatNotifications)
        && socketUrl == old(socketUrl) && playerName == old(playerName) && globalTopic == old(globalTopic)
    {
      if socket != null {
        return;
      }
      var ws := new WebSocket(socketUrl);
      socket := ws;
      ws.SubscribeOnOpen();
      var openFired := ws.ConnectAsync();
      if openFired {
        assert ws.readyState == Open;
        JoinChannel(globalTopic);
      }
    }

    /** The `OnMessage` handler, given what `JsonConvert` made of the frame's data (`None`: it failed). */
    method HandleMessage(e: MessageEventArgs, decoded: Option<PhoenixMessage>)
      modifies this`chatNotifications
      ensures chatNotifications == old(chatNotifications) +
        (match ChatDelivery(e.isText, decoded) case Some(m) => [m] case None => [])
    {
      if !e.isText {
        return;
      }
      if decoded.None? {
        return;
      }
      var msg := decoded.value;
      if msg.event == MessageEvent {
        chatNotifications := chatNotifications + [msg];
      }
      // a `phx_reply` is only logged; any other event is ignored
    }

    /** Closes and releases the socket, so that a later `Connect` opens a new one. */
    method OnDestroy()
      modifies this, socket
      ensures socket == null
      ensures old(socket) != null ==> old(socket).readyState == Closed
      ensures outbox == old(outbox) && refCounter == old(refCounter)
      ensures chatNotifications == old(chatNotifications)
      ensures socketUrl == old(socketUrl) && playerName == old(playerName) && globalTopic == old(globalTopic)
    {
      if socket != null {
        socket.Close();
        socket := null;
      }
    }

    /** Sends a join request for `topic` with the next ref. */
    method JoinChannel(topic: string)
      requires Valid() && socket != null
      modifies this`refCounter, this`outbox
      ensures Valid()
      ensures outbox == old(outbox) + [JoinFrame(JoinRequest(topic, old(refCounter)))]
      ensures refCounter == old(refCounter) + 1
    {
      var join := JoinRequest(topic, refCounter);
      refCounter := refCounter + 1;
      socket.Send(JoinFrame(join));
      outbox := outbox + [JoinFrame(join)];
    }

    /** Sends a chat message with the next ref; dropped, with no ref used, unless the socket is open. */
    method SendChat(toTopic: string, text: string)
      requires Valid()
      modifies this`refCounter, this`outbox
      ensures Valid()
      ensures socket == null || socket.readyState != Open ==> unchanged(this)
      ensures socket != null && socket.readyState == Open ==>
        && outbox == old(outbox) + [ChatFrame(ChatEnvelope(playerName, toTopic, text, old(refCounter)))]
        && refCounter == old(refCounter) + 1
    {
      if socket == null || socket.readyState != Open {
        return;
      }
      var msg := ChatEnvelope(playerName, toTopic, text, refCounter);
      refCounter := refCounter + 1;
      socket.Send(ChatFrame(msg));
      outbox := outbox + [ChatFrame(msg)];
    }
  }
}
