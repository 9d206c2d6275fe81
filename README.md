# MMO client networking core, in Dafny

This project models the networking core of the Unity MMO client in
`MMOClient/Assets/Scripts`. It covers five pieces:

- **Movement datagram encoder** (`UdpMovementSender`). It builds a packet in a
  byte array through an offset cursor: one length byte, the player id's UTF-8
  bytes (at most 255), the opcode `1` as a big-endian 16-bit value, then the
  three components of the movement delta as 4-byte big-endian floats. It sends
  the packet only while the socket is held. Module `UdpMovement`.
- **Remote-player table** (`RemotePlayerManager`). A map from player id to
  position, updated by the `player_joined`, `player_moved` and `player_left`
  events on a `zone:` topic. Module `RemotePlayers`.
- **Channel client** (`PhoenixChatClient`). It holds at most one socket. It
  joins the global topic when the socket opens. Every join and chat envelope
  it sends takes the next value of a counter that starts at 1. It hands inbound
  `message` envelopes to its chat subscribers. Module `PhoenixChat`. The
  envelope records and the decimal rendering of the counter are in module
  `Envelopes`.
- **Transport stub** (`WebSocketSharp.WebSocket`). A ready-state machine:
  `ConnectAsync` moves to `Open` and reports whether `OnOpen` has a handler, `Close` moves to
  `Closed`, and `Send` does nothing. Module `WebSocketSharp`.
- **Chat input routing and history** (`ChatUIManager`). A `/w <name> <text>`
  line becomes a whisper to `chat:whisper:<name>`. Any other non-empty line
  goes to the global topic. Each incoming chat message appends
  `[from] text` and a line break to the history. Module `ChatUI`.

Classes stand for the source's objects whose fields change in place. Their
methods are specified by pure functions (`EncodeMovement`, `Apply`, `Join`,
`Move`, `Leave`, `ChatDelivery`, `RouteInput`, `AppendChat`). Lemmas state
the properties of those functions.

Facts about the code that the model keeps:

- The movement packet starts with the length-prefixed id, not an id hash, so
  it is `1 + n + 2 + 12` bytes for an id of n bytes.
- The reconciler has no snapshot handler: it reacts only to `player_joined`,
  `player_moved` and `player_left`.
- There is no delivery queue: callbacks run inline.
- The client keeps no per-topic membership state.
- `Connect` joins only the one global topic.

## Model

| member | source | states |
|---|---|---|
| `UdpMovement.EncodeMovementFails` | MMOClient/Assets/Scripts/UdpMovementSender.cs:42-44 | Encoding fails exactly when the id's UTF-8 form is longer than 255 bytes. A null id is encoded as the empty id: length byte 0, 15 bytes in all. |
| `UdpMovement.MovementPacketLayout` | MMOClient/Assets/Scripts/UdpMovementSender.cs:46-58 | The packet is exactly `1 + n + 2 + 12` bytes, n being the id length. Byte 0 is the id length, then come the id bytes in order, then `0x00, 0x01`, then the big-endian bytes of x, y and z in that order. |
| `UdpMovement.MovementRoundTrip` | MMOClient/Assets/Scripts/UdpMovementSender.cs:40-74 | Decoding a built packet recovers the id, opcode 1 and the 4 raw bytes of each float. |
| `UdpMovement.DecodeEncode` | MMOClient/Assets/Scripts/UdpMovementSender.cs:46-74 | For every frame whose id fits the length byte, decoding its encoding gives the frame back. |
| `UdpMovement.EncodeDecode` | MMOClient/Assets/Scripts/UdpMovementSender.cs:46-74 | Every byte string the decoder accepts is the encoding of the frame it decodes to, so the layout has no slack. |
| `UdpMovement.ShortRoundTrip` | MMOClient/Assets/Scripts/UdpMovementSender.cs:61-65 | The two bytes `WriteShort` stores for any `short`, negative ones included, read back as that value in two's complement. |
| `UdpMovement.ShortBytesRoundTrip` | MMOClient/Assets/Scripts/UdpMovementSender.cs:61-65 | Every pair of bytes is what `WriteShort` stores for exactly one `short`. |
| `UdpMovement.NetworkOrderOnEveryHost` | MMOClient/Assets/Scripts/UdpMovementSender.cs:67-74 | Reversing `BitConverter`'s bytes on a little-endian host, and keeping them on a big-endian one, yields network order either way. |
| `UdpMovement.UdpMovementSender.constructor` | MMOClient/Assets/Scripts/UdpMovementSender.cs:14-18 | `Awake` creates the socket; nothing has been sent yet. |
| `UdpMovement.UdpMovementSender.OnDestroy` | MMOClient/Assets/Scripts/UdpMovementSender.cs:20-27 | Afterwards there is no socket. |
| `UdpMovement.UdpMovementSender.SendMovement` | MMOClient/Assets/Scripts/UdpMovementSender.cs:30-38 | Without a socket nothing is sent and nothing is thrown. With a socket, either the encoded packet is appended to the sent datagrams, or the over-long-id error is thrown and nothing is sent. |
| `UdpMovement.UdpMovementSender.BuildPacket` | MMOClient/Assets/Scripts/UdpMovementSender.cs:40-59 | The buffer is `1 + n + 14` bytes for an id of n bytes. Its contents after the in-place fill are `EncodeMovement`'s packet, or the method throws exactly when `EncodeMovement` fails. |
| `UdpMovement.UdpMovementSender.WriteShort` | MMOClient/Assets/Scripts/UdpMovementSender.cs:61-65 | Advances the offset by exactly 2 and writes the high byte, then the low byte, into that window only. |
| `UdpMovement.UdpMovementSender.WriteFloat` | MMOClient/Assets/Scripts/UdpMovementSender.cs:67-74 | Advances the offset by exactly 4 and writes the float's big-endian bytes into that window only, whatever the host byte order. |
| `RemotePlayers.IgnoredMessageUnchanged` | MMOClient/Assets/Scripts/RemotePlayerManager.cs:35-52 | A message off the `zone:` topics, or with an event other than the three handled ones, leaves the table unchanged. |
| `RemotePlayers.JoinInserts` | MMOClient/Assets/Scripts/RemotePlayerManager.cs:54-73 | With a prefab, a non-empty id and that id absent, a join adds exactly that id at the payload position and keeps every other entry. Otherwise the table is unchanged. |
| `RemotePlayers.JoinIdempotent` | MMOClient/Assets/Scripts/RemotePlayerManager.cs:62-66 | A repeated join changes nothing. |
| `RemotePlayers.MoveShifts` | MMOClient/Assets/Scripts/RemotePlayerManager.cs:75-86 | A move keeps the key set. It sets a present id's position to the old position plus the delta, and changes no other entry. |
| `RemotePlayers.LeaveRemoves` | MMOClient/Assets/Scripts/RemotePlayerManager.cs:88-99 | A leave removes exactly the named id and keeps the other entries. A repeated leave changes nothing. |
| `RemotePlayers.JoinThenLeave` | MMOClient/Assets/Scripts/RemotePlayerManager.cs:65-98 | Joining an id not yet in the table and then leaving it restores the table. |
| `RemotePlayers.KeysChangeOnlyByJoinAndLeave` | MMOClient/Assets/Scripts/RemotePlayerManager.cs:54-99 | Only a join adds a key, exactly its id. Only a leave removes a key, exactly its id. |
| `RemotePlayers.ApplyAllSplit` | MMOClient/Assets/Scripts/RemotePlayerManager.cs:35-52 | Handling a message sequence in two batches gives the same table as handling it in one. |
| `RemotePlayers.ApplyAllKeys` | MMOClient/Assets/Scripts/RemotePlayerManager.cs:35-99 | After any message sequence, every id in the table was there before or was joined. Every id that was there and never left is still there. |
| `RemotePlayers.RemotePlayerManager.constructor` | MMOClient/Assets/Scripts/RemotePlayerManager.cs:16 | The table starts empty. |
| `RemotePlayers.RemotePlayerManager.OnSocketMessage` | MMOClient/Assets/Scripts/RemotePlayerManager.cs:35-52 | The new table is `Apply` of the old one: topic gate, then dispatch on the event name. |
| `RemotePlayers.RemotePlayerManager.HandlePlayerJoined` | MMOClient/Assets/Scripts/RemotePlayerManager.cs:54-73 | The new table is `Join` of the old one. |
| `RemotePlayers.RemotePlayerManager.HandlePlayerMoved` | MMOClient/Assets/Scripts/RemotePlayerManager.cs:75-86 | The new table is `Move` of the old one. |
| `RemotePlayers.RemotePlayerManager.HandlePlayerLeft` | MMOClient/Assets/Scripts/RemotePlayerManager.cs:88-99 | The new table is `Leave` of the old one. |
| `Envelopes.Decimal` | MMOClient/Assets/Scripts/PhoenixChatClient.cs:111 | The counter's string is non-empty, and has two or more digits exactly when the value is 10 or more. |
| `Envelopes.DecimalInjective` | MMOClient/Assets/Scripts/PhoenixChatClient.cs:111 | Different counter values render as different ref strings. |
| `Envelopes.RefsDistinct` | MMOClient/Assets/Scripts/PhoenixChatClient.cs:105-131 | When the i-th frame sent carries ref i + 1, no two frames carry the same ref. |
| `PhoenixChat.ChatDelivery` | MMOClient/Assets/Scripts/PhoenixChatClient.cs:70-94 | An inbound frame notifies chat subscribers exactly when it is text, parses, and has event `message`. It then delivers that envelope. Non-text frames, parse failures, `phx_reply` and other events notify nobody. |
| `PhoenixChat.PhoenixChatClient.constructor` | MMOClient/Assets/Scripts/PhoenixChatClient.cs:39-46 | No socket, the counter at 1, nothing sent, nobody notified. |
| `PhoenixChat.PhoenixChatClient.Connect` | MMOClient/Assets/Scripts/PhoenixChatClient.cs:53-68 | With a socket held, it changes nothing. Otherwise it opens a fresh socket, which ends up `Open`, and sends one join for the global topic (`phx_join`, empty payload) carrying the current counter value. The counter moves on by one, and the ref invariant is kept. |
| `PhoenixChat.PhoenixChatClient.HandleMessage` | MMOClient/Assets/Scripts/PhoenixChatClient.cs:70-94 | Chat subscribers get exactly the `ChatDelivery` of the frame, at most once. Nothing else changes. |
| `PhoenixChat.PhoenixChatClient.OnDestroy` | MMOClient/Assets/Scripts/PhoenixChatClient.cs:96-103 | A held socket is closed and released. Counter, sent frames and notifications are unchanged, so a later `Connect` opens a new socket. |
| `PhoenixChat.PhoenixChatClient.JoinChannel` | MMOClient/Assets/Scripts/PhoenixChatClient.cs:105-115 | Sends a join envelope for the topic (`phx_join`, empty payload) carrying the current counter value, then advances the counter by one. |
| `PhoenixChat.PhoenixChatClient.SendChat` | MMOClient/Assets/Scripts/PhoenixChatClient.cs:117-131 | Without an `Open` socket nothing is sent and no ref is used. Otherwise one `message` envelope is sent with topic and `to` the target topic, `from` the player name, the text, and the current counter value as ref. The counter advances by one. |
| `WebSocketSharp.MessageEventArgs.constructor` | MMOClient/Assets/Scripts/WebSocketSharpPlaceholder.cs:11-15 | Stores the data and marks the frame as text. |
| `WebSocketSharp.WebSocket.constructor` | MMOClient/Assets/Scripts/WebSocketSharpPlaceholder.cs:33-39 | A new socket is `Closed`, keeps its url, and has no `OnOpen` handler. |
| `WebSocketSharp.WebSocket.SubscribeOnOpen` | MMOClient/Assets/Scripts/WebSocketSharpPlaceholder.cs:29 | After subscribing, `OnOpen` has a handler. |
| `WebSocketSharp.WebSocket.ConnectAsync` | MMOClient/Assets/Scripts/WebSocketSharpPlaceholder.cs:41-45 | The state becomes `Open`, and the result says whether an `OnOpen` handler is subscribed, so that the caller runs it after the state change. |
| `WebSocketSharp.WebSocket.Send` | MMOClient/Assets/Scripts/WebSocketSharpPlaceholder.cs:47-50 | Changes no state. |
| `WebSocketSharp.WebSocket.Close` | MMOClient/Assets/Scripts/WebSocketSharpPlaceholder.cs:52-55 | The state becomes `Closed`, from any state. |
| `ChatUI.SplitJoin` | MMOClient/Assets/Scripts/ChatUIManager.cs:48 | Joining the pieces of `Split(s, c, n)` with `c` gives back `s`. Only the last piece may contain `c`. |
| `ChatUI.RouteInput` | MMOClient/Assets/Scripts/ChatUIManager.cs:38-56 | There is no send exactly when the input is empty. |
| `ChatUI.WhisperSplit` | MMOClient/Assets/Scripts/ChatUIManager.cs:46-53 | For a line `/w rest`, the 3-way split has three parts exactly when `rest` contains a space. The parts are `/w`, the text before that first space, and everything after it. |
| `ChatUI.RouteGlobal` | MMOClient/Assets/Scripts/ChatUIManager.cs:43-56 | A non-empty line that is not a whisper goes unchanged to the global topic. That includes a `/w ` line with fewer than three parts. |
| `ChatUI.RouteWhisper` | MMOClient/Assets/Scripts/ChatUIManager.cs:46-53 | A whisper line goes to `chat:whisper:` plus the name. The message is everything after the first space following the name, spaces kept. |
| `ChatUI.WhisperParts` | MMOClient/Assets/Scripts/ChatUIManager.cs:46-53 | `/w ` + name + space + text of a whisper line is the line itself, and the name contains no space. |
| `ChatUI.WhisperRoundTrip` | MMOClient/Assets/Scripts/ChatUIManager.cs:46-53 | Typing `/w <name> <text>`, with a space-free name, routes to `chat:whisper:<name>` with exactly `<text>`. |
| `ChatUI.AppendAllIsConcat` | MMOClient/Assets/Scripts/ChatUIManager.cs:61-67 | After a series of incoming messages, the history is the old history followed by one `[from] text` line per message with a payload, in order. Null payloads add nothing. |
| `ChatUI.HistoryLineIsOneLine` | MMOClient/Assets/Scripts/ChatUIManager.cs:66-67 | A message whose sender and text hold no line break adds exactly one line break, at the end. |
| `ChatUI.ChatUIManager.SendFromInput` | MMOClient/Assets/Scripts/ChatUIManager.cs:38-59 | Empty input sends nothing and stays as it is. Otherwise the client's `SendChat` runs with `RouteInput`'s topic and message (the client's global topic being the default) and the client's own player name as sender, and the input is cleared. The client's socket, name, topic, url and notifications are left as they were. |
| `ChatUI.ChatUIManager.OnChatMessage` | MMOClient/Assets/Scripts/ChatUIManager.cs:61-70 | A null payload leaves the history unchanged. Otherwise the history gains exactly `[from] text` and a line break. |

## Left out

- JSON (`JsonUtility`, `JsonConvert`): envelopes and payloads are datatypes. `HandleMessage` receives what the JSON library made of a frame as a parameter; `None` stands for a parse failure or a null result.
- Library conversions (`Encoding.UTF8`, `BitConverter.GetBytes`): the player id is given by its UTF-8 bytes, and a float by its four IEEE-754 bytes.
- Sockets (`Socket.SendTo`, the WebSocket transport): sends are appended to an outbox field, and the network itself is not modelled.
- Float arithmetic: positions and deltas in the remote-player table are real triples, so float rounding in `position += delta` is not modelled.
- Logging (`Debug.Log`, `Debug.LogError`): left out. This covers the `phx_reply` log line, the `OnError` and `OnClose` handlers, and `ErrorEventArgs`, which only carries a log message.
- `RemotePlayerManager.Start`/`OnDestroy` and `ChatUIManager.Start`/`OnDestroy`: they subscribe and unsubscribe handlers and copy the player name into the client. `PhoenixChatClient.Start` only connects on start, which `PhoenixChatClient.Connect` models.
- Wiring that does not type-check: `RemotePlayerManager.Start` subscribes to `chatClient.OnMessage`, which the client does not declare, and calls the private `JoinChannel`. The reconciler is therefore modelled as a handler that receives a zone message directly.
- Zone payload type: in the source, `PhoenixMessage.payload` is typed `ChatPayload`, so a zone payload re-serialised from it would carry no `id`. The model gives zone payloads their own record with `id`, `position` and `delta`.
- `OnOpen` as an event: `WebSocket.ConnectAsync` only reports whether a handler is subscribed, and the client runs that handler (its `JoinChannel` on the global topic) after `ConnectAsync` returns.
- The transport stub never raises `OnMessage`, so `HandleMessage` is called directly with the frame.
- Unity object lifecycle: creating and destroying GameObjects, `Canvas.ForceUpdateCanvases`, the scroll position, `ActivateInputField` and the Return-key check in `OnEndEdit` are outside the model.
- Null references: a null topic, which makes `OnSocketMessage` throw `NullReferenceException` at its `StartsWith` call, is not modelled. A null event throws nowhere: every test on it is a null-safe string `==`, so it behaves as an event name matching none of the handled ones, which the model covers with any such string. A null chat `from`/`text` is modelled as the empty string, which is how string interpolation renders it. A null input text is modelled as the empty string, which `IsNullOrEmpty` treats the same way.
- `string.StartsWith` uses the current culture; the model compares the ASCII prefixes `zone:` and `/w ` ordinally.
- PhoenixChat.PhoenixChatClient.JoinChannel: the counter is an unbounded integer. The source's 32-bit `int` would wrap after 2^31 - 1 envelopes; the model does not capture that.
- PhoenixChat.PhoenixChatClient.SendChat: same unbounded counter as `JoinChannel`.
- Per-frame movement input, camera, presentation scripts, scene stubs and editor tooling are outside the networking core.
