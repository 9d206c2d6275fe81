/**
  The placeholder WebSocket transport the channel client runs against: a
  four-state ready-state machine whose `Send` does nothing.
*/
module WebSocketSharp {
  import opened Envelopes

  datatype WebSocketState = Connecting | Open | Closing | Closed

  /** An inbound frame; the constructor marks it as text. */
  class MessageEventArgs {
    var isText: bool
    var data: string

    constructor (data: string)
      ensures this.data == data && isText
    {
      this.data := data;
      isText := true;
    }
  }

  class WebSocket {
    var readyState: WebSocketState
    const url: string
    /** Whether a handler is subscribed to `OnOpen`. */
    var hasOpenHandler: bool

    constructor (url: string)
      ensures readyState == Closed && this.url == url && !hasOpenHandler
    {
      readyState := Closed;
      this.url := url;
      hasOpenHandler := false;
    }

    /** `OnOpen += handler`. */
    method SubscribeOnOpen()
      modifies this`hasOpenHandler
      ensures hasOpenHandler
    {
      hasOpenHandler := true;
    }

    /**
      Moves to `Open` and reports in `openFired` whether an `OnOpen` handler
      is subscribed. The handler itself is not run here: the caller runs it
      when `openFired` holds, after the state change, so it observes `Open`.
    */
    method ConnectAsync() returns (openFired: bool)
      modifies this`readyState
      ensures readyState == Open
      ensures openFired == hasOpenHandler
    {
      readyState := Open;
      openFired := hasOpenHandler;
    }

    /** Transmits nothing and changes nothing. */
    method Send(frame: OutFrame)
      ensures unchanged(this)
    {
    }

    /** Moves to `Closed` from any state. */
    method Close()
      modifies this`readyState
      ensures readyState == Closed
    {
      readyState := Closed;
    }
  }
}
