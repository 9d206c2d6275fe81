/**
  The Phoenix Channels envelopes of `PhoenixChatClient`, as values rather
  than JSON text, and the decimal rendering of the `ref` counter.
*/
module Envelopes {
  import opened Common

  /** The body of a chat message; a null field is rendered as "". */
  datatype ChatPayload = ChatPayload(from: string, to: string, text: string)

  /** A channel envelope (`topic`, `event`, `payload`, `ref`, `join_ref`); null fields are `None`. */
  datatype PhoenixMessage = PhoenixMessage(
    topic: string,
    event: string,
    payload: Option<ChatPayload>,
    ref: Option<string>,
    joinRef: Option<string>)

  /** The `{}` payload of a join request. */
  datatype EmptyPayload = EmptyPayload

  /** A join request. */
  datatype JoinMessage = JoinMessage(topic: string, event: string, payload: EmptyPayload, ref: string)

  /** What the client hands to the socket's `Send`. */
  datatype OutFrame = JoinFrame(join: JoinMessage) | ChatFrame(chat: PhoenixMessage)

  const PhxJoin := "phx_join"
  const MessageEvent := "message"

  /** The character of a decimal digit. */
  function DigitChar(d: nat): (c: char)
    requires d < 10
  {
    "0123456789"[d]
  }

  /** `int.ToString()` of a non-negative counter: its decimal digits, no leading zeros. */
  function Decimal(n: nat): (s: string)
    ensures |s| >= 1
    ensures n >= 10 <==> |s| >= 2
  {
    if n < 10 then [DigitChar(n)] else Decimal(n / 10) + [DigitChar(n % 10)]
  }

  /** Distinct counter values render as distinct strings. */
  lemma {:induction false} DecimalInjective(a: nat, b: nat)
    requires Decimal(a) == Decimal(b)
    ensures a == b
  {
    if a >= 10 && b >= 10 {
      var sa, sb := Decimal(a), Decimal(b);
      assert sa[|sa| - 1] == sb[|sb| - 1];
      assert sa[..|sa| - 1] == Decimal(a / 10);
      assert sb[..|sb| - 1] == Decimal(b / 10);
      DecimalInjective(a / 10, b / 10);
    }
  }

  /** The ref carried by an outbound frame. */
  function FrameRef(f: OutFrame): Option<string>
  {
    match f
    case JoinFrame(j) => Some(j.ref)
    case ChatFrame(m) => m.ref
  }

  /** The i-th frame sent carries ref i + 1, the value of the counter at the time. */
  predicate RefsSequential(frames: seq<OutFrame>)
  {
    forall i :: 0 <= i < |frames| ==> FrameRef(frames[i]) == Some(Decimal(i + 1))
  }

  /** Refs issued one per frame from 1 upwards never repeat. */
  lemma RefsDistinct(frames: seq<OutFrame>)
    requires RefsSequential(frames)
    ensures forall i, j :: 0 <= i < j < |frames| ==> FrameRef(frames[i]) != FrameRef(frames[j])
  {
    forall i, j | 0 <= i < j < |frames|
      ensures FrameRef(frames[i]) != FrameRef(frames[j])
    {
      if FrameRef(frames[i]) == FrameRef(frames[j]) {
        DecimalInjective(i + 1, j + 1);
      }
    }
  }
}
