/**
  The movement datagram encoder of `UdpMovementSender`.

  A movement packet is laid out as
    [id length: 1 byte][id: that many bytes][opcode: 2 bytes, big-endian][dx][dy][dz]
  where each of dx, dy, dz is a 32-bit float written as its 4 bytes, most
  significant first. The id is the UTF-8 encoding of the player id; ids longer
  than 255 bytes are refused before anything is sent.
*/
module UdpMovement {
  import opened Common

  /** A C# `short`. */
  type short = v: int | -32768 <= v < 32768

  /** The opcode `BuildPacket` writes for a movement update. */
  const MovementOpcode: short := 1

  /** The largest id length the one-byte length prefix can carry. */
  const MaxIdLength := 255

  /**
    A 32-bit float kept as its four IEEE-754 bytes, most significant first
    (`b3` holds the sign and the high exponent bits). Float arithmetic is not
    modelled: the encoder only moves these bytes around.
  */
  datatype Float32 = Float32(b3: byte, b2: byte, b1: byte, b0: byte)

  /** Unity's `Vector3`, as three opaque floats. */
  datatype Vector3 = Vector3(x: Float32, y: Float32, z: Float32)

  /** The `InvalidOperationException` `BuildPacket` throws. */
  datatype EncodeError = PlayerIdTooLong

  /** The fields a movement packet carries. */
  datatype MovementFrame = MovementFrame(playerId: seq<byte>, opcode: short, delta: Vector3)

  /** The bytes `BitConverter.GetBytes(f)` yields on a machine of the given byte order. */
  function HostBytes(f: Float32, littleEndian: bool): seq<byte>
  {
    if littleEndian then [f.b0, f.b1, f.b2, f.b3] else [f.b3, f.b2, f.b1, f.b0]
  }

  /** `Array.Reverse`, on a sequence. */
  function Reverse(s: seq<byte>): seq<byte>
  {
    seq(|s|, i requires 0 <= i < |s| => s[|s| - 1 - i])
  }

  /** The four bytes of `f` in network (big-endian) order. */
  function FloatBytes(f: Float32): seq<byte>
  {
    [f.b3, f.b2, f.b1, f.b0]
  }

  /**
    The two bytes `WriteShort` stores: `(v >> 8) & 0xFF`, then `v & 0xFF`.
    Dafny's `/` and `%` are Euclidean, so for a positive divisor `v / 256` is
    the arithmetic shift `v >> 8` and `x % 256` is `x & 0xFF`, negative `v`
    included.
  */
  function ShortBytes(v: short): seq<byte>
  {
    [(v / 256) % 256, v % 256]
  }

  /** Reads a big-endian two's-complement `short` back from its two bytes. */
  function ShortFromBytes(hi: byte, lo: byte): short
  {
    var u := hi * 256 + lo;
    if u >= 32768 then u - 65536 else u
  }

  lemma ShortRoundTrip(v: short)
    ensures |ShortBytes(v)| == 2
    ensures ShortFromBytes(ShortBytes(v)[0], ShortBytes(v)[1]) == v
  {
    if v < 0 {
      assert (v / 256) % 256 == v / 256 + 256;
    }
  }

  lemma ShortBytesRoundTrip(hi: byte, lo: byte)
    ensures ShortBytes(ShortFromBytes(hi, lo)) == [hi, lo]
  {
    var v := ShortFromBytes(hi, lo);
    if hi >= 128 {
      assert v == (hi - 256) * 256 + lo;
      assert v / 256 == hi - 256;
    } else {
      assert v / 256 == hi;
    }
  }

  /** `Encoding.UTF8.GetBytes(playerId ?? string.Empty)`, the id given by its UTF-8 bytes. */
  function IdBytes(playerId: Option<seq<byte>>): seq<byte>
  {
    if playerId.None? then [] else playerId.value
  }

  /** The bytes of a frame laid out as `BuildPacket` lays them out. */
  function EncodeFrame(f: MovementFrame): (p: seq<byte>)
    requires |f.playerId| <= MaxIdLength
  {
    [|f.playerId|] + f.playerId + ShortBytes(f.opcode)
      + FloatBytes(f.delta.x) + FloatBytes(f.delta.y) + FloatBytes(f.delta.z)
  }

  /** The float stored big-endian at `p[i..i + 4]`. */
  function FloatAt(p: seq<byte>, i: nat): Float32
    requires i + 4 <= |p|
  {
    Float32(p[i], p[i + 1], p[i + 2], p[i + 3])
  }

  /** The receiver's reading of a packet: length byte, id, opcode, three floats, nothing after. */
  function DecodeFrame(p: seq<byte>): Option<MovementFrame>
  {
    if |p| == 0 || |p| != 1 + p[0] as int + 2 + 12 then None
    else
      var n: int := p[0];
      Some(MovementFrame(p[1..1 + n], ShortFromBytes(p[1 + n], p[2 + n]),
                         Vector3(FloatAt(p, 3 + n), FloatAt(p, 7 + n), FloatAt(p, 11 + n))))
  }

  /** What `BuildPacket` returns, or the exception it throws, for a player id and a delta. */
  function EncodeMovement(playerId: Option<seq<byte>>, delta: Vector3): Result<seq<byte>, EncodeError>
  {
    var id := IdBytes(playerId);
    if |id| > MaxIdLength then Err(PlayerIdTooLong)
    else Ok(EncodeFrame(MovementFrame(id, MovementOpcode, delta)))
  }

  /** Reversing the host bytes on a little-endian machine yields network order on every machine. */
  lemma NetworkOrderOnEveryHost(f: Float32, littleEndian: bool)
    ensures (if littleEndian then Reverse(HostBytes(f, littleEndian)) else HostBytes(f, littleEndian))
            == FloatBytes(f)
  {
  }

  lemma {:induction false} DecodeEncode(f: MovementFrame)
    requires |f.playerId| <= MaxIdLength
    ensures DecodeFrame(EncodeFrame(f)) == Some(f)
  {
    var p := EncodeFrame(f);
    var n := |f.playerId|;
    assert p[0] == n;
    assert p[1..1 + n] == f.playerId;
    ShortRoundTrip(f.opcode);
    assert p[1 + n] == ShortBytes(f.opcode)[0] && p[2 + n] == ShortBytes(f.opcode)[1];
    assert FloatAt(p, 3 + n) == f.delta.x;
    assert FloatAt(p, 7 + n) == f.delta.y;
    assert FloatAt(p, 11 + n) == f.delta.z;
  }

  lemma {:induction false} EncodeDecode(p: seq<byte>)
    requires DecodeFrame(p).Some?
    ensures |DecodeFrame(p).value.playerId| <= MaxIdLength
    ensures EncodeFrame(DecodeFrame(p).value) == p
  {
    var f := DecodeFrame(p).value;
    var n: int := p[0];
    ShortBytesRoundTrip(p[1 + n], p[2 + n]);
    var q := EncodeFrame(f);
    assert |q| == |p|;
    forall i | 0 <= i < |p| ensures q[i] == p[i] {
      if i == 0 {
      } else if i < 1 + n {
        assert q[i] == f.playerId[i - 1];
      } else if i < 3 + n {
        assert q[i] == ShortBytes(f.opcode)[i - 1 - n];
      }
    }
  }

  /** The exact layout of an encoded movement packet. */
  lemma MovementPacketLayout(playerId: Option<seq<byte>>, delta: Vector3)
    requires EncodeMovement(playerId, delta).Ok?
    ensures var p, id := EncodeMovement(playerId, delta).value, IdBytes(playerId);
      && |p| == 1 + |id| + 2 + 4 * 3
      && p[0] == |id|
      && p[1..1 + |id|] == id
      && p[1 + |id|..3 + |id|] == [0x00, 0x01]
      && p[3 + |id|..7 + |id|] == FloatBytes(delta.x)
      && p[7 + |id|..11 + |id|] == FloatBytes(delta.y)
      && p[11 + |id|..] == FloatBytes(delta.z)
  {
    var id := IdBytes(playerId);
    var n := |id|;
    var head := [n as byte] + id;
    var tail := ShortBytes(MovementOpcode) + FloatBytes(delta.x) + FloatBytes(delta.y) + FloatBytes(delta.z);
    var p := head + tail;
    assert EncodeMovement(playerId, delta).value == p;
    assert p[1..1 + n] == head[1..];
    assert p[1 + n..] == tail;
    assert ShortBytes(MovementOpcode) == [0x00, 0x01];
    assert tail[..2] == [0x00, 0x01];
    assert p[1 + n..3 + n] == tail[..2];
    assert p[3 + n..7 + n] == tail[2..6] == FloatBytes(delta.x);
    assert p[7 + n..11 + n] == tail[6..10] == FloatBytes(delta.y);
    assert p[11 + n..] == tail[10..] == FloatBytes(delta.z);
  }

  /** An id longer than 255 bytes is refused; every shorter id, and the null id, is encoded. */
  lemma EncodeMovementFails(playerId: Option<seq<byte>>, delta: Vector3)
    ensures EncodeMovement(playerId, delta).Err? <==> |IdBytes(playerId)| > MaxIdLength
    ensures playerId.None? ==>
              && EncodeMovement(playerId, delta).Ok?
              && EncodeMovement(playerId, delta).value[0] == 0
              && |EncodeMovement(playerId, delta).value| == 15
  {
  }

  /** The receiver recovers the id, opcode 1 and the three floats from every packet the sender builds. */
  lemma MovementRoundTrip(playerId: Option<seq<byte>>, delta: Vector3)
    requires EncodeMovement(playerId, delta).Ok?
    ensures DecodeFrame(EncodeMovement(playerId, delta).value)
            == Some(MovementFrame(IdBytes(playerId), MovementOpcode, delta))
  {
    DecodeEncode(MovementFrame(IdBytes(playerId), MovementOpcode, delta));
  }

  /** The sending half of `UdpMovementSender`: its id, its socket and the datagrams it has sent. */
  class UdpMovementSender {
    /** The configured player id as UTF-8 bytes; `None` stands for null. */
    var playerId: Option<seq<byte>>
    /** Whether `socket` is non-null. */
    var socketOpen: bool
    /** `BitConverter.IsLittleEndian` on the running machine. */
    const littleEndian: bool
    /** The packets handed to `socket.SendTo`, oldest first. */
    var outbox: seq<seq<byte>>

    /** `Awake`: the datagram socket is created. */
    constructor (playerId: Option<seq<byte>>, littleEndian: bool)
      ensures this.playerId == playerId && this.littleEndian == littleEndian
      ensures socketOpen && outbox == []
    {
      this.playerId := playerId;
      this.littleEndian := littleEndian;
      socketOpen := true;
      outbox := [];
    }

    /** Closes and forgets the socket; afterwards nothing more is sent. */
    method OnDestroy()
      modifies this`socketOpen
      ensures !socketOpen
    {
      if socketOpen {
        socketOpen := false;
      }
    }

    /**
      Sends one movement packet. Does nothing without a socket; an over-long id
      throws (returned here) before anything is sent.
    */
    method SendMovement(delta: Vector3) returns (thrown: Option<EncodeError>)
      modifies this`outbox
      ensures !socketOpen ==> thrown.None? && outbox == old(outbox)
      ensures socketOpen ==> match EncodeMovement(playerId, delta)
                             case Ok(p) => thrown.None? && outbox == old(outbox) + [p]
                             case Err(e) => thrown == Some(e) && outbox == old(outbox)
    {
      if !socketOpen {
        return None;
      }
      var packet := BuildPacket(delta);
      if packet.Err? {
        return Some(packet.error);
      }
      outbox := outbox + [packet.value[..]];
      thrown := None;
    }

    /** Allocates the packet buffer and fills it in place through the `offset` cursor. */
    method BuildPacket(delta: Vector3) returns (r: Result<array<byte>, EncodeError>)
      ensures r.Ok? ==> r.value.Length == 1 + |IdBytes(playerId)| + 2 + 4 * 3
      ensures EncodeMovement(playerId, delta) == if r.Ok? then Ok(r.value[..]) else Err(r.error)
    {
      var idBytes := IdBytes(playerId);
      if |idBytes| > MaxIdLength {
        return Err(PlayerIdTooLong);
      }
      var buffer := new byte[1 + |idBytes| + 2 + 4 * 3];
      var offset := 0;

      buffer[offset] := |idBytes|;
      offset := offset + 1;
      // copy the id bytes after the length byte (the source's `Array.Copy`)
      var i := 0;
      while i < |idBytes|
        invariant 0 <= i <= |idBytes|
        invariant buffer[..1 + i] == [|idBytes|] + idBytes[..i]
      {
        buffer[offset + i] := idBytes[i];
        i := i + 1;
      }
      offset := offset + |idBytes|;
      assert buffer[..offset] == [|idBytes|] + idBytes;

      offset := WriteShort(buffer, offset, MovementOpcode);
      offset := WriteFloat(buffer, offset, delta.x);
      offset := WriteFloat(buffer, offset, delta.y);
      offset := WriteFloat(buffer, offset, delta.z);

      assert offset == buffer.Length;
      assert buffer[..] == buffer[..offset];
      return Ok(buffer);
    }

    /** Writes `value` high byte first at `offset` and advances the cursor by 2. */
    method WriteShort(buffer: array<byte>, offset: int, value: short) returns (next: int)
      requires 0 <= offset && offset + 2 <= buffer.Length
      modifies buffer
      ensures next == offset + 2
      ensures buffer[..next] == old(buffer[..offset]) + ShortBytes(value)
      ensures buffer[next..] == old(buffer[next..])
    {
      next := offset;
      buffer[next] := (value / 256) % 256;
      next := next + 1;
      buffer[next] := value % 256;
      next := next + 1;
    }

    /**
      Writes the four bytes of `value` in network order at `offset` and
      advances the cursor by 4: the host bytes, reversed on a little-endian
      machine, copied into the buffer.
    */
    method WriteFloat(buffer: array<byte>, offset: int, value: Float32) returns (next: int)
      requires 0 <= offset && offset + 4 <= buffer.Length
      modifies buffer
      ensures next == offset + 4
      ensures buffer[..next] == old(buffer[..offset]) + FloatBytes(value)
      ensures buffer[next..] == old(buffer[next..])
    {
      var bytes := HostBytes(value, littleEndian);
      if littleEndian {
        bytes := Reverse(bytes);
      }
      // copy the four bytes into the window at the cursor (the source's `Array.Copy`)
      var i := 0;
      while i < 4
        invariant 0 <= i <= 4
        invariant buffer[..offset + i] == old(buffer[..offset]) + bytes[..i]
        invariant buffer[offset + 4..] == old(buffer[offset + 4..])
      {
        buffer[offset + i] := bytes[i];
        i := i + 1;
      }
      next := offset + 4;
      assert bytes == FloatBytes(value);
    }
  }
}
