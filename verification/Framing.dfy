/** The login server's wire format, and how a connection cuts the received bytes into frames whatever the reads. */
module Framing {
  import opened Bits
  import opened Cipher
  import opened Wrappers

  const U32 := 0x1_0000_0000

  // ---- Little-endian words ------------------------------------------------------------------------------------

  function ByteOf(n: nat): Byte {
    BitsOf(n, 8)
  }

  lemma ByteRoundTrip(n: nat)
    requires n < 256
    ensures NumberOf(ByteOf(n)) == n
  {
    assert Pow2(8) == 256;
    NumberOfBits(n, 8);
  }

  function Word32(n: nat): (bytes: seq<Byte>)
    ensures |bytes| == 4
  {
    [ByteOf(n % 256), ByteOf(n / 256 % 256), ByteOf(n / 256 / 256 % 256), ByteOf(n / 256 / 256 / 256 % 256)]
  }

  function Value32(bytes: seq<Byte>): nat
    requires |bytes| >= 4
  {
    NumberOf(bytes[0]) + 256 * NumberOf(bytes[1]) + 65536 * NumberOf(bytes[2]) + 16777216 * NumberOf(bytes[3])
  }

  lemma WordRoundTrip(n: nat, rest: seq<Byte>)
    requires n < U32
    ensures Value32(Word32(n) + rest) == n
  {
    hide ByteOf, NumberOf;
    var q1 := n / 256;
    var q2 := q1 / 256;
    var q3 := q2 / 256;
    assert q3 < 256;
    ByteRoundTrip(n % 256);
    ByteRoundTrip(q1 % 256);
    ByteRoundTrip(q2 % 256);
    ByteRoundTrip(q3 % 256);
  }

  // ---- Packets ------------------------------------------------------------------------------------------------

  type Code = c: int | 0 <= c < 0x1_0000_0000

  datatype Packet = Packet(code: Code, payload: seq<Byte>)

  /** The total length fits its four bytes. */
  predicate Fits(p: Packet) {
    |p.payload| + 8 < U32
  }

  /** Repeating-key exclusive or; an empty key leaves the bytes as they are. */
  function Masked(bytes: seq<Byte>, key: seq<Byte>): (out: seq<Byte>)
    ensures |out| == |bytes|
  {
    if key == [] then bytes else seq(|bytes|, i requires 0 <= i < |bytes| => MaskByte(bytes[i], key[i % |key|]))
  }

  function MaskByte(a: Byte, b: Byte): Byte {
    Xor(a, b)
  }

  lemma MaskedTwice(bytes: seq<Byte>, key: seq<Byte>)
    ensures Masked(Masked(bytes, key), key) == bytes
  {
    forall i | 0 <= i < |bytes| ensures Masked(Masked(bytes, key), key)[i] == bytes[i] {
      if key != [] {
        XorTwice(bytes[i], key[i % |key|]);
      }
    }
  }

  method MaskInPlace(body: array<Byte>, key: seq<Byte>)
    modifies body
    ensures body[..] == Masked(old(body[..]), key)
  {
    if key != [] {
      for i := 0 to body.Length
        invariant forall k | 0 <= k < i :: body[k] == MaskByte(old(body[k]), key[k % |key|])
        invariant forall k | i <= k < body.Length :: body[k] == old(body[k])
      {
        body[i] := MaskByte(body[i], key[i % |key|]);
      }
    }
  }

  function Serialized(p: Packet, key: seq<Byte>): (frame: seq<Byte>)
    ensures |frame| == |p.payload| + 8
  {
    Word32(|p.payload| + 8) + Masked(Word32(p.code) + p.payload, key)
  }

  lemma LengthsWrap(n: nat)
    ensures var body := (4 + n) % U32;
            var total := (4 + body) % U32;
            if n + 8 < U32 then body == 4 + n && total == 8 + n else body < 4 + n || total < 4 + body
  {
  }

  /** The two lengths are 32-bit sums; where one of them wraps a copy would run past its buffer, which is None here. */
  method Serialize(p: Packet, key: seq<Byte>) returns (frame: Option<seq<Byte>>)
    ensures frame == if Fits(p) then Some(Serialized(p, key)) else None
  {
    hide Masked, ByteOf;
    var bodyLength := (4 + |p.payload|) % U32;
    var totalLength := (4 + bodyLength) % U32;
    LengthsWrap(|p.payload|);
    if bodyLength < 4 + |p.payload| || totalLength < 4 + bodyLength {
      return None;
    }
    var body := new Byte[bodyLength](i requires 0 <= i < bodyLength =>
                                       if i < 4 then Word32(p.code)[i] else p.payload[i - 4]);
    assert body[..] == Word32(p.code) + p.payload;
    MaskInPlace(body, key);
    frame := Some(Word32(totalLength) + body[..]);
  }

  /** A refused frame is shorter than it says; one that says less than eight would be read out of bounds. */
  datatype Reading = Refused | OutOfBounds | Read(packet: Packet)

  function Deserialized(raw: seq<Byte>, key: seq<Byte>): Reading {
    if |raw| < 4 || |raw| < Value32(raw) then Refused
    else if Value32(raw) < 8 then OutOfBounds
    else
      var body := Masked(raw[4..Value32(raw)], key);
      ValueIsCode(body);
      Read(Packet(Value32(body), body[4..]))
  }

  lemma ValueIsCode(bytes: seq<Byte>)
    requires |bytes| >= 4
    ensures 0 <= Value32(bytes) < U32
  {
    ByteIsSmall(bytes[0]);
    ByteIsSmall(bytes[1]);
    ByteIsSmall(bytes[2]);
    ByteIsSmall(bytes[3]);
  }

  lemma ByteIsSmall(b: Byte)
    ensures NumberOf(b) < 256
  {
    BitsOfNumber(b);
    assert Pow2(8) == 256;
  }

  method Deserialize(raw: seq<Byte>, key: seq<Byte>) returns (r: Reading)
    ensures r == Deserialized(raw, key)
  {
    if |raw| < 4 || |raw| < Value32(raw) {
      return Refused;
    }
    var bodyLength := Value32(raw) - 4;
    if bodyLength < 4 {
      return OutOfBounds;
    }
    var body := new Byte[bodyLength](i requires 0 <= i < bodyLength => raw[4 + i]);
    assert body[..] == raw[4..Value32(raw)];
    MaskInPlace(body, key);
    ValueIsCode(body[..]);
    assert body[..4] + body[4..] == body[..];
    ValueOfPrefix(body[..4], body[4..]);
    r := Read(Packet(Value32(body[..4]), body[4..]));
    assert body[..][4..] == body[4..];
  }

  lemma PacketRoundTrip(p: Packet, key: seq<Byte>, after: seq<Byte>)
    requires Fits(p)
    ensures Value32(Serialized(p, key) + after) == |Serialized(p, key)| >= 8
    ensures Value32(Serialized(p, key)) == |Serialized(p, key)|
    ensures Deserialized(Serialized(p, key), key) == Read(p)
  {
    hide Word32, Value32;
    var plain := Word32(p.code) + p.payload;
    var total := |p.payload| + 8;
    var raw := Serialized(p, key);
    WordRoundTrip(total, Masked(plain, key) + after);
    assert raw + after == Word32(total) + (Masked(plain, key) + after);
    WordRoundTrip(total, Masked(plain, key));
    assert raw[4..total] == Masked(plain, key);
    MaskedTwice(plain, key);
    WordRoundTrip(p.code, p.payload);
  }

  /** Every frame, byte by byte: its length in four bytes, the lowest first and in the clear; then, under the key
      from its start, the code in four bytes, the lowest first, and the payload. */
  lemma FrameLayout(p: Packet, key: seq<Byte>)
    requires Fits(p)
    ensures var frame, total := Serialized(p, key), |p.payload| + 8;
            NumberOf(frame[0]) == total % 256 && NumberOf(frame[1]) == total / 256 % 256
            && NumberOf(frame[2]) == total / 65536 % 256 && NumberOf(frame[3]) == total / 16777216
    ensures var frame := Serialized(p, key);
            NumberOf(Clear(frame, key, 4)) == p.code % 256 && NumberOf(Clear(frame, key, 5)) == p.code / 256 % 256
            && NumberOf(Clear(frame, key, 6)) == p.code / 65536 % 256
               && NumberOf(Clear(frame, key, 7)) == p.code / 16777216
    ensures forall i | 0 <= i < |p.payload| :: Clear(Serialized(p, key), key, 8 + i) == p.payload[i]
  {
    hide ByteOf, NumberOf, MaskByte;
    var body := Word32(p.code) + p.payload;
    forall i | 0 <= i < |body| ensures Clear(Serialized(p, key), key, 4 + i) == body[i] {
      ClearAt(p, key, i);
    }
    WordBytes(|p.payload| + 8);
    WordBytes(p.code);
  }

  /** A byte of a frame's body without the key. */
  function Clear(frame: seq<Byte>, key: seq<Byte>, i: nat): Byte
    requires 4 <= i < |frame|
  {
    if key == [] then frame[i] else Xor(frame[i], key[(i - 4) % |key|])
  }

  lemma ClearAt(p: Packet, key: seq<Byte>, i: nat)
    requires i < 4 + |p.payload|
    ensures Clear(Serialized(p, key), key, 4 + i) == (Word32(p.code) + p.payload)[i]
  {
    hide ByteOf;
    if key != [] {
      XorTwice((Word32(p.code) + p.payload)[i], key[i % |key|]);
    }
  }

  lemma WordBytes(n: nat)
    requires n < U32
    ensures var bytes := Word32(n);
            NumberOf(bytes[0]) == n % 256 && NumberOf(bytes[1]) == n / 256 % 256
            && NumberOf(bytes[2]) == n / 65536 % 256 && NumberOf(bytes[3]) == n / 16777216
  {
    hide ByteOf, NumberOf;
    assert n / 256 / 256 == n / 65536 && n / 65536 / 256 == n / 16777216 < 256;
    ByteRoundTrip(n % 256);
    ByteRoundTrip(n / 256 % 256);
    ByteRoundTrip(n / 256 / 256 % 256);
    ByteRoundTrip(n / 256 / 256 / 256 % 256);
  }

  // ---- Frames ---------------------------------------------------------------------------------------------------

  datatype Drained = Drained(frames: seq<seq<Byte>>, rest: seq<Byte>)

  /** The frames a buffer holds in full and what is left; a length prefix under eight throws the rest away. */
  function Drain(buffer: seq<Byte>): Drained
    decreases |buffer|
  {
    if |buffer| < 4 then Drained([], buffer)
    else
      var length := Value32(buffer);
      if length < 8 then Drained([], [])
      else if |buffer| < length then Drained([], buffer)
      else
        var more := Drain(buffer[length..]);
        Drained([buffer[..length]] + more.frames, more.rest)
  }

  /** Whatever the bytes, every frame cut off them is read: none is refused and none is read out of bounds. */
  lemma {:induction false} FramesAreRead(buffer: seq<Byte>, key: seq<Byte>)
    ensures forall f | f in Drain(buffer).frames :: Deserialized(f, key).Read?
    decreases |buffer|
  {
    if |buffer| >= 4 && 8 <= Value32(buffer) <= |buffer| {
      var length := Value32(buffer);
      var frame, rest := buffer[..length], buffer[length..];
      assert buffer == frame + rest;
      ValueOfPrefix(frame, rest);
      hide Value32;
      FramesAreRead(rest, key);
    }
  }

  class Connection {
    var recvBuffer: seq<Byte>
    var received: seq<seq<Byte>>

    constructor ()
      ensures recvBuffer == [] && received == []
    {
      recvBuffer, received := [], [];
    }

    /** Every pass takes at least eight bytes off the buffer. */
    method DrainFrames()
      modifies this
      ensures var d := Drain(old(recvBuffer)); recvBuffer == d.rest && received == old(received) + d.frames
    {
      while |recvBuffer| >= 4
        invariant Drain(old(recvBuffer)).rest == Drain(recvBuffer).rest
        invariant old(received) + Drain(old(recvBuffer)).frames == received + Drain(recvBuffer).frames
        decreases |recvBuffer|
      {
        var totalLength := Value32(recvBuffer);
        if totalLength < 8 {
          recvBuffer := [];
          break;
        }
        if |recvBuffer| < totalLength {
          break;
        }
        received := received + [recvBuffer[..totalLength]];
        recvBuffer := recvBuffer[totalLength..];
      }
    }

    method HandleRead(chunk: seq<Byte>)
      modifies this
      ensures var d := Drain(old(recvBuffer) + chunk); recvBuffer == d.rest && received == old(received) + d.frames
    {
      recvBuffer := recvBuffer + chunk;
      DrainFrames();
    }
  }

  // ---- Reads cut anywhere ---------------------------------------------------------------------------------------

  function Joined(chunks: seq<seq<Byte>>): seq<Byte> {
    if chunks == [] then [] else Joined(chunks[..|chunks| - 1]) + chunks[|chunks| - 1]
  }

  /** The frames and the left-over bytes after a list of reads. */
  function Fed(chunks: seq<seq<Byte>>): Drained {
    if chunks == [] then Drained([], [])
    else
      var before := Fed(chunks[..|chunks| - 1]);
      var d := Drain(before.rest + chunks[|chunks| - 1]);
      Drained(before.frames + d.frames, d.rest)
  }

  /** Nothing follows a length prefix under eight, if one is ever reached. */
  predicate Clean(s: seq<Byte>)
    decreases |s|
  {
    |s| >= 4 ==>
      var length := Value32(s);
      if length < 8 then |s| == 4
      else |s| >= length ==> Clean(s[length..])
  }

  lemma ValueOfPrefix(s: seq<Byte>, t: seq<Byte>)
    requires |s| >= 4
    ensures Value32(s + t) == Value32(s)
  {
    hide NumberOf;
  }

  /** Draining early changes nothing: the frames come out the same and the left-over bytes carry on. */
  lemma {:induction false} DrainInTwo(s: seq<Byte>, t: seq<Byte>)
    requires Clean(s + t)
    ensures Clean(s)
    ensures var first := Drain(s);
            var second := Drain(first.rest + t);
            Drain(s + t) == Drained(first.frames + second.frames, second.rest)
    decreases |s|
  {
    hide Value32;
    if |s| < 4 {
      assert [] + Drain(s + t).frames == Drain(s + t).frames;
    } else {
      ValueOfPrefix(s, t);
      var length := Value32(s);
      if length < 8 {
        assert t == [];
        assert Drain(s) == Drained([], []) && Drain([] + t) == Drained([], []);
      } else if |s| < length {
        assert [] + Drain(s + t).frames == Drain(s + t).frames;
      } else {
        assert (s + t)[length..] == s[length..] + t && (s + t)[..length] == s[..length];
        DrainInTwo(s[length..], t);
      }
    }
  }

  lemma {:induction false} FedIsDrained(chunks: seq<seq<Byte>>)
    requires Clean(Joined(chunks))
    ensures Fed(chunks) == Drain(Joined(chunks))
    decreases |chunks|
  {
    if chunks != [] {
      var before, last := chunks[..|chunks| - 1], chunks[|chunks| - 1];
      DrainInTwo(Joined(before), last);
      FedIsDrained(before);
    }
  }

  /** An unclean stream drains to nothing left over, although it does not end with the bad prefix. */
  lemma {:induction false} UncleanLeavesNothing(s: seq<Byte>)
    requires !Clean(s)
    ensures s != [] && Drain(s).rest == [] && Drain(s[..|s| - 1]).rest == []
    decreases |s|
  {
    hide Value32;
    var front := s[..|s| - 1];
    var length := Value32(s);
    assert s == front + [s[|s| - 1]];
    if length < 8 {
      ValueOfPrefix(front, [s[|s| - 1]]);
    } else {
      UncleanLeavesNothing(s[length..]);
      ValueOfPrefix(front, [s[|s| - 1]]);
      assert front[length..] == s[length..][..|s| - length - 1];
    }
  }

  /** The frames and the left-over bytes do not depend on how the stream is cut into reads exactly when it is clean. */
  lemma CutsAgreeIffClean(s: seq<Byte>)
    ensures Clean(s) <==> forall chunks | Joined(chunks) == s :: Fed(chunks) == Drain(s)
  {
    if Clean(s) {
      forall chunks | Joined(chunks) == s ensures Fed(chunks) == Drain(s) {
        FedIsDrained(chunks);
      }
    } else {
      UncleanLeavesNothing(s);
      var front, last := s[..|s| - 1], s[|s| - 1..];
      var cut: seq<seq<Byte>> := [front, last];
      var whole: seq<seq<Byte>> := [front];
      assert cut[..1] == whole && whole[..0] == [] && [] + front == front;
      assert Joined(cut) == Joined(whole) + last == front + last == s;
      assert Fed(whole).rest == [] && Fed(cut).rest == Drain([] + last).rest;
      assert [] + last == last && Drain(last).rest == last;
      assert Joined(cut) == s && Fed(cut) != Drain(s);
    }
  }

  /** Five zero bytes are not clean: read at once they leave nothing, read as four and one they leave the last. */
  lemma FiveZerosDependOnTheCut()
    ensures var zero := ByteOf(0);
            var four, one: seq<Byte> := [zero, zero, zero, zero], [zero];
            !Clean(four + one)
            && Fed([four + one]) == Drained([], []) && Fed([four, one]) == Drained([], [zero])
  {
    var zero := ByteOf(0);
    var four, one: seq<Byte> := [zero, zero, zero, zero], [zero];
    ByteRoundTrip(0);
    assert Value32(four) == 0 && Value32(four + one) == 0;
    var whole, early, cut := [four + one], [four], [four, one];
    var none: seq<Byte> := [];
    assert whole[..0] == [] && none + (four + one) == four + one;
    assert cut[..1] == early && early[..0] == [] && none + four == four && none + one == one;
  }

  // ---- Packets over the wire --------------------------------------------------------------------------------

  function Stream(ps: seq<Packet>, key: seq<Byte>): seq<Byte>
    decreases |ps|
  {
    if ps == [] then [] else Serialized(ps[0], key) + Stream(ps[1..], key)
  }

  function Frames(ps: seq<Packet>, key: seq<Byte>): (frames: seq<seq<Byte>>)
    ensures |frames| == |ps|
  {
    seq(|ps|, i requires 0 <= i < |ps| => Serialized(ps[i], key))
  }

  /** A frame that has not arrived in full. */
  predicate Partial(tail: seq<Byte>) {
    |tail| < 4 || (8 <= Value32(tail) && |tail| < Value32(tail))
  }

  lemma PartialWaits(tail: seq<Byte>)
    requires Partial(tail)
    ensures Clean(tail) && Drain(tail) == Drained([], tail)
  {
    hide Value32;
  }

  lemma FrameComesFirst(frame: seq<Byte>, rest: seq<Byte>)
    requires |frame| >= 8 && Value32(frame + rest) == |frame|
    ensures Clean(frame + rest) == Clean(rest)
    ensures Drain(frame + rest) == Drained([frame] + Drain(rest).frames, Drain(rest).rest)
  {
    hide Value32;
    assert (frame + rest)[..|frame|] == frame && (frame + rest)[|frame|..] == rest;
  }

  lemma {:induction false} StreamDrains(ps: seq<Packet>, key: seq<Byte>, tail: seq<Byte>)
    requires forall i | 0 <= i < |ps| :: Fits(ps[i])
    requires Partial(tail)
    ensures Clean(Stream(ps, key) + tail) && Drain(Stream(ps, key) + tail) == Drained(Frames(ps, key), tail)
    decreases |ps|
  {
    hide Value32, Clean, Drain, Serialized, Partial;
    if ps == [] {
      assert Stream(ps, key) + tail == tail;
      PartialWaits(tail);
    } else {
      var frame, rest := Serialized(ps[0], key), Stream(ps[1..], key) + tail;
      assert Stream(ps, key) + tail == frame + rest;
      PacketRoundTrip(ps[0], key, rest);
      FrameComesFirst(frame, rest);
      StreamDrains(ps[1..], key, tail);
      assert Frames(ps, key) == [frame] + Frames(ps[1..], key);
    }
  }

  /** Packets serialized under one key and read in any pieces arrive as the same packets in order; a started frame
      waits. */
  lemma PacketsArriveHoweverCut(ps: seq<Packet>, key: seq<Byte>, tail: seq<Byte>, chunks: seq<seq<Byte>>)
    requires forall i | 0 <= i < |ps| :: Fits(ps[i])
    requires Partial(tail) && Joined(chunks) == Stream(ps, key) + tail
    ensures Fed(chunks).rest == tail && |Fed(chunks).frames| == |ps|
    ensures forall i | 0 <= i < |ps| :: Deserialized(Fed(chunks).frames[i], key) == Read(ps[i])
  {
    StreamDrains(ps, key, tail);
    FedIsDrained(chunks);
    forall i | 0 <= i < |ps| ensures Deserialized(Fed(chunks).frames[i], key) == Read(ps[i]) {
      PacketRoundTrip(ps[i], key, []);
    }
  }
}
