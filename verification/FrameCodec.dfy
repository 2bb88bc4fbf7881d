/** The frame codec of the host library (src/protocol/frame.c). */
module FrameCodec {
  import opened Wire
  import opened Crc32

  predicate Sendable(f: Frame) {
    |f.payload| <= MAX_PAYLOAD
  }

  function Body(f: Frame): (s: seq<byte>)
    requires Sendable(f)
    ensures |s| == HEADER_SIZE + |f.payload|
  {
    PutLe16(MAGIC) + [VERSION, f.kind, f.flags, 0] + PutLe32(f.sequence) + PutLe16(|f.payload|) + f.payload
  }

  /** The bytes of a frame on the wire. */
  function Encode(f: Frame): (s: seq<byte>)
    requires Sendable(f)
    ensures |s| == HEADER_SIZE + |f.payload| + CRC_SIZE
  {
    Body(f) + PutLe32(Checksum(Body(f)))
  }

  function Decode(data: seq<byte>): Result<Frame> {
    if |data| < HEADER_SIZE + CRC_SIZE then Failure(Invalid)
    else if GetLe16(data) != MAGIC || data[2] != VERSION || data[5] != 0 then Failure(Protocol)
    else
      var length := GetLe16(data[10..]);
      if length > MAX_PAYLOAD then Failure(Limit)
      else if |data| != HEADER_SIZE + length + CRC_SIZE then Failure(Invalid)
      else if Checksum(data[..HEADER_SIZE + length]) != GetLe32(data[HEADER_SIZE + length..]) then Failure(BadCrc)
      else Success(Frame(data[3], data[4], GetLe32(data[6..]), data[HEADER_SIZE..HEADER_SIZE + length]))
  }

  /** memcpy into a buffer. */
  method Put(output: array<byte>, at: nat, data: seq<byte>)
    requires at + |data| <= output.Length
    modifies output
    ensures output[..] == Splice(old(output[..]), at, data)
  {
    forall i | 0 <= i < |data| {
      output[at + i] := data[i];
    }
  }

  method WriteBody(f: Frame, output: array<byte>)
    requires Sendable(f) && HEADER_SIZE + |f.payload| <= output.Length
    modifies output
    ensures output[..] == Splice(old(output[..]), 0, Body(f))
  {
    hide PutLe16, PutLe32, Splice;
    ghost var was := output[..];
    Put(output, 0, PutLe16(MAGIC));
    Put(output, 2, [VERSION, f.kind, f.flags, 0]);
    Put(output, 6, PutLe32(f.sequence));
    Put(output, 10, PutLe16(|f.payload|));
    Put(output, HEADER_SIZE, f.payload);
    SpliceBody(f, was);
  }

  /** The five stores of a header and payload, in order. */
  lemma SpliceBody(f: Frame, was: seq<byte>)
    requires Sendable(f) && HEADER_SIZE + |f.payload| <= |was|
    ensures Splice(Splice(Splice(Splice(Splice(was, 0, PutLe16(MAGIC)), 2, [VERSION, f.kind, f.flags, 0]),
              6, PutLe32(f.sequence)), 10, PutLe16(|f.payload|)), HEADER_SIZE, f.payload)
         == Splice(was, 0, Body(f))
  {
    hide PutLe16, PutLe32, Splice;
    var a, b := PutLe16(MAGIC), [VERSION, f.kind, f.flags, 0];
    SpliceTwice(was, 0, a, b);
    SpliceTwice(was, 0, a + b, PutLe32(f.sequence));
    SpliceTwice(was, 0, a + b + PutLe32(f.sequence), PutLe16(|f.payload|));
    SpliceTwice(was, 0, a + b + PutLe32(f.sequence) + PutLe16(|f.payload|), f.payload);
  }

  /** Writes the frame at the start of the output, or changes nothing. */
  method EncodeFrame(f: Frame, output: array<byte>) returns (status: Status, length: nat)
    modifies output
    ensures status == (if !Sendable(f) then Invalid
                       else if output.Length < HEADER_SIZE + |f.payload| + CRC_SIZE then Overflow else Ok)
    ensures status == Ok ==>
              length == |Encode(f)| <= output.Length && output[..] == Splice(old(output[..]), 0, Encode(f))
    ensures status != Ok ==> output[..] == old(output[..])
  {
    hide Checksum, Body, PutLe32, Splice;
    length := 0;
    if |f.payload| > MAX_PAYLOAD {
      return Invalid, 0;
    }
    var bodyLength := HEADER_SIZE + |f.payload|;
    if output.Length < bodyLength + CRC_SIZE {
      return Overflow, 0;
    }
    WriteBody(f, output);
    assert output[..bodyLength] == Body(f);
    var crc := ComputeChecksum(output[..bodyLength]);
    Put(output, bodyLength, PutLe32(crc));
    SpliceTwice(old(output[..]), 0, Body(f), PutLe32(crc));
    return Ok, bodyLength + CRC_SIZE;
  }

  method DecodeFrame(data: seq<byte>) returns (r: Result<Frame>)
    ensures r == Decode(data)
  {
    hide Checksum;
    if |data| < HEADER_SIZE + CRC_SIZE {
      return Failure(Invalid);
    }
    if GetLe16(data) != MAGIC || data[2] != VERSION || data[5] != 0 {
      return Failure(Protocol);
    }
    var length := GetLe16(data[10..]);
    if length > MAX_PAYLOAD {
      return Failure(Limit);
    }
    if |data| != HEADER_SIZE + length + CRC_SIZE {
      return Failure(Invalid);
    }
    var expected := GetLe32(data[HEADER_SIZE + length..]);
    var actual := ComputeChecksum(data[..HEADER_SIZE + length]);
    if actual != expected {
      return Failure(BadCrc);
    }
    return Success(Frame(data[3], data[4], GetLe32(data[6..]), data[HEADER_SIZE..HEADER_SIZE + length]));
  }

  // ----- Encoding and decoding are mutual inverses -----

  lemma HeaderFields(f: Frame, tail: seq<byte>)
    requires Sendable(f)
    ensures var data := Body(f) + tail;
            && GetLe16(data) == MAGIC && data[2] == VERSION && data[3] == f.kind && data[4] == f.flags && data[5] == 0
            && GetLe32(data[6..]) == f.sequence && GetLe16(data[10..]) == |f.payload|
            && data[HEADER_SIZE..HEADER_SIZE + |f.payload|] == f.payload
  {
    hide GetLe16, GetLe32, PutLe16, PutLe32;
    var data := Body(f) + tail;
    GetPut16(MAGIC, data[2..]);
    assert data == PutLe16(MAGIC) + data[2..];
    GetPut32(f.sequence, data[10..]);
    assert data[6..] == PutLe32(f.sequence) + data[10..];
    GetPut16(|f.payload|, data[12..]);
    assert data[10..] == PutLe16(|f.payload|) + data[12..];
  }

  lemma DecodeEncode(f: Frame)
    requires Sendable(f)
    ensures Decode(Encode(f)) == Success(f)
  {
    hide Checksum, GetLe16, GetLe32, PutLe16, PutLe32, Body;
    var tail := PutLe32(Checksum(Body(f)));
    HeaderFields(f, tail);
    assert Encode(f)[..HEADER_SIZE + |f.payload|] == Body(f);
    assert Encode(f)[HEADER_SIZE + |f.payload|..] == tail == tail + [];
    GetPut32(Checksum(Body(f)), []);
  }

  /** Whatever is accepted is the encoding of the frame that comes out. */
  lemma EncodeDecode(data: seq<byte>)
    requires Decode(data).Success?
    ensures Sendable(Decode(data).value) && Encode(Decode(data).value) == data
  {
    hide Checksum;
    var f := Decode(data).value;
    PutGet16(data[..2]);
    PutGet32(data[6..10]);
    PutGet16(data[10..12]);
    PutGet32(data[HEADER_SIZE + |f.payload|..]);
    assert Body(f) == data[..HEADER_SIZE + |f.payload|];
  }

  // ----- Bursts of at most 32 bits are always caught -----

  /** The two strings agree outside the 32 bits that start at bit `start`. */
  ghost predicate DifferWithin(x: seq<byte>, y: seq<byte>, start: nat) {
    |x| == |y| && forall j :: 0 <= j < 8 * |x| && !(start <= j < start + 32) ==> Bits(x)[j] == Bits(y)[j]
  }

  lemma AcceptedLeavesResidue(data: seq<byte>)
    requires Decode(data).Success?
    ensures Feed(INIT, Bits(data)) == RESIDUE
  {
    hide Checksum, Update, Bits, Feed;
    var n := |data| - CRC_SIZE;
    assert data == data[..n] + data[n..];
    ResidueCharacterises(data[..n], data[n..]);
    UpdateIsFeed(INIT, data);
  }

  lemma BurstRejected(x: seq<byte>, y: seq<byte>, start: nat)
    requires Decode(x).Success? && x != y && DifferWithin(x, y, start)
    ensures Decode(y).Failure?
  {
    hide Decode, Bits, Feed;
    if Decode(y).Success? {
      AcceptedLeavesResidue(x);
      AcceptedLeavesResidue(y);
      var n := 8 * |x|;
      var a := if start <= n then start else n;
      var b := if start + 32 <= n then start + 32 else n;
      var before, after := Bits(x)[..a], Bits(x)[b..];
      assert before == Bits(y)[..a] && after == Bits(y)[b..];
      assert Bits(x) == before + Bits(x)[a..b] + after;
      assert Bits(y) == before + Bits(y)[a..b] + after;
      BurstChangesRegister(INIT, before, Bits(x)[a..b], Bits(y)[a..b], after);
      BitsInjective(x, y);
    }
  }

  lemma BitsOfWindow(x: seq<byte>, y: seq<byte>, i: nat, j: nat)
    requires |x| == |y| && i <= j <= |x| && x[..i] == y[..i] && x[j..] == y[j..]
    ensures Bits(x)[..8 * i] == Bits(y)[..8 * i] && Bits(x)[8 * j..] == Bits(y)[8 * j..]
  {
    hide Bits;
    assert x == x[..i] + x[i..] && y == y[..i] + y[i..];
    BitsAppend(x[..i], x[i..]);
    BitsAppend(y[..i], y[i..]);
    assert x == x[..j] + x[j..] && y == y[..j] + y[j..];
    BitsAppend(x[..j], x[j..]);
    BitsAppend(y[..j], y[j..]);
  }

  /** A frame altered only inside four consecutive bytes, its checksum included, is rejected. */
  lemma FourByteWindowRejected(f: Frame, y: seq<byte>, i: nat)
    requires Sendable(f) && |y| == |Encode(f)| && i + 4 <= |y| && y != Encode(f)
    requires y[..i] == Encode(f)[..i] && y[i + 4..] == Encode(f)[i + 4..]
    ensures Decode(y).Failure?
  {
    hide Decode, Bits, Encode;
    var x := Encode(f);
    DecodeEncode(f);
    BitsOfWindow(x, y, i, i + 4);
    forall j | 0 <= j < 8 * |x| && !(8 * i <= j < 8 * i + 32)
      ensures Bits(x)[j] == Bits(y)[j]
    {
      if j < 8 * i {
        assert Bits(x)[..8 * i][j] == Bits(y)[..8 * i][j];
      } else {
        assert Bits(x)[8 * (i + 4)..][j - 8 * (i + 4)] == Bits(y)[8 * (i + 4)..][j - 8 * (i + 4)];
      }
    }
    BurstRejected(x, y, 8 * i);
  }
}
