/** The bitwise, reflected CRC-32 shared by host and device, and the reason it detects
    bursts: one register step is linear and invertible, so up to 32 consecutive bits enter
    the register without loss. A 32-bit word is given by its bits, lowest first. */
module Crc32 {
  import opened Wire

  type Word = s: seq<bool> | |s| == 32 witness Fill(false)

  function Fill(b: bool): (s: seq<bool>)
    ensures |s| == 32 && forall i :: 0 <= i < 32 ==> s[i] == b
  {
    [b, b, b, b, b, b, b, b] + [b, b, b, b, b, b, b, b] + [b, b, b, b, b, b, b, b] + [b, b, b, b, b, b, b, b]
  }

  const ZERO: Word := Fill(false)
  const ONES: Word := Fill(true)
  const INIT: Word := ONES

  /** 0xEDB88320, one group of four bits per hexadecimal digit. */
  const POLYNOMIAL: Word :=
    [false, false, false, false] + [false, true, false, false] +
    [true, true, false, false] + [false, false, false, true] +
    [false, false, false, true] + [true, true, false, true] +
    [true, false, true, true] + [false, true, true, true]

  function Xor(a: Word, b: Word): Word {
    seq(32, i requires 0 <= i < 32 => a[i] != b[i])
  }

  function And(a: Word, b: Word): Word {
    seq(32, i requires 0 <= i < 32 => a[i] && b[i])
  }

  /** s >> 1 */
  function Half(s: Word): Word {
    s[1..] + [false]
  }

  /** 0U - (s & 1U) */
  function Mask(s: Word): Word {
    if s[0] then ONES else ZERO
  }

  function BitStep(s: Word): Word {
    Xor(Half(s), And(POLYNOMIAL, Mask(s)))
  }

  function BitSteps(s: Word, n: nat): Word {
    if n == 0 then s else BitStep(BitSteps(s, n - 1))
  }

  // ----- Bytes and words -----

  function Pow2(n: nat): nat {
    if n == 0 then 1 else 2 * Pow2(n - 1)
  }

  /** The n lowest bits of a number. */
  function LowBits(b: nat, n: nat): (bits: seq<bool>)
    ensures |bits| == n
  {
    if n == 0 then [] else [b % 2 == 1] + LowBits(b / 2, n - 1)
  }

  function Value(bits: seq<bool>): (v: nat)
    ensures v < Pow2(|bits|)
  {
    if bits == [] then 0 else Bit(bits[0]) + 2 * Value(bits[1..])
  }

  function ByteBits(b: byte): (bits: seq<bool>)
    ensures |bits| == 8
  {
    LowBits(b, 8)
  }

  /** The byte whose bits are those of w from position k on. */
  function ByteAt(w: seq<bool>, k: nat): byte
    requires k + 8 <= |w|
  {
    assert Pow2(8) == 0x100;
    Value(w[k..k + 8])
  }

  /** Fewer than 32 bits, widened with zeros above. */
  function Pad(bits: seq<bool>): Word
    requires |bits| <= 32
  {
    bits + Fill(false)[|bits|..]
  }

  /** The numerical value of a word. */
  function Number(w: Word): u32 {
    GetLe32([ByteAt(w, 0), ByteAt(w, 8), ByteAt(w, 16), ByteAt(w, 24)])
  }

  lemma ByteValue(bits: seq<bool>)
    requires |bits| == 8
    ensures Value(bits) == Bit(bits[0]) + 2 * Bit(bits[1]) + 4 * Bit(bits[2]) + 8 * Bit(bits[3])
                         + 16 * Bit(bits[4]) + 32 * Bit(bits[5]) + 64 * Bit(bits[6]) + 128 * Bit(bits[7])
  {
    assert Value(bits[7..]) == Bit(bits[7]) + 2 * Value(bits[8..]);
    assert Value(bits[6..]) == Bit(bits[6]) + 2 * Value(bits[6..][1..]) && bits[6..][1..] == bits[7..];
    assert Value(bits[5..]) == Bit(bits[5]) + 2 * Value(bits[5..][1..]) && bits[5..][1..] == bits[6..];
    assert Value(bits[4..]) == Bit(bits[4]) + 2 * Value(bits[4..][1..]) && bits[4..][1..] == bits[5..];
    assert Value(bits[3..]) == Bit(bits[3]) + 2 * Value(bits[3..][1..]) && bits[3..][1..] == bits[4..];
    assert Value(bits[2..]) == Bit(bits[2]) + 2 * Value(bits[2..][1..]) && bits[2..][1..] == bits[3..];
    assert Value(bits[1..]) == Bit(bits[1]) + 2 * Value(bits[1..][1..]) && bits[1..][1..] == bits[2..];
    assert Value(bits) == Bit(bits[0]) + 2 * Value(bits[1..]);
  }

  lemma PolynomialNumber()
    ensures Number(POLYNOMIAL) == 0xEDB8_8320
  {
    ByteValue(POLYNOMIAL[0..8]);
    ByteValue(POLYNOMIAL[8..16]);
    ByteValue(POLYNOMIAL[16..24]);
    ByteValue(POLYNOMIAL[24..32]);
  }

  // ----- The register -----

  function Update(s: Word, data: seq<byte>): Word {
    if data == [] then s
    else BitSteps(Xor(Update(s, data[..|data| - 1]), Pad(ByteBits(data[|data| - 1]))), 8)
  }

  function Checksum(data: seq<byte>): u32 {
    Number(Xor(Update(INIT, data), ONES))
  }

  method UpdateRegister(start: Word, data: seq<byte>) returns (state: Word)
    ensures state == Update(start, data)
  {
    hide Xor, And, Half, Mask, Pad, ByteBits;
    state := start;
    for index := 0 to |data|
      invariant state == Update(start, data[..index])
    {
      state := Xor(state, Pad(ByteBits(data[index])));
      ghost var entered := state;
      for bit := 0 to 8
        invariant state == BitSteps(entered, bit)
      {
        var mask := Mask(state);
        state := Xor(Half(state), And(POLYNOMIAL, mask));
      }
      assert data[..index + 1][..index] == data[..index];
    }
    assert data[..|data|] == data;
  }

  method ComputeChecksum(data: seq<byte>) returns (crc: u32)
    ensures crc == Checksum(data)
  {
    var state := UpdateRegister(INIT, data);
    crc := Number(Xor(state, ONES));
  }

  // ----- One step is linear and invertible -----

  lemma StepBits(s: Word)
    ensures BitStep(s)[31] == s[0]
    ensures forall i :: 0 <= i < 31 ==> BitStep(s)[i] == (s[i + 1] != (s[0] && POLYNOMIAL[i]))
  {
  }

  lemma StepInjective(a: Word, b: Word)
    requires BitStep(a) == BitStep(b)
    ensures a == b
  {
    hide BitStep;
    StepBits(a);
    StepBits(b);
    assert a[0] == b[0];
    forall j | 1 <= j < 32
      ensures a[j] == b[j]
    {
      assert BitStep(a)[j - 1] == BitStep(b)[j - 1];
    }
  }

  lemma {:induction false} StepsInjective(a: Word, b: Word, n: nat)
    requires BitSteps(a, n) == BitSteps(b, n)
    ensures a == b
  {
    hide BitStep;
    if n > 0 {
      StepInjective(BitSteps(a, n - 1), BitSteps(b, n - 1));
      StepsInjective(a, b, n - 1);
    }
  }

  lemma {:induction false} StepsFirst(s: Word, n: nat)
    ensures BitSteps(BitStep(s), n) == BitSteps(s, n + 1)
  {
    hide BitStep;
    if n > 0 {
      StepsFirst(s, n - 1);
    }
  }

  /** What is xored in one place higher arrives one step later. */
  lemma StepDelays(s: Word, up: Word, down: Word)
    requires !up[0] && !down[31] && forall i :: 0 <= i < 31 ==> down[i] == up[i + 1]
    ensures BitStep(Xor(s, up)) == Xor(BitStep(s), down)
  {
    hide BitStep;
    StepBits(s);
    StepBits(Xor(s, up));
  }

  // ----- The register fed bit by bit -----

  function Bits(data: seq<byte>): (bits: seq<bool>)
    ensures |bits| == 8 * |data|
  {
    if data == [] then [] else Bits(data[..|data| - 1]) + ByteBits(data[|data| - 1])
  }

  function Feed(s: Word, bits: seq<bool>): Word {
    if bits == [] then s else BitStep(Xor(Feed(s, bits[..|bits| - 1]), Pad(bits[|bits| - 1..])))
  }

  lemma {:induction false} FeedAppend(s: Word, a: seq<bool>, b: seq<bool>)
    ensures Feed(s, a + b) == Feed(Feed(s, a), b)
  {
    hide BitStep, Xor, Pad;
    if b == [] {
      assert a + b == a;
    } else {
      assert (a + b)[..|a + b| - 1] == a + b[..|b| - 1];
      assert (a + b)[|a + b| - 1..] == b[|b| - 1..];
      FeedAppend(s, a, b[..|b| - 1]);
    }
  }

  lemma XorPadded(s: Word, bits: seq<bool>, up: Word)
    requires 0 < |bits| <= 32 && up == [false] + Pad(bits[1..])[..31]
    ensures Xor(Xor(s, Pad(bits[..1])), up) == Xor(s, Pad(bits))
  {
  }

  /** Up to 32 bits enter the register as if they had been xored in at once. */
  lemma {:induction false} FeedWindow(s: Word, bits: seq<bool>)
    requires |bits| <= 32
    ensures Feed(s, bits) == BitSteps(Xor(s, Pad(bits)), |bits|)
    decreases |bits|
  {
    if bits == [] {
      assert Xor(s, Pad(bits)) == s;
    } else {
      var first, rest := bits[..1], bits[1..];
      var entered := Xor(s, Pad(first));
      var up: Word := [false] + Pad(rest)[..31];
      assert Feed(s, first) == BitStep(entered) by {
        assert first[..0] == [] && first[0..] == first;
      }
      assert bits == first + rest;
      FeedAppend(s, first, rest);
      FeedWindow(BitStep(entered), rest);
      StepDelays(entered, up, Pad(rest));
      XorPadded(s, bits, up);
      StepsFirst(Xor(s, Pad(bits)), |rest|);
    }
  }

  lemma {:induction false} UpdateIsFeed(s: Word, data: seq<byte>)
    ensures Update(s, data) == Feed(s, Bits(data))
  {
    hide BitStep, Xor, Pad, ByteBits;
    if data != [] {
      var n := |data| - 1;
      UpdateIsFeed(s, data[..n]);
      FeedAppend(s, Bits(data[..n]), ByteBits(data[n]));
      FeedWindow(Update(s, data[..n]), ByteBits(data[n]));
    }
  }

  lemma XorCancels(a: Word, b: Word, w: Word)
    requires Xor(a, w) == Xor(b, w)
    ensures a == b
  {
    forall i | 0 <= i < 32
      ensures a[i] == b[i]
    {
      assert Xor(a, w)[i] == Xor(b, w)[i];
    }
  }

  lemma XorCommutes(a: Word, b: Word)
    ensures Xor(a, b) == Xor(b, a)
  {
  }

  lemma {:induction false} FeedInjective(a: Word, b: Word, bits: seq<bool>)
    requires Feed(a, bits) == Feed(b, bits)
    ensures a == b
  {
    hide BitStep, Xor, Pad;
    if bits != [] {
      var n := |bits| - 1;
      var x, y, w := Feed(a, bits[..n]), Feed(b, bits[..n]), Pad(bits[n..]);
      StepInjective(Xor(x, w), Xor(y, w));
      XorCancels(x, y, w);
      FeedInjective(a, b, bits[..n]);
    }
  }

  /** No two bit strings that differ inside at most 32 consecutive bits leave the same
      register, whatever comes before and after. */
  lemma BurstChangesRegister(s: Word, before: seq<bool>, x: seq<bool>, y: seq<bool>, after: seq<bool>)
    requires |x| == |y| <= 32
    requires Feed(s, before + x + after) == Feed(s, before + y + after)
    ensures x == y
  {
    hide BitStep, Xor, Pad;
    var t := Feed(s, before);
    FeedAppend(s, before + x, after);
    FeedAppend(s, before + y, after);
    FeedAppend(s, before, x);
    FeedAppend(s, before, y);
    FeedInjective(Feed(t, x), Feed(t, y), after);
    FeedWindow(t, x);
    FeedWindow(t, y);
    StepsInjective(Xor(t, Pad(x)), Xor(t, Pad(y)), |x|);
    XorCommutes(t, Pad(x));
    XorCommutes(t, Pad(y));
    XorCancels(Pad(x), Pad(y), t);
    assert Pad(x)[..|x|] == x && Pad(y)[..|y|] == y by { PadPrefix(x); PadPrefix(y); }
  }

  lemma PadPrefix(x: seq<bool>)
    requires |x| <= 32
    ensures Pad(x)[..|x|] == x
  {
  }

  // ----- A message followed by its own checksum -----

  /** The register after any message and its checksum: the good final FCS of appendix C.3
      of RFC 1662. */
  const RESIDUE: Word := BitSteps(ONES, 32)

  lemma {:induction false} LowBitsOfValue(bits: seq<bool>)
    ensures LowBits(Value(bits), |bits|) == bits
  {
    if bits != [] {
      LowBitsOfValue(bits[1..]);
    }
  }

  lemma {:induction false} ValueOfLowBits(b: nat, n: nat)
    requires b < Pow2(n)
    ensures Value(LowBits(b, n)) == b
  {
    if n > 0 {
      ValueOfLowBits(b / 2, n - 1);
    }
  }

  lemma BitsOfByteAt(w: seq<bool>, k: nat)
    requires k + 8 <= |w|
    ensures ByteBits(ByteAt(w, k)) == w[k..k + 8]
  {
    LowBitsOfValue(w[k..k + 8]);
  }

  lemma ByteOfBits(b: byte)
    ensures ByteAt(ByteBits(b), 0) == b
  {
    assert Pow2(8) == 0x100;
    ValueOfLowBits(b, 8);
    assert ByteBits(b)[0..8] == ByteBits(b);
  }

  lemma {:induction false} BitsAppend(a: seq<byte>, b: seq<byte>)
    ensures Bits(a + b) == Bits(a) + Bits(b)
  {
    hide ByteBits;
    if b == [] {
      assert a + b == a;
    } else {
      assert (a + b)[..|a + b| - 1] == a + b[..|b| - 1];
      BitsAppend(a, b[..|b| - 1]);
    }
  }

  lemma {:induction false} BitsInjective(a: seq<byte>, b: seq<byte>)
    requires Bits(a) == Bits(b)
    ensures a == b
  {
    hide ByteBits;
    assert |a| == |b|;
    if a != [] {
      var n := |a| - 1;
      assert Bits(a)[..8 * n] == Bits(a[..n]) && Bits(b)[..8 * n] == Bits(b[..n]);
      assert Bits(a)[8 * n..] == ByteBits(a[n]) && Bits(b)[8 * n..] == ByteBits(b[n]);
      BitsInjective(a[..n], b[..n]);
      ByteOfBits(a[n]);
      ByteOfBits(b[n]);
      assert a == a[..n] + [a[n]] && b == b[..n] + [b[n]];
    }
  }

  lemma FourBytesBits(s: seq<byte>)
    requires |s| == 4
    ensures Bits(s) == ByteBits(s[0]) + ByteBits(s[1]) + ByteBits(s[2]) + ByteBits(s[3])
  {
    hide ByteBits;
    assert s[..3][..2] == s[..2] && s[..2][..1] == s[..1] && s[..1][..0] == [];
    assert Bits(s[..1]) == ByteBits(s[0]);
    assert Bits(s[..2]) == ByteBits(s[0]) + ByteBits(s[1]);
    assert Bits(s[..3]) == ByteBits(s[0]) + ByteBits(s[1]) + ByteBits(s[2]);
  }

  /** put_le32 of a register value lays down its bits from the low end. */
  lemma PutNumber(w: Word)
    ensures Bits(PutLe32(Number(w))) == w
  {
    hide ByteBits, ByteAt, Bits;
    var s := [ByteAt(w, 0), ByteAt(w, 8), ByteAt(w, 16), ByteAt(w, 24)];
    PutGet32(s);
    FourBytesBits(s);
    BitsOfByteAt(w, 0);
    BitsOfByteAt(w, 8);
    BitsOfByteAt(w, 16);
    BitsOfByteAt(w, 24);
  }

  lemma XorOnes(s: Word)
    ensures Xor(s, Pad(Xor(s, ONES))) == ONES
  {
  }

  lemma ChecksumLeavesResidue(body: seq<byte>)
    ensures Update(INIT, body + PutLe32(Checksum(body))) == RESIDUE
  {
    hide Xor, Pad, BitStep, Bits, Number, PutLe32;
    var tail := PutLe32(Checksum(body));
    var s := Update(INIT, body);
    var w := Xor(s, ONES);
    UpdateIsFeed(INIT, body + tail);
    UpdateIsFeed(INIT, body);
    BitsAppend(body, tail);
    FeedAppend(INIT, Bits(body), Bits(tail));
    PutNumber(w);
    FeedWindow(s, w);
    XorOnes(s);
  }

  /** A trailer checks out exactly when the register ends at the residue. */
  lemma ResidueCharacterises(body: seq<byte>, tail: seq<byte>)
    requires |tail| == 4
    ensures GetLe32(tail) == Checksum(body) <==> Update(INIT, body + tail) == RESIDUE
  {
    hide Bits, Update, Number;
    var good := PutLe32(Checksum(body));
    ChecksumLeavesResidue(body);
    PutGet32(tail);
    GetPut32(Checksum(body), []);
    assert good + [] == good;
    if Update(INIT, body + tail) == RESIDUE {
      UpdateIsFeed(INIT, body + tail);
      UpdateIsFeed(INIT, body + good);
      BitsAppend(body, tail);
      BitsAppend(body, good);
      assert Bits(body) + Bits(tail) + [] == Bits(body) + Bits(tail);
      assert Bits(body) + Bits(good) + [] == Bits(body) + Bits(good);
      BurstChangesRegister(INIT, Bits(body), Bits(tail), Bits(good), []);
      BitsInjective(tail, good);
    }
  }
}
