/** The register that every frame with a good checksum leaves: 0xDEBB20E3, the good final FCS of
    appendix C.3 of RFC 1662. */
module Residue {
  import opened Wire
  import opened Crc32

  /** A word bit by bit, lowest first. */
  datatype Register = Register(b0: bool, b1: bool, b2: bool, b3: bool, b4: bool, b5: bool, b6: bool, b7: bool,
                               b8: bool, b9: bool, b10: bool, b11: bool, b12: bool, b13: bool, b14: bool, b15: bool,
                               b16: bool, b17: bool, b18: bool, b19: bool, b20: bool, b21: bool, b22: bool, b23: bool,
                               b24: bool, b25: bool, b26: bool, b27: bool, b28: bool, b29: bool, b30: bool, b31: bool)

  ghost predicate Octet0(w: Word, r: Register) {
    && w[0] == r.b0 && w[1] == r.b1 && w[2] == r.b2 && w[3] == r.b3
    && w[4] == r.b4 && w[5] == r.b5 && w[6] == r.b6 && w[7] == r.b7
  }

  ghost predicate Octet1(w: Word, r: Register) {
    && w[8] == r.b8 && w[9] == r.b9 && w[10] == r.b10 && w[11] == r.b11
    && w[12] == r.b12 && w[13] == r.b13 && w[14] == r.b14 && w[15] == r.b15
  }

  ghost predicate Octet2(w: Word, r: Register) {
    && w[16] == r.b16 && w[17] == r.b17 && w[18] == r.b18 && w[19] == r.b19
    && w[20] == r.b20 && w[21] == r.b21 && w[22] == r.b22 && w[23] == r.b23
  }

  ghost predicate Octet3(w: Word, r: Register) {
    && w[24] == r.b24 && w[25] == r.b25 && w[26] == r.b26 && w[27] == r.b27
    && w[28] == r.b28 && w[29] == r.b29 && w[30] == r.b30 && w[31] == r.b31
  }

  ghost predicate Is(w: Word, r: Register) {
    Octet0(w, r) && Octet1(w, r) && Octet2(w, r) && Octet3(w, r)
  }

  /** A bit step, with the polynomial written out. */
  function Shifted(r: Register): Register {
    Register(r.b1, r.b2, r.b3, r.b4, r.b5, r.b6 != r.b0, r.b7, r.b8,
             r.b9 != r.b0, r.b10 != r.b0, r.b11, r.b12, r.b13, r.b14, r.b15, r.b16 != r.b0,
             r.b17, r.b18, r.b19, r.b20 != r.b0, r.b21 != r.b0, r.b22 != r.b0, r.b23, r.b24 != r.b0,
             r.b25 != r.b0, r.b26, r.b27 != r.b0, r.b28 != r.b0, r.b29, r.b30 != r.b0, r.b31 != r.b0, r.b0)
  }

  function Shifts(r: Register, n: nat): Register {
    if n == 0 then r else Shifted(Shifts(r, n - 1))
  }

  ghost predicate IsPolynomial(p: Word) {
    && !p[0] && !p[1] && !p[2] && !p[3] && !p[4] && p[5] && !p[6] && !p[7]
    && p[8] && p[9] && !p[10] && !p[11] && !p[12] && !p[13] && !p[14] && p[15]
    && !p[16] && !p[17] && !p[18] && p[19] && p[20] && p[21] && !p[22] && p[23]
    && p[24] && !p[25] && p[26] && p[27] && !p[28] && p[29] && p[30] && p[31]
  }

  lemma PolynomialBits()
    ensures IsPolynomial(POLYNOMIAL)
  {
  }

  ghost predicate Stepped(w: Word, v: Word, p: Word) {
    v[31] == w[0] && forall i :: 0 <= i < 31 ==> v[i] == (w[i + 1] != (w[0] && p[i]))
  }

  lemma ShiftBit(w: Word, v: Word, p: Word, i: nat)
    requires Stepped(w, v, p) && i < 32
    ensures v[i] == if i == 31 then w[0] else w[i + 1] != (w[0] && p[i])
  {
  }

  lemma ShiftOctet0(w: Word, v: Word, p: Word, r: Register)
    requires Is(w, r) && IsPolynomial(p) && Stepped(w, v, p)
    ensures Octet0(v, Shifted(r))
  {
    hide Stepped;
    ShiftBit(w, v, p, 0); ShiftBit(w, v, p, 1); ShiftBit(w, v, p, 2); ShiftBit(w, v, p, 3);
    ShiftBit(w, v, p, 4); ShiftBit(w, v, p, 5); ShiftBit(w, v, p, 6); ShiftBit(w, v, p, 7);
  }

  lemma ShiftOctet1(w: Word, v: Word, p: Word, r: Register)
    requires Is(w, r) && IsPolynomial(p) && Stepped(w, v, p)
    ensures Octet1(v, Shifted(r))
  {
    hide Stepped;
    ShiftBit(w, v, p, 8); ShiftBit(w, v, p, 9); ShiftBit(w, v, p, 10); ShiftBit(w, v, p, 11);
    ShiftBit(w, v, p, 12); ShiftBit(w, v, p, 13); ShiftBit(w, v, p, 14); ShiftBit(w, v, p, 15);
  }

  lemma ShiftOctet2(w: Word, v: Word, p: Word, r: Register)
    requires Is(w, r) && IsPolynomial(p) && Stepped(w, v, p)
    ensures Octet2(v, Shifted(r))
  {
    hide Stepped;
    ShiftBit(w, v, p, 16); ShiftBit(w, v, p, 17); ShiftBit(w, v, p, 18); ShiftBit(w, v, p, 19);
    ShiftBit(w, v, p, 20); ShiftBit(w, v, p, 21); ShiftBit(w, v, p, 22); ShiftBit(w, v, p, 23);
  }

  lemma ShiftOctet3(w: Word, v: Word, p: Word, r: Register)
    requires Is(w, r) && IsPolynomial(p) && Stepped(w, v, p)
    ensures Octet3(v, Shifted(r))
  {
    hide Stepped;
    ShiftBit(w, v, p, 24); ShiftBit(w, v, p, 25); ShiftBit(w, v, p, 26); ShiftBit(w, v, p, 27);
    ShiftBit(w, v, p, 28); ShiftBit(w, v, p, 29); ShiftBit(w, v, p, 30); ShiftBit(w, v, p, 31);
  }

  lemma StepShifts(w: Word, r: Register)
    requires Is(w, r)
    ensures Is(BitStep(w), Shifted(r))
  {
    hide BitStep, Octet0, Octet1, Octet2, Octet3, Shifted, IsPolynomial;
    var v := BitStep(w);
    StepBits(w);
    PolynomialBits();
    ShiftOctet0(w, v, POLYNOMIAL, r);
    ShiftOctet1(w, v, POLYNOMIAL, r);
    ShiftOctet2(w, v, POLYNOMIAL, r);
    ShiftOctet3(w, v, POLYNOMIAL, r);
  }

  lemma {:induction false} StepsShift(w: Word, r: Register, n: nat)
    requires Is(w, r)
    ensures Is(BitSteps(w, n), Shifts(r, n))
  {
    hide Is, Shifted, BitStep;
    if n > 0 {
      StepsShift(w, r, n - 1);
      StepShifts(BitSteps(w, n - 1), Shifts(r, n - 1));
    }
  }

  lemma {:induction false} ShiftsAdd(r: Register, m: nat, n: nat)
    ensures Shifts(r, m + n) == Shifts(Shifts(r, m), n)
  {
    hide Shifted;
    if n > 0 {
      ShiftsAdd(r, m, n - 1);
    }
  }

  // ----- The register every four steps -----

  /** 0xFFFFFFFF */
  const AFTER_0: Register :=
    Register(true, true, true, true, true, true, true, true,
             true, true, true, true, true, true, true, true,
             true, true, true, true, true, true, true, true,
             true, true, true, true, true, true, true, true)

  /** 0xB2420DE3 */
  const AFTER_4: Register :=
    Register(true, true, false, false, false, true, true, true,
             true, false, true, true, false, false, false, false,
             false, true, false, false, false, false, true, false,
             false, true, false, false, true, true, false, true)

  /** 0x2DFD1072 */
  const AFTER_8: Register :=
    Register(false, true, false, false, true, true, true, false,
             false, false, false, false, true, false, false, false,
             true, false, true, true, true, true, true, true,
             true, false, true, true, false, true, false, false)

  /** 0x39B1F1CF */
  const AFTER_12: Register :=
    Register(true, true, true, true, false, false, true, true,
             true, false, false, false, true, true, true, true,
             true, false, false, false, true, true, false, true,
             true, false, false, true, true, true, false, false)

  /** 0xBE26ED00 */
  const AFTER_16: Register :=
    Register(false, false, false, false, false, false, false, false,
             true, false, true, true, false, true, true, true,
             false, true, true, false, false, true, false, false,
             false, true, true, true, true, true, false, true)

  /** 0x0BE26ED0 */
  const AFTER_20: Register :=
    Register(false, false, false, false, true, false, true, true,
             false, true, true, true, false, true, true, false,
             false, true, false, false, false, true, true, true,
             true, true, false, true, false, false, false, false)

  /** 0x00BE26ED */
  const AFTER_24: Register :=
    Register(true, false, true, true, false, true, true, true,
             false, true, true, false, false, true, false, false,
             false, true, true, true, true, true, false, true,
             false, false, false, false, false, false, false, false)

  /** 0x86D830BA */
  const AFTER_28: Register :=
    Register(false, true, false, true, true, true, false, true,
             false, false, false, false, true, true, false, false,
             false, false, false, true, true, false, true, true,
             false, true, true, false, false, false, false, true)

  /** 0xDEBB20E3 */
  const AFTER_32: Register :=
    Register(true, true, false, false, false, true, true, true,
             false, false, false, false, false, true, false, false,
             true, true, false, true, true, true, false, true,
             false, true, true, true, true, false, true, true)

  lemma From0()
    ensures Shifts(AFTER_0, 4) == AFTER_4
  {
  }

  lemma From4()
    ensures Shifts(AFTER_4, 4) == AFTER_8
  {
  }

  lemma From8()
    ensures Shifts(AFTER_8, 4) == AFTER_12
  {
  }

  lemma From12()
    ensures Shifts(AFTER_12, 4) == AFTER_16
  {
  }

  lemma From16()
    ensures Shifts(AFTER_16, 4) == AFTER_20
  {
  }

  lemma From20()
    ensures Shifts(AFTER_20, 4) == AFTER_24
  {
  }

  lemma From24()
    ensures Shifts(AFTER_24, 4) == AFTER_28
  {
  }

  lemma From28()
    ensures Shifts(AFTER_28, 4) == AFTER_32
  {
  }

  lemma ThirtyTwoShifts()
    ensures Shifts(AFTER_0, 32) == AFTER_32
  {
    hide Shifted, Shifts;
    From0();
    ShiftsAdd(AFTER_0, 0, 4);
    From4();
    ShiftsAdd(AFTER_0, 4, 4);
    From8();
    ShiftsAdd(AFTER_0, 8, 4);
    From12();
    ShiftsAdd(AFTER_0, 12, 4);
    From16();
    ShiftsAdd(AFTER_0, 16, 4);
    From20();
    ShiftsAdd(AFTER_0, 20, 4);
    From24();
    ShiftsAdd(AFTER_0, 24, 4);
    From28();
    ShiftsAdd(AFTER_0, 28, 4);
  }

  lemma ResidueNumber()
    ensures Number(RESIDUE) == 0xDEBB_20E3
  {
    assert Is(ONES, AFTER_0);
    StepsShift(ONES, AFTER_0, 32);
    ThirtyTwoShifts();
    NumberOf(RESIDUE);
  }

  lemma NumberOf(w: Word)
    requires Is(w, AFTER_32)
    ensures Number(w) == 0xDEBB_20E3
  {
    ByteValue(w[0..8]);
    ByteValue(w[8..16]);
    ByteValue(w[16..24]);
    ByteValue(w[24..32]);
    hide Value;
  }
}
