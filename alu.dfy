/** The arithmetic and logic of the handlers, pulled out as functions of
    the operand bytes and the status: `set_flags_nz`, ADC, SBC, the
    compares, the shifts and rotates, and BIT. Each returns the byte the
    handler stores and the new status. */
module Alu {
  import opened Bitwise
  import opened Registers

  /** A handler's result: the byte written back (to A, X, Y or memory)
      and the new status register. */
  datatype Output = Output(value: bv8, status: Status)

  /** Carry in, as the `0` or `1` the source adds. */
  function CarryIn(s: Status): (c: bv8)
    ensures c <= 1 && (c == 1 <==> s.carry)
  {
    if s.carry then 1 else 0
  }

  /** `set_flags_nz`: `set_zero(v == 0)`, then `set_negative` from bit 7. */
  function SetNZ(s: Status, v: bv8): Status
  {
    s.(zero := v == 0, negative := v & 0x80 == 0x80)
  }

  /** On the status byte, `set_flags_nz` is the two setter calls of the
      source: Zero iff the value is zero, Negative iff its bit 7 is set,
      every other bit kept. */
  lemma SetNZIsTwoSetters(s: Status, v: bv8)
    ensures ToByte(SetNZ(s, v)) == WithFlag(WithFlag(ToByte(s), Zero, v == 0), Negative, v >= 0x80)
  {
    SetZeroByte(s, v == 0);
    SetNegativeByte(s.(zero := v == 0), v >= 0x80);
  }

  /** The flags N, V, Z and C of `s` replaced by those of `t`: what is
      left is I, D, B and bit 5. */
  function KeepIDB(s: Status, t: Status): Status
  {
    t.(negative := s.negative, overflow := s.overflow, zero := s.zero, carry := s.carry)
  }

  /** Sign extension of a two's-complement byte to 16 bits: the low byte
      is the byte itself, and the high byte copies its bit 7. */
  function SignExtend(v: bv8): (w: bv16)
    ensures w & 0xFF == v as bv16
    ensures w >> 8 == if v >= 0x80 then 0xFF else 0x00
    ensures v < 0x80 ==> w == v as bv16
    ensures v >= 0x80 ==> w >= 0xFF80
  {
    if v < 0x80 then v as bv16 else v as bv16 | 0xFF00
  }

  /** A 16-bit two's-complement value lies outside the signed byte range
      -128..127. */
  predicate OutOfSignedRange(sum: bv16)
  {
    sum + 0x80 > 0xFF
  }

  /** Adding two bytes of the same sign gave a result of the other sign. */
  predicate SignedOverflow(a: bv8, m: bv8, r: bv8)
  {
    (a < 0x80 <==> m < 0x80) && (r < 0x80 <==> a >= 0x80)
  }

  // Byte arithmetic facts the handlers rely on, each about bytes alone.

  /** The wrapped byte sum is the low byte of the 16-bit sum. */
  lemma SumLowByte(a: bv8, m: bv8, c: bv8)
    ensures (a + c + m) as bv16 == (a as bv16 + m as bv16 + c as bv16) & 0xFF
  {
  }

  /** Adding `(M + C) mod 256` to A carries out of the byte exactly when
      `A + M + C` does, unless `M + C` wrapped to zero. */
  lemma WrappedCarry(a: bv8, m: bv8, c: bv8)
    requires c <= 1
    ensures a as bv16 + (m + c) as bv16 > 0xFF <==>
      a as bv16 + m as bv16 + c as bv16 > 0xFF && !(m == 0xFF && c == 1)
  {
  }

  /** Bit 7 of `(A ^ r) & (M ^ r)` is the sign rule for overflow. */
  lemma OverflowBit(a: bv8, m: bv8, r: bv8)
    ensures (a ^ r) & (m ^ r) & 0x80 != 0 <==> SignedOverflow(a, m, r)
  {
  }

  /** Adding the complement is subtracting one more. */
  lemma ComplementSum(a: bv8, m: bv8, c: bv8)
    ensures a + (m ^ 0xFF) + c == a - m - 1 + c
  {
  }

  /** Only zero complements to 0xFF. */
  lemma ComplementOfZero(m: bv8)
    ensures m ^ 0xFF == 0xFF <==> m == 0
  {
  }

  /** Adding the complement carries exactly when nothing is borrowed. */
  lemma BorrowCarry(a: bv8, m: bv8, c: bv8)
    requires c <= 1
    ensures a as bv16 + (m ^ 0xFF) as bv16 + c as bv16 > 0xFF <==> a as bv16 + c as bv16 > m as bv16
  {
  }

  /** The sign rule for two non-negative operands. */
  lemma SignRuleNonNegative(a: bv8, m: bv8, c: bv8)
    requires c <= 1 && a < 0x80 && m < 0x80
    ensures SignedOverflow(a, m, a + m + c) <==> OutOfSignedRange(SignExtend(a) + SignExtend(m) + c as bv16)
  {
  }

  /** The sign rule for two negative operands. */
  lemma SignRuleNegative(a: bv8, m: bv8, c: bv8)
    requires c <= 1 && a >= 0x80 && m >= 0x80
    ensures SignedOverflow(a, m, a + m + c) <==> OutOfSignedRange(SignExtend(a) + SignExtend(m) + c as bv16)
  {
  }

  /** Operands of opposite signs never overflow. */
  lemma SignRuleMixed(a: bv8, m: bv8, c: bv8)
    requires c <= 1 && (a < 0x80 <==> m >= 0x80)
    ensures SignedOverflow(a, m, a + m + c) <==> OutOfSignedRange(SignExtend(a) + SignExtend(m) + c as bv16)
  {
  }

  /** The sign rule is the range rule: `a + m + c` overflows exactly when
      its signed value does not fit a byte. */
  lemma SignRuleIsRangeRule(a: bv8, m: bv8, c: bv8)
    requires c <= 1
    ensures SignedOverflow(a, m, a + m + c) <==> OutOfSignedRange(SignExtend(a) + SignExtend(m) + c as bv16)
  {
    if a < 0x80 && m < 0x80 {
      SignRuleNonNegative(a, m, c);
    } else if a >= 0x80 && m >= 0x80 {
      SignRuleNegative(a, m, c);
    } else {
      SignRuleMixed(a, m, c);
    }
  }

  /** Complementing a byte negates its signed value and subtracts one. */
  lemma SignExtendComplement(m: bv8)
    ensures SignExtend(m ^ 0xFF) == 0xFFFF - SignExtend(m)
  {
  }

  /** The overflow bit ADC computes, `(A ^ r) & (M ^ r)` for
      `r = A + C + M`, for two non-negative operands. */
  lemma AddOverflowNonNegative(a: bv8, m: bv8, c: bv8)
    requires c <= 1 && a < 0x80 && m < 0x80
    ensures (a ^ (a + c + m)) & (m ^ (a + c + m)) & 0x80 != 0 <==>
      OutOfSignedRange(SignExtend(a) + SignExtend(m) + c as bv16)
  {
  }

  /** ADC's overflow bit for two negative operands. */
  lemma AddOverflowNegative(a: bv8, m: bv8, c: bv8)
    requires c <= 1 && a >= 0x80 && m >= 0x80
    ensures (a ^ (a + c + m)) & (m ^ (a + c + m)) & 0x80 != 0 <==>
      OutOfSignedRange(SignExtend(a) + SignExtend(m) + c as bv16)
  {
  }

  /** ADC's overflow bit for operands of opposite signs. */
  lemma AddOverflowMixed(a: bv8, m: bv8, c: bv8)
    requires c <= 1 && (a < 0x80 <==> m >= 0x80)
    ensures (a ^ (a + c + m)) & (m ^ (a + c + m)) & 0x80 != 0 <==>
      OutOfSignedRange(SignExtend(a) + SignExtend(m) + c as bv16)
  {
  }

  /** ADC's overflow bit is set exactly when the signed sum leaves the
      byte range. */
  lemma AddOverflow(a: bv8, m: bv8, c: bv8)
    requires c <= 1
    ensures (a ^ (a + c + m)) & (m ^ (a + c + m)) & 0x80 != 0 <==>
      OutOfSignedRange(SignExtend(a) + SignExtend(m) + c as bv16)
  {
    if a < 0x80 && m < 0x80 {
      AddOverflowNonNegative(a, m, c);
    } else if a >= 0x80 && m >= 0x80 {
      AddOverflowNegative(a, m, c);
    } else {
      AddOverflowMixed(a, m, c);
    }
  }

  /** SBC's overflow bit, for `r = A + (M ^ 0xFF) + C`, when A and M are
      both non-negative. */
  lemma SubtractOverflowNonNegative(a: bv8, m: bv8, c: bv8)
    requires c <= 1 && a < 0x80 && m < 0x80
    ensures (a ^ (a + (m ^ 0xFF) + c)) & ((m ^ 0xFF) ^ (a + (m ^ 0xFF) + c)) & 0x80 != 0 <==>
      OutOfSignedRange(SignExtend(a) - SignExtend(m) - 1 + c as bv16)
  {
  }

  /** SBC's overflow bit when A and M are both negative. */
  lemma SubtractOverflowNegative(a: bv8, m: bv8, c: bv8)
    requires c <= 1 && a >= 0x80 && m >= 0x80
    ensures (a ^ (a + (m ^ 0xFF) + c)) & ((m ^ 0xFF) ^ (a + (m ^ 0xFF) + c)) & 0x80 != 0 <==>
      OutOfSignedRange(SignExtend(a) - SignExtend(m) - 1 + c as bv16)
  {
  }

  /** SBC's overflow bit when A is non-negative and M negative. */
  lemma SubtractOverflowFromNonNegative(a: bv8, m: bv8, c: bv8)
    requires c <= 1 && a < 0x80 && m >= 0x80
    ensures (a ^ (a + (m ^ 0xFF) + c)) & ((m ^ 0xFF) ^ (a + (m ^ 0xFF) + c)) & 0x80 != 0 <==>
      OutOfSignedRange(SignExtend(a) - SignExtend(m) - 1 + c as bv16)
  {
  }

  /** SBC's overflow bit when A is negative and M non-negative. */
  lemma SubtractOverflowFromNegative(a: bv8, m: bv8, c: bv8)
    requires c <= 1 && a >= 0x80 && m < 0x80
    ensures (a ^ (a + (m ^ 0xFF) + c)) & ((m ^ 0xFF) ^ (a + (m ^ 0xFF) + c)) & 0x80 != 0 <==>
      OutOfSignedRange(SignExtend(a) - SignExtend(m) - 1 + c as bv16)
  {
  }

  /** SBC's overflow bit is set exactly when the signed difference
      `A - M - (1 - C)` leaves the byte range. */
  lemma SubtractOverflow(a: bv8, m: bv8, c: bv8)
    requires c <= 1
    ensures (a ^ (a + (m ^ 0xFF) + c)) & ((m ^ 0xFF) ^ (a + (m ^ 0xFF) + c)) & 0x80 != 0 <==>
      OutOfSignedRange(SignExtend(a) - SignExtend(m) - 1 + c as bv16)
  {
    if a < 0x80 && m < 0x80 {
      SubtractOverflowNonNegative(a, m, c);
    } else if a >= 0x80 && m >= 0x80 {
      SubtractOverflowNegative(a, m, c);
    } else if a < 0x80 {
      SubtractOverflowFromNonNegative(a, m, c);
    } else {
      SubtractOverflowFromNegative(a, m, c);
    }
  }

  /** With the carry in set, adding the complement on 16 bits carries
      exactly when `reg >= M`. */
  lemma CompareBorrow(reg: bv8, m: bv8)
    ensures reg as bv16 + (m ^ 0xFF) as bv16 + 1 > 0xFF <==> reg >= m
  {
  }

  /** With the carry in set, adding the complement is subtracting. */
  lemma CompareDifference(reg: bv8, m: bv8)
    ensures reg + (m ^ 0xFF) + 1 == reg - m
  {
  }

  /** `reg + 1 > M` on 16 bits is `reg >= M`. */
  lemma CompareCarry(reg: bv8, m: bv8)
    ensures reg as bv16 + 1 > m as bv16 <==> reg >= m
  {
  }

  /** A difference is zero exactly for equal operands. */
  lemma DifferenceZero(reg: bv8, m: bv8)
    ensures reg - m == 0 <==> reg == m
  {
  }

  /** Testing bit 7 with a mask is comparing against 0x80. */
  lemma Bit7(v: bv8)
    ensures (v & 0x80 != 0) == (v >= 0x80)
  {
  }

  /** A left shift is the low byte of the doubled value. */
  lemma DoubleLowByte(v: bv8)
    ensures (v << 1) as bv16 == (v as bv16 * 2) & 0xFF
  {
  }

  /** A right shift halves. */
  lemma HalveByte(v: bv8)
    ensures (v >> 1) as bv16 == v as bv16 / 2
  {
  }

  /** After a right shift bit 7 is clear, and the byte is zero exactly
      when it was 0 or 1. */
  lemma HalveFlags(v: bv8)
    ensures (v >> 1) & 0x80 != 0x80
    ensures v >> 1 == 0 <==> v <= 1
  {
  }

  /** The two shifts undo each other up to the bit shifted out. */
  lemma ShiftBits(v: bv8)
    ensures (v << 1) >> 1 == v & 0x7F
    ensures (v >> 1) << 1 == v & 0xFE
  {
  }

  /** Doubling and adding a carry of 0 or 1 is shifting it into bit 0. */
  lemma RotateLeftBits(v: bv8, c: bv8)
    requires c <= 1
    ensures v * 2 + c == (v << 1) | c
  {
  }

  /** Halving and adding 128 times a carry is shifting it into bit 7. */
  lemma RotateRightBits(v: bv8, c: bv8)
    requires c <= 1
    ensures v / 2 + c * 128 == (v >> 1) | (c << 7)
  {
  }

  /** The left rotation through a carry bit is undone by the right one:
      the byte and the carry come back. */
  lemma RotateLeftThenRight(v: bv8, c: bv8)
    requires c <= 1
    ensures (((v << 1) | c) >> 1) | ((if v >= 0x80 then 1 else 0) << 7) == v
    ensures ((v << 1) | c) & 1 == 1 <==> c == 1
  {
  }

  /** The right rotation through a carry bit is undone by the left one. */
  lemma RotateRightThenLeft(v: bv8, c: bv8)
    requires c <= 1
    ensures (((v >> 1) | (c << 7)) << 1) | (if v & 1 == 1 then 1 else 0) == v
    ensures (v >> 1) | (c << 7) >= 0x80 <==> c == 1
  {
  }

  /** Bit 7 shifted down to bit 0 is the carry it would give. */
  lemma TopBit(v: bv8)
    ensures v >> 7 == if v >= 0x80 then 1 else 0
  {
  }

  /** Doubling and adding the byte's own bit 7 rotates it by one. */
  lemma RotateOwnBit(v: bv8)
    ensures v * 2 + (if v & 0x80 != 0 then 1 else 0) == (v << 1) | (v >> 7)
  {
  }

  // The handlers. Each is a function of the operands and the status; the
  // lemmas after it state what the result means, one fact per lemma.

  /** ADC: A + M + C. Overflow is bit 7 of `(A^r) & (M^r)`; the carry is
      `A + ((M + C) mod 256) > 0xFF`, computed on the already-wrapped
      `M + C`. */
  function Adc(a: bv8, m: bv8, s: Status): Output
  {
    var c := CarryIn(s);
    var result := a + c + m;
    var withOverflow := s.(overflow := (a ^ result) & (m ^ result) & 0x80 != 0);
    var carryCheck := a as bv16 + (m + c) as bv16;
    var withCarry := withOverflow.(carry := carryCheck > 0xFF);
    Output(result, SetNZ(withCarry, result))
  }

  /** ADC's sum is the low byte of `A + M + C`. */
  lemma {:induction false} AdcValue(a: bv8, m: bv8, s: Status)
    ensures Adc(a, m, s).value as bv16 == (a as bv16 + m as bv16 + CarryIn(s) as bv16) & 0xFF
  {
    SumLowByte(a, m, CarryIn(s));
  }

  /** ADC's carry is the carry out of the 9-bit sum, except when M is 0xFF
      and the carry in is set: `M + C` has then wrapped to 0 and no carry
      is reported. */
  lemma {:induction false} AdcCarry(a: bv8, m: bv8, s: Status)
    ensures Adc(a, m, s).status.carry <==>
      a as bv16 + m as bv16 + CarryIn(s) as bv16 > 0xFF && !(m == 0xFF && s.carry)
  {
    WrappedCarry(a, m, CarryIn(s));
  }

  /** ADC sets Overflow when both operands have one sign and the sum the
      other. */
  lemma {:induction false} AdcOverflowSign(a: bv8, m: bv8, s: Status)
    ensures Adc(a, m, s).status.overflow <==> SignedOverflow(a, m, Adc(a, m, s).value)
  {
    OverflowBit(a, m, Adc(a, m, s).value);
  }

  /** ADC sets Zero from the sum. */
  lemma AdcZero(a: bv8, m: bv8, s: Status)
    ensures Adc(a, m, s).status.zero <==> Adc(a, m, s).value == 0
  {
  }

  /** ADC sets Negative from bit 7 of the sum. */
  lemma {:induction false} AdcNegative(a: bv8, m: bv8, s: Status)
    ensures Adc(a, m, s).status.negative <==> Adc(a, m, s).value >= 0x80
  {
    Bit7(Adc(a, m, s).value);
  }

  /** ADC leaves I, D, B and bit 5 alone. */
  lemma AdcKeeps(a: bv8, m: bv8, s: Status)
    ensures KeepIDB(s, Adc(a, m, s).status) == s
  {
  }

  /** ADC's overflow is signed overflow of `A + M + C`. */
  lemma {:induction false} AdcOverflow(a: bv8, m: bv8, s: Status)
    ensures Adc(a, m, s).status.overflow <==>
      OutOfSignedRange(SignExtend(a) + SignExtend(m) + CarryIn(s) as bv16)
  {
    AddOverflow(a, m, CarryIn(s));
  }

  /** SBC: the addition of `M ^ 0xFF` with a full-width carry check. */
  function Sbc(a: bv8, m: bv8, s: Status): Output
  {
    var value := m ^ 0xFF;
    var c := CarryIn(s);
    var result := a + value + c;
    var withOverflow := s.(overflow := (a ^ result) & (value ^ result) & 0x80 != 0);
    var carryCheck := a as bv16 + value as bv16 + c as bv16;
    var withCarry := withOverflow.(carry := carryCheck > 0xFF);
    Output(result, SetNZ(withCarry, result))
  }

  /** SBC leaves `A - M - (1 - C)`. */
  lemma {:induction false} SbcValue(a: bv8, m: bv8, s: Status)
    ensures Sbc(a, m, s).value == a - m - 1 + CarryIn(s)
  {
    ComplementSum(a, m, CarryIn(s));
  }

  /** SBC's carry means "no borrow": `A + C > M`. */
  lemma {:induction false} SbcCarry(a: bv8, m: bv8, s: Status)
    ensures Sbc(a, m, s).status.carry <==> a as bv16 + CarryIn(s) as bv16 > m as bv16
  {
    BorrowCarry(a, m, CarryIn(s));
  }

  /** SBC sets Overflow by the ADC rule applied to `M ^ 0xFF`. */
  lemma {:induction false} SbcOverflowSign(a: bv8, m: bv8, s: Status)
    ensures Sbc(a, m, s).status.overflow <==> SignedOverflow(a, m ^ 0xFF, Sbc(a, m, s).value)
  {
    OverflowBit(a, m ^ 0xFF, Sbc(a, m, s).value);
  }

  /** SBC sets Zero from the difference. */
  lemma SbcZero(a: bv8, m: bv8, s: Status)
    ensures Sbc(a, m, s).status.zero <==> Sbc(a, m, s).value == 0
  {
  }

  /** SBC sets Negative from bit 7 of the difference. */
  lemma {:induction false} SbcNegative(a: bv8, m: bv8, s: Status)
    ensures Sbc(a, m, s).status.negative <==> Sbc(a, m, s).value >= 0x80
  {
    Bit7(Sbc(a, m, s).value);
  }

  /** SBC leaves I, D, B and bit 5 alone. */
  lemma SbcKeeps(a: bv8, m: bv8, s: Status)
    ensures KeepIDB(s, Sbc(a, m, s).status) == s
  {
  }

  /** SBC's overflow is signed overflow of `A - M - (1 - C)`. */
  lemma {:induction false} SbcOverflow(a: bv8, m: bv8, s: Status)
    ensures Sbc(a, m, s).status.overflow <==>
      OutOfSignedRange(SignExtend(a) - SignExtend(m) - 1 + CarryIn(s) as bv16)
  {
    SubtractOverflow(a, m, CarryIn(s));
  }

  /** SBC's sum is ADC's sum of the complemented operand. */
  lemma SbcValueIsAdcValue(a: bv8, m: bv8, s: Status)
    ensures Sbc(a, m, s).value == Adc(a, m ^ 0xFF, s).value
  {
  }

  /** The two carry checks agree except for M = 0 with the carry in set,
      where ADC's `M + C` has wrapped. */
  lemma {:induction false} SbcCarryIsAdcCarry(a: bv8, m: bv8, s: Status)
    ensures Sbc(a, m, s).status.carry ==
      (Adc(a, m ^ 0xFF, s).status.carry || (m == 0 && s.carry))
  {
    WrappedCarry(a, m ^ 0xFF, CarryIn(s));
    ComplementOfZero(m);
  }

  /** SBC is ADC of the complemented operand, except where ADC's wrapped
      carry check differs from SBC's full-width one: M = 0 with the carry
      in set, where SBC reports no borrow and ADC reports no carry. */
  lemma {:induction false} SbcIsAdcOfComplement(a: bv8, m: bv8, s: Status)
    ensures Sbc(a, m, s) == Adc(a, m ^ 0xFF, s).(status :=
      Adc(a, m ^ 0xFF, s).status.(carry := Adc(a, m ^ 0xFF, s).status.carry || (m == 0 && s.carry)))
  {
    SbcValueIsAdcValue(a, m, s);
    SbcCarryIsAdcCarry(a, m, s);
  }

  /** Subtracting with the carry set undoes adding with the carry clear. */
  lemma {:induction false} SbcUndoesAdc(a: bv8, m: bv8, s: Status, t: Status)
    requires !s.carry && t.carry
    ensures Sbc(Adc(a, m, s).value, m, t).value == a
  {
    SbcValue(Adc(a, m, s).value, m, t);
  }

  /** CMP, CPX, CPY: `reg - M` sets N and Z, Carry is `reg >= M`; the
      register itself is not written. */
  function Compare(reg: bv8, m: bv8, s: Status): (r: Status)
    ensures r.carry <==> reg >= m
    ensures r.(negative := s.negative, zero := s.zero, carry := s.carry) == s
  {
    var result := reg - m;
    SetNZ(s.(carry := reg >= m), result)
  }

  /** A compare sets Zero exactly for equal operands. */
  lemma {:induction false} CompareZero(reg: bv8, m: bv8, s: Status)
    ensures Compare(reg, m, s).zero <==> reg == m
  {
    DifferenceZero(reg, m);
  }

  /** A compare sets Negative from bit 7 of the difference. */
  lemma {:induction false} CompareNegative(reg: bv8, m: bv8, s: Status)
    ensures Compare(reg, m, s).negative <==> reg - m >= 0x80
  {
    Bit7(reg - m);
  }

  /** With the carry set, SBC's carry is the compare's `reg >= M`. */
  lemma {:induction false} CompareCarryIsSbcCarry(reg: bv8, m: bv8, s: Status)
    requires s.carry
    ensures Compare(reg, m, s).carry == Sbc(reg, m, s).status.carry
  {
    CompareBorrow(reg, m);
  }

  /** With the carry set, SBC leaves the plain difference. */
  lemma {:induction false} SbcWithCarryIsDifference(reg: bv8, m: bv8, s: Status)
    requires s.carry
    ensures Sbc(reg, m, s).value == reg - m
  {
    CompareDifference(reg, m);
  }

  /** With the carry set, SBC's Zero is the compare's. */
  lemma {:induction false} CompareZeroIsSbcZero(reg: bv8, m: bv8, s: Status)
    requires s.carry
    ensures Compare(reg, m, s).zero == Sbc(reg, m, s).status.zero
  {
    SbcWithCarryIsDifference(reg, m, s);
    SbcZero(reg, m, s);
    CompareZero(reg, m, s);
    DifferenceZero(reg, m);
  }

  /** With the carry set, SBC's Negative is the compare's. */
  lemma {:induction false} CompareNegativeIsSbcNegative(reg: bv8, m: bv8, s: Status)
    requires s.carry
    ensures Compare(reg, m, s).negative == Sbc(reg, m, s).status.negative
  {
    SbcWithCarryIsDifference(reg, m, s);
    SbcNegative(reg, m, s);
    CompareNegative(reg, m, s);
  }

  /** A compare sets C, Z and N exactly as SBC with the carry set would,
      and leaves Overflow alone where SBC would set it. */
  lemma {:induction false} CompareIsSubtraction(reg: bv8, m: bv8, s: Status)
    requires s.carry
    ensures Compare(reg, m, s).carry == Sbc(reg, m, s).status.carry
    ensures Compare(reg, m, s).zero == Sbc(reg, m, s).status.zero
    ensures Compare(reg, m, s).negative == Sbc(reg, m, s).status.negative
    ensures Compare(reg, m, s).overflow == s.overflow
  {
    CompareCarryIsSbcCarry(reg, m, s);
    CompareZeroIsSbcZero(reg, m, s);
    CompareNegativeIsSbcNegative(reg, m, s);
  }

  /** ASL (both forms): Carry takes bit 7, then the byte shifts left. */
  function ShiftLeft(v: bv8, s: Status): Output
  {
    var withCarry := s.(carry := v & 0x80 != 0);
    var result := v << 1;
    Output(result, SetNZ(withCarry, result))
  }

  /** ASL leaves the low byte of `2 v`. */
  lemma {:induction false} ShiftLeftValue(v: bv8, s: Status)
    ensures ShiftLeft(v, s).value as bv16 == (v as bv16 * 2) & 0xFF
  {
    DoubleLowByte(v);
  }

  /** ASL sets N and Z from the result and Carry from the old bit 7. */
  lemma {:induction false} ShiftLeftStatus(v: bv8, s: Status)
    ensures ShiftLeft(v, s).status == SetNZ(s, ShiftLeft(v, s).value).(carry := v >= 0x80)
  {
    Bit7(v);
  }

  /** LSR (both forms): Carry takes bit 0, then the byte shifts right. */
  function ShiftRight(v: bv8, s: Status): Output
  {
    var withCarry := s.(carry := v & 0x1 != 0);
    var result := v >> 1;
    Output(result, SetNZ(withCarry, result))
  }

  /** LSR leaves half the byte, rounded down. */
  lemma {:induction false} ShiftRightValue(v: bv8, s: Status)
    ensures ShiftRight(v, s).value as bv16 == v as bv16 / 2
  {
    HalveByte(v);
  }

  /** LSR sets N and Z from the result and Carry from the old bit 0. */
  lemma ShiftRightStatus(v: bv8, s: Status)
    ensures ShiftRight(v, s).status == SetNZ(s, ShiftRight(v, s).value).(carry := v & 1 == 1)
  {
  }

  /** After LSR Negative is clear. */
  lemma {:induction false} ShiftRightClearsNegative(v: bv8, s: Status)
    ensures !ShiftRight(v, s).status.negative
  {
    HalveFlags(v);
  }

  /** After LSR Zero is set exactly when the byte was 0 or 1. */
  lemma {:induction false} ShiftRightZero(v: bv8, s: Status)
    ensures ShiftRight(v, s).status.zero <==> v <= 1
  {
    HalveFlags(v);
  }

  /** A right shift undoes a left shift up to bit 7. */
  lemma {:induction false} ShiftRightUndoesLeft(v: bv8, s: Status, t: Status)
    ensures ShiftRight(ShiftLeft(v, s).value, t).value == v & 0x7F
  {
    ShiftBits(v);
  }

  /** A left shift undoes a right shift up to bit 0. */
  lemma {:induction false} ShiftLeftUndoesRight(v: bv8, s: Status, t: Status)
    ensures ShiftLeft(ShiftRight(v, s).value, t).value == v & 0xFE
  {
    ShiftBits(v);
  }

  /** ROL on the accumulator (`ROL_2A`): the old carry enters bit 0 and
      Carry takes the old bit 7. */
  function RotateLeftAccumulator(v: bv8, s: Status): Output
  {
    var newCarry := v & 0x80 != 0;
    var result := v * 2 + CarryIn(s);
    var withCarry := s.(carry := newCarry);
    Output(result, SetNZ(withCarry, result))
  }

  /** The accumulator ROL shifts the old carry into bit 0. */
  lemma {:induction false} RotateLeftAccumulatorValue(v: bv8, s: Status)
    ensures RotateLeftAccumulator(v, s).value == (v << 1) | CarryIn(s)
  {
    RotateLeftBits(v, CarryIn(s));
  }

  /** The accumulator ROL sets N and Z from the result and Carry from the
      old bit 7. */
  lemma {:induction false} RotateLeftAccumulatorStatus(v: bv8, s: Status)
    ensures RotateLeftAccumulator(v, s).status ==
      SetNZ(s, RotateLeftAccumulator(v, s).value).(carry := v >= 0x80)
  {
    Bit7(v);
  }

  /** ROR (both forms): the old carry enters bit 7 and Carry takes the
      old bit 0. */
  function RotateRight(v: bv8, s: Status): Output
  {
    var newCarry := v & 0x1 != 0;
    var result := v / 2 + CarryIn(s) * 128;
    var nz := SetNZ(s, result);
    Output(result, nz.(carry := newCarry))
  }

  /** ROR shifts the old carry into bit 7. */
  lemma {:induction false} RotateRightValue(v: bv8, s: Status)
    ensures RotateRight(v, s).value == (v >> 1) | (CarryIn(s) << 7)
  {
    RotateRightBits(v, CarryIn(s));
  }

  /** ROR sets N and Z from the result and Carry from the old bit 0. */
  lemma RotateRightStatus(v: bv8, s: Status)
    ensures RotateRight(v, s).status == SetNZ(s, RotateRight(v, s).value).(carry := v & 1 == 1)
  {
  }

  /** ROR after the accumulator ROL gives the byte back. */
  lemma {:induction false} RotateRightUndoesLeft(v: bv8, s: Status)
    ensures RotateRight(RotateLeftAccumulator(v, s).value, RotateLeftAccumulator(v, s).status).value == v
  {
    var t := RotateLeftAccumulator(v, s).status;
    RotateLeftAccumulatorValue(v, s);
    RotateLeftAccumulatorStatus(v, s);
    RotateRightValue(RotateLeftAccumulator(v, s).value, t);
    RotateLeftThenRight(v, CarryIn(s));
  }

  /** ROR after the accumulator ROL gives the carry back. */
  lemma {:induction false} RotateRightRestoresCarry(v: bv8, s: Status)
    ensures RotateRight(RotateLeftAccumulator(v, s).value, RotateLeftAccumulator(v, s).status).status.carry == s.carry
  {
    RotateLeftAccumulatorValue(v, s);
    RotateLeftThenRight(v, CarryIn(s));
  }

  /** The accumulator ROL after ROR gives the byte back. */
  lemma {:induction false} RotateLeftUndoesRight(v: bv8, s: Status)
    ensures RotateLeftAccumulator(RotateRight(v, s).value, RotateRight(v, s).status).value == v
  {
    var t := RotateRight(v, s).status;
    RotateRightValue(v, s);
    RotateRightStatus(v, s);
    RotateLeftAccumulatorValue(RotateRight(v, s).value, t);
    RotateRightThenLeft(v, CarryIn(s));
  }

  /** The accumulator ROL after ROR gives the carry back. */
  lemma {:induction false} RotateLeftRestoresCarry(v: bv8, s: Status)
    ensures RotateLeftAccumulator(RotateRight(v, s).value, RotateRight(v, s).status).status.carry == s.carry
  {
    RotateRightValue(v, s);
    RotateLeftAccumulatorStatus(RotateRight(v, s).value, RotateRight(v, s).status);
    RotateRightThenLeft(v, CarryIn(s));
  }

  /** ROL on memory (`ROL(address)`): Carry is set from bit 7 first, and
      the carry added back is that new one. */
  function RotateLeftMemory(v: bv8, s: Status): Output
  {
    var withCarry := s.(carry := v & 0x80 != 0);
    var result := v * 2 + CarryIn(withCarry);
    Output(result, SetNZ(withCarry, result))
  }

  /** The memory ROL puts the old bit 7 into bit 0: the byte rotates onto
      itself. */
  lemma {:induction false} RotateLeftMemoryValue(v: bv8, s: Status)
    ensures RotateLeftMemory(v, s).value == (v << 1) | (v >> 7)
  {
    RotateOwnBit(v);
  }

  /** The memory ROL sets N and Z from the result and Carry from the old
      bit 7. */
  lemma {:induction false} RotateLeftMemoryStatus(v: bv8, s: Status)
    ensures RotateLeftMemory(v, s).status == SetNZ(s, RotateLeftMemory(v, s).value).(carry := v >= 0x80)
  {
    Bit7(v);
  }

  /** The memory ROL is the accumulator ROL run with the carry already
      replaced by bit 7, so the old carry is lost. */
  lemma {:induction false} RotateLeftMemoryIsAccumulatorWithOwnBit(v: bv8, s: Status)
    ensures RotateLeftMemory(v, s) == RotateLeftAccumulator(v, s.(carry := v & 0x80 != 0))
  {
    var t := s.(carry := v & 0x80 != 0);
    assert t.(carry := v & 0x80 != 0) == t;
  }

  /** BIT: Zero from `A & M`, Negative from bit 7 and Overflow from bit 6
      of M; A is not written. */
  function BitTest(a: bv8, m: bv8, s: Status): (r: Status)
    ensures r.zero <==> a & m == 0
    ensures r.negative <==> m >= 0x80
    ensures r.overflow <==> m & 0x40 != 0
    ensures r.(negative := s.negative, overflow := s.overflow, zero := s.zero) == s
  {
    var result := a & m;
    s.(zero := result == 0).(negative := CheckBit(m, 7)).(overflow := CheckBit(m, 6))
  }
}
