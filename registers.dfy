/** The CPU's registers: wrapping 8-bit and 16-bit registers, and the
    status register whose named flags are single bits of one byte
    (bit 5 has no flag). */
module Registers {
  import opened Bitwise

  /** 8-bit increment with wrap-around (`reg_value++` on a `u8`). */
  function Inc8(v: bv8): (r: bv8)
    ensures v == 0xFF <==> r == 0
    ensures v != 0xFF ==> r > v && r - v == 1
  {
    v + 1
  }

  /** 8-bit decrement with wrap-around (`reg_value--` on a `u8`). */
  function Dec8(v: bv8): (r: bv8)
    ensures v == 0 <==> r == 0xFF
    ensures v != 0 ==> r < v && v - r == 1
  {
    v - 1
  }

  /** 16-bit increment with wrap-around (`reg_value++` on a `u16`). */
  function Inc16(v: bv16): (r: bv16)
    ensures v == 0xFFFF <==> r == 0
    ensures v != 0xFFFF ==> r > v && r - v == 1
  {
    v + 1
  }

  /** 16-bit decrement with wrap-around (`reg_value--` on a `u16`). */
  function Dec16(v: bv16): (r: bv16)
    ensures v == 0 <==> r == 0xFFFF
    ensures v != 0 ==> r < v && v - r == 1
  {
    v - 1
  }

  /** Increment and decrement undo each other, at both widths. */
  lemma IncDecInverse(b: bv8, w: bv16)
    ensures Dec8(Inc8(b)) == b && Inc8(Dec8(b)) == b
    ensures Dec16(Inc16(w)) == w && Inc16(Dec16(w)) == w
  {
  }

  /** `ByteRegister`: one wrapping byte. */
  class ByteRegister {
    var regValue: bv8

    constructor ()
    {
    }

    /** `value` */
    function Value(): bv8
      reads this
    {
      regValue
    }

    /** `set` */
    method Set(value: bv8)
      modifies this
      ensures Value() == value
    {
      regValue := value;
    }

    /** `increment` */
    method Increment()
      modifies this
      ensures Value() == Inc8(old(Value()))
    {
      regValue := regValue + 1;
    }

    /** `decrement` */
    method Decrement()
      modifies this
      ensures Value() == Dec8(old(Value()))
    {
      regValue := regValue - 1;
    }

    /** `reset`: `set(0x00)`. */
    method Reset()
      modifies this
      ensures Value() == 0
    {
      Set(0x00);
    }
  }

  /** `WordRegister`: one wrapping 16-bit word (it has no `reset`). */
  class WordRegister {
    var regValue: bv16

    constructor ()
    {
    }

    /** `value` */
    function Value(): bv16
      reads this
    {
      regValue
    }

    /** `set` */
    method Set(value: bv16)
      modifies this
      ensures Value() == value
    {
      regValue := value;
    }

    /** `increment` */
    method Increment()
      modifies this
      ensures Value() == Inc16(old(Value()))
    {
      regValue := regValue + 1;
    }

    /** `decrement` */
    method Decrement()
      modifies this
      ensures Value() == Dec16(old(Value()))
    {
      regValue := regValue - 1;
    }
  }

  /** The seven named flags of the status register. */
  datatype Flag = Carry | Zero | InterruptDisable | DecimalMode | BreakCommand | Overflow | Negative

  /** Bit position of each flag: 0 to 4, 6 and 7. */
  function FlagBit(f: Flag): (i: nat)
    ensures i < 8 && i != 5
  {
    match f
    case Carry => 0
    case Zero => 1
    case InterruptDisable => 2
    case DecimalMode => 3
    case BreakCommand => 4
    case Overflow => 6
    case Negative => 7
  }

  /** Different flags live in different bits. */
  lemma FlagBitInjective(f: Flag, g: Flag)
    requires f != g
    ensures FlagBit(f) != FlagBit(g)
  {
  }

  /** `get_carry` ... `get_negative`: `check_bit` at the flag's bit. */
  function GetFlag(p: bv8, f: Flag): (on: bool)
    ensures on <==> IsSet(p, FlagBit(f))
  {
    CheckBit(p, FlagBit(f))
  }

  /** `set_carry` ... `set_negative`: `set_bit_to` at the flag's bit. The
      flag reads back as `on`, every other flag and bit 5 are unchanged. */
  function WithFlag(p: bv8, f: Flag, on: bool): (r: bv8)
    ensures GetFlag(r, f) == on
    ensures SameExcept(r, p, FlagBit(f))
    ensures IsSet(r, 5) == IsSet(p, 5)
  {
    SetBitToMeaning(p, FlagBit(f), on);
    SetBitTo(p, FlagBit(f), on)
  }

  /** Setting one flag leaves every other flag as it was. */
  lemma OtherFlagsUnchanged(p: bv8, f: Flag, on: bool, g: Flag)
    requires g != f
    ensures GetFlag(WithFlag(p, f, on), g) == GetFlag(p, g)
  {
    FlagBitInjective(f, g);
    SameExceptBitwise(WithFlag(p, f, on), p, FlagBit(f), FlagBit(g));
  }

  /** Setting a flag to the value it already has changes nothing, and in
      particular setting it twice to the same value is the same as once. */
  lemma {:induction false} WithFlagIdempotent(p: bv8, f: Flag, on: bool)
    ensures GetFlag(p, f) == on ==> WithFlag(p, f, on) == p
    ensures WithFlag(WithFlag(p, f, on), f, on) == WithFlag(p, f, on)
  {
    if GetFlag(p, f) == on {
      SetBitToUnchanged(p, FlagBit(f), on);
    }
    SetBitToUnchanged(WithFlag(p, f, on), FlagBit(f), on);
  }

  /** `StatusRegister`: a byte register with named flag accessors. The
      source derives it from `ByteRegister`; here it is a class of its own
      with the byte-register operations the CPU uses on it. */
  class StatusRegister {
    var regValue: bv8

    constructor ()
    {
    }

    /** `value` */
    function Value(): bv8
      reads this
    {
      regValue
    }

    /** `set` */
    method Set(value: bv8)
      modifies this
      ensures Value() == value
    {
      regValue := value;
    }

    /** `reset` */
    method Reset()
      modifies this
      ensures Value() == 0
    {
      Set(0x00);
    }

    /** `get_carry` ... `get_negative` */
    function Get(f: Flag): bool
      reads this
    {
      GetFlag(regValue, f)
    }

    /** `set_carry` ... `set_negative` */
    method SetFlag(f: Flag, on: bool)
      modifies this
      ensures Value() == WithFlag(old(Value()), f, on)
      ensures Get(f) == on
    {
      regValue := SetBitTo(regValue, FlagBit(f), on);
    }
  }

  /** The status byte bit by bit, as the CPU model holds it: the seven
      flags and the flagless bit 5. `ToByte` and `FromByte` convert
      between the two views, and the lemmas below show that reading or
      setting a flag here is `check_bit` or `set_bit_to` on the byte. */
  datatype Status = Status(
    carry: bool,
    zero: bool,
    interruptDisable: bool,
    decimalMode: bool,
    breakCommand: bool,
    bit5: bool,
    overflow: bool,
    negative: bool)
  {
    /** The flag `f`. */
    function Get(f: Flag): bool
    {
      match f
      case Carry => carry
      case Zero => zero
      case InterruptDisable => interruptDisable
      case DecimalMode => decimalMode
      case BreakCommand => breakCommand
      case Overflow => overflow
      case Negative => negative
    }

    /** This status with flag `f` set to `on`. */
    function With(f: Flag, on: bool): Status
    {
      match f
      case Carry => this.(carry := on)
      case Zero => this.(zero := on)
      case InterruptDisable => this.(interruptDisable := on)
      case DecimalMode => this.(decimalMode := on)
      case BreakCommand => this.(breakCommand := on)
      case Overflow => this.(overflow := on)
      case Negative => this.(negative := on)
    }
  }

  /** `mask` when `on`, zero otherwise. */
  function BitIf(on: bool, mask: bv8): bv8
  {
    if on then mask else 0
  }

  /** The status byte: bit 0 is Carry, ..., bit 7 is Negative. */
  function ToByte(s: Status): bv8
  {
    BitIf(s.carry, 0x01) | BitIf(s.zero, 0x02) | BitIf(s.interruptDisable, 0x04)
      | BitIf(s.decimalMode, 0x08) | BitIf(s.breakCommand, 0x10) | BitIf(s.bit5, 0x20)
      | BitIf(s.overflow, 0x40) | BitIf(s.negative, 0x80)
  }

  /** The flags of a status byte. */
  function FromByte(b: bv8): Status
  {
    Status(
      carry := b & 0x01 != 0,
      zero := b & 0x02 != 0,
      interruptDisable := b & 0x04 != 0,
      decimalMode := b & 0x08 != 0,
      breakCommand := b & 0x10 != 0,
      bit5 := b & 0x20 != 0,
      overflow := b & 0x40 != 0,
      negative := b & 0x80 != 0)
  }

  /** The two views are the same information. */
  lemma ByteRoundTrip(s: Status, b: bv8)
    ensures FromByte(ToByte(s)) == s
    ensures ToByte(FromByte(b)) == b
  {
  }

  /** Each flag of the record is the getter on the byte, and bit 5 is
      bit 5. */
  lemma GetIsCheckBit(s: Status, f: Flag)
    ensures s.Get(f) == GetFlag(ToByte(s), f)
    ensures s.bit5 == IsSet(ToByte(s), 5)
  {
  }

  /** Setting a flag of the record is the setter on the byte. */
  lemma {:induction false} WithIsSetBitTo(s: Status, f: Flag, on: bool)
    ensures ToByte(s.With(f, on)) == WithFlag(ToByte(s), f, on)
  {
    match f
    case Carry => SetCarryByte(s, on);
    case Zero => SetZeroByte(s, on);
    case InterruptDisable => SetInterruptDisableByte(s, on);
    case DecimalMode => SetDecimalModeByte(s, on);
    case BreakCommand => SetBreakCommandByte(s, on);
    case Overflow => SetOverflowByte(s, on);
    case Negative => SetNegativeByte(s, on);
  }

  /** `set_carry` on the byte. */
  lemma SetCarryByte(s: Status, on: bool)
    ensures ToByte(s.(carry := on)) == WithFlag(ToByte(s), Carry, on)
  {
  }

  /** `set_zero` on the byte. */
  lemma SetZeroByte(s: Status, on: bool)
    ensures ToByte(s.(zero := on)) == WithFlag(ToByte(s), Zero, on)
  {
  }

  /** `set_interrupt_disable` on the byte. */
  lemma SetInterruptDisableByte(s: Status, on: bool)
    ensures ToByte(s.(interruptDisable := on)) == WithFlag(ToByte(s), InterruptDisable, on)
  {
  }

  /** `set_decimal_mode` on the byte. */
  lemma SetDecimalModeByte(s: Status, on: bool)
    ensures ToByte(s.(decimalMode := on)) == WithFlag(ToByte(s), DecimalMode, on)
  {
  }

  /** `set_break_command` on the byte. */
  lemma SetBreakCommandByte(s: Status, on: bool)
    ensures ToByte(s.(breakCommand := on)) == WithFlag(ToByte(s), BreakCommand, on)
  {
  }

  /** `set_overflow` on the byte. */
  lemma SetOverflowByte(s: Status, on: bool)
    ensures ToByte(s.(overflow := on)) == WithFlag(ToByte(s), Overflow, on)
  {
  }

  /** `set_negative` on the byte. */
  lemma SetNegativeByte(s: Status, on: bool)
    ensures ToByte(s.(negative := on)) == WithFlag(ToByte(s), Negative, on)
  {
  }
}
