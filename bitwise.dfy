/** Bit helpers of the emulator: single-bit test, set and clear on a byte,
    and the assembly of bytes from nibbles and of words from bytes.
    A bit position is a C++ `u8`; the source shifts an `int` by it in
    `check_bit`/`get_bit` (undefined from 32 on) and an `unsigned long`
    in `set_bit`/`clear_bit` (undefined from 64 on), which the
    preconditions below reflect. */
module Bitwise {

  /** Place value of bit `i` of a byte, written out case by case so that
      the shift-based helpers below are checked against an independent
      definition. */
  function PlaceValue(i: nat): bv8
    requires i < 8
  {
    match i
    case 0 => 0x01
    case 1 => 0x02
    case 2 => 0x04
    case 3 => 0x08
    case 4 => 0x10
    case 5 => 0x20
    case 6 => 0x40
    case _ => 0x80
  }

  /** Bit `i` of `v` is one. */
  predicate IsSet(v: bv8, i: nat)
    requires i < 8
  {
    v & PlaceValue(i) != 0
  }

  /** Two bytes agree on every bit except possibly bit `i`. */
  predicate SameExcept(v: bv8, w: bv8, i: nat)
    requires i < 8
  {
    v & !PlaceValue(i) == w & !PlaceValue(i)
  }

  /** `check_bit`: the bit at position `bit`; positions 8 and above of a
      byte are zero. */
  function CheckBit(value: bv8, bit: nat): (on: bool)
    requires bit < 32
    ensures on <==> bit < 8 && IsSet(value, bit)
  {
    if bit < 8 then (value >> bit) & 1 == 1 else false
  }

  /** `get_bit`: the same shift-and-mask as `check_bit` (C++ gives `>>`
      precedence over `&`), so the two helpers agree everywhere. */
  function GetBit(value: bv8, bit: nat): (on: bool)
    requires bit < 32
    ensures on == CheckBit(value, bit)
  {
    if bit < 8 then (value >> bit) & 1 != 0 else false
  }

  /** The byte-wide part of `1UL << bit`, taken from the place-value
      table; `MaskIsShift` shows it is the shift. */
  function Mask(bit: nat): (m: bv8)
    requires bit < 8
  {
    PlaceValue(bit)
  }

  /** The place value of bit `bit` is `1 << bit`. */
  lemma MaskIsShift(bit: nat)
    requires bit < 8
    ensures Mask(bit) == 1 << bit
  {
  }

  /** `set_bit`: ORs in `1UL << bit` and truncates to a byte. */
  function SetBit(value: bv8, bit: nat): bv8
    requires bit < 64
  {
    if bit < 8 then value | Mask(bit) else value
  }

  /** `set_bit` turns bit `bit` on and leaves the other bits alone; a
      position beyond the byte changes nothing. */
  lemma SetBitMeaning(value: bv8, bit: nat)
    requires bit < 64
    ensures bit < 8 ==> IsSet(SetBit(value, bit), bit) && SameExcept(SetBit(value, bit), value, bit)
    ensures bit >= 8 ==> SetBit(value, bit) == value
  {
  }

  /** `clear_bit`: ANDs with `~(1UL << bit)` and truncates to a byte. */
  function ClearBit(value: bv8, bit: nat): bv8
    requires bit < 64
  {
    if bit < 8 then value & !Mask(bit) else value
  }

  /** `clear_bit` turns bit `bit` off and leaves the other bits alone; a
      position beyond the byte changes nothing. */
  lemma ClearBitMeaning(value: bv8, bit: nat)
    requires bit < 64
    ensures bit < 8 ==> !IsSet(ClearBit(value, bit), bit) && SameExcept(ClearBit(value, bit), value, bit)
    ensures bit >= 8 ==> ClearBit(value, bit) == value
  {
  }

  /** `set_bit_to`: `set_bit` when `on`, `clear_bit` otherwise. */
  function SetBitTo(value: bv8, bit: nat, on: bool): bv8
    requires bit < 64
  {
    if on then SetBit(value, bit) else ClearBit(value, bit)
  }

  /** After `set_bit_to`, bit `bit` reads back as `on` (through `IsSet`
      and through `check_bit`) and every other bit is unchanged. */
  lemma {:induction false} SetBitToMeaning(value: bv8, bit: nat, on: bool)
    requires bit < 8
    ensures IsSet(SetBitTo(value, bit, on), bit) <==> on
    ensures CheckBit(SetBitTo(value, bit, on), bit) == on
    ensures SameExcept(SetBitTo(value, bit, on), value, bit)
  {
    if on {
      SetBitMeaning(value, bit);
    } else {
      ClearBitMeaning(value, bit);
    }
  }

  /** `combine_nibbles`: `(upper << 4) | lower` truncated to a byte. */
  function CombineNibbles(upper: bv8, lower: bv8): (r: bv8)
    ensures upper < 16 && lower < 16 ==> r == upper * 16 + lower
    ensures lower < 16 ==> r >> 4 == upper & 0xF && r & 0xF == lower
  {
    (upper << 4) | lower
  }

  /** Sum of two words wrapping at 0x10000, as on `uint16_t`. */
  function AddWord(x: bv16, y: bv16): bv16
  {
    x + y
  }

  /** Sum of two bytes wrapping at 0x100, as on `uint8_t`. */
  function AddByte(x: bv8, y: bv8): bv8 { x + y }

  /** A byte stepped down and back up is itself. */
  lemma ByteStepBack(v: bv8)
    ensures (v - 1) + 1 == v
  {
  }

  /** Two steps of one make a step of two. */
  lemma AddWordTwice(x: bv16)
    ensures AddWord(AddWord(x, 1), 1) == AddWord(x, 2)
  {
  }

  /** Low byte of a word. */
  function Low(w: bv16): bv8 {
    (w & 0xFF) as bv8
  }

  /** A byte widened to a word is its own low byte. */
  lemma LowOfByte(b: bv8)
    ensures Low(b as bv16) == b
  {
  }

  /** High byte of a word. */
  function High(w: bv16): bv8 {
    (w >> 8) as bv8
  }

  /** `combine_bytes`: the little-endian word `upper:lower`. */
  function CombineBytes(lower: bv8, upper: bv8): bv16
  {
    (upper as bv16 << 8) | lower as bv16
  }

  /** The combined word is `upper * 256 + lower`, and splitting it gives
      the two bytes back. */
  lemma CombineBytesMeaning(lower: bv8, upper: bv8)
    ensures CombineBytes(lower, upper) == upper as bv16 * 256 + lower as bv16
    ensures Low(CombineBytes(lower, upper)) == lower && High(CombineBytes(lower, upper)) == upper
  {
  }

  /** Every word is the combination of its two bytes. */
  lemma CombineBytesOfHalves(w: bv16)
    ensures CombineBytes(Low(w), High(w)) == w
  {
  }

  /** Setting or clearing a bit twice is the same as doing it once. */
  lemma SetClearIdempotent(value: bv8, bit: nat)
    requires bit < 64
    ensures SetBit(SetBit(value, bit), bit) == SetBit(value, bit)
    ensures ClearBit(ClearBit(value, bit), bit) == ClearBit(value, bit)
  {
  }

  /** Agreeing outside bit `i` means agreeing on each of the seven other
      bits, one by one. */
  lemma SameExceptBitwise(v: bv8, w: bv8, i: nat, j: nat)
    requires i < 8 && j < 8 && j != i
    requires SameExcept(v, w, i)
    ensures IsSet(v, j) <==> IsSet(w, j)
  {
  }

  /** Distinct bits have disjoint place values. */
  lemma DisjointPlaceValues(i: nat, j: nat)
    requires i < 8 && j < 8 && i != j
    ensures PlaceValue(i) & PlaceValue(j) == 0
  {
  }

  /** A place value has exactly one bit: a byte either contains all of it
      or none of it. */
  lemma SingleBit(v: bv8, i: nat)
    requires i < 8
    ensures v & PlaceValue(i) == 0 || v & PlaceValue(i) == PlaceValue(i)
  {
    var m := PlaceValue(i);
    assert m == 1 || m == 2 || m == 4 || m == 8 || m == 16 || m == 32 || m == 64 || m == 128;
  }

  /** Bit `i` of an OR is the OR of the bits `i` of the operands. */
  lemma {:induction false} BitOfOr(v: bv8, w: bv8, i: nat)
    requires i < 8
    ensures IsSet(v | w, i) <==> IsSet(v, i) || IsSet(w, i)
  {
    assert (v | w) & PlaceValue(i) == (v & PlaceValue(i)) | (w & PlaceValue(i));
  }

  /** Bit `i` of an AND is the AND of the bits `i` of the operands. */
  lemma {:induction false} BitOfAnd(v: bv8, w: bv8, i: nat)
    requires i < 8
    ensures IsSet(v & w, i) <==> IsSet(v, i) && IsSet(w, i)
  {
    SingleBit(v, i);
    SingleBit(w, i);
  }

  /** Bit `i` of an exclusive OR is the exclusive OR of the bits `i` of
      the operands. */
  lemma {:induction false} BitOfXor(v: bv8, w: bv8, i: nat)
    requires i < 8
    ensures IsSet(v ^ w, i) <==> IsSet(v, i) != IsSet(w, i)
  {
    SingleBit(v, i);
    SingleBit(w, i);
    assert (v ^ w) & PlaceValue(i) == (v & PlaceValue(i)) ^ (w & PlaceValue(i));
  }

  /** A byte is determined by bit `i` and the bits other than `i`. */
  lemma SameExceptAndBit(v: bv8, w: bv8, i: nat)
    requires i < 8 && SameExcept(v, w, i) && (IsSet(v, i) <==> IsSet(w, i))
    ensures v == w
  {
    SingleBit(v, i);
    SingleBit(w, i);
  }

  /** Setting a bit to the value it already has changes nothing. */
  lemma SetBitToUnchanged(v: bv8, i: nat, on: bool)
    requires i < 8 && IsSet(v, i) == on
    ensures SetBitTo(v, i, on) == v
  {
    SetBitToMeaning(v, i, on);
    SameExceptAndBit(SetBitTo(v, i, on), v, i);
  }
}
