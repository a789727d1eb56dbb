/** Fetching from PC, the stack in page 1, and the operand resolvers:
    what each consumes, where it reads and writes, and what it returns. */
module FetchAndStack {
  import opened Bitwise
  import opened Registers
  import opened Instructions
  import opened Machine
  import MemoryMap

  /** `get_word_from_pc` reads the little-endian word (`CombineBytes` is
      `upper * 256 + lower`) at PC and PC + 1, the second address wrapping
      at 0xFFFF. */
  lemma {:induction false} FetchWordValue(s: State)
    ensures FetchWord(s).value == CombineBytes(ReadByte(s, s.pc), ReadByte(s, AddWord(s.pc, 1)))
  {
  }

  /** `get_word_from_pc` advances PC by two and changes nothing else. */
  lemma {:induction false} FetchWordNext(s: State)
    ensures FetchWord(s).next == s.(pc := AddWord(s.pc, 2))
  {
    AddWordTwice(s.pc);
  }

  /** A stack address is a RAM address backed by its own cell. */
  lemma StackAddressIsRam(sp: bv8)
    ensures StackAddress(sp) as int <= 0x07FF
    ensures MemoryMap.Canonical(StackAddress(sp) as int) == StackAddress(sp) as int
  {
  }

  /** Two stack cells are mirrors of each other only when they are the
      same cell. */
  lemma {:induction false} StackCellsDistinct(sp: bv8, other: bv8)
    ensures MemoryMap.Mirrors(StackAddress(sp) as int, StackAddress(other) as int) <==> sp == other
  {
    StackAddressIsRam(sp);
    StackAddressIsRam(other);
  }

  /** `stack_push` lowers SP by one with wrap-around and writes at
      `0x100 + old SP`, except that from SP = 0 it writes at 0x200. */
  lemma {:induction false} PushSpec(s: State, b: bv8)
    ensures Push(s, b).sp == Dec8(s.sp)
    ensures Push(s, b) == s.(sp := s.sp - 1, ram := MemoryMap.Write(s.ram, if s.sp == 0 then 0x200 else 0x100 + s.sp as bv16, b))
  {
  }

  /** `stack_pop` after `stack_push` returns the pushed byte and restores
      SP; only the stack cell written by the push differs from before. */
  lemma {:induction false} PopAfterPush(s: State, b: bv8)
    ensures Pop(Push(s, b)).value == b
    ensures Pop(Push(s, b)).next == Push(s, b).(sp := s.sp)
  {
    var address := StackAddress(s.sp - 1);
    ByteStepBack(s.sp);
    MemoryMap.ReadAfterWrite(s.ram, s.cart, address as int, address as int, b);
  }

  /** A push leaves every other stack cell as it was. */
  lemma {:induction false} PushKeepsOtherCells(s: State, b: bv8, sp: bv8)
    requires sp != s.sp - 1
    ensures ReadByte(Push(s, b), StackAddress(sp)) == ReadByte(s, StackAddress(sp))
  {
    StackCellsDistinct(s.sp - 1, sp);
    MemoryMap.ReadAfterWrite(s.ram, s.cart, StackAddress(s.sp - 1) as int, StackAddress(sp) as int, b);
  }

  /** Each resolver consumes its operand bytes, one for the zero-page and
      indirect modes and two for the absolute modes, and changes nothing
      but PC. */
  lemma {:induction false} ResolveAdvances(s: State, mode: Mode)
    ensures Resolve(s, mode).next == s.(pc := AddWord(s.pc, OperandLength(mode)))
  {
    if OperandLength(mode) == 2 {
      FetchWordNext(s);
    }
  }

  /** The zero-page resolvers return an address in page zero: the operand,
      plus X or Y modulo 256. */
  lemma {:induction false} ResolveZeroPage(s: State, mode: Mode)
    requires mode in {ZeroPage, ZeroPageX, ZeroPageY}
    ensures Resolve(s, mode).value <= 0xFF
    ensures var index := if mode == ZeroPageX then s.x else if mode == ZeroPageY then s.y else 0;
      Resolve(s, mode).value == (ReadByte(s, s.pc) as bv16 + index as bv16) % 0x100
  {
    var operand := ReadByte(s, s.pc);
    var index := if mode == ZeroPageX then s.x else if mode == ZeroPageY then s.y else 0;
    assert Low(operand as bv16) == operand;
    WrappedByteSum(operand, index);
  }

  /** A byte sum, widened, is the wide sum modulo 256. */
  lemma WrappedByteSum(a: bv8, b: bv8)
    ensures (a + b) as bv16 == (a as bv16 + b as bv16) % 0x100
  {
  }

  /** `(zp,X)` and `(zp),Y` read the pointer's high byte at `pointer + 1`
      on 16 bits: a pointer of 0xFF takes it from 0x0100, outside page
      zero, where the hardware would wrap to 0x0000. */
  lemma {:induction false} PointerDoesNotWrap(s: State)
    ensures PointerWord(s, 0xFF) == CombineBytes(ReadByte(s, 0x00FF), ReadByte(s, 0x0100))
    ensures PointerWord(s, 0xFF) != CombineBytes(ReadByte(s, 0x00FF), ReadByte(s, 0x0000)) <==>
      ReadByte(s, 0x0100) != ReadByte(s, 0x0000)
  {
    CombineBytesMeaning(ReadByte(s, 0x00FF), ReadByte(s, 0x0100));
    CombineBytesMeaning(ReadByte(s, 0x00FF), ReadByte(s, 0x0000));
  }

  /** `abs`, `abs,X`, `abs,Y`: the operand word fetched from PC (see
      `FetchWordValue`), plus X or Y modulo 65536. */
  lemma {:induction false} ResolveAbsolute(s: State, mode: Mode)
    requires mode in {Absolute, AbsoluteX, AbsoluteY}
    ensures var index := if mode == AbsoluteX then s.x else if mode == AbsoluteY then s.y else 0;
      Resolve(s, mode).value == AddWord(FetchWord(s).value, index as bv16)
  {
    assert OperandLength(mode) == 2;
    var operand := FetchAddressOperand(s, mode);
    assert operand == FetchWord(s);
    match mode
    case Absolute =>
      assert AddWord(operand.value, 0) == operand.value;
    case AbsoluteX =>
    case AbsoluteY =>
  }
}
