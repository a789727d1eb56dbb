/** Stores, read-modify-write instructions, branches and jumps: where they
    write, what they leave alone, and the cycles they add. */
module Execution {
  import opened Bitwise
  import opened Registers
  import opened Instructions
  import opened Machine
  import MemoryMap
  import Alu
  import Cartridges
  import FetchAndStack

  // Stores.

  /** STA, STX and STY touch nothing but RAM and PC: PC moves past the
      operand and no cycles are added. */
  lemma {:induction false} StoreKeeps(r: Register, mode: Mode, s: State)
    ensures ExecStore(r, mode, s).(ram := s.ram) == s.(pc := AddWord(s.pc, OperandLength(mode)))
  {
    FetchAndStack.ResolveAdvances(s, mode);
  }

  /** A byte written at a RAM, PPU or I/O address is read back from it. */
  lemma {:induction false} WriteReadBack(t: State, address: bv16, b: bv8)
    requires address as int <= MemoryMap.IO_END
    ensures ReadByte(WriteByte(t, address, b), address) == b
  {
    MemoryMap.ReadAfterWrite(t.ram, t.cart, address as int, address as int, b);
  }

  /** A byte written into cartridge space, or the disabled window, is
      dropped. */
  lemma {:induction false} WriteAboveIo(t: State, address: bv16, b: bv8)
    requires address as int > MemoryMap.IO_END
    ensures WriteByte(t, address, b).ram == t.ram
  {
    MemoryMap.WriteAboveIo(t.ram, address as int, b);
  }

  /** A store to RAM, PPU or I/O space is read back from the same address. */
  lemma {:induction false} StoreReadBack(r: Register, mode: Mode, s: State)
    requires Resolve(s, mode).value as int <= MemoryMap.IO_END
    ensures ReadByte(ExecStore(r, mode, s), Resolve(s, mode).value) == RegisterValue(s, r)
  {
    var address := Resolve(s, mode);
    WriteReadBack(address.next, address.value, RegisterValue(s, r));
  }

  /** A store into cartridge space, or the disabled window, is dropped. */
  lemma {:induction false} StoreAboveIo(r: Register, mode: Mode, s: State)
    requires Resolve(s, mode).value as int > MemoryMap.IO_END
    ensures ExecStore(r, mode, s).ram == s.ram
  {
    var address := Resolve(s, mode);
    WriteAboveIo(address.next, address.value, RegisterValue(s, r));
    FetchAndStack.ResolveAdvances(s, mode);
  }

  // Read-modify-write instructions.

  /** ASL, LSR, ROL, ROR, INC and DEC on memory change RAM, the status
      register and PC, and add no cycles. */
  lemma {:induction false} ModifyKeeps(op: ModifyOp, mode: Mode, s: State)
    ensures ExecModify(op, mode, s).(ram := s.ram, p := s.p) == s.(pc := AddWord(s.pc, OperandLength(mode)))
  {
    FetchAndStack.ResolveAdvances(s, mode);
  }

  /** The status register becomes the one the handler computed from the
      byte at the resolved address. */
  lemma {:induction false} ModifyStatus(op: ModifyOp, mode: Mode, s: State)
    ensures ExecModify(op, mode, s).p == ApplyModify(op, ReadByte(s, Resolve(s, mode).value), s.p).status
  {
  }

  /** At a RAM, PPU or I/O address the result is written back where the
      operand was read. */
  lemma {:induction false} ModifyReadBack(op: ModifyOp, mode: Mode, s: State)
    requires Resolve(s, mode).value as int <= MemoryMap.IO_END
    ensures ReadByte(ExecModify(op, mode, s), Resolve(s, mode).value) ==
      ApplyModify(op, ReadByte(s, Resolve(s, mode).value), s.p).value
  {
    var address := Resolve(s, mode);
    var out := ApplyModify(op, ReadByte(s, address.value), s.p);
    WriteReadBack(address.next.(p := out.status), address.value, out.value);
  }

  // Branches.

  /** A branch not taken skips its offset byte and adds 2 cycles. */
  lemma {:induction false} BranchNotTaken(f: Flag, on: bool, s: State)
    requires s.p.Get(f) != on
    ensures ExecBranch(f, on, s) == s.(pc := AddWord(s.pc, 2), cycles := s.cycles + 2)
  {
    AddWordTwice(s.pc);
  }

  /** Where a taken branch lands: the address after the offset byte plus
      the offset read as a signed byte. */
  function BranchTarget(s: State): bv16
  {
    AddWord(AddWord(s.pc, 1), Alu.SignExtend(ReadByte(s, s.pc)))
  }

  /** A taken branch moves PC to the target. */
  lemma {:induction false} BranchTakenPc(f: Flag, on: bool, s: State)
    requires s.p.Get(f) == on
    ensures ExecBranch(f, on, s).pc == BranchTarget(s)
  {
  }

  /** A taken branch costs 3 cycles, or 5 when the target is on another
      page than the offset byte. */
  lemma {:induction false} BranchTakenCycles(f: Flag, on: bool, s: State)
    requires s.p.Get(f) == on
    ensures ExecBranch(f, on, s).cycles == s.cycles + if Page(s.pc) == Page(BranchTarget(s)) then 3 else 5
  {
  }

  /** A taken branch changes nothing but PC and the cycle count. */
  lemma {:induction false} BranchTakenKeeps(f: Flag, on: bool, s: State)
    requires s.p.Get(f) == on
    ensures ExecBranch(f, on, s).(pc := s.pc, cycles := s.cycles) == s
  {
  }

  /** An offset of zero lands on the byte right after the offset byte,
      which is where the next instruction starts; a branch not taken
      (`BranchNotTaken`) moves PC one byte further than that. */
  lemma {:induction false} BranchZeroOffset(s: State)
    requires ReadByte(s, s.pc) == 0x00
    ensures BranchTarget(s) == AddWord(s.pc, 1)
    ensures AddWord(BranchTarget(s), 1) == AddWord(s.pc, 2)
  {
    ForwardByZero(s.pc);
  }

  /** An offset of zero adds nothing to the address after the offset
      byte. */
  lemma ForwardByZero(pc: bv16)
    ensures AddWord(AddWord(pc, 1), Alu.SignExtend(0x00)) == AddWord(pc, 1)
    ensures AddWord(AddWord(pc, 1), 1) == AddWord(pc, 2)
  {
  }

  /** An offset of -2 lands back on the branch opcode, one byte before the
      offset byte. */
  lemma {:induction false} BranchToItself(s: State)
    requires ReadByte(s, s.pc) == 0xFE
    ensures BranchTarget(s) == AddWord(s.pc, 0xFFFF)
  {
    BackByTwo(s.pc);
  }

  /** One step forward and two back is one step back. */
  lemma BackByTwo(pc: bv16)
    ensures AddWord(AddWord(pc, 1), Alu.SignExtend(0xFE)) == AddWord(pc, 0xFFFF)
  {
  }

  // Jumps.

  /** JMP absolute sets PC to the operand word and changes nothing else,
      not even the cycle count. */
  lemma {:induction false} JmpAbsoluteKeeps(s: State)
    ensures ExecJmpAbsolute(s).(pc := s.pc) == s
  {
    FetchAndStack.FetchWordNext(s);
  }

  /** The new PC of JMP absolute is the little-endian word after the
      opcode. */
  lemma {:induction false} JmpAbsolutePc(s: State)
    ensures ExecJmpAbsolute(s).pc == CombineBytes(ReadByte(s, s.pc), ReadByte(s, AddWord(s.pc, 1)))
  {
    FetchAndStack.FetchWordValue(s);
  }

  /** JMP indirect changes PC and adds 5 cycles, nothing else. */
  lemma {:induction false} JmpIndirectKeeps(s: State)
    ensures ExecJmpIndirect(s).(pc := s.pc, cycles := s.cycles) == s
    ensures ExecJmpIndirect(s).cycles == s.cycles + 5
  {
    FetchAndStack.FetchWordNext(s);
  }

  /** The new PC of JMP indirect is the word at the pointer, its high byte
      read at the pointer plus one on 16 bits. */
  lemma {:induction false} JmpIndirectPc(s: State)
    ensures var pointer := FetchWord(s).value;
      ExecJmpIndirect(s).pc == CombineBytes(ReadByte(s, pointer), ReadByte(s, AddWord(pointer, 1)))
  {
  }

  /** A pointer at the end of a page, such as 0x02FF, takes the high byte
      of the target from the first byte of the next page. */
  lemma {:induction false} PointerCrossesPage(pointer: bv16)
    requires Low(pointer) == 0xFF && pointer != 0xFFFF
    ensures Page(AddWord(pointer, 1)) == Page(pointer) + 0x100
  {
  }

  // Flags.

  /** CLC, SEC, CLD, SED, CLI, SEI and CLV set their flag to the value the
      opcode names, through the byte setter of the status register. */
  lemma {:induction false} SetFlagByte(f: Flag, on: bool, s: State)
    ensures ToByte(ExecSetFlag(f, on, s).p) == WithFlag(ToByte(s.p), f, on)
  {
    WithIsSetBitTo(s.p, f, on);
  }

  /** The flag instructions leave every other flag as it was. */
  lemma {:induction false} SetFlagOthers(f: Flag, on: bool, s: State, g: Flag)
    requires g != f
    ensures ExecSetFlag(f, on, s).p.Get(g) == s.p.Get(g)
  {
    match f
    case Carry =>
    case Zero =>
    case InterruptDisable =>
    case DecimalMode =>
    case BreakCommand =>
    case Overflow =>
    case Negative =>
  }

  /** A flag instruction sets its flag and changes nothing else but the
      cycle count, by 2. */
  lemma {:induction false} SetFlagKeeps(f: Flag, on: bool, s: State)
    ensures ExecSetFlag(f, on, s).p.Get(f) == on
    ensures ExecSetFlag(f, on, s).(p := s.p, cycles := s.cycles) == s
    ensures ExecSetFlag(f, on, s).cycles == s.cycles + 2
  {
    match f
    case Carry =>
    case Zero =>
    case InterruptDisable =>
    case DecimalMode =>
    case BreakCommand =>
    case Overflow =>
    case Negative =>
  }

  // Power-on state.

  /** After reset the status byte is 0x24: interrupts disabled and bit 5
      set, every other flag clear. */
  lemma {:induction false} ResetStatus(ram: MemoryMap.Ram, cart: Cartridges.Cartridge)
    ensures ToByte(Reset(ram, cart).p) == 0x24
    ensures Reset(ram, cart).p.Get(InterruptDisable)
    ensures !Reset(ram, cart).p.Get(Carry) && !Reset(ram, cart).p.Get(Zero)
  {
    ByteRoundTrip(Reset(ram, cart).p, 0x24);
  }

  // Dispatch.

  /** An opcode without a case in the switch changes nothing, not even PC
      past the opcode or the cycle count. */
  lemma {:induction false} UnknownOpcode(opcode: bv8, s: State)
    requires Decode(opcode).None?
    ensures Execute(opcode, s) == Running(s)
  {
  }

  /** Only BRK stops the run loop. */
  lemma {:induction false} ExecHalts(i: Instruction, s: State)
    ensures Exec(i, s).Halted? <==> i == Brk
  {
    match i
    case Read(_, _) =>
    case Store(_, _) =>
    case Modify(_, _) =>
    case Implied(_) =>
    case SetFlag(_, _) =>
    case Branch(_, _) =>
    case Jsr =>
    case JmpAbsolute =>
    case JmpIndirect =>
    case Brk =>
  }

  /** The run loop stops exactly when the byte at PC is 0x00, the opcode of
      BRK. */
  lemma {:induction false} StepHalts(s: State)
    ensures Step(s).Halted? <==> ReadByte(s, s.pc) == 0x00
  {
    var opcode := FetchByte(s);
    EncodeOfDecode(opcode.value);
    match Decode(opcode.value)
    case None =>
    case Some(i) => ExecHalts(i, opcode.next);
  }
}
