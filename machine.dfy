/** One step of the interpreter as a function on a value: the registers,
    the memory array, the cartridge and the cycle counter of the running
    instruction. Each function mirrors one member of `CPU` (a resolver, a
    handler, `execute_opcode`) and the `CPU` class is proved to compute
    exactly these. */
module Machine {
  import opened Wrappers
  import opened Bitwise
  import opened Registers
  import opened Instructions
  import Alu
  import MemoryMap
  import Cartridges

  /** The CPU and what it sees: A, X, Y, SP, the status register, PC, the
      memory array, the cartridge behind it, and `loop_cycles`, the cycles
      counted for the instruction being executed. */
  datatype State = State(
    a: bv8,
    x: bv8,
    y: bv8,
    sp: bv8,
    p: Status,
    pc: bv16,
    ram: MemoryMap.Ram,
    cart: Cartridges.Cartridge,
    cycles: nat)

  /** A value read while executing, and the state after reading it. */
  datatype Fetched<T> = Fetched(value: T, next: State)

  /** What `execute_opcode` leads to: the next state, or the end of the
      process (BRK calls `exit`). */
  datatype Outcome = Running(state: State) | Halted

  /** The constructor's register setup: A, X and Y reset to 0, the status
      register set to 0x24, SP to 0xFD and PC to the reset vector 0xC000.
      The memory contents are whatever they were (`ram`), and the cycle
      counter of the first instruction starts at 0. */
  function Reset(ram: MemoryMap.Ram, cart: Cartridges.Cartridge): State
  {
    State(0x00, 0x00, 0x00, 0xFD, FromByte(0x24), 0xC000, ram, cart, 0)
  }

  /** `memory.readByte`. */
  function ReadByte(s: State, address: bv16): bv8
  {
    MemoryMap.Read(s.ram, s.cart, address)
  }

  /** `memory.writeByte`. */
  function WriteByte(s: State, address: bv16, b: bv8): State
  {
    s.(ram := MemoryMap.Write(s.ram, address, b))
  }

  /** `get_byte_from_pc` (and `get_signed_byte_from_pc`, which reads the
      same byte): the byte at PC, and PC incremented. */
  function FetchByte(s: State): Fetched<bv8>
  {
    Fetched(ReadByte(s, s.pc), s.(pc := AddWord(s.pc, 1)))
  }

  /** `get_word_from_pc`: two bytes, low first. */
  function FetchWord(s: State): Fetched<bv16>
  {
    var lower := FetchByte(s);
    var upper := FetchByte(lower.next);
    Fetched(CombineBytes(lower.value, upper.value), upper.next)
  }

  /** The address the stack cell of `sp` lives at: `0x101 + SP`. */
  function StackAddress(sp: bv8): (address: bv16)
    ensures 0x101 <= address <= 0x200
  {
    0x101 + sp as bv16
  }

  /** `stack_push`: SP is decremented first, then the byte is written at
      `0x101 + SP`. */
  function Push(s: State, b: bv8): State
  {
    var sp := s.sp - 1;
    WriteByte(s.(sp := sp), StackAddress(sp), b)
  }

  /** `stack_pop`: the byte at `0x101 + SP`, then SP is incremented. */
  function Pop(s: State): Fetched<bv8>
  {
    Fetched(ReadByte(s, StackAddress(s.sp)), s.(sp := s.sp + 1))
  }

  /** The word an indirect mode reads through a zero-page pointer: low
      byte at the pointer, high byte at `pointer + 1` computed on 16 bits. */
  function PointerWord(s: State, pointer: bv8): bv16
  {
    CombineBytes(ReadByte(s, pointer as bv16), ReadByte(s, AddWord(pointer as bv16, 1)))
  }

  /** The operand bytes a resolver fetches from PC: one byte for the
      zero-page and indirect modes (`get_byte_from_pc`), a little-endian
      word for the absolute modes (`get_word_from_pc`). */
  function FetchAddressOperand(s: State, mode: Mode): Fetched<bv16>
  {
    if OperandLength(mode) == 2 then FetchWord(s)
    else
      var operand := FetchByte(s);
      Fetched(operand.value as bv16, operand.next)
  }

  /** The effective address of `mode` computed from its operand bytes. The
      zero-page sums wrap at 0xFF. The indirect modes read the pointer's
      high byte at `pointer + 1` computed on 16 bits, so a pointer of 0xFF
      reads it from 0x0100. */
  function EffectiveAddress(s: State, mode: Mode, operand: bv16): bv16
  {
    match mode
    case ZeroPage => operand
    case ZeroPageX => ZeroPageIndexed(operand, s.x)
    case ZeroPageY => ZeroPageIndexed(operand, s.y)
    case PreIndexed => PreIndexedAddress(s, operand)
    case PostIndexed => PostIndexedAddress(s, operand)
    case Absolute => operand
    case AbsoluteX => AddWord(operand, s.x as bv16)
    case AbsoluteY => AddWord(operand, s.y as bv16)
  }

  /** `zp,X` and `zp,Y`: the byte sum, wrapping at 0xFF. */
  function ZeroPageIndexed(operand: bv16, index: bv8): bv16
  {
    AddByte(Low(operand), index) as bv16
  }

  /** `(zp,X)`: the word at the pointer `operand + X`. */
  function PreIndexedAddress(s: State, operand: bv16): bv16
  {
    PointerWord(s, AddByte(Low(operand), s.x))
  }

  /** `(zp),Y`: the word at the pointer `operand`, plus Y. */
  function PostIndexedAddress(s: State, operand: bv16): bv16
  {
    AddWord(PointerWord(s, Low(operand)), s.y as bv16)
  }

  /** The eight resolvers: the effective address, and the state with PC
      past the operand bytes. */
  function Resolve(s: State, mode: Mode): Fetched<bv16>
  {
    var operand := FetchAddressOperand(s, mode);
    Fetched(EffectiveAddress(s, mode, operand.value), operand.next)
  }

  /** The page of an address: `0xFF00 & address`. */
  function Page(address: bv16): bv16
  {
    address & 0xFF00
  }

  /** The byte a reading instruction works on: the byte after the opcode
      for the immediate forms, memory at the resolved address otherwise. */
  function FetchOperand(s: State, operand: Operand): Fetched<bv8>
  {
    match operand
    case Immediate => FetchByte(s)
    case Memory(mode) =>
      var address := Resolve(s, mode);
      Fetched(ReadByte(s, address.value), address.next)
  }

  /** The registers the reading handlers work on: A, X, Y and the status
      register. */
  datatype RegisterFile = RegisterFile(a: bv8, x: bv8, y: bv8, p: Status)

  /** The register file of a state. */
  function RegistersOf(s: State): RegisterFile
  {
    RegisterFile(s.a, s.x, s.y, s.p)
  }

  /** A state with its register file replaced. */
  function WithRegisters(s: State, r: RegisterFile): State
  {
    s.(a := r.a, x := r.x, y := r.y, p := r.p)
  }

  /** The handlers that take a byte: ORA, AND, EOR, ADC, SBC, CMP, CPX,
      CPY, LDA, LDX, LDY, and the flag part of BIT. */
  function ApplyRead(op: ReadOp, m: bv8, r: RegisterFile): RegisterFile
  {
    match op
    case Ora =>
      var result := r.a | m;
      r.(a := result, p := Alu.SetNZ(r.p, result))
    case And =>
      var result := r.a & m;
      r.(a := result, p := Alu.SetNZ(r.p, result))
    case Eor =>
      var result := r.a ^ m;
      r.(a := result, p := Alu.SetNZ(r.p, result))
    case Adc =>
      var out := Alu.Adc(r.a, m, r.p);
      r.(a := out.value, p := out.status)
    case Sbc =>
      var out := Alu.Sbc(r.a, m, r.p);
      r.(a := out.value, p := out.status)
    case Cmp => r.(p := Alu.Compare(r.a, m, r.p))
    case Cpx => r.(p := Alu.Compare(r.x, m, r.p))
    case Cpy => r.(p := Alu.Compare(r.y, m, r.p))
    case Lda => r.(a := m, p := Alu.SetNZ(r.p, m))
    case Ldx => r.(x := m, p := Alu.SetNZ(r.p, m))
    case Ldy => r.(y := m, p := Alu.SetNZ(r.p, m))
    case Bit => r.(p := Alu.BitTest(r.a, m, r.p))
  }

  /** The opcode wrappers of the reading handlers, given the state `next`
      after the operand was fetched from `s` and the registers `r` the
      handler computed: the immediate forms add 2 cycles; the `(zp),Y`,
      `abs,X` and `abs,Y` forms add 1 when PC is on another page after the
      operand than before it; the other forms add nothing. */
  function ReadWith(operand: Operand, s: State, next: State, r: RegisterFile): State
  {
    var t := WithRegisters(next, r);
    match operand
    case Immediate => t.(cycles := t.cycles + 2)
    case Memory(mode) =>
      if PageChecked(mode) && Page(s.pc) != Page(t.pc) then t.(cycles := t.cycles + 1) else t
  }

  /** A reading opcode: fetch the operand byte, then run the handler. */
  function ExecRead(op: ReadOp, operand: Operand, s: State): State
  {
    var m := FetchOperand(s, operand);
    ReadWith(operand, s, m.next, ApplyRead(op, m.value, RegistersOf(m.next)))
  }

  /** The register a store writes out. */
  function RegisterValue(s: State, r: Register): bv8
  {
    match r
    case A => s.a
    case X => s.x
    case Y => s.y
  }

  /** STA, STX, STY: the register is written at the resolved address. */
  function ExecStore(r: Register, mode: Mode, s: State): State
  {
    var address := Resolve(s, mode);
    WriteByte(address.next, address.value, RegisterValue(s, r))
  }

  /** The byte and status a read-modify-write handler produces. */
  function ApplyModify(op: ModifyOp, v: bv8, p: Status): Alu.Output
  {
    match op
    case Asl => Alu.ShiftLeft(v, p)
    case Lsr => Alu.ShiftRight(v, p)
    case Rol => Alu.RotateLeftMemory(v, p)
    case Ror => Alu.RotateRight(v, p)
    case Inc => Alu.Output(v + 1, Alu.SetNZ(p, v + 1))
    case Dec => Alu.Output(v - 1, Alu.SetNZ(p, v - 1))
  }

  /** ASL, LSR, ROL, ROR, INC and DEC on memory: read the cell, compute,
      write the result back to the same address. */
  function ExecModify(op: ModifyOp, mode: Mode, s: State): State
  {
    var address := Resolve(s, mode);
    var out := ApplyModify(op, ReadByte(s, address.value), s.p);
    WriteByte(address.next.(p := out.status), address.value, out.value)
  }

  /** The status byte PHP pushes: bits 4 and 5 set. */
  function PushedStatus(p: Status): bv8
  {
    ToByte(p) | 0x30
  }

  /** The instructions without operand. */
  function ExecImplied(op: ImpliedOp, s: State): State
  {
    match op
    case Tax => s.(x := s.a, p := Alu.SetNZ(s.p, s.a), cycles := s.cycles + 2)
    case Txa => s.(a := s.x, p := Alu.SetNZ(s.p, s.x), cycles := s.cycles + 2)
    case Tay => s.(y := s.a, p := Alu.SetNZ(s.p, s.a), cycles := s.cycles + 2)
    case Tya => s.(a := s.y, p := Alu.SetNZ(s.p, s.y), cycles := s.cycles + 2)
    case Tsx => s.(x := s.sp, p := Alu.SetNZ(s.p, s.sp), cycles := s.cycles + 2)
    case Txs => s.(sp := s.x, cycles := s.cycles + 2)
    case Inx => s.(x := Inc8(s.x), p := Alu.SetNZ(s.p, Inc8(s.x)), cycles := s.cycles + 2)
    case Iny => s.(y := Inc8(s.y), p := Alu.SetNZ(s.p, Inc8(s.y)), cycles := s.cycles + 2)
    case Dex => s.(x := Dec8(s.x), p := Alu.SetNZ(s.p, Dec8(s.x)), cycles := s.cycles + 2)
    case Dey => s.(y := Dec8(s.y), p := Alu.SetNZ(s.p, Dec8(s.y)), cycles := s.cycles + 2)
    case AslA =>
      var out := Alu.ShiftLeft(s.a, s.p);
      s.(a := out.value, p := out.status, cycles := s.cycles + 2)
    case LsrA =>
      var out := Alu.ShiftRight(s.a, s.p);
      s.(a := out.value, p := out.status, cycles := s.cycles + 2)
    case RolA =>
      var out := Alu.RotateLeftAccumulator(s.a, s.p);
      s.(a := out.value, p := out.status, cycles := s.cycles + 2)
    case RorA =>
      var out := Alu.RotateRight(s.a, s.p);
      s.(a := out.value, p := out.status, cycles := s.cycles + 2)
    case Pha =>
      var t := Push(s, s.a);
      t.(cycles := t.cycles + 3)
    case Pla =>
      var top := Pop(s);
      top.next.(a := top.value, p := Alu.SetNZ(s.p, top.value), cycles := s.cycles + 4)
    case Php =>
      var t := Push(s, PushedStatus(s.p));
      t.(cycles := t.cycles + 3)
    case Plp =>
      // The popped byte, with bits 5 and 4 put back as they were.
      var top := Pop(s);
      var p := FromByte(top.value).(bit5 := s.p.bit5, breakCommand := s.p.breakCommand);
      top.next.(p := p, cycles := s.cycles + 4)
    case Rti =>
      var status := Pop(s);
      var lower := Pop(status.next);
      var upper := Pop(lower.next);
      var p := FromByte(SetBitTo(status.value, 5, true));
      upper.next.(p := p, pc := CombineBytes(lower.value, upper.value), cycles := s.cycles + 6)
    case Rts =>
      var lower := Pop(s);
      var upper := Pop(lower.next);
      upper.next.(pc := AddWord(CombineBytes(lower.value, upper.value), 1))
    case Nop => s.(cycles := s.cycles + 2)
  }

  /** CLC, SEC, CLD, SED, CLI, SEI, CLV: one flag, 2 cycles. */
  function ExecSetFlag(f: Flag, on: bool, s: State): State
  {
    s.(p := s.p.With(f, on), cycles := s.cycles + 2)
  }

  /** `branch(condition)`: 2 cycles in any case. Taken, it reads a signed
      offset, adds it to PC, and costs 1 more cycle, and 2 more again when
      the new PC is on another page than PC before the offset was read.
      Not taken, it increments PC twice and reads nothing. */
  function ExecBranch(f: Flag, on: bool, s: State): State
  {
    var t := s.(cycles := s.cycles + 2);
    if s.p.Get(f) == on then
      var offset := FetchByte(t);
      var target := AddWord(offset.next.pc, Alu.SignExtend(offset.value));
      var u := offset.next.(pc := target, cycles := t.cycles + 1);
      if Page(s.pc) != Page(target) then u.(cycles := u.cycles + 2) else u
    else
      t.(pc := AddWord(AddWord(t.pc, 1), 1))
  }

  /** JSR: the operand word is the target; PC - 1 (the operand's last
      byte) is pushed high byte first. */
  function ExecJsr(s: State): State
  {
    var target := FetchWord(s);
    var back := Dec16(target.next.pc);
    var t := Push(Push(target.next, High(back)), Low(back));
    t.(pc := target.value)
  }

  /** JMP absolute: PC becomes the operand word. */
  function ExecJmpAbsolute(s: State): State
  {
    var target := FetchWord(s);
    target.next.(pc := target.value)
  }

  /** JMP indirect: the target is read at the pointer and at the pointer
      plus one, as 16-bit addresses; 5 cycles. */
  function ExecJmpIndirect(s: State): State
  {
    var pointer := FetchWord(s);
    var lower := ReadByte(s, pointer.value);
    var upper := ReadByte(s, AddWord(pointer.value, 1));
    pointer.next.(pc := CombineBytes(lower, upper), cycles := s.cycles + 5)
  }

  /** One instruction, with PC just past its opcode. */
  function Exec(i: Instruction, s: State): Outcome
  {
    match i
    case Read(op, operand) => Running(ExecRead(op, operand, s))
    case Store(r, mode) => Running(ExecStore(r, mode, s))
    case Modify(op, mode) => Running(ExecModify(op, mode, s))
    case Implied(op) => Running(ExecImplied(op, s))
    case SetFlag(f, on) => Running(ExecSetFlag(f, on, s))
    case Branch(f, on) => Running(ExecBranch(f, on, s))
    case Jsr => Running(ExecJsr(s))
    case JmpAbsolute => Running(ExecJmpAbsolute(s))
    case JmpIndirect => Running(ExecJmpIndirect(s))
    case Brk => Halted
  }

  /** `execute_opcode`: the instruction of the opcode's case; an opcode
      without a case does nothing. */
  function Execute(opcode: bv8, s: State): Outcome
  {
    match Decode(opcode)
    case None => Running(s)
    case Some(i) => Exec(i, s)
  }

  /** One iteration of the run loop: fetch the opcode at PC, then
      `execute_opcode`. */
  function Step(s: State): Outcome
  {
    var opcode := FetchByte(s);
    Execute(opcode.value, opcode.next)
  }
}
