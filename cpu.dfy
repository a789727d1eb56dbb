/** The `CPU` class: the registers as fields updated in place, the memory
    array behind a `Memory` object, and one method per group of members of
    the C++ class. Every method is proved to compute the function of
    `Machine` that describes it, on the value `State()` of the object. */
module Processor {
  import opened Wrappers
  import opened Bitwise
  import opened Registers
  import opened Instructions
  import Alu
  import MemoryMap
  import Cartridges
  import Machine

  /** `pre_indexed_indirect` as its steps: the operand byte at PC, then
      the word at `operand + X`. */
  lemma {:induction false} PreIndexedSteps(s: Machine.State, operand: bv8, pointer: bv8, address: bv16)
    requires operand == Machine.ReadByte(s, s.pc) && pointer == AddByte(operand, s.x)
    requires address == Machine.PointerWord(s, pointer)
    ensures Machine.Resolve(s, PreIndexed) == Machine.Fetched(address, s.(pc := AddWord(s.pc, 1)))
  {
    LowOfByte(operand);
  }

  /** `post_indexed_indirect` as its steps: the operand byte at PC, then
      the word at `operand`, plus Y. */
  lemma {:induction false} PostIndexedSteps(s: Machine.State, operand: bv8, address: bv16)
    requires operand == Machine.ReadByte(s, s.pc)
    requires address == AddWord(Machine.PointerWord(s, operand), s.y as bv16)
    ensures Machine.Resolve(s, PostIndexed) == Machine.Fetched(address, s.(pc := AddWord(s.pc, 1)))
  {
    LowOfByte(operand);
  }

  /** An immediate reading opcode as its steps: the operand byte fetched
      (`t` after it), the handler run (`u` after it), 2 cycles added. */
  lemma {:induction false} ReadImmediateSteps(op: ReadOp, s: Machine.State, m: bv8, t: Machine.State, u: Machine.State)
    requires Machine.FetchOperand(s, Immediate) == Machine.Fetched(m, t)
    requires u == Machine.WithRegisters(t, Machine.ApplyRead(op, m, Machine.RegistersOf(t)))
    ensures Machine.ExecRead(op, Immediate, s) == u.(cycles := u.cycles + 2)
  {
  }

  /** A reading opcode on memory as its steps: the address resolved (`t`
      after it), the operand byte read there, the handler run (`u` after it),
      1 cycle added on a page change in the page-checked modes. */
  lemma {:induction false} ReadMemorySteps(op: ReadOp, mode: Mode, s: Machine.State, address: bv16, m: bv8, t: Machine.State, u: Machine.State)
    requires Machine.Resolve(s, mode) == Machine.Fetched(address, t) && m == Machine.ReadByte(s, address)
    requires u == Machine.WithRegisters(t, Machine.ApplyRead(op, m, Machine.RegistersOf(t)))
    ensures Machine.ExecRead(op, Memory(mode), s)
      == if PageChecked(mode) && Machine.Page(s.pc) != Machine.Page(u.pc) then u.(cycles := u.cycles + 1) else u
  {
  }

  /** `RTI` as its steps: the status byte popped (`pulled` after it),
      the status register set, the low and the high byte of the return
      address popped (`afterLower`, then `t`). */
  lemma {:induction false} RtiSteps(s: Machine.State, pulled: Machine.State, afterLower: Machine.State, t: Machine.State, lower: bv8, upper: bv8)
    requires Machine.Pop(s).next == pulled
    requires var p := FromByte(SetBitTo(Machine.Pop(s).value, 5, true));
      Machine.Pop(pulled.(p := p)) == Machine.Fetched(lower, afterLower)
    requires Machine.Pop(afterLower) == Machine.Fetched(upper, t)
    ensures Machine.ExecImplied(Rti, s) == t.(pc := CombineBytes(lower, upper), cycles := s.cycles + 6)
  {
  }

  /** A taken branch as its steps: 2 cycles counted (`t` after them), the
      offset byte fetched (`u` after it), PC moved by the offset, 1 cycle
      more, and 2 more again on a page change. */
  lemma {:induction false} BranchTakenSteps(f: Flag, on: bool, s: Machine.State, t: Machine.State, offset: bv8, u: Machine.State)
    requires s.p.Get(f) == on && t == s.(cycles := s.cycles + 2)
    requires Machine.FetchByte(t) == Machine.Fetched(offset, u)
    ensures var target := AddWord(u.pc, Alu.SignExtend(offset));
      var taken := u.(pc := target, cycles := u.cycles + 1);
      Machine.ExecBranch(f, on, s)
        == if Machine.Page(s.pc) != Machine.Page(target) then taken.(cycles := taken.cycles + 2) else taken
  {
  }

  class CPU {
    var a: bv8
    var x: bv8
    var y: bv8
    var sp: bv8
    var p: Status
    var pc: bv16
    /** `loop_cycles`: the cycles counted for the running instruction. */
    var loopCycles: nat
    const memory: MemoryMap.Memory

    ghost predicate Valid()
      reads this, memory
    {
      memory.Valid()
    }

    /** The object as a value of `Machine.State`. */
    ghost function State(): Machine.State
      requires Valid()
      reads this, memory, memory.data
    {
      Machine.State(a, x, y, sp, p, pc, memory.Contents(), memory.cartridge, loopCycles)
    }

    /** The constructor's register setup (the run loop that follows it is
        not part of this model). */
    constructor (memory: MemoryMap.Memory)
      requires memory.Valid()
      ensures Valid() && this.memory == memory
      ensures State() == Machine.Reset(memory.Contents(), memory.cartridge)
    {
      this.memory := memory;
      a, x, y := 0x00, 0x00, 0x00;
      p := FromByte(0x24);
      sp := 0xFD;
      pc := 0xC000;
      loopCycles := 0;
    }

    /** `get_byte_from_pc`: read the byte at PC, then increment PC. */
    method GetByteFromPc() returns (b: bv8)
      requires Valid()
      modifies this
      ensures Valid()
      ensures Machine.Fetched(b, State()) == Machine.FetchByte(old(State()))
    {
      b := memory.ReadByte(pc);
      pc := pc + 1;
    }

    /** `get_word_from_pc`: two bytes from PC, low byte first. */
    method GetWordFromPc() returns (w: bv16)
      requires Valid()
      modifies this
      ensures Valid()
      ensures Machine.Fetched(w, State()) == Machine.FetchWord(old(State()))
    {
      var lower := GetByteFromPc();
      var upper := GetByteFromPc();
      w := CombineBytes(lower, upper);
    }

    /** `set_flags_nz`. */
    method SetFlagsNz(v: bv8)
      requires Valid()
      modifies this
      ensures Valid()
      ensures State() == old(State()).(p := Alu.SetNZ(old(p), v))
    {
      if v == 0 {
        p := p.(zero := true);
      } else {
        p := p.(zero := false);
      }
      if v & 0x80 == 0x80 {
        p := p.(negative := true);
      } else {
        p := p.(negative := false);
      }
    }

    /** `stack_push`: decrement SP, then write at `0x101 + SP`. */
    method StackPush(b: bv8)
      requires Valid()
      modifies this, memory.data
      ensures Valid()
      ensures State() == Machine.Push(old(State()), b)
    {
      sp := sp - 1;
      memory.WriteByte(b, 0x101 + sp as bv16);
    }

    /** `stack_pop`: read at `0x101 + SP`, then increment SP. */
    method StackPop() returns (b: bv8)
      requires Valid()
      modifies this
      ensures Valid()
      ensures Machine.Fetched(b, State()) == Machine.Pop(old(State()))
    {
      b := memory.ReadByte(0x101 + sp as bv16);
      sp := sp + 1;
    }

    /** `loop_cycles += n`. */
    method AddCycles(n: nat)
      requires Valid()
      modifies this
      ensures Valid()
      ensures State() == old(State()).(cycles := old(State()).cycles + n)
    {
      loopCycles := loopCycles + n;
    }

    // The resolvers of address_modes.cpp. Each fetches its operand bytes
    // from PC and returns the effective address.

    /** `zero_page`: the operand byte. */
    method FetchZeroPage() returns (address: bv8)
      requires Valid()
      modifies this
      ensures Valid()
      ensures Machine.Fetched(address as bv16, State()) == Machine.Resolve(old(State()), Instructions.ZeroPage)
    {
      address := GetByteFromPc();
    }

    /** `zero_page_x`: the operand byte plus X, wrapping at 0xFF. */
    method FetchZeroPageX() returns (address: bv8)
      requires Valid()
      modifies this
      ensures Valid()
      ensures Machine.Fetched(address as bv16, State()) == Machine.Resolve(old(State()), Instructions.ZeroPageX)
    {
      var operand := GetByteFromPc();
      address := AddByte(operand, x);
    }

    /** `zero_page_y`: the operand byte plus Y, wrapping at 0xFF. */
    method FetchZeroPageY() returns (address: bv8)
      requires Valid()
      modifies this
      ensures Valid()
      ensures Machine.Fetched(address as bv16, State()) == Machine.Resolve(old(State()), Instructions.ZeroPageY)
    {
      var operand := GetByteFromPc();
      address := AddByte(operand, y);
    }

    /** `pre_indexed_indirect`: the word at the zero-page pointer
        `operand + X`. */
    method FetchPreIndexed() returns (address: bv16)
      requires Valid()
      modifies this
      ensures Valid()
      ensures Machine.Fetched(address, State()) == Machine.Resolve(old(State()), Instructions.PreIndexed)
    {
      ghost var s := State();
      var operand := GetByteFromPc();
      var pointer := AddByte(operand, x);
      var lower := memory.ReadByte(pointer as bv16);
      var upper := memory.ReadByte(AddWord(pointer as bv16, 1));
      address := CombineBytes(lower, upper);
      PreIndexedSteps(s, operand, pointer, address);
    }

    /** `post_indexed_indirect`: the word at the zero-page pointer
        `operand`, plus Y. */
    method FetchPostIndexed() returns (address: bv16)
      requires Valid()
      modifies this
      ensures Valid()
      ensures Machine.Fetched(address, State()) == Machine.Resolve(old(State()), Instructions.PostIndexed)
    {
      ghost var s := State();
      var pointer := GetByteFromPc();
      var lower := memory.ReadByte(pointer as bv16);
      var upper := memory.ReadByte(AddWord(pointer as bv16, 1));
      address := CombineBytes(lower, upper);
      address := AddWord(address, y as bv16);
      PostIndexedSteps(s, pointer, address);
    }

    /** `absolute`: the operand word. */
    method FetchAbsolute() returns (address: bv16)
      requires Valid()
      modifies this
      ensures Valid()
      ensures Machine.Fetched(address, State()) == Machine.Resolve(old(State()), Instructions.Absolute)
    {
      address := GetWordFromPc();
    }

    /** `absolute_x`: the operand word plus X. */
    method FetchAbsoluteX() returns (address: bv16)
      requires Valid()
      modifies this
      ensures Valid()
      ensures Machine.Fetched(address, State()) == Machine.Resolve(old(State()), Instructions.AbsoluteX)
    {
      var operand := GetWordFromPc();
      address := AddWord(operand, x as bv16);
    }

    /** `absolute_y`: the operand word plus Y. */
    method FetchAbsoluteY() returns (address: bv16)
      requires Valid()
      modifies this
      ensures Valid()
      ensures Machine.Fetched(address, State()) == Machine.Resolve(old(State()), Instructions.AbsoluteY)
    {
      var operand := GetWordFromPc();
      address := AddWord(operand, y as bv16);
    }

    /** The resolver an opcode's case calls for its mode. */
    method FetchAddress(mode: Mode) returns (address: bv16)
      requires Valid()
      modifies this
      ensures Valid()
      ensures Machine.Fetched(address, State()) == Machine.Resolve(old(State()), mode)
    {
      match mode
      case ZeroPage =>
        var b := FetchZeroPage();
        address := b as bv16;
      case ZeroPageX =>
        var b := FetchZeroPageX();
        address := b as bv16;
      case ZeroPageY =>
        var b := FetchZeroPageY();
        address := b as bv16;
      case PreIndexed => address := FetchPreIndexed();
      case PostIndexed => address := FetchPostIndexed();
      case Absolute => address := FetchAbsolute();
      case AbsoluteX => address := FetchAbsoluteX();
      case AbsoluteY => address := FetchAbsoluteY();
    }

    // The handlers of logical_arithmetic.cpp, load_and_store.cpp and
    // jump_flag.cpp, one method per group of opcodes that share a body.

    /** `ORA`: A becomes `A | M`; N and Z follow. */
    method Ora(m: bv8)
      requires Valid()
      modifies this
      ensures Valid()
      ensures State() == Machine.WithRegisters(old(State()), Machine.ApplyRead(Instructions.Ora, m, Machine.RegistersOf(old(State()))))
    {
      a := a | m;
      SetFlagsNz(a);
    }

    /** `AND`: A becomes `A & M`; N and Z follow. */
    method And(m: bv8)
      requires Valid()
      modifies this
      ensures Valid()
      ensures State() == Machine.WithRegisters(old(State()), Machine.ApplyRead(Instructions.And, m, Machine.RegistersOf(old(State()))))
    {
      a := a & m;
      SetFlagsNz(a);
    }

    /** `EOR`: A becomes `A ^ M`; N and Z follow. */
    method Eor(m: bv8)
      requires Valid()
      modifies this
      ensures Valid()
      ensures State() == Machine.WithRegisters(old(State()), Machine.ApplyRead(Instructions.Eor, m, Machine.RegistersOf(old(State()))))
    {
      a := a ^ m;
      SetFlagsNz(a);
    }

    /** `ADC`: the sum and its flags, as `Alu.Adc` computes them. */
    method Adc(m: bv8)
      requires Valid()
      modifies this
      ensures Valid()
      ensures State() == Machine.WithRegisters(old(State()), Machine.ApplyRead(Instructions.Adc, m, Machine.RegistersOf(old(State()))))
    {
      var out := Alu.Adc(a, m, p);
      a, p := out.value, out.status;
    }

    /** `SBC`: the difference and its flags, as `Alu.Sbc` computes them. */
    method Sbc(m: bv8)
      requires Valid()
      modifies this
      ensures Valid()
      ensures State() == Machine.WithRegisters(old(State()), Machine.ApplyRead(Instructions.Sbc, m, Machine.RegistersOf(old(State()))))
    {
      var out := Alu.Sbc(a, m, p);
      a, p := out.value, out.status;
    }

    /** `CMP`: the flags of `A - M`. */
    method Cmp(m: bv8)
      requires Valid()
      modifies this
      ensures Valid()
      ensures State() == Machine.WithRegisters(old(State()), Machine.ApplyRead(Instructions.Cmp, m, Machine.RegistersOf(old(State()))))
    {
      p := Alu.Compare(a, m, p);
    }

    /** `CPX`: the flags of `X - M`. */
    method Cpx(m: bv8)
      requires Valid()
      modifies this
      ensures Valid()
      ensures State() == Machine.WithRegisters(old(State()), Machine.ApplyRead(Instructions.Cpx, m, Machine.RegistersOf(old(State()))))
    {
      p := Alu.Compare(x, m, p);
    }

    /** `CPY`: the flags of `Y - M`. */
    method Cpy(m: bv8)
      requires Valid()
      modifies this
      ensures Valid()
      ensures State() == Machine.WithRegisters(old(State()), Machine.ApplyRead(Instructions.Cpy, m, Machine.RegistersOf(old(State()))))
    {
      p := Alu.Compare(y, m, p);
    }

    /** `LDA`: A becomes M; N and Z follow. */
    method Lda(m: bv8)
      requires Valid()
      modifies this
      ensures Valid()
      ensures State() == Machine.WithRegisters(old(State()), Machine.ApplyRead(Instructions.Lda, m, Machine.RegistersOf(old(State()))))
    {
      a := m;
      SetFlagsNz(a);
    }

    /** `LDX`: X becomes M; N and Z follow. */
    method Ldx(m: bv8)
      requires Valid()
      modifies this
      ensures Valid()
      ensures State() == Machine.WithRegisters(old(State()), Machine.ApplyRead(Instructions.Ldx, m, Machine.RegistersOf(old(State()))))
    {
      x := m;
      SetFlagsNz(x);
    }

    /** `LDY`: Y becomes M; N and Z follow. */
    method Ldy(m: bv8)
      requires Valid()
      modifies this
      ensures Valid()
      ensures State() == Machine.WithRegisters(old(State()), Machine.ApplyRead(Instructions.Ldy, m, Machine.RegistersOf(old(State()))))
    {
      y := m;
      SetFlagsNz(y);
    }

    /** `BIT`: Z from `A & M`, N and V from bits 7 and 6 of M. */
    method Bit(m: bv8)
      requires Valid()
      modifies this
      ensures Valid()
      ensures State() == Machine.WithRegisters(old(State()), Machine.ApplyRead(Instructions.Bit, m, Machine.RegistersOf(old(State()))))
    {
      p := Alu.BitTest(a, m, p);
    }

    /** The handler of a reading opcode, given the operand byte. */
    method ReadHandler(op: ReadOp, m: bv8)
      requires Valid()
      modifies this
      ensures Valid()
      ensures State() == Machine.WithRegisters(old(State()), Machine.ApplyRead(op, m, Machine.RegistersOf(old(State()))))
    {
      match op
      case Ora => Ora(m);
      case And => And(m);
      case Eor => Eor(m);
      case Adc => Adc(m);
      case Sbc => Sbc(m);
      case Cmp => Cmp(m);
      case Cpx => Cpx(m);
      case Cpy => Cpy(m);
      case Lda => Lda(m);
      case Ldx => Ldx(m);
      case Ldy => Ldy(m);
      case Bit => Bit(m);
    }

    /** The opcode wrappers of the reading handlers. */
    method ExecuteRead(op: ReadOp, operand: Operand)
      requires Valid()
      modifies this
      ensures Valid()
      ensures State() == Machine.ExecRead(op, operand, old(State()))
    {
      match operand
      case Immediate => ReadImmediate(op);
      case Memory(mode) => ReadMemory(op, mode);
    }

    /** The immediate forms: the byte after the opcode, 2 cycles. */
    method ReadImmediate(op: ReadOp)
      requires Valid()
      modifies this
      ensures Valid()
      ensures State() == Machine.ExecRead(op, Immediate, old(State()))
    {
      ghost var s := State();
      var m := GetByteFromPc();
      ghost var t := State();
      ReadHandler(op, m);
      ReadImmediateSteps(op, s, m, t, State());
      AddCycles(2);
    }

    /** The memory forms: the byte at the resolved address; the `(zp),Y`,
        `abs,X` and `abs,Y` forms add 1 cycle when PC is on another page
        after the operand than before it. */
    method ReadMemory(op: ReadOp, mode: Mode)
      requires Valid()
      modifies this
      ensures Valid()
      ensures State() == Machine.ExecRead(op, Memory(mode), old(State()))
    {
      ghost var s := State();
      var beforePage := Machine.Page(pc);
      var address := FetchAddress(mode);
      var m := memory.ReadByte(address);
      ghost var t := State();
      ReadHandler(op, m);
      ReadMemorySteps(op, mode, s, address, m, t, State());
      if PageChecked(mode) && beforePage != Machine.Page(pc) {
        AddCycles(1);
      }
    }

    /** STA, STX, STY: the register written at the resolved address. */
    method ExecuteStore(r: Register, mode: Mode)
      requires Valid()
      modifies this, memory.data
      ensures Valid()
      ensures State() == Machine.ExecStore(r, mode, old(State()))
    {
      var address := FetchAddress(mode);
      var v := match r case A => a case X => x case Y => y;
      memory.WriteByte(v, address);
    }

    /** ASL, LSR, ROL, ROR, INC and DEC on memory: read the cell, compute
        the result and the flags, write the result back. */
    method ExecuteModify(op: ModifyOp, mode: Mode)
      requires Valid()
      modifies this, memory.data
      ensures Valid()
      ensures State() == Machine.ExecModify(op, mode, old(State()))
    {
      var address := FetchAddress(mode);
      var v := memory.ReadByte(address);
      match op
      case Inc =>
        var result := Inc8(v);
        memory.WriteByte(result, address);
        SetFlagsNz(result);
      case Dec =>
        var result := Dec8(v);
        memory.WriteByte(result, address);
        SetFlagsNz(result);
      case _ =>
        var out := Machine.ApplyModify(op, v, p);
        p := out.status;
        memory.WriteByte(out.value, address);
    }

    /** The register transfers TAX, TXA, TAY, TYA, TSX and TXS, 2 cycles
        each; all but TXS set N and Z from the value moved. */
    method Transfer(op: ImpliedOp)
      requires Valid()
      requires op in {Tax, Txa, Tay, Tya, Tsx, Txs}
      modifies this
      ensures Valid()
      ensures State() == Machine.ExecImplied(op, old(State()))
    {
      match op {
        case Tax =>
          x := a;
          SetFlagsNz(x);
        case Txa =>
          a := x;
          SetFlagsNz(a);
        case Tay =>
          y := a;
          SetFlagsNz(y);
        case Tya =>
          a := y;
          SetFlagsNz(a);
        case Tsx =>
          x := sp;
          SetFlagsNz(x);
        case Txs =>
          sp := x;
      }
      AddCycles(2);
    }

    /** INX, INY, DEX and DEY: the register steps by one, wrapping; N and
        Z follow; 2 cycles. */
    method IndexStep(op: ImpliedOp)
      requires Valid()
      requires op in {Inx, Iny, Dex, Dey}
      modifies this
      ensures Valid()
      ensures State() == Machine.ExecImplied(op, old(State()))
    {
      var v: bv8;
      match op {
        case Inx => x := Inc8(x); v := x;
        case Iny => y := Inc8(y); v := y;
        case Dex => x := Dec8(x); v := x;
        case Dey => y := Dec8(y); v := y;
      }
      SetFlagsNz(v);
      AddCycles(2);
    }

    /** ASL, LSR, ROL and ROR on the accumulator, 2 cycles. */
    method ShiftAccumulator(op: ImpliedOp)
      requires Valid()
      requires op in {AslA, LsrA, RolA, RorA}
      modifies this
      ensures Valid()
      ensures State() == Machine.ExecImplied(op, old(State()))
    {
      var out := match op
        case AslA => Alu.ShiftLeft(a, p)
        case LsrA => Alu.ShiftRight(a, p)
        case RolA => Alu.RotateLeftAccumulator(a, p)
        case RorA => Alu.RotateRight(a, p);
      a, p := out.value, out.status;
      AddCycles(2);
    }

    /** `PHA`: push A, 3 cycles. */
    method Pha()
      requires Valid()
      modifies this, memory.data
      ensures Valid()
      ensures State() == Machine.ExecImplied(Instructions.Pha, old(State()))
    {
      StackPush(a);
      AddCycles(3);
    }

    /** `PLA`: pop into A; N and Z follow; 4 cycles. */
    method Pla()
      requires Valid()
      modifies this
      ensures Valid()
      ensures State() == Machine.ExecImplied(Instructions.Pla, old(State()))
    {
      a := StackPop();
      SetFlagsNz(a);
      AddCycles(4);
    }

    /** `PHP`: push the status byte with bits 4 and 5 set, 3 cycles. */
    method Php()
      requires Valid()
      modifies this, memory.data
      ensures Valid()
      ensures State() == Machine.ExecImplied(Instructions.Php, old(State()))
    {
      StackPush(ToByte(p) | 0x30);
      AddCycles(3);
    }

    /** `PLP`: pop into the status register, bits 5 and 4 kept as they
        were; 4 cycles. */
    method Plp()
      requires Valid()
      modifies this
      ensures Valid()
      ensures State() == Machine.ExecImplied(Instructions.Plp, old(State()))
    {
      var bit5, bit4 := p.bit5, p.breakCommand;
      var b := StackPop();
      p := FromByte(b);
      p := p.(bit5 := bit5, breakCommand := bit4);
      AddCycles(4);
    }

    /** `RTI`: pop the status byte (bit 5 set), then the return address,
        low byte first; 6 cycles. */
    method Rti()
      requires Valid()
      modifies this
      ensures Valid()
      ensures State() == Machine.ExecImplied(Instructions.Rti, old(State()))
    {
      ghost var s := State();
      var status := StackPop();
      ghost var pulled := State();
      status := SetBitTo(status, 5, true);
      p := FromByte(status);
      var lower := StackPop();
      ghost var afterLower := State();
      var upper := StackPop();
      RtiSteps(s, pulled, afterLower, State(), lower, upper);
      pc := CombineBytes(lower, upper);
      AddCycles(6);
    }

    /** `RTS`: pop the return address, low byte first, and jump one past
        it. */
    method Rts()
      requires Valid()
      modifies this
      ensures Valid()
      ensures State() == Machine.ExecImplied(Instructions.Rts, old(State()))
    {
      var lower := StackPop();
      var upper := StackPop();
      pc := AddWord(CombineBytes(lower, upper), 1);
    }

    /** The opcodes without operand. */
    method ExecuteImplied(op: ImpliedOp)
      requires Valid()
      modifies this, memory.data
      ensures Valid()
      ensures State() == Machine.ExecImplied(op, old(State()))
    {
      match op
      case Tax => Transfer(op);
      case Txa => Transfer(op);
      case Tay => Transfer(op);
      case Tya => Transfer(op);
      case Tsx => Transfer(op);
      case Txs => Transfer(op);
      case Inx => IndexStep(op);
      case Iny => IndexStep(op);
      case Dex => IndexStep(op);
      case Dey => IndexStep(op);
      case AslA => ShiftAccumulator(op);
      case LsrA => ShiftAccumulator(op);
      case RolA => ShiftAccumulator(op);
      case RorA => ShiftAccumulator(op);
      case Pha => Pha();
      case Pla => Pla();
      case Php => Php();
      case Plp => Plp();
      case Rti => Rti();
      case Rts => Rts();
      case Nop => AddCycles(2);
    }

    /** CLC, SEC, CLD, SED, CLI, SEI and CLV: one flag set or cleared, 2
        cycles. */
    method SetFlag(f: Flag, on: bool)
      requires Valid()
      modifies this
      ensures Valid()
      ensures State() == Machine.ExecSetFlag(f, on, old(State()))
    {
      p := p.With(f, on);
      AddCycles(2);
    }

    /** `branch`, for the condition "flag `f` is `on`". */
    method Branch(f: Flag, on: bool)
      requires Valid()
      modifies this
      ensures Valid()
      ensures State() == Machine.ExecBranch(f, on, old(State()))
    {
      ghost var s := State();
      var condition := p.Get(f) == on;
      var beforePage := Machine.Page(pc);
      AddCycles(2);
      if condition {
        ghost var t := State();
        var offset := GetByteFromPc();
        BranchTakenSteps(f, on, s, t, offset, State());
        pc := AddWord(pc, Alu.SignExtend(offset));
        AddCycles(1);
        if beforePage != Machine.Page(pc) {
          AddCycles(2);
        }
      } else {
        pc := AddWord(pc, 1);
        pc := AddWord(pc, 1);
      }
    }

    /** `JSR`: the operand word is the target; PC - 1, the address of the
        operand's last byte, is pushed high byte first. */
    method Jsr()
      requires Valid()
      modifies this, memory.data
      ensures Valid()
      ensures State() == Machine.ExecJsr(old(State()))
    {
      var address := FetchAbsolute();
      var back := Dec16(pc);
      StackPush(High(back));
      StackPush(Low(back));
      pc := address;
    }

    /** `JMP` absolute: PC becomes the operand word. */
    method JmpAbsolute()
      requires Valid()
      modifies this
      ensures Valid()
      ensures State() == Machine.ExecJmpAbsolute(old(State()))
    {
      pc := FetchAbsolute();
    }

    /** `JMP` indirect: PC becomes the word read at the operand word and
        at the operand word plus one; 5 cycles. */
    method JmpIndirect()
      requires Valid()
      modifies this
      ensures Valid()
      ensures State() == Machine.ExecJmpIndirect(old(State()))
    {
      var pointer := GetWordFromPc();
      var lower := memory.ReadByte(pointer);
      var upper := memory.ReadByte(AddWord(pointer, 1));
      pc := CombineBytes(lower, upper);
      AddCycles(5);
    }

    /** One decoded instruction, with PC just past its opcode. `halted`
        is BRK, which ends the process. */
    method ExecuteInstruction(i: Instruction) returns (halted: bool)
      requires Valid()
      modifies this, memory.data
      ensures Valid()
      ensures Machine.Exec(i, old(State())) == if halted then Machine.Halted else Machine.Running(State())
    {
      halted := false;
      match i
      case Read(op, operand) => ExecuteRead(op, operand);
      case Store(r, mode) => ExecuteStore(r, mode);
      case Modify(op, mode) => ExecuteModify(op, mode);
      case Implied(op) => ExecuteImplied(op);
      case SetFlag(f, on) => SetFlag(f, on);
      case Branch(f, on) => Branch(f, on);
      case Jsr => Jsr();
      case JmpAbsolute => JmpAbsolute();
      case JmpIndirect => JmpIndirect();
      case Brk => halted := true;
    }

    /** `execute_opcode`: the case of the opcode; an opcode without a case
        does nothing. */
    method ExecuteOpcode(opcode: bv8) returns (halted: bool)
      requires Valid()
      modifies this, memory.data
      ensures Valid()
      ensures Machine.Execute(opcode, old(State())) == if halted then Machine.Halted else Machine.Running(State())
    {
      match Decode(opcode)
      case None => halted := false;
      case Some(i) => halted := ExecuteInstruction(i);
    }

    /** One iteration of the run loop: fetch the opcode at PC, execute it. */
    method Step() returns (halted: bool)
      requires Valid()
      modifies this, memory.data
      ensures Valid()
      ensures Machine.Step(old(State())) == if halted then Machine.Halted else Machine.Running(State())
    {
      var opcode := GetByteFromPc();
      halted := ExecuteOpcode(opcode);
    }
  }
}
