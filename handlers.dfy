/** What the handlers of `execute_opcode` do to registers, flags, memory,
    PC and the cycle counter, each stated against an independent
    description: a bit-by-bit reading of the logical operations, a cycle
    table, the inverse operation. Each fact is proved on its own. */
module Handlers {
  import opened Bitwise
  import opened Registers
  import opened Instructions
  import opened Machine
  import Alu

  /** Register `which` of a register file. */
  function Value(r: RegisterFile, which: Register): bv8
  {
    match which
    case A => r.a
    case X => r.x
    case Y => r.y
  }

  /** The register file with register `which` set to `v`. */
  function WithValue(r: RegisterFile, which: Register, v: bv8): RegisterFile
  {
    match which
    case A => r.(a := v)
    case X => r.(x := v)
    case Y => r.(y := v)
  }

  /** The register a load writes. */
  function LoadTarget(op: ReadOp): Register
    requires op in {Lda, Ldx, Ldy}
  {
    if op == Lda then A else if op == Ldx then X else Y
  }

  // Loads.

  lemma {:induction false} LoadValue(op: ReadOp, m: bv8, r: RegisterFile)
    requires op in {Lda, Ldx, Ldy}
    ensures ApplyRead(op, m, r).(p := r.p) == WithValue(r, LoadTarget(op), m)
  {
    match op
    case Lda =>
    case Ldx =>
    case Ldy =>
  }

  lemma {:induction false} LoadStatus(op: ReadOp, m: bv8, r: RegisterFile)
    requires op in {Lda, Ldx, Ldy}
    ensures ApplyRead(op, m, r).p == Alu.SetNZ(r.p, m)
  {
    match op
    case Lda =>
    case Ldx =>
    case Ldy =>
  }

  /** What Z and N say about the value they were set from, and that no
      other flag moves. */
  lemma {:induction false} SetNZMeaning(p: Status, v: bv8)
    ensures Alu.SetNZ(p, v).zero <==> v == 0
    ensures Alu.SetNZ(p, v).negative <==> v >= 0x80
    ensures Alu.SetNZ(p, v).(zero := p.zero, negative := p.negative) == p
  {
    Alu.Bit7(v);
  }

  // ORA, AND, EOR.

  lemma {:induction false} LogicalStatus(op: ReadOp, m: bv8, r: RegisterFile)
    requires op in {Ora, And, Eor}
    ensures ApplyRead(op, m, r) == r.(a := ApplyRead(op, m, r).a, p := Alu.SetNZ(r.p, ApplyRead(op, m, r).a))
  {
    match op
    case Ora =>
    case And =>
    case Eor =>
  }

  lemma {:induction false} OraBit(m: bv8, r: RegisterFile, i: nat)
    requires i < 8
    ensures IsSet(ApplyRead(Ora, m, r).a, i) <==> IsSet(r.a, i) || IsSet(m, i)
  {
    BitOfOr(r.a, m, i);
  }

  lemma {:induction false} AndBit(m: bv8, r: RegisterFile, i: nat)
    requires i < 8
    ensures IsSet(ApplyRead(And, m, r).a, i) <==> IsSet(r.a, i) && IsSet(m, i)
  {
    BitOfAnd(r.a, m, i);
  }

  lemma {:induction false} EorBit(m: bv8, r: RegisterFile, i: nat)
    requires i < 8
    ensures IsSet(ApplyRead(Eor, m, r).a, i) <==> IsSet(r.a, i) != IsSet(m, i)
  {
    BitOfXor(r.a, m, i);
  }

  /** ORA, AND, EOR change only A, Z and N; Z and N describe the new A. */
  lemma {:induction false} LogicalFlags(op: ReadOp, m: bv8, r: RegisterFile)
    requires op in {Ora, And, Eor}
    ensures ApplyRead(op, m, r).(a := r.a, p := r.p) == r
    ensures ApplyRead(op, m, r).p.zero <==> ApplyRead(op, m, r).a == 0
    ensures ApplyRead(op, m, r).p.negative <==> ApplyRead(op, m, r).a >= 0x80
    ensures ApplyRead(op, m, r).p.(zero := r.p.zero, negative := r.p.negative) == r.p
  {
    LogicalStatus(op, m, r);
    SetNZMeaning(r.p, ApplyRead(op, m, r).a);
  }

  lemma {:induction false} EorTwice(m: bv8, r: RegisterFile)
    ensures ApplyRead(Eor, m, ApplyRead(Eor, m, r)).a == r.a
  {
    assert (r.a ^ m) ^ m == r.a;
  }

  lemma {:induction false} OraTwice(m: bv8, r: RegisterFile)
    ensures ApplyRead(Ora, m, ApplyRead(Ora, m, r)) == ApplyRead(Ora, m, r)
  {
    assert (r.a | m) | m == r.a | m;
  }

  lemma {:induction false} AndTwice(m: bv8, r: RegisterFile)
    ensures ApplyRead(And, m, ApplyRead(And, m, r)) == ApplyRead(And, m, r)
  {
    assert (r.a & m) & m == r.a & m;
  }

  // Compares.

  /** The register a compare reads. */
  function CompareSource(op: ReadOp): Register
    requires op in {Cmp, Cpx, Cpy}
  {
    if op == Cmp then A else if op == Cpx then X else Y
  }

  lemma {:induction false} CompareStatus(op: ReadOp, m: bv8, r: RegisterFile)
    requires op in {Cmp, Cpx, Cpy}
    ensures ApplyRead(op, m, r) == r.(p := Alu.Compare(Value(r, CompareSource(op)), m, r.p))
  {
    match op
    case Cmp =>
    case Cpx =>
    case Cpy =>
  }

  /** CMP, CPX, CPY change only C, Z and N: C when the register is at least
      the operand, Z when they are equal; no register changes. */
  lemma {:induction false} CompareSpec(op: ReadOp, m: bv8, r: RegisterFile)
    requires op in {Cmp, Cpx, Cpy}
    ensures ApplyRead(op, m, r) == r.(p := ApplyRead(op, m, r).p)
    ensures ApplyRead(op, m, r).p.carry <==> Value(r, CompareSource(op)) >= m
    ensures ApplyRead(op, m, r).p.zero <==> Value(r, CompareSource(op)) == m
    ensures ApplyRead(op, m, r).p.(carry := r.p.carry, zero := r.p.zero, negative := r.p.negative) == r.p
  {
    CompareStatus(op, m, r);
    Alu.CompareZero(Value(r, CompareSource(op)), m, r.p);
  }

  // The instructions without operand.

  /** The cycles an instruction without operand adds to `loop_cycles`. */
  function ImpliedCycles(op: ImpliedOp): nat
  {
    match op
    case Pha | Php => 3
    case Pla | Plp => 4
    case Rti => 6
    case Rts => 0
    case _ => 2
  }

  /** Every instruction without operand adds its cycles from the table. */
  lemma {:induction false} ImpliedCyclesSpec(op: ImpliedOp, s: State)
    ensures ExecImplied(op, s).cycles == s.cycles + ImpliedCycles(op)
  {
    match op
    case Tax =>
    case Txa =>
    case Tay =>
    case Tya =>
    case Tsx =>
    case Txs =>
    case Inx =>
    case Iny =>
    case Dex =>
    case Dey =>
    case AslA =>
    case LsrA =>
    case RolA =>
    case RorA =>
    case Pha =>
    case Pla =>
    case Php =>
    case Plp =>
    case Rti =>
    case Rts =>
    case Nop =>
  }

  /** Only RTI and RTS move PC among the instructions without operand. */
  lemma {:induction false} ImpliedKeepsPc(op: ImpliedOp, s: State)
    requires op !in {Rti, Rts}
    ensures ExecImplied(op, s).pc == s.pc
  {
    match op
    case Tax =>
    case Txa =>
    case Tay =>
    case Tya =>
    case Tsx =>
    case Txs =>
    case Inx =>
    case Iny =>
    case Dex =>
    case Dey =>
    case AslA =>
    case LsrA =>
    case RolA =>
    case RorA =>
    case Pha =>
    case Pla =>
    case Php =>
    case Plp =>
    case Nop =>
  }

  /** The register-to-register transfers: the destination receives the
      source, Z and N describe the value, except TXS, which sets no flag. */
  lemma {:induction false} TransferSpec(s: State)
    ensures ExecImplied(Tax, s) == s.(x := s.a, p := Alu.SetNZ(s.p, s.a), cycles := s.cycles + 2)
    ensures ExecImplied(Txa, s) == s.(a := s.x, p := Alu.SetNZ(s.p, s.x), cycles := s.cycles + 2)
    ensures ExecImplied(Tay, s) == s.(y := s.a, p := Alu.SetNZ(s.p, s.a), cycles := s.cycles + 2)
    ensures ExecImplied(Tya, s) == s.(a := s.y, p := Alu.SetNZ(s.p, s.y), cycles := s.cycles + 2)
    ensures ExecImplied(Tsx, s) == s.(x := s.sp, p := Alu.SetNZ(s.p, s.sp), cycles := s.cycles + 2)
    ensures ExecImplied(Txs, s) == s.(sp := s.x, cycles := s.cycles + 2)
  {
  }

  /** TAX then TXA, TAY then TYA, and TSX then TXS leave A and SP as they
      were. */
  lemma {:induction false} TransferBack(s: State)
    ensures ExecImplied(Txa, ExecImplied(Tax, s)).a == s.a
    ensures ExecImplied(Tya, ExecImplied(Tay, s)).a == s.a
    ensures ExecImplied(Txs, ExecImplied(Tsx, s)).sp == s.sp
  {
  }

  /** INX, INY, DEX, DEY step the register by one with wrap-around and set
      Z from the new value; a decrement undoes an increment. */
  lemma {:induction false} StepIndex(s: State)
    ensures ExecImplied(Dex, ExecImplied(Inx, s)).x == s.x
    ensures ExecImplied(Inx, ExecImplied(Dex, s)).x == s.x
    ensures ExecImplied(Dey, ExecImplied(Iny, s)).y == s.y
    ensures ExecImplied(Iny, ExecImplied(Dey, s)).y == s.y
    ensures ExecImplied(Inx, s).p.zero <==> s.x == 0xFF
    ensures ExecImplied(Dex, s).p.zero <==> s.x == 0x01
  {
    IncDecInverse(s.x, 0);
    IncDecInverse(s.y, 0);
  }

  /** INC and DEC on a memory byte: one undoes the other, and Z describes
      the new byte. */
  lemma {:induction false} IncDecMemory(v: bv8, p: Status, q: Status)
    ensures ApplyModify(Dec, ApplyModify(Inc, v, p).value, q).value == v
    ensures ApplyModify(Inc, ApplyModify(Dec, v, p).value, q).value == v
    ensures ApplyModify(Inc, v, p).status.zero <==> v == 0xFF
    ensures ApplyModify(Dec, v, p).status.zero <==> v == 0x01
  {
  }
}
