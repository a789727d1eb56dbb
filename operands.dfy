/** The instructions with a memory or immediate operand: the reading
    handlers, the stores and the read-modify-write handlers, as a fetch of
    the operand followed by the handler, with PC moved past the operand
    and the cycles of the opcode's wrapper. */
module Operands {
  import opened Bitwise
  import opened Instructions
  import opened Machine
  import MemoryMap
  import FetchAndStack

  /** Operand bytes after the opcode: one for an immediate byte, one or
      two for a memory operand. */
  function OperandBytes(operand: Operand): bv16
  {
    match operand
    case Immediate => 1
    case Memory(mode) => OperandLength(mode)
  }

  /** The cycles a reading opcode's wrapper adds: 2 for the immediate
      forms; for `(zp),Y`, `abs,X` and `abs,Y` 1 when the operand ends on
      another page than PC started on; nothing otherwise. */
  function ReadCycles(operand: Operand, pc: bv16): nat
  {
    match operand
    case Immediate => 2
    case Memory(mode) =>
      if PageChecked(mode) && Page(pc) != Page(AddWord(pc, OperandLength(mode))) then 1 else 0
  }

  /** Fetching an operand moves PC past its bytes and changes nothing
      else. */
  lemma {:induction false} FetchOperandNext(s: State, operand: Operand)
    ensures FetchOperand(s, operand).next == s.(pc := AddWord(s.pc, OperandBytes(operand)))
  {
    match operand
    case Immediate =>
    case Memory(mode) => FetchAndStack.ResolveAdvances(s, mode);
  }

  /** Whatever the handler computed, provided fetching moved PC past the
      operand and changed nothing else, the wrapper installs the handler's
      registers, moves PC past the operand and adds the wrapper's cycles. */
  lemma {:induction false} ReadWithSpec(operand: Operand, s: State, next: State, r: RegisterFile)
    requires next == s.(pc := AddWord(s.pc, OperandBytes(operand)))
    ensures ReadWith(operand, s, next, r) ==
      WithRegisters(s, r).(
        pc := AddWord(s.pc, OperandBytes(operand)),
        cycles := s.cycles + ReadCycles(operand, s.pc))
  {
    match operand
    case Immediate =>
    case Memory(mode) =>
  }

  /** A reading instruction is its handler applied to the operand byte,
      with PC moved past the operand and the wrapper's cycles added. */
  lemma {:induction false} ExecReadSpec(op: ReadOp, operand: Operand, s: State)
    ensures ExecRead(op, operand, s) ==
      WithRegisters(s, ApplyRead(op, FetchOperand(s, operand).value, RegistersOf(s))).(
        pc := AddWord(s.pc, OperandBytes(operand)),
        cycles := s.cycles + ReadCycles(operand, s.pc))
  {
    var m := FetchOperand(s, operand);
    FetchOperandNext(s, operand);
    assert RegistersOf(m.next) == RegistersOf(s);
    ReadWithSpec(operand, s, m.next, ApplyRead(op, m.value, RegistersOf(s)));
  }
}
