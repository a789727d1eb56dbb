/** The opcode switch of `execute_opcode` as a decode table: each opcode
    byte the switch has a case for names an instruction (an operation and
    how it finds its operand); every other byte has no case. `Encode` is
    the opcode assignment written the other way round, instruction by
    instruction, and the two are shown to be inverse. */
module Instructions {
  import opened Wrappers
  import opened Registers

  /** The eight operand resolvers. */
  datatype Mode =
    | ZeroPage      // zero_page
    | ZeroPageX     // zero_page_x
    | ZeroPageY     // zero_page_y
    | PreIndexed    // pre_indexed_indirect, (zp,X)
    | PostIndexed   // post_indexed_indirect, (zp),Y
    | Absolute      // absolute
    | AbsoluteX     // absolute_x
    | AbsoluteY     // absolute_y

  /** Where a reading instruction takes its byte from: the byte after the
      opcode, or memory at a resolved address. */
  datatype Operand = Immediate | Memory(mode: Mode)

  /** The handlers that take a byte and change registers and flags. */
  datatype ReadOp = Ora | And | Eor | Adc | Sbc | Cmp | Cpx | Cpy | Lda | Ldx | Ldy | Bit

  /** The read-modify-write handlers on a memory cell. */
  datatype ModifyOp = Asl | Lsr | Rol | Ror | Inc | Dec

  /** The registers a store writes out. */
  datatype Register = A | X | Y

  /** The one-byte instructions without an operand (transfers, register
      increments, accumulator shifts, stack and return instructions). */
  datatype ImpliedOp =
    | Tax | Txa | Tay | Tya | Tsx | Txs
    | Inx | Iny | Dex | Dey
    | AslA | LsrA | RolA | RorA
    | Pha | Pla | Php | Plp
    | Rti | Rts | Nop

  datatype Instruction =
    | Read(op: ReadOp, operand: Operand)
    | Store(register: Register, mode: Mode)
    | Modify(change: ModifyOp, mode: Mode)
    | Implied(implied: ImpliedOp)
    | SetFlag(flag: Flag, on: bool)        // CLC, SEC, CLD, SED, CLI, SEI, CLV
    | Branch(flag: Flag, on: bool)         // BPL ... BEQ: taken when `flag == on`
    | Jsr
    | JmpAbsolute
    | JmpIndirect
    | Brk

  /** Number of operand bytes a resolver consumes after the opcode. */
  function OperandLength(mode: Mode): (n: bv16)
    ensures n == 1 || n == 2
    ensures n == 2 <==> mode.Absolute? || mode.AbsoluteX? || mode.AbsoluteY?
  {
    match mode
    case Absolute | AbsoluteX | AbsoluteY => 2
    case _ => 1
  }

  /** The modes whose reading handlers add a cycle when the program
      counter changes page while the operand is fetched. */
  predicate PageChecked(mode: Mode)
  {
    mode == PostIndexed || mode == AbsoluteX || mode == AbsoluteY
  }

  /** `execute_opcode`'s switch: the instruction of each opcode that has a
      case, `None` for the rest. The cases are laid out as the rows of the
      16 by 16 opcode matrix, one row per high nibble. */
  function Decode(opcode: bv8): Option<Instruction>
  {
    var low := opcode & 0xF;
    match opcode >> 4
    case 0x0 => Row0(low)
    case 0x1 => Row1(low)
    case 0x2 => Row2(low)
    case 0x3 => Row3(low)
    case 0x4 => Row4(low)
    case 0x5 => Row5(low)
    case 0x6 => Row6(low)
    case 0x7 => Row7(low)
    case 0x8 => Row8(low)
    case 0x9 => Row9(low)
    case 0xA => RowA(low)
    case 0xB => RowB(low)
    case 0xC => RowC(low)
    case 0xD => RowD(low)
    case 0xE => RowE(low)
    case _ => RowF(low)
  }

  /** Row 0x0_ of the table: opcodes 0x00 to 0x0F by their low nibble. */
  function Row0(low: bv8): Option<Instruction>
  {
    match low
    case 0x0 => Some(Brk)
    case 0x1 => Some(Read(Ora, Memory(PreIndexed)))
    case 0x5 => Some(Read(Ora, Memory(ZeroPage)))
    case 0x6 => Some(Modify(Asl, ZeroPage))
    case 0x8 => Some(Implied(Php))
    case 0x9 => Some(Read(Ora, Immediate))
    case 0xA => Some(Implied(AslA))
    case 0xD => Some(Read(Ora, Memory(Absolute)))
    case 0xE => Some(Modify(Asl, Absolute))
    case _ => None
  }

  /** Row 0x1_ of the table: opcodes 0x10 to 0x1F by their low nibble. */
  function Row1(low: bv8): Option<Instruction>
  {
    match low
    case 0x0 => Some(Branch(Negative, false))
    case 0x1 => Some(Read(Ora, Memory(PostIndexed)))
    case 0x5 => Some(Read(Ora, Memory(ZeroPageX)))
    case 0x6 => Some(Modify(Asl, ZeroPageX))
    case 0x8 => Some(SetFlag(Carry, false))
    case 0x9 => Some(Read(Ora, Memory(AbsoluteY)))
    case 0xD => Some(Read(Ora, Memory(AbsoluteX)))
    case 0xE => Some(Modify(Asl, AbsoluteX))
    case _ => None
  }

  /** Row 0x2_ of the table: opcodes 0x20 to 0x2F by their low nibble. */
  function Row2(low: bv8): Option<Instruction>
  {
    match low
    case 0x0 => Some(Jsr)
    case 0x1 => Some(Read(And, Memory(PreIndexed)))
    case 0x4 => Some(Read(Bit, Memory(ZeroPage)))
    case 0x5 => Some(Read(And, Memory(ZeroPage)))
    case 0x6 => Some(Modify(Rol, ZeroPage))
    case 0x8 => Some(Implied(Plp))
    case 0x9 => Some(Read(And, Immediate))
    case 0xA => Some(Implied(RolA))
    case 0xC => Some(Read(Bit, Memory(Absolute)))
    case 0xD => Some(Read(And, Memory(Absolute)))
    case 0xE => Some(Modify(Rol, Absolute))
    case _ => None
  }

  /** Row 0x3_ of the table: opcodes 0x30 to 0x3F by their low nibble. */
  function Row3(low: bv8): Option<Instruction>
  {
    match low
    case 0x0 => Some(Branch(Negative, true))
    case 0x1 => Some(Read(And, Memory(PostIndexed)))
    case 0x5 => Some(Read(And, Memory(ZeroPageX)))
    case 0x6 => Some(Modify(Rol, ZeroPageX))
    case 0x8 => Some(SetFlag(Carry, true))
    case 0x9 => Some(Read(And, Memory(AbsoluteY)))
    case 0xD => Some(Read(And, Memory(AbsoluteX)))
    case 0xE => Some(Modify(Rol, AbsoluteX))
    case _ => None
  }

  /** Row 0x4_ of the table: opcodes 0x40 to 0x4F by their low nibble. */
  function Row4(low: bv8): Option<Instruction>
  {
    match low
    case 0x0 => Some(Implied(Rti))
    case 0x1 => Some(Read(Eor, Memory(PreIndexed)))
    case 0x5 => Some(Read(Eor, Memory(ZeroPage)))
    case 0x6 => Some(Modify(Lsr, ZeroPage))
    case 0x8 => Some(Implied(Pha))
    case 0x9 => Some(Read(Eor, Immediate))
    case 0xA => Some(Implied(LsrA))
    case 0xC => Some(JmpAbsolute)
    case 0xD => Some(Read(Eor, Memory(Absolute)))
    case 0xE => Some(Modify(Lsr, Absolute))
    case _ => None
  }

  /** Row 0x5_ of the table: opcodes 0x50 to 0x5F by their low nibble. */
  function Row5(low: bv8): Option<Instruction>
  {
    match low
    case 0x0 => Some(Branch(Overflow, false))
    case 0x1 => Some(Read(Eor, Memory(PostIndexed)))
    case 0x5 => Some(Read(Eor, Memory(ZeroPageX)))
    case 0x6 => Some(Modify(Lsr, ZeroPageX))
    case 0x8 => Some(SetFlag(InterruptDisable, false))
    case 0x9 => Some(Read(Eor, Memory(AbsoluteY)))
    case 0xD => Some(Read(Eor, Memory(AbsoluteX)))
    case 0xE => Some(Modify(Lsr, AbsoluteX))
    case _ => None
  }

  /** Row 0x6_ of the table: opcodes 0x60 to 0x6F by their low nibble. */
  function Row6(low: bv8): Option<Instruction>
  {
    match low
    case 0x0 => Some(Implied(Rts))
    case 0x1 => Some(Read(Adc, Memory(PreIndexed)))
    case 0x5 => Some(Read(Adc, Memory(ZeroPage)))
    case 0x6 => Some(Modify(Ror, ZeroPage))
    case 0x8 => Some(Implied(Pla))
    case 0x9 => Some(Read(Adc, Immediate))
    case 0xA => Some(Implied(RorA))
    case 0xC => Some(JmpIndirect)
    case 0xD => Some(Read(Adc, Memory(Absolute)))
    case 0xE => Some(Modify(Ror, Absolute))
    case _ => None
  }

  /** Row 0x7_ of the table: opcodes 0x70 to 0x7F by their low nibble. */
  function Row7(low: bv8): Option<Instruction>
  {
    match low
    case 0x0 => Some(Branch(Overflow, true))
    case 0x1 => Some(Read(Adc, Memory(PostIndexed)))
    case 0x5 => Some(Read(Adc, Memory(ZeroPageX)))
    case 0x6 => Some(Modify(Ror, ZeroPageX))
    case 0x8 => Some(SetFlag(InterruptDisable, true))
    case 0x9 => Some(Read(Adc, Memory(AbsoluteY)))
    case 0xD => Some(Read(Adc, Memory(AbsoluteX)))
    case 0xE => Some(Modify(Ror, AbsoluteX))
    case _ => None
  }

  /** Row 0x8_ of the table: opcodes 0x80 to 0x8F by their low nibble. */
  function Row8(low: bv8): Option<Instruction>
  {
    match low
    case 0x1 => Some(Store(A, PreIndexed))
    case 0x4 => Some(Store(Y, ZeroPage))
    case 0x5 => Some(Store(A, ZeroPage))
    case 0x6 => Some(Store(X, ZeroPage))
    case 0x8 => Some(Implied(Dey))
    case 0xA => Some(Implied(Txa))
    case 0xC => Some(Store(Y, Absolute))
    case 0xD => Some(Store(A, Absolute))
    case 0xE => Some(Store(X, Absolute))
    case _ => None
  }

  /** Row 0x9_ of the table: opcodes 0x90 to 0x9F by their low nibble. */
  function Row9(low: bv8): Option<Instruction>
  {
    match low
    case 0x0 => Some(Branch(Carry, false))
    case 0x1 => Some(Store(A, PostIndexed))
    case 0x4 => Some(Store(Y, ZeroPageX))
    case 0x5 => Some(Store(A, ZeroPageX))
    case 0x6 => Some(Store(X, ZeroPageY))
    case 0x8 => Some(Implied(Tya))
    case 0x9 => Some(Store(A, AbsoluteY))
    case 0xA => Some(Implied(Txs))
    case 0xD => Some(Store(A, AbsoluteX))
    case _ => None
  }

  /** Row 0xA_ of the table: opcodes 0xA0 to 0xAF by their low nibble. */
  function RowA(low: bv8): Option<Instruction>
  {
    match low
    case 0x0 => Some(Read(Ldy, Immediate))
    case 0x1 => Some(Read(Lda, Memory(PreIndexed)))
    case 0x2 => Some(Read(Ldx, Immediate))
    case 0x4 => Some(Read(Ldy, Memory(ZeroPage)))
    case 0x5 => Some(Read(Lda, Memory(ZeroPage)))
    case 0x6 => Some(Read(Ldx, Memory(ZeroPage)))
    case 0x8 => Some(Implied(Tay))
    case 0x9 => Some(Read(Lda, Immediate))
    case 0xA => Some(Implied(Tax))
    case 0xC => Some(Read(Ldy, Memory(Absolute)))
    case 0xD => Some(Read(Lda, Memory(Absolute)))
    case 0xE => Some(Read(Ldx, Memory(Absolute)))
    case _ => None
  }

  /** Row 0xB_ of the table: opcodes 0xB0 to 0xBF by their low nibble. */
  function RowB(low: bv8): Option<Instruction>
  {
    match low
    case 0x0 => Some(Branch(Carry, true))
    case 0x1 => Some(Read(Lda, Memory(PostIndexed)))
    case 0x4 => Some(Read(Ldy, Memory(ZeroPageX)))
    case 0x5 => Some(Read(Lda, Memory(ZeroPageX)))
    case 0x6 => Some(Read(Ldx, Memory(ZeroPageY)))
    case 0x8 => Some(SetFlag(Overflow, false))
    case 0x9 => Some(Read(Lda, Memory(AbsoluteY)))
    case 0xA => Some(Implied(Tsx))
    case 0xC => Some(Read(Ldy, Memory(AbsoluteX)))
    case 0xD => Some(Read(Lda, Memory(AbsoluteX)))
    case 0xE => Some(Read(Ldx, Memory(AbsoluteY)))
    case _ => None
  }

  /** Row 0xC_ of the table: opcodes 0xC0 to 0xCF by their low nibble. */
  function RowC(low: bv8): Option<Instruction>
  {
    match low
    case 0x0 => Some(Read(Cpy, Immediate))
    case 0x1 => Some(Read(Cmp, Memory(PreIndexed)))
    case 0x4 => Some(Read(Cpy, Memory(ZeroPage)))
    case 0x5 => Some(Read(Cmp, Memory(ZeroPage)))
    case 0x6 => Some(Modify(Dec, ZeroPage))
    case 0x8 => Some(Implied(Iny))
    case 0x9 => Some(Read(Cmp, Immediate))
    case 0xA => Some(Implied(Dex))
    case 0xC => Some(Read(Cpy, Memory(Absolute)))
    case 0xD => Some(Read(Cmp, Memory(Absolute)))
    case 0xE => Some(Modify(Dec, Absolute))
    case _ => None
  }

  /** Row 0xD_ of the table: opcodes 0xD0 to 0xDF by their low nibble. */
  function RowD(low: bv8): Option<Instruction>
  {
    match low
    case 0x0 => Some(Branch(Zero, false))
    case 0x1 => Some(Read(Cmp, Memory(PostIndexed)))
    case 0x5 => Some(Read(Cmp, Memory(ZeroPageX)))
    case 0x6 => Some(Modify(Dec, ZeroPageX))
    case 0x8 => Some(SetFlag(DecimalMode, false))
    case 0x9 => Some(Read(Cmp, Memory(AbsoluteY)))
    case 0xD => Some(Read(Cmp, Memory(AbsoluteX)))
    case 0xE => Some(Modify(Dec, AbsoluteX))
    case _ => None
  }

  /** Row 0xE_ of the table: opcodes 0xE0 to 0xEF by their low nibble. */
  function RowE(low: bv8): Option<Instruction>
  {
    match low
    case 0x0 => Some(Read(Cpx, Immediate))
    case 0x1 => Some(Read(Sbc, Memory(PreIndexed)))
    case 0x4 => Some(Read(Cpx, Memory(ZeroPage)))
    case 0x5 => Some(Read(Sbc, Memory(ZeroPage)))
    case 0x6 => Some(Modify(Inc, ZeroPage))
    case 0x8 => Some(Implied(Inx))
    case 0x9 => Some(Read(Sbc, Immediate))
    case 0xA => Some(Implied(Nop))
    case 0xC => Some(Read(Cpx, Memory(Absolute)))
    case 0xD => Some(Read(Sbc, Memory(Absolute)))
    case 0xE => Some(Modify(Inc, Absolute))
    case _ => None
  }

  /** Row 0xF_ of the table: opcodes 0xF0 to 0xFF by their low nibble. */
  function RowF(low: bv8): Option<Instruction>
  {
    match low
    case 0x0 => Some(Branch(Zero, true))
    case 0x1 => Some(Read(Sbc, Memory(PostIndexed)))
    case 0x5 => Some(Read(Sbc, Memory(ZeroPageX)))
    case 0x6 => Some(Modify(Inc, ZeroPageX))
    case 0x8 => Some(SetFlag(DecimalMode, true))
    case 0x9 => Some(Read(Sbc, Memory(AbsoluteY)))
    case 0xD => Some(Read(Sbc, Memory(AbsoluteX)))
    case 0xE => Some(Modify(Inc, AbsoluteX))
    case _ => None
  }

  /** The opcode of an instruction reading through `mode`, from the column
      of the table that holds ORA ... CMP and LDA: each has the same low
      bits per mode. */
  function GroupOneMode(base: bv8, operand: Operand): (r: Option<bv8>)
  {
    match operand
    case Immediate => Some(base + 0x08)
    case Memory(ZeroPage) => Some(base + 0x04)
    case Memory(ZeroPageX) => Some(base + 0x14)
    case Memory(PreIndexed) => Some(base)
    case Memory(PostIndexed) => Some(base + 0x10)
    case Memory(Absolute) => Some(base + 0x0C)
    case Memory(AbsoluteX) => Some(base + 0x1C)
    case Memory(AbsoluteY) => Some(base + 0x18)
    case Memory(ZeroPageY) => None
  }

  /** The opcode of a read-modify-write instruction through `mode`. */
  function ModifyMode(base: bv8, mode: Mode): (r: Option<bv8>)
  {
    match mode
    case ZeroPage => Some(base)
    case ZeroPageX => Some(base + 0x10)
    case Absolute => Some(base + 0x08)
    case AbsoluteX => Some(base + 0x18)
    case _ => None
  }

  /** The opcode of each instruction the table has, written by
      instruction from the regular layout of the 6502 opcode matrix, and
      `None` for the combinations the table lacks (such as a store to an
      immediate or LDX through `ZeroPageX`). */
  function Encode(i: Instruction): Option<bv8>
  {
    match i
    case Read(Ora, operand) => GroupOneMode(0x01, operand)
    case Read(And, operand) => GroupOneMode(0x21, operand)
    case Read(Eor, operand) => GroupOneMode(0x41, operand)
    case Read(Adc, operand) => GroupOneMode(0x61, operand)
    case Read(Lda, operand) => GroupOneMode(0xA1, operand)
    case Read(Cmp, operand) => GroupOneMode(0xC1, operand)
    case Read(Sbc, operand) => GroupOneMode(0xE1, operand)
    case Read(Cpx, Immediate) => Some(0xE0)
    case Read(Cpx, Memory(ZeroPage)) => Some(0xE4)
    case Read(Cpx, Memory(Absolute)) => Some(0xEC)
    case Read(Cpy, Immediate) => Some(0xC0)
    case Read(Cpy, Memory(ZeroPage)) => Some(0xC4)
    case Read(Cpy, Memory(Absolute)) => Some(0xCC)
    case Read(Ldx, Immediate) => Some(0xA2)
    case Read(Ldx, Memory(ZeroPage)) => Some(0xA6)
    case Read(Ldx, Memory(ZeroPageY)) => Some(0xB6)
    case Read(Ldx, Memory(Absolute)) => Some(0xAE)
    case Read(Ldx, Memory(AbsoluteY)) => Some(0xBE)
    case Read(Ldy, Immediate) => Some(0xA0)
    case Read(Ldy, Memory(ZeroPage)) => Some(0xA4)
    case Read(Ldy, Memory(ZeroPageX)) => Some(0xB4)
    case Read(Ldy, Memory(Absolute)) => Some(0xAC)
    case Read(Ldy, Memory(AbsoluteX)) => Some(0xBC)
    case Read(Bit, Memory(ZeroPage)) => Some(0x24)
    case Read(Bit, Memory(Absolute)) => Some(0x2C)
    case Read(_, _) => None
    case Store(A, mode) => GroupOneMode(0x81, Memory(mode))
    case Store(X, ZeroPage) => Some(0x86)
    case Store(X, ZeroPageY) => Some(0x96)
    case Store(X, Absolute) => Some(0x8E)
    case Store(Y, ZeroPage) => Some(0x84)
    case Store(Y, ZeroPageX) => Some(0x94)
    case Store(Y, Absolute) => Some(0x8C)
    case Store(_, _) => None
    case Modify(Asl, mode) => ModifyMode(0x06, mode)
    case Modify(Rol, mode) => ModifyMode(0x26, mode)
    case Modify(Lsr, mode) => ModifyMode(0x46, mode)
    case Modify(Ror, mode) => ModifyMode(0x66, mode)
    case Modify(Dec, mode) => ModifyMode(0xC6, mode)
    case Modify(Inc, mode) => ModifyMode(0xE6, mode)
    case Implied(op) => Some(ImpliedOpcode(op))
    case SetFlag(Carry, on) => Some(if on then 0x38 else 0x18)
    case SetFlag(InterruptDisable, on) => Some(if on then 0x78 else 0x58)
    case SetFlag(DecimalMode, on) => Some(if on then 0xF8 else 0xD8)
    case SetFlag(Overflow, on) => if on then None else Some(0xB8)
    case SetFlag(_, _) => None
    case Branch(Negative, on) => Some(if on then 0x30 else 0x10)
    case Branch(Overflow, on) => Some(if on then 0x70 else 0x50)
    case Branch(Carry, on) => Some(if on then 0xB0 else 0x90)
    case Branch(Zero, on) => Some(if on then 0xF0 else 0xD0)
    case Branch(_, _) => None
    case Jsr => Some(0x20)
    case JmpAbsolute => Some(0x4C)
    case JmpIndirect => Some(0x6C)
    case Brk => Some(0x00)
  }

  /** The opcode of each implied instruction. */
  function ImpliedOpcode(op: ImpliedOp): bv8
  {
    match op
    case Tax => 0xAA
    case Txa => 0x8A
    case Tay => 0xA8
    case Tya => 0x98
    case Tsx => 0xBA
    case Txs => 0x9A
    case Inx => 0xE8
    case Iny => 0xC8
    case Dex => 0xCA
    case Dey => 0x88
    case AslA => 0x0A
    case LsrA => 0x4A
    case RolA => 0x2A
    case RorA => 0x6A
    case Pha => 0x48
    case Pla => 0x68
    case Php => 0x08
    case Plp => 0x28
    case Rti => 0x40
    case Rts => 0x60
    case Nop => 0xEA
  }

  /** Every opcode the table decodes is the encoding of what it decodes
      to: no two opcodes share an instruction. */
  lemma EncodeOfDecode(opcode: bv8)
    ensures Decode(opcode).Some? ==> Encode(Decode(opcode).value) == Some(opcode)
  {
    match opcode >> 4
    case 0x0 => EncodeOfDecodeRow0(opcode);
    case 0x1 => EncodeOfDecodeRow1(opcode);
    case 0x2 => EncodeOfDecodeRow2(opcode);
    case 0x3 => EncodeOfDecodeRow3(opcode);
    case 0x4 => EncodeOfDecodeRow4(opcode);
    case 0x5 => EncodeOfDecodeRow5(opcode);
    case 0x6 => EncodeOfDecodeRow6(opcode);
    case 0x7 => EncodeOfDecodeRow7(opcode);
    case 0x8 => EncodeOfDecodeRow8(opcode);
    case 0x9 => EncodeOfDecodeRow9(opcode);
    case 0xA => EncodeOfDecodeRowA(opcode);
    case 0xB => EncodeOfDecodeRowB(opcode);
    case 0xC => EncodeOfDecodeRowC(opcode);
    case 0xD => EncodeOfDecodeRowD(opcode);
    case 0xE => EncodeOfDecodeRowE(opcode);
    case _ => EncodeOfDecodeRowF(opcode);
  }

  /** Every instruction that has an encoding decodes back from it: the
      table has a case for each instruction `Encode` knows. */
  lemma DecodeOfEncode(i: Instruction)
    ensures Encode(i).Some? ==> Decode(Encode(i).value) == Some(i)
  {
    match i
    case Read(op, operand) =>
      match op {
        case Ora | And | Eor | Adc => DecodeOfEncodeArithmetic(op, operand);
        case Sbc | Cmp | Lda => DecodeOfEncodeCompareLoad(op, operand);
        case Cpx | Cpy | Ldx | Ldy | Bit => DecodeOfEncodeIndexRegisters(op, operand);
      }
    case Store(r, mode) => DecodeOfEncodeStore(r, mode);
    case Modify(op, mode) => DecodeOfEncodeModify(op, mode);
    case Implied(op) => DecodeOfEncodeImplied(op);
    case SetFlag(f, on) => DecodeOfEncodeFlag(f, on);
    case Branch(f, on) => DecodeOfEncodeBranch(f, on);
    case _ =>
  }

  // The table, row by row and instruction group by instruction group.

  lemma EncodeOfDecodeRow0(opcode: bv8)
    requires opcode >> 4 == 0x0
    ensures Decode(opcode).Some? ==> Encode(Decode(opcode).value) == Some(opcode)
  {
  }

  lemma EncodeOfDecodeRow1(opcode: bv8)
    requires opcode >> 4 == 0x1
    ensures Decode(opcode).Some? ==> Encode(Decode(opcode).value) == Some(opcode)
  {
  }

  lemma EncodeOfDecodeRow2(opcode: bv8)
    requires opcode >> 4 == 0x2
    ensures Decode(opcode).Some? ==> Encode(Decode(opcode).value) == Some(opcode)
  {
  }

  lemma EncodeOfDecodeRow3(opcode: bv8)
    requires opcode >> 4 == 0x3
    ensures Decode(opcode).Some? ==> Encode(Decode(opcode).value) == Some(opcode)
  {
  }

  lemma EncodeOfDecodeRow4(opcode: bv8)
    requires opcode >> 4 == 0x4
    ensures Decode(opcode).Some? ==> Encode(Decode(opcode).value) == Some(opcode)
  {
  }

  lemma EncodeOfDecodeRow5(opcode: bv8)
    requires opcode >> 4 == 0x5
    ensures Decode(opcode).Some? ==> Encode(Decode(opcode).value) == Some(opcode)
  {
  }

  lemma EncodeOfDecodeRow6(opcode: bv8)
    requires opcode >> 4 == 0x6
    ensures Decode(opcode).Some? ==> Encode(Decode(opcode).value) == Some(opcode)
  {
  }

  lemma EncodeOfDecodeRow7(opcode: bv8)
    requires opcode >> 4 == 0x7
    ensures Decode(opcode).Some? ==> Encode(Decode(opcode).value) == Some(opcode)
  {
  }

  lemma EncodeOfDecodeRow8(opcode: bv8)
    requires opcode >> 4 == 0x8
    ensures Decode(opcode).Some? ==> Encode(Decode(opcode).value) == Some(opcode)
  {
  }

  lemma EncodeOfDecodeRow9(opcode: bv8)
    requires opcode >> 4 == 0x9
    ensures Decode(opcode).Some? ==> Encode(Decode(opcode).value) == Some(opcode)
  {
  }

  lemma EncodeOfDecodeRowA(opcode: bv8)
    requires opcode >> 4 == 0xA
    ensures Decode(opcode).Some? ==> Encode(Decode(opcode).value) == Some(opcode)
  {
  }

  lemma EncodeOfDecodeRowB(opcode: bv8)
    requires opcode >> 4 == 0xB
    ensures Decode(opcode).Some? ==> Encode(Decode(opcode).value) == Some(opcode)
  {
  }

  lemma EncodeOfDecodeRowC(opcode: bv8)
    requires opcode >> 4 == 0xC
    ensures Decode(opcode).Some? ==> Encode(Decode(opcode).value) == Some(opcode)
  {
  }

  lemma EncodeOfDecodeRowD(opcode: bv8)
    requires opcode >> 4 == 0xD
    ensures Decode(opcode).Some? ==> Encode(Decode(opcode).value) == Some(opcode)
  {
  }

  lemma EncodeOfDecodeRowE(opcode: bv8)
    requires opcode >> 4 == 0xE
    ensures Decode(opcode).Some? ==> Encode(Decode(opcode).value) == Some(opcode)
  {
  }

  lemma EncodeOfDecodeRowF(opcode: bv8)
    requires opcode >> 4 == 0xF
    ensures Decode(opcode).Some? ==> Encode(Decode(opcode).value) == Some(opcode)
  {
  }

  lemma DecodeOfEncodeArithmetic(op: ReadOp, operand: Operand)
    requires op in {Ora, And, Eor, Adc}
    ensures Encode(Read(op, operand)).Some? ==> Decode(Encode(Read(op, operand)).value) == Some(Read(op, operand))
  {
  }

  lemma DecodeOfEncodeCompareLoad(op: ReadOp, operand: Operand)
    requires op in {Sbc, Cmp, Lda}
    ensures Encode(Read(op, operand)).Some? ==> Decode(Encode(Read(op, operand)).value) == Some(Read(op, operand))
  {
  }

  lemma DecodeOfEncodeIndexRegisters(op: ReadOp, operand: Operand)
    requires op in {Cpx, Cpy, Ldx, Ldy, Bit}
    ensures Encode(Read(op, operand)).Some? ==> Decode(Encode(Read(op, operand)).value) == Some(Read(op, operand))
  {
  }

  lemma DecodeOfEncodeStore(r: Register, mode: Mode)
    ensures Encode(Store(r, mode)).Some? ==> Decode(Encode(Store(r, mode)).value) == Some(Store(r, mode))
  {
  }

  lemma DecodeOfEncodeModify(op: ModifyOp, mode: Mode)
    ensures Encode(Modify(op, mode)).Some? ==> Decode(Encode(Modify(op, mode)).value) == Some(Modify(op, mode))
  {
  }

  lemma DecodeOfEncodeImplied(op: ImpliedOp)
    ensures Decode(ImpliedOpcode(op)) == Some(Implied(op))
  {
  }

  lemma DecodeOfEncodeFlag(f: Flag, on: bool)
    ensures Encode(SetFlag(f, on)).Some? ==> Decode(Encode(SetFlag(f, on)).value) == Some(SetFlag(f, on))
  {
  }

  lemma DecodeOfEncodeBranch(f: Flag, on: bool)
    ensures Encode(Branch(f, on)).Some? ==> Decode(Encode(Branch(f, on)).value) == Some(Branch(f, on))
  {
  }
}
