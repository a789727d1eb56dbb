# NES 6502 CPU interpreter, memory map and mapper-0 cartridge, in Dafny

This project models the core of a small NES emulator written in C++:

- the 6502 CPU interpreter: registers, addressing modes, stack, the opcode
  switch and every implemented handler;
- the CPU memory map: 2 KB of internal RAM mirrored to 0x1FFF, eight PPU
  registers mirrored to 0x3FFF, the APU/IO registers, and cartridge space;
- the mapper-0 (NROM) cartridge: the iNES header and the 16 KB PRG window
  mirrored at 0x8000 and 0xC000;
- the bit helpers and the byte, word and status register classes.

The model has two layers.

1. **Value layer.** `Machine.State` is a value. It holds A, X, Y, SP, the
   status flags, PC, the memory array, the cartridge and `loop_cycles`.
   Every CPU member is a function on that value: `Machine.Resolve` for the
   eight resolvers, `Machine.ExecRead`, `Machine.ExecStore`,
   `Machine.ExecModify`, `Machine.ExecImplied`, `Machine.ExecBranch`,
   `Machine.ExecJsr`, and the rest. `Machine.Step` is one iteration of the
   run loop.
2. **Imperative layer.** `Processor.CPU` is a class. Its register fields
   are updated in place, and its `memory` field is a `MemoryMap.Memory`
   object over a 0x10000-byte array whose cells above 0x4017 are never
   read or written. Every method of the class is proved to
   leave the CPU in exactly the state the value layer computes.

The lemmas state what the source promises about the value layer:

- flag semantics of ADC, SBC, CMP, the shifts and rotations, and BIT;
- stack discipline: push/pop, PHA/PLA, PHP/PLP, JSR/RTS, and an interrupt
  frame popped by RTI;
- mirroring and read-after-write of the memory map;
- the opcode table as a bijection between the decoded opcodes and their
  instructions;
- the register-class inverses.

Module overview:

| module | file | models |
|---|---|---|
| `Wrappers` | wrappers.dfy | `Option` |
| `Bitwise` | bitwise.dfy | `src/bitwise.cpp` |
| `Registers` | registers.dfy | `src/register.cpp`, `src/register.h` |
| `Cartridges` | cartridge.dfy | `src/cartridge.cpp`, `src/cartridge.h` |
| `MemoryMap` | memory.dfy | `src/memory.cpp` |
| `Alu` | alu.dfy | the arithmetic of `src/logical_arithmetic.cpp` and BIT |
| `Instructions` | instructions.dfy | the opcode switch of `src/cpu.cpp` |
| `Machine` | machine.dfy | one step of the CPU as a function |
| `FetchAndStack`, `Operands`, `Handlers`, `Execution`, `StackSequences` | stack.dfy, operands.dfy, handlers.dfy, execution.dfy, sequences.dfy | lemmas about `Machine` |
| `StackDiscipline` | lifo.dfy | `stack_push` and `stack_pop` repeated: the stack is last in, first out |
| `Processor` | cpu.dfy | class `CPU` over `MemoryMap.Memory` |

Behaviour that is kept as the code has it, each shown by a lemma:

- A branch that is not taken adds 2 to PC, one more than its operand
  length. `Execution.BranchNotTaken` states it, and
  `Execution.BranchZeroOffset` shows that a taken branch with offset 0
  ends one byte earlier.
- ADC's carry check adds the carry to M before widening. With M = 0xFF and
  the carry set, no carry is reported (`Alu.AdcCarry`).
- ROL on memory sets Carry from bit 7 before adding the carry back, so the
  byte rotates onto itself (`Alu.RotateLeftMemoryIsAccumulatorWithOwnBit`).
- The indirect modes and JMP indirect read the pointer's high byte at
  pointer + 1 on 16 bits, with no zero-page or page wrap
  (`FetchAndStack.PointerDoesNotWrap`, `Execution.PointerCrossesPage`).
- `Cartridge::read` maps 0xC000-0xFFFF onto the first 16 KB bank.
  Addresses below 0x8000 read 0.

## Model

| member | source | states |
|---|---|---|
| Bitwise.CheckBit | src/bitwise.cpp:5-7 | the result is true exactly when the bit index is below 8 and that bit of the value is set |
| Bitwise.GetBit | src/bitwise.cpp:20-22 | `get_bit` answers the same as `check_bit` for every value and bit index |
| Bitwise.SetBit | src/bitwise.cpp:14-16 | `set_bit`: ORs in the mask of the bit, for indices below 8; its meaning is stated by `Bitwise.SetBitMeaning` |
| Bitwise.ClearBit | src/bitwise.cpp:17-19 | `clear_bit`: ANDs with the complement of the mask, for indices below 8; its meaning is stated by `Bitwise.ClearBitMeaning` |
| Bitwise.SetBitTo | src/bitwise.cpp:23-26 | `set_bit_to`: `set_bit` when on, `clear_bit` when off; its meaning is stated by `Bitwise.SetBitToMeaning` |
| Bitwise.SetBitMeaning | src/bitwise.cpp:14-16 | `set_bit` sets the named bit and leaves the other seven alone; an index of 8 or more leaves the byte unchanged |
| Bitwise.ClearBitMeaning | src/bitwise.cpp:17-19 | `clear_bit` clears the named bit and leaves the other seven alone; an index of 8 or more leaves the byte unchanged |
| Bitwise.SetBitToMeaning | src/bitwise.cpp:23-26 | after `set_bit_to(v, i, on)`, bit i reads back as `on` (also through `check_bit`) and the other bits are unchanged |
| Bitwise.SetClearIdempotent | src/bitwise.cpp:14-19 | setting a bit twice equals setting it once, and clearing it twice equals clearing it once |
| Bitwise.SetBitToUnchanged | src/bitwise.cpp:23-26 | setting a bit to the value it already has returns the byte unchanged |
| Bitwise.MaskIsShift | src/bitwise.cpp:14-19 | the mask of bit i is `1 << i` |
| Bitwise.CombineNibbles | src/bitwise.cpp:8-10 | with both nibbles below 16 the result is `upper * 16 + lower`; its high nibble is the upper argument and its low nibble the lower one |
| Bitwise.CombineBytes | src/bitwise.cpp:11-13 | `combine_bytes`: the upper byte shifted left 8, ORed with the lower; its meaning is stated by `Bitwise.CombineBytesMeaning` |
| Bitwise.CombineBytesMeaning | src/bitwise.cpp:11-13 | `combine_bytes(lo, hi)` is `hi * 256 + lo`, and its low and high bytes are `lo` and `hi` again |
| Bitwise.CombineBytesOfHalves | src/bitwise.cpp:11-13 | splitting a word into low and high bytes and combining them gives the word back |
| Bitwise.BitOfOr | src/bitwise.cpp:5-7 | bit i of `v \| w` is set exactly when it is set in v or in w |
| Bitwise.BitOfAnd | src/bitwise.cpp:5-7 | bit i of `v & w` is set exactly when it is set in both |
| Bitwise.BitOfXor | src/bitwise.cpp:5-7 | bit i of `v ^ w` is set exactly when it is set in exactly one |
| Bitwise.SameExceptAndBit | src/bitwise.cpp:23-26 | two bytes that agree everywhere except bit i, and also agree on bit i, are equal |
| Registers.Inc8 | src/register.cpp:15-17 | an 8-bit increment wraps 0xFF to 0 and otherwise adds exactly 1 |
| Registers.Dec8 | src/register.cpp:11-13 | an 8-bit decrement wraps 0 to 0xFF and otherwise subtracts exactly 1 |
| Registers.Inc16 | src/register.cpp:35-37 | a 16-bit increment wraps 0xFFFF to 0 and otherwise adds exactly 1 |
| Registers.Dec16 | src/register.cpp:31-33 | a 16-bit decrement wraps 0 to 0xFFFF and otherwise subtracts exactly 1 |
| Registers.IncDecInverse | src/register.cpp:11-17 | on bytes and on words, decrement undoes increment and increment undoes decrement |
| Registers.ByteRegister.Set | src/register.cpp:7-9 | after `set(v)` the register holds v |
| Registers.ByteRegister.Increment | src/register.cpp:15-17 | the register holds the wrapped increment of its old value |
| Registers.ByteRegister.Decrement | src/register.cpp:11-13 | the register holds the wrapped decrement of its old value |
| Registers.ByteRegister.Reset | src/register.cpp:19-21 | the register holds 0 |
| Registers.WordRegister.Set | src/register.cpp:27-29 | after `set(v)` the 16-bit register holds v |
| Registers.WordRegister.Increment | src/register.cpp:35-37 | the 16-bit register holds the wrapped increment of its old value |
| Registers.WordRegister.Decrement | src/register.cpp:31-33 | the 16-bit register holds the wrapped decrement of its old value |
| Registers.FlagBit | src/register.h:31-45 | each flag has a bit below 8, and none of them is bit 5 |
| Registers.FlagBitInjective | src/register.h:31-45 | different flags have different bits |
| Registers.GetFlag | src/register.h:39-45 | a getter is true exactly when its flag's bit is set in the status byte |
| Registers.WithFlag | src/register.h:31-37 | after a setter the flag reads back as the argument, every other bit is unchanged, and bit 5 in particular is unchanged |
| Registers.OtherFlagsUnchanged | src/register.h:31-45 | setting one flag never changes what the getter of another flag returns |
| Registers.WithFlagIdempotent | src/register.h:31-37 | setting a flag to its current value changes nothing, and setting it twice equals setting it once |
| Registers.StatusRegister.Set | src/register.cpp:7-9 | after `set(v)` the status register holds v |
| Registers.StatusRegister.Reset | src/register.cpp:19-21 | the status register holds 0 |
| Registers.StatusRegister.SetFlag | src/register.h:31-37 | the byte becomes the old byte with that flag's bit set to the argument, and the flag's getter returns the argument |
| Registers.ToByte | src/register.h:29-46 | the status byte of a record of flags: carry in bit 0 up to negative in bit 7; its meaning is stated by `Registers.ByteRoundTrip` and `Registers.GetIsCheckBit` |
| Registers.FromByte | src/register.h:39-45 | the record of flags a status byte holds, each flag read with `check_bit` at its bit; its meaning is stated by `Registers.ByteRoundTrip` |
| Registers.ByteRoundTrip | src/register.h:29-46 | the record of flags and the status byte convert into each other without loss, in both directions |
| Registers.GetIsCheckBit | src/register.h:39-45 | each flag of the record equals the getter on its status byte, and the record's bit 5 equals bit 5 of the byte |
| Registers.WithIsSetBitTo | src/register.h:31-37 | updating one flag of the record is the setter on the status byte |
| Registers.SetCarryByte | src/register.h:31 | `set_carry` on the byte equals updating the record's carry |
| Registers.SetZeroByte | src/register.h:32 | `set_zero` on the byte equals updating the record's zero flag |
| Registers.SetInterruptDisableByte | src/register.h:33 | `set_interrupt_disable` on the byte equals updating the record's flag |
| Registers.SetDecimalModeByte | src/register.h:34 | `set_decimal_mode` on the byte equals updating the record's flag |
| Registers.SetBreakCommandByte | src/register.h:35 | `set_break_command` on the byte equals updating the record's flag |
| Registers.SetOverflowByte | src/register.h:36 | `set_overflow` on the byte equals updating the record's flag |
| Registers.SetNegativeByte | src/register.h:37 | `set_negative` on the byte equals updating the record's flag |
| Cartridges.DecodeHeader | src/cartridge.cpp:39-57 | PRG ROM is byte 4 × 16 KB, CHR ROM is byte 5 × 8 KB, PRG RAM is byte 8 × 8 KB with 0 meaning 8; mirroring is vertical exactly when flags-6 bit 0 is set and otherwise unassigned; battery, trainer and ignore-mirroring are flags-6 bits 1-3; the TV system is PAL exactly when flags-9 bit 0 is set and otherwise unassigned; the mapper number comes from the two flag bytes |
| Cartridges.MapperNumber | src/cartridge.cpp:49-57 | the mapper number's high nibble is the high nibble of flags 7, and its low nibble is the high nibble of flags 6 |
| Cartridges.Read | src/cartridge.cpp:65-75 | from 0x8000 up, the read returns the image byte at `address mod 0x4000` past the 16-byte header; below 0x8000 it returns 0 |
| Cartridges.UpperWindowMirrorsLower | src/cartridge.cpp:65-72 | every address from 0xC000 reads the same byte as the address 0x4000 below it |
| MemoryMap.ReadAt | src/memory.cpp:7-79 | `readByte`'s chain of ranges: RAM and its three mirrors, the PPU registers and their mirrors, I/O, then the cartridge from 0x4020 and 0 below it; its meaning is stated by `MemoryMap.ReadRam`, `MemoryMap.ReadPpu`, `MemoryMap.ReadAboveIo` and `MemoryMap.ReadCanonical` |
| MemoryMap.Read | src/memory.cpp:7-79 | `readByte` at a 16-bit address, through `MemoryMap.ReadAt` |
| MemoryMap.WriteAt | src/memory.cpp:81-127 | `writeByte`'s chain of ranges, with no write above 0x4017; its meaning is stated by `MemoryMap.WriteCanonical` and `MemoryMap.WriteAboveIo` |
| MemoryMap.Write | src/memory.cpp:81-127 | `writeByte` at a 16-bit address, through `MemoryMap.WriteAt`; `MemoryMap.ReadAfterWrite` relates it to `MemoryMap.Read` |
| MemoryMap.Canonical | src/memory.cpp:7-127 | the cell a RAM, PPU or I/O address is mirrored onto, by the mirroring rule rather than the range table; `MemoryMap.ReadCanonical` and `MemoryMap.WriteCanonical` show both range tables agree with it |
| MemoryMap.ReadRam | src/memory.cpp:7-79 | a read below 0x2000 returns RAM at `address mod 0x800` |
| MemoryMap.ReadPpu | src/memory.cpp:7-79 | a read in 0x2000-0x3FFF returns the PPU register at `0x2000 + address mod 8` |
| MemoryMap.ReadAboveIo | src/memory.cpp:7-79 | above 0x4017, a read returns 0 below the cartridge space and the cartridge's byte from 0x4020 |
| MemoryMap.ReadCanonical | src/memory.cpp:7-79 | up to 0x4017, a read returns the array cell of the address's canonical mirror |
| MemoryMap.WriteCanonical | src/memory.cpp:81-127 | up to 0x4017, a write stores into the canonical mirror cell only; above 0x4017 it changes nothing |
| MemoryMap.ReadAfterWrite | src/memory.cpp:7-127 | after a write, a read of any address returns the written byte if that address mirrors the written one, and otherwise what it returned before |
| MemoryMap.WriteAboveIo | src/memory.cpp:81-127 | a write above 0x4017 leaves the memory unchanged |
| MemoryMap.RamMirrorWrite | src/memory.cpp:81-127 | a byte written to one RAM mirror reads back at every address with the same offset mod 0x800 |
| MemoryMap.PpuMirrorWrite | src/memory.cpp:81-127 | a byte written to one PPU register mirror reads back at every address with the same offset mod 8 |
| MemoryMap.Memory.constructor | src/memory.cpp:3-5 | the memory holds the given cartridge and contents in a fresh array |
| MemoryMap.Memory.ReadByte | src/memory.cpp:7-79 | the method's chain of range checks returns the value of the memory-map read function |
| MemoryMap.Memory.ReadByteAt | src/memory.cpp:7-79 | the same, for an address given as an integer |
| MemoryMap.Memory.WriteByte | src/memory.cpp:81-127 | the array afterwards is the memory-map write function applied to the old array |
| MemoryMap.Memory.WriteByteAt | src/memory.cpp:81-127 | the same, for an address given as an integer |
| Machine.Reset | src/cpu.cpp:3-21 | the constructor's registers: A, X, Y = 0, status 0x24, SP = 0xFD, PC = 0xC000; `Execution.ResetStatus` states what the status means |
| Machine.FetchByte | src/cpu.cpp:52-63 | `get_byte_from_pc` and `get_signed_byte_from_pc`: the byte at PC, then PC + 1 |
| Machine.FetchWord | src/cpu.cpp:65-69 | `get_word_from_pc`: two fetched bytes combined low first; stated by `FetchAndStack.FetchWordValue` and `FetchAndStack.FetchWordNext` |
| Machine.Push | src/cpu.cpp:87-91 | `stack_push`: SP decremented, then the byte written at `0x101 + SP`; stated by `FetchAndStack.PushSpec` |
| Machine.Pop | src/cpu.cpp:80-85 | `stack_pop`: the byte at `0x101 + SP`, then SP incremented; `FetchAndStack.PopAfterPush` makes it the inverse of `Machine.Push` |
| Machine.PointerWord | src/address_modes.cpp:15-29 | the word an indirect mode reads through a zero-page pointer, high byte at pointer + 1 on 16 bits; stated by `FetchAndStack.PointerDoesNotWrap` |
| Machine.Resolve | src/address_modes.cpp:3-40 | the eight resolvers: fetch the operand and form the effective address; stated by `FetchAndStack.ResolveAdvances`, `FetchAndStack.ResolveZeroPage` and `FetchAndStack.ResolveAbsolute` |
| Machine.ApplyRead | src/logical_arithmetic.cpp:5-204 | the reading handlers (ORA, AND, EOR, ADC, SBC, CMP, CPX, CPY, LDA, LDX, LDY, BIT) on the fetched byte; stated by the `Handlers` lemmas |
| Machine.ApplyModify | src/logical_arithmetic.cpp:212-363 | the read-modify-write handlers (INC, DEC, ASL, LSR, ROL, ROR) on a byte; stated by `Handlers.IncDecMemory` and the `Alu` shift lemmas |
| Machine.ExecRead | src/logical_arithmetic.cpp:10-29 | a reading opcode: fetch the operand, run the handler, add the wrapper's cycles; stated by `Operands.ExecReadSpec` |
| Machine.ExecStore | src/load_and_store.cpp:36-100 | STA, STX, STY: resolve and write the register; stated by `Execution.StoreKeeps` and `Execution.StoreReadBack` |
| Machine.ExecModify | src/logical_arithmetic.cpp:212-363 | a read-modify-write opcode: resolve, read, apply the handler, write back; stated by `Execution.ModifyKeeps`, `Execution.ModifyStatus` and `Execution.ModifyReadBack` |
| Machine.ExecImplied | src/load_and_store.cpp:103-177 | the one-byte instructions: transfers, pushes and pulls, index steps, shifts of A, NOP, RTS and RTI; stated by `Handlers.ImpliedCyclesSpec`, `Handlers.TransferSpec` and the `StackSequences` lemmas |
| Machine.ExecSetFlag | src/jump_flag.cpp:132-172 | CLC, SEC, CLI, SEI, CLD, SED, CLV; stated by `Execution.SetFlagKeeps` |
| Machine.ExecBranch | src/jump_flag.cpp:10-28 | the eight branches, with their page-crossing cycles; stated by the `Execution.Branch` lemmas |
| Machine.ExecJsr | src/jump_flag.cpp:67-80 | JSR: push PC - 1, high byte first, then jump; stated by `StackSequences.JsrJumps` and `StackSequences.JsrRtsPc` |
| Machine.ExecJmpAbsolute | src/jump_flag.cpp:91-94 | JMP absolute; stated by `Execution.JmpAbsolutePc` |
| Machine.ExecJmpIndirect | src/jump_flag.cpp:96-107 | JMP indirect, pointer high byte read without page wrap; stated by `Execution.JmpIndirectPc` |
| Machine.Exec | src/cpu.cpp:93-297 | dispatch of a decoded instruction to its handler, BRK halting; stated by `Execution.ExecHalts` |
| Machine.Execute | src/cpu.cpp:93-297 | `execute_opcode`: decode, then `Machine.Exec`, an opcode without a case changing nothing; stated by `Execution.UnknownOpcode` |
| Machine.Step | src/cpu.cpp:31-39 | one iteration of the run loop: fetch the opcode at PC and execute it; stated by `Execution.StepHalts` |
| Machine.StackAddress | src/cpu.cpp:80-91 | the stack cell `0x101 + SP` lies in 0x101-0x200 |
| FetchAndStack.FetchWordValue | src/cpu.cpp:65-69 | `get_word_from_pc` returns the little-endian word at PC and PC + 1 |
| FetchAndStack.FetchWordNext | src/cpu.cpp:65-69 | `get_word_from_pc` advances PC by 2 and changes nothing else |
| FetchAndStack.StackAddressIsRam | src/cpu.cpp:80-91 | every stack cell is in internal RAM and is its own canonical address |
| FetchAndStack.StackCellsDistinct | src/cpu.cpp:80-91 | two stack pointers address mirrored cells exactly when they are equal |
| FetchAndStack.PushSpec | src/cpu.cpp:87-91 | a push decrements SP first and then writes the byte at `0x101 + SP` (0x200 when SP wraps from 0) |
| FetchAndStack.PopAfterPush | src/cpu.cpp:80-91 | a pop right after a push returns the pushed byte and restores SP |
| FetchAndStack.PushKeepsOtherCells | src/cpu.cpp:87-91 | a push changes no stack cell other than the one it writes |
| FetchAndStack.ResolveAdvances | src/address_modes.cpp:3-40 | every resolver advances PC by its operand length (1 or 2) and changes nothing else |
| FetchAndStack.ResolveZeroPage | src/address_modes.cpp:3-13 | the zero-page resolvers return an address below 0x100, which is the operand plus X or Y wrapped at 0xFF |
| FetchAndStack.PointerDoesNotWrap | src/address_modes.cpp:15-29 | an indirect pointer of 0xFF takes its high byte from 0x0100, not from 0x0000 |
| FetchAndStack.ResolveAbsolute | src/address_modes.cpp:31-40 | the absolute resolvers return the operand word plus X or Y, wrapped at 0xFFFF |
| FetchAndStack.WrappedByteSum | src/address_modes.cpp:7-13 | the wrapped byte sum equals the 16-bit sum mod 0x100 |
| Instructions.OperandLength | src/address_modes.cpp:3-40 | the operand is 2 bytes long for the absolute modes and 1 byte for the others |
| Instructions.Decode | src/cpu.cpp:93-297 | the opcode switch of `execute_opcode`: the instruction each handled opcode runs; `Instructions.EncodeOfDecode` and `Instructions.DecodeOfEncode` make it a bijection with `Instructions.Encode` |
| Instructions.Encode | src/cpu.cpp:93-297 | the opcode of an instruction in the switch, if it has one; the inverse of `Instructions.Decode` |
| Instructions.EncodeOfDecode | src/cpu.cpp:93-297 | every opcode with a case decodes to an instruction that encodes back to the same opcode |
| Instructions.DecodeOfEncode | src/cpu.cpp:93-297 | every instruction with an opcode decodes back to itself, so no two cases share an instruction |
| Alu.CarryIn | src/logical_arithmetic.cpp:87-98 | the carry added by ADC and SBC is 1 exactly when the carry flag is set, and 0 otherwise |
| Alu.SetNZ | src/cpu.cpp:71-77 | `set_flags_nz` on the record of flags; stated by `Alu.SetNZIsTwoSetters` and `Handlers.SetNZMeaning` |
| Alu.SetNZIsTwoSetters | src/cpu.cpp:71-77 | on the status byte, `set_flags_nz` is `set_zero(v == 0)` followed by `set_negative(v >= 0x80)` |
| Alu.SignExtend | src/jump_flag.cpp:16-17 | the signed `r8` offset widened to 16 bits: its low byte is the byte itself and its high byte is 0xFF when bit 7 is set and 0x00 otherwise, so a byte below 0x80 keeps its value and a byte from 0x80 up lands in 0xFF80-0xFFFF |
| Alu.Adc | src/logical_arithmetic.cpp:87-98 | ADC as the source computes it; stated by the `Alu.Adc` lemmas below |
| Alu.AdcValue | src/logical_arithmetic.cpp:87-98 | ADC leaves the low byte of A + M + C in A |
| Alu.AdcCarry | src/logical_arithmetic.cpp:94-95 | ADC's carry is the carry out of A + M + C, except when M is 0xFF with the carry set |
| Alu.AdcOverflowSign | src/logical_arithmetic.cpp:93 | overflow is set exactly when A and M have the same sign and the result has the other sign |
| Alu.AdcOverflow | src/logical_arithmetic.cpp:93 | overflow is set exactly when the signed sum A + M + C leaves -128..127 |
| Alu.AddOverflow | src/logical_arithmetic.cpp:93 | the overflow expression `(A^r) & (M^r) & 0x80` is the signed range test of A + M + C |
| Alu.AdcZero | src/logical_arithmetic.cpp:97 | after ADC, Zero is set exactly when the result is 0 |
| Alu.AdcNegative | src/logical_arithmetic.cpp:97 | after ADC, Negative is set exactly when the result's bit 7 is set |
| Alu.AdcKeeps | src/logical_arithmetic.cpp:87-98 | ADC leaves I, D, B and bit 5 unchanged |
| Alu.Sbc | src/logical_arithmetic.cpp:123-134 | SBC as the source computes it, on the complemented operand; stated by the `Alu.Sbc` lemmas below |
| Alu.SbcValue | src/logical_arithmetic.cpp:123-134 | SBC leaves A - M - (1 - C) in A |
| Alu.SbcCarry | src/logical_arithmetic.cpp:129-130 | SBC's carry means "no borrow": A + C > M |
| Alu.SbcOverflowSign | src/logical_arithmetic.cpp:128 | SBC's overflow is the ADC sign rule applied to A and the complement of M |
| Alu.SbcOverflow | src/logical_arithmetic.cpp:128 | SBC's overflow is set exactly when the signed difference A - M - (1 - C) leaves -128..127 |
| Alu.SubtractOverflow | src/logical_arithmetic.cpp:128 | the overflow expression with the complemented operand is the signed range test of the difference |
| Alu.SbcZero | src/logical_arithmetic.cpp:133 | after SBC, Zero is set exactly when the result is 0 |
| Alu.SbcNegative | src/logical_arithmetic.cpp:133 | after SBC, Negative is set exactly when the result's bit 7 is set |
| Alu.SbcKeeps | src/logical_arithmetic.cpp:123-134 | SBC leaves I, D, B and bit 5 unchanged |
| Alu.SbcValueIsAdcValue | src/logical_arithmetic.cpp:87-134 | SBC's result is ADC's result on the complemented operand |
| Alu.SbcCarryIsAdcCarry | src/logical_arithmetic.cpp:94-130 | the two carry checks differ only for M = 0 with the carry set, where ADC's `M + C` has wrapped |
| Alu.SbcIsAdcOfComplement | src/logical_arithmetic.cpp:87-134 | SBC equals ADC of the complement, apart from the one carry case above |
| Alu.SbcUndoesAdc | src/logical_arithmetic.cpp:87-134 | subtracting M with the carry set undoes adding M with the carry clear |
| Alu.Compare | src/logical_arithmetic.cpp:159-204 | a compare sets Carry exactly when reg >= M and changes no flag other than N, Z and C |
| Alu.CompareZero | src/logical_arithmetic.cpp:159-204 | a compare sets Zero exactly when the operands are equal |
| Alu.CompareNegative | src/logical_arithmetic.cpp:159-204 | a compare sets Negative from bit 7 of reg - M |
| Alu.CompareIsSubtraction | src/logical_arithmetic.cpp:123-204 | with the carry set, a compare sets C, Z and N as SBC would, and keeps Overflow |
| Alu.CompareCarryIsSbcCarry | src/logical_arithmetic.cpp:123-204 | with the carry set, the compare's carry is SBC's carry |
| Alu.CompareZeroIsSbcZero | src/logical_arithmetic.cpp:123-204 | with the carry set, the compare's Zero is SBC's Zero |
| Alu.CompareNegativeIsSbcNegative | src/logical_arithmetic.cpp:123-204 | with the carry set, the compare's Negative is SBC's Negative |
| Alu.SbcWithCarryIsDifference | src/logical_arithmetic.cpp:123-134 | with the carry set, SBC leaves the plain difference reg - M |
| Alu.ShiftLeft | src/logical_arithmetic.cpp:264-284 | ASL; stated by `Alu.ShiftLeftValue` and `Alu.ShiftLeftStatus` |
| Alu.ShiftLeftValue | src/logical_arithmetic.cpp:264-284 | ASL leaves the low byte of 2v |
| Alu.ShiftLeftStatus | src/logical_arithmetic.cpp:264-284 | ASL sets N and Z from the result and Carry from the old bit 7 |
| Alu.ShiftRight | src/logical_arithmetic.cpp:318-335 | LSR; stated by `Alu.ShiftRightValue` and `Alu.ShiftRightStatus` |
| Alu.ShiftRightValue | src/logical_arithmetic.cpp:318-335 | LSR leaves v / 2 rounded down |
| Alu.ShiftRightStatus | src/logical_arithmetic.cpp:318-335 | LSR sets N and Z from the result and Carry from the old bit 0 |
| Alu.ShiftRightClearsNegative | src/logical_arithmetic.cpp:318-335 | after LSR, Negative is clear |
| Alu.ShiftRightZero | src/logical_arithmetic.cpp:318-335 | after LSR, Zero is set exactly when the byte was 0 or 1 |
| Alu.ShiftRightUndoesLeft | src/logical_arithmetic.cpp:264-335 | LSR after ASL gives the byte back without its bit 7 |
| Alu.ShiftLeftUndoesRight | src/logical_arithmetic.cpp:264-335 | ASL after LSR gives the byte back without its bit 0 |
| Alu.RotateLeftAccumulator | src/logical_arithmetic.cpp:292-302 | ROL on A; stated by `Alu.RotateLeftAccumulatorValue` and `Alu.RotateLeftAccumulatorStatus` |
| Alu.RotateLeftAccumulatorValue | src/logical_arithmetic.cpp:292-302 | the accumulator ROL shifts the old carry into bit 0 |
| Alu.RotateLeftAccumulatorStatus | src/logical_arithmetic.cpp:292-302 | the accumulator ROL sets N and Z from the result and Carry from the old bit 7 |
| Alu.RotateRight | src/logical_arithmetic.cpp:343-363 | ROR; stated by `Alu.RotateRightValue` and `Alu.RotateRightStatus` |
| Alu.RotateRightValue | src/logical_arithmetic.cpp:343-363 | ROR shifts the old carry into bit 7 |
| Alu.RotateRightStatus | src/logical_arithmetic.cpp:343-363 | ROR sets N and Z from the result and Carry from the old bit 0 |
| Alu.RotateRightUndoesLeft | src/logical_arithmetic.cpp:292-354 | ROR after the accumulator ROL gives the byte back |
| Alu.RotateRightRestoresCarry | src/logical_arithmetic.cpp:292-354 | ROR after the accumulator ROL gives the carry back |
| Alu.RotateLeftUndoesRight | src/logical_arithmetic.cpp:292-354 | the accumulator ROL after ROR gives the byte back |
| Alu.RotateLeftRestoresCarry | src/logical_arithmetic.cpp:292-354 | the accumulator ROL after ROR gives the carry back |
| Alu.RotateLeftMemory | src/logical_arithmetic.cpp:304-310 | ROL on memory; stated by `Alu.RotateLeftMemoryValue` and `Alu.RotateLeftMemoryStatus` |
| Alu.RotateLeftMemoryValue | src/logical_arithmetic.cpp:304-310 | the memory ROL puts the old bit 7 into bit 0, so the byte rotates onto itself |
| Alu.RotateLeftMemoryStatus | src/logical_arithmetic.cpp:304-310 | the memory ROL sets N and Z from the result and Carry from the old bit 7 |
| Alu.RotateLeftMemoryIsAccumulatorWithOwnBit | src/logical_arithmetic.cpp:292-310 | the memory ROL is the accumulator ROL run with the carry already set to bit 7 |
| Alu.BitTest | src/jump_flag.cpp:109-130 | BIT sets Zero exactly when A & M is 0, Negative from bit 7 of M and Overflow from bit 6 of M, and changes no other flag |
| Operands.FetchOperandNext | src/logical_arithmetic.cpp:10-29 | fetching a reading instruction's operand advances PC by its operand bytes (1 for immediate) and changes nothing else |
| Operands.ReadWithSpec | src/logical_arithmetic.cpp:10-29 | the opcode wrappers add 2 cycles for immediate, and 1 cycle for `(zp),Y`, `abs,X` and `abs,Y` when the page of PC changes |
| Operands.ExecReadSpec | src/load_and_store.cpp:14-33 | a reading opcode is the handler on the fetched byte, with PC past the operand and the wrapper's cycles |
| Handlers.LoadValue | src/load_and_store.cpp:9-90 | LDA, LDX and LDY put M in their register and change no other register |
| Handlers.LoadStatus | src/load_and_store.cpp:9-90 | LDA, LDX and LDY set N and Z from M |
| Handlers.SetNZMeaning | src/cpu.cpp:71-77 | `set_flags_nz` sets Zero exactly for 0, Negative exactly for bit 7, and keeps the other flags |
| Handlers.LogicalStatus | src/logical_arithmetic.cpp:5-63 | ORA, AND and EOR change A and set N and Z from the new A, and nothing else |
| Handlers.OraBit | src/logical_arithmetic.cpp:5-8 | each bit of A after ORA is the OR of that bit of A and of M |
| Handlers.AndBit | src/logical_arithmetic.cpp:32-35 | each bit of A after AND is the AND of that bit of A and of M |
| Handlers.EorBit | src/logical_arithmetic.cpp:60-63 | each bit of A after EOR is the XOR of that bit of A and of M |
| Handlers.LogicalFlags | src/logical_arithmetic.cpp:5-63 | ORA, AND and EOR keep X and Y, set Z and N from the new A, and keep the other flags |
| Handlers.EorTwice | src/logical_arithmetic.cpp:60-63 | EOR with the same byte twice restores A |
| Handlers.OraTwice | src/logical_arithmetic.cpp:5-8 | ORA is idempotent |
| Handlers.AndTwice | src/logical_arithmetic.cpp:32-35 | AND is idempotent |
| Handlers.CompareStatus | src/logical_arithmetic.cpp:159-204 | CMP, CPX and CPY compare A, X and Y with M and change only the status |
| Handlers.CompareSpec | src/logical_arithmetic.cpp:159-204 | a compare changes only the status, sets Carry exactly when reg >= M, sets Zero exactly when reg = M, and keeps every flag other than C, Z and N |
| Handlers.ImpliedCyclesSpec | src/load_and_store.cpp:103-177 | each implied instruction adds its fixed cycle count: 2 for transfers, steps, shifts and NOP, 3 for pushes, 4 for pulls, 6 for RTI, 0 for RTS |
| Handlers.ImpliedKeepsPc | src/load_and_store.cpp:103-177 | implied instructions other than RTI and RTS leave PC alone |
| Handlers.TransferSpec | src/load_and_store.cpp:103-137 | TAX, TXA, TAY, TYA and TSX copy the register and set N and Z; TXS copies X into SP without touching the flags; each takes 2 cycles |
| Handlers.TransferBack | src/load_and_store.cpp:103-137 | TXA after TAX and TYA after TAY restore A; TXS after TSX restores SP |
| Handlers.StepIndex | src/logical_arithmetic.cpp:224-261 | INX/DEX and INY/DEY undo each other; INX sets Zero exactly from 0xFF, and DEX exactly from 0x01 |
| Handlers.IncDecMemory | src/logical_arithmetic.cpp:212-247 | INC and DEC on memory undo each other; INC sets Zero exactly from 0xFF, and DEC exactly from 0x01 |
| Execution.StoreKeeps | src/load_and_store.cpp:36-100 | a store changes only memory and advances PC past the operand |
| Execution.StoreReadBack | src/load_and_store.cpp:36-100 | below 0x4018, the stored address reads back as the stored register |
| Execution.StoreAboveIo | src/load_and_store.cpp:36-100 | a store above 0x4017 leaves memory unchanged |
| Execution.WriteReadBack | src/memory.cpp:81-127 | below 0x4018, a written byte reads back at its address |
| Execution.WriteAboveIo | src/memory.cpp:81-127 | a write above 0x4017 leaves memory unchanged |
| Execution.ModifyKeeps | src/logical_arithmetic.cpp:212-363 | a read-modify-write instruction changes only memory and status and advances PC past the operand |
| Execution.ModifyStatus | src/logical_arithmetic.cpp:212-363 | its status is the handler's status on the byte at the resolved address |
| Execution.ModifyReadBack | src/logical_arithmetic.cpp:212-363 | below 0x4018, the resolved address reads back as the handler's result |
| Execution.BranchNotTaken | src/jump_flag.cpp:10-28 | a branch that is not taken adds 2 to PC, costs 2 cycles, and changes nothing else |
| Execution.BranchTakenPc | src/jump_flag.cpp:10-28 | a taken branch sets PC to the address after the offset byte plus the signed offset |
| Execution.BranchTakenCycles | src/jump_flag.cpp:10-28 | a taken branch costs 3 cycles, or 5 when the target is on another page than PC before the offset |
| Execution.BranchTakenKeeps | src/jump_flag.cpp:10-28 | a taken branch changes only PC and the cycles |
| Execution.BranchZeroOffset | src/jump_flag.cpp:10-28 | with offset 0, a taken branch ends at PC + 1 while a branch that is not taken ends at PC + 2 |
| Execution.BranchToItself | src/jump_flag.cpp:10-28 | offset 0xFE sends a taken branch back to its own opcode |
| Execution.JmpAbsolutePc | src/jump_flag.cpp:91-94 | JMP absolute sets PC to the operand word |
| Execution.JmpAbsoluteKeeps | src/jump_flag.cpp:91-94 | JMP absolute changes nothing but PC |
| Execution.JmpIndirectPc | src/jump_flag.cpp:96-107 | JMP indirect sets PC to the word at the pointer and the pointer + 1 |
| Execution.JmpIndirectKeeps | src/jump_flag.cpp:96-107 | JMP indirect changes nothing but PC, and adds 5 cycles |
| Execution.PointerCrossesPage | src/jump_flag.cpp:96-107 | with a pointer at the end of a page, the high byte is read on the next page |
| Execution.SetFlagByte | src/jump_flag.cpp:132-172 | CLC, SEC, CLD, SED, CLI, SEI and CLV are the flag setter on the status byte |
| Execution.SetFlagOthers | src/jump_flag.cpp:132-172 | these instructions leave every other flag unchanged |
| Execution.SetFlagKeeps | src/jump_flag.cpp:132-172 | the flag reads back as set or cleared, nothing else changes, and 2 cycles are added |
| Execution.ResetStatus | src/cpu.cpp:10-21 | after reset the status byte is 0x24: Interrupt Disable is set, and Carry and Zero are clear |
| Execution.UnknownOpcode | src/cpu.cpp:93-297 | an opcode without a case leaves the state unchanged |
| Execution.ExecHalts | src/jump_flag.cpp:39-45 | execution stops exactly on BRK |
| Execution.StepHalts | src/cpu.cpp:29-39 | one step stops exactly when the byte at PC is 0x00 |
| StackSequences.PopIgnoresPcAndCycles | src/cpu.cpp:80-85 | a pop does not depend on PC or the cycles and does not change them |
| StackSequences.PopUnderValue | src/cpu.cpp:80-91 | after a push and a pop, the next pop returns what it would have returned before |
| StackSequences.PopTwiceValues | src/cpu.cpp:80-91 | two pushes popped twice come back in reverse order |
| StackSequences.PopTwiceSp | src/cpu.cpp:80-91 | two pushes popped twice restore SP |
| StackSequences.PhaPlaA | src/load_and_store.cpp:139-151 | PLA after PHA restores A |
| StackSequences.PhaPlaSp | src/load_and_store.cpp:139-151 | PLA after PHA restores SP, and the pair costs 7 cycles |
| StackSequences.PhpPushes | src/load_and_store.cpp:167-177 | PHP leaves the status alone and pushes it with bits 4 and 5 set |
| StackSequences.PulledStatus | src/load_and_store.cpp:153-177 | the byte PHP pushes, read back with bits 4 and 5 restored, is the original status |
| StackSequences.PhpPlpP | src/load_and_store.cpp:153-177 | PLP after PHP restores the status |
| StackSequences.PhpPlpSp | src/load_and_store.cpp:153-177 | PLP after PHP restores SP, and the pair costs 7 cycles |
| StackSequences.JsrJumps | src/jump_flag.cpp:67-80 | JSR sets PC to the operand word, moves SP down by 2, and adds no cycles |
| StackSequences.JsrPushesHigh | src/jump_flag.cpp:67-80 | JSR pushes the high byte of PC - 1 first |
| StackSequences.JsrPushesLow | src/jump_flag.cpp:67-80 | JSR then pushes the low byte of PC - 1 |
| StackSequences.RtsPc | src/jump_flag.cpp:82-89 | RTS sets PC to the popped word plus 1 |
| StackSequences.RtsSp | src/jump_flag.cpp:82-89 | RTS moves SP up by 2 and adds no cycles |
| StackSequences.ReturnAddress | src/jump_flag.cpp:67-89 | the address JSR pushes, plus 1, is the address after the JSR instruction |
| StackSequences.JsrRtsPc | src/jump_flag.cpp:67-89 | RTS after JSR returns to the instruction after the JSR |
| StackSequences.JsrRtsSp | src/jump_flag.cpp:67-89 | RTS after JSR restores SP and adds no cycles |
| StackSequences.RtiReads | src/jump_flag.cpp:47-65 | RTI pulls the status with bit 5 set, then the low byte of PC, then the high byte |
| StackSequences.RtiSp | src/jump_flag.cpp:47-65 | RTI moves SP up by 3 and adds 6 cycles |
| StackSequences.FrameTop | src/jump_flag.cpp:47-65 | an interrupt frame holds the status byte at its top |
| StackSequences.FrameMiddle | src/jump_flag.cpp:47-65 | an interrupt frame holds the low byte of the return address below the status |
| StackSequences.FrameBottom | src/jump_flag.cpp:47-65 | an interrupt frame holds the high byte of the return address at its bottom |
| StackSequences.RtiFramePc | src/jump_flag.cpp:47-65 | RTI on an interrupt frame returns to the frame's address |
| StackSequences.RtiFrameStatus | src/jump_flag.cpp:47-65 | RTI on an interrupt frame restores the frame's status with bit 5 set |
| StackSequences.RtiFrameSp | src/jump_flag.cpp:47-65 | RTI on an interrupt frame restores SP to what it was before the frame |
| StackDiscipline.DescendValue | src/cpu.cpp:87-91 | after `n` pushes SP is `n` below where it started, modulo 256 |
| StackDiscipline.AscendValue | src/cpu.cpp:80-85 | after `n` pops SP is `n` above where it started, modulo 256 |
| StackDiscipline.DescendDistinct | src/cpu.cpp:87-91 | fewer than 256 pushes apart, SP takes different values |
| StackDiscipline.AscendDescend | src/cpu.cpp:80-91 | `k` pops after `n >= k` pushes leave SP where the first `n - k` pushes left it |
| StackDiscipline.PushAll | src/cpu.cpp:87-91 | pushing a sequence of bytes moves SP down by its length and changes nothing but SP and memory |
| StackDiscipline.PopAll | src/cpu.cpp:80-85 | popping `n` bytes yields `n` bytes, moves SP up by `n` and changes nothing but SP |
| StackDiscipline.LastPushed | src/cpu.cpp:87-91 | the last byte pushed is in the cell of the SP its push left |
| StackDiscipline.EarlierSurvive | src/cpu.cpp:87-91 | a push keeps the cells of the up to 255 pushes before it |
| StackDiscipline.PushedCells | src/cpu.cpp:87-91 | after up to 256 pushes every pushed byte is still in the cell of the SP its own push left |
| StackDiscipline.PoppedCells | src/cpu.cpp:80-85 | the `k`-th byte of `n` pops is the cell `k` above the starting SP |
| StackDiscipline.PoppedIsPushed | src/cpu.cpp:80-91 | after pushing up to 256 bytes, the `k`-th byte popped is the `k`-th from the end of those pushed |
| StackDiscipline.PopAllAfterPushAll | src/cpu.cpp:80-91 | popping as many bytes as were pushed (up to 256) returns them in reverse order and restores SP and every register |
| Processor.CPU.constructor | src/cpu.cpp:3-21 | the CPU starts in the reset state: A = X = Y = 0, P = 0x24, SP = 0xFD, PC = 0xC000, over the given memory |
| Processor.CPU.GetByteFromPc | src/cpu.cpp:53-57 | returns the byte at PC and increments PC, as `Machine.FetchByte` |
| Processor.CPU.GetWordFromPc | src/cpu.cpp:65-69 | returns the little-endian word at PC and advances PC by 2, as `Machine.FetchWord` |
| Processor.CPU.SetFlagsNz | src/cpu.cpp:71-77 | the status becomes `Alu.SetNZ` of the old status and the value; nothing else changes |
| Processor.CPU.StackPush | src/cpu.cpp:87-91 | the CPU state becomes `Machine.Push` of the old state |
| Processor.CPU.StackPop | src/cpu.cpp:80-85 | the byte and the new state are `Machine.Pop` of the old state |
| Processor.CPU.AddCycles | src/cpu.h:50-51 | `loop_cycles` grows by n and nothing else changes |
| Processor.CPU.FetchZeroPage | src/address_modes.cpp:3-5 | the address and the new state are `Machine.Resolve` in zero-page mode |
| Processor.CPU.FetchZeroPageX | src/address_modes.cpp:7-9 | the same in `zp,X` mode |
| Processor.CPU.FetchZeroPageY | src/address_modes.cpp:11-13 | the same in `zp,Y` mode |
| Processor.CPU.FetchPreIndexed | src/address_modes.cpp:15-20 | the same in `(zp,X)` mode |
| Processor.CPU.FetchPostIndexed | src/address_modes.cpp:22-29 | the same in `(zp),Y` mode |
| Processor.CPU.FetchAbsolute | src/address_modes.cpp:31-33 | the same in absolute mode |
| Processor.CPU.FetchAbsoluteX | src/address_modes.cpp:35-37 | the same in `abs,X` mode |
| Processor.CPU.FetchAbsoluteY | src/address_modes.cpp:39-40 | the same in `abs,Y` mode |
| Processor.CPU.FetchAddress | src/address_modes.cpp:3-40 | the resolver of any mode matches `Machine.Resolve` |
| Processor.CPU.Ora | src/logical_arithmetic.cpp:5-8 | the registers become `Machine.ApplyRead(Ora, m, …)` of the old ones |
| Processor.CPU.And | src/logical_arithmetic.cpp:32-35 | the registers become `Machine.ApplyRead(And, m, …)` of the old ones |
| Processor.CPU.Eor | src/logical_arithmetic.cpp:60-63 | the registers become `Machine.ApplyRead(Eor, m, …)` of the old ones |
| Processor.CPU.Adc | src/logical_arithmetic.cpp:87-98 | A and the status become `Alu.Adc` of the old A, M and status |
| Processor.CPU.Sbc | src/logical_arithmetic.cpp:123-134 | A and the status become `Alu.Sbc` of the old A, M and status |
| Processor.CPU.Cmp | src/logical_arithmetic.cpp:159-163 | the status becomes `Alu.Compare` of A and M |
| Processor.CPU.Cpx | src/logical_arithmetic.cpp:188-192 | the status becomes `Alu.Compare` of X and M |
| Processor.CPU.Cpy | src/logical_arithmetic.cpp:200-204 | the status becomes `Alu.Compare` of Y and M |
| Processor.CPU.Lda | src/load_and_store.cpp:9-12 | A becomes M, and N and Z are set from it |
| Processor.CPU.Ldx | src/load_and_store.cpp:50-53 | X becomes M, and N and Z are set from it |
| Processor.CPU.Ldy | src/load_and_store.cpp:77-80 | Y becomes M, and N and Z are set from it |
| Processor.CPU.Bit | src/jump_flag.cpp:109-130 | the status becomes `Alu.BitTest` of A and M |
| Processor.CPU.ReadHandler | src/logical_arithmetic.cpp:5-204 | any reading handler matches `Machine.ApplyRead` |
| Processor.CPU.ExecuteRead | src/logical_arithmetic.cpp:10-29 | a reading opcode (fetch, handler, wrapper cycles) leaves the state `Machine.ExecRead` computes |
| Processor.CPU.ReadImmediate | src/load_and_store.cpp:14 | the immediate form leaves `Machine.ExecRead(op, Immediate, …)` |
| Processor.CPU.ReadMemory | src/load_and_store.cpp:15-33 | a memory form leaves `Machine.ExecRead(op, Memory(mode), …)`, including the page-change cycle |
| Processor.CPU.ExecuteStore | src/load_and_store.cpp:36-100 | STA, STX and STY leave the state `Machine.ExecStore` computes |
| Processor.CPU.ExecuteModify | src/logical_arithmetic.cpp:212-363 | INC, DEC, ASL, LSR, ROL and ROR on memory leave the state `Machine.ExecModify` computes |
| Processor.CPU.Transfer | src/load_and_store.cpp:103-137 | the transfers leave the state `Machine.ExecImplied` computes |
| Processor.CPU.IndexStep | src/logical_arithmetic.cpp:224-261 | INX, INY, DEX and DEY leave the state `Machine.ExecImplied` computes |
| Processor.CPU.ShiftAccumulator | src/logical_arithmetic.cpp:264-354 | ASL, LSR, ROL and ROR on A leave the state `Machine.ExecImplied` computes |
| Processor.CPU.Pha | src/load_and_store.cpp:146-151 | PHA leaves the state `Machine.ExecImplied` computes |
| Processor.CPU.Pla | src/load_and_store.cpp:139-144 | PLA leaves the state `Machine.ExecImplied` computes |
| Processor.CPU.Php | src/load_and_store.cpp:167-177 | PHP leaves the state `Machine.ExecImplied` computes |
| Processor.CPU.Plp | src/load_and_store.cpp:153-165 | PLP leaves the state `Machine.ExecImplied` computes |
| Processor.CPU.Rti | src/jump_flag.cpp:47-65 | RTI leaves the state `Machine.ExecImplied` computes |
| Processor.CPU.Rts | src/jump_flag.cpp:82-89 | RTS leaves the state `Machine.ExecImplied` computes |
| Processor.CPU.ExecuteImplied | src/load_and_store.cpp:103-177 | any implied instruction, NOP included, leaves the state `Machine.ExecImplied` computes |
| Processor.CPU.SetFlag | src/jump_flag.cpp:132-172 | a flag instruction leaves the state `Machine.ExecSetFlag` computes |
| Processor.CPU.Branch | src/jump_flag.cpp:10-37 | a branch leaves the state `Machine.ExecBranch` computes |
| Processor.CPU.Jsr | src/jump_flag.cpp:67-80 | JSR leaves the state `Machine.ExecJsr` computes |
| Processor.CPU.JmpAbsolute | src/jump_flag.cpp:91-94 | JMP absolute leaves the state `Machine.ExecJmpAbsolute` computes |
| Processor.CPU.JmpIndirect | src/jump_flag.cpp:96-107 | JMP indirect leaves the state `Machine.ExecJmpIndirect` computes |
| Processor.CPU.ExecuteInstruction | src/cpu.cpp:93-297 | reports a halt exactly when `Machine.Exec` halts, and otherwise leaves the state it computes |
| Processor.CPU.ExecuteOpcode | src/cpu.cpp:93-297 | `execute_opcode` matches `Machine.Execute`, halting exactly on BRK |
| Processor.CPU.Step | src/cpu.cpp:31-39 | fetching the opcode at PC and executing it matches `Machine.Step` |

## Left out

- The run loop of the constructor (`src/cpu.cpp:29-46`) is not modelled. It runs 3200 iterations, prints a trace line each time, and folds `loop_cycles × 3` into `cpu_cycles` with a wrap at 341. The model stops at one step, with the per-instruction counter starting at 0.
- `cpu_cycles`, `cpu_running` and the `opcode_names` table are not modelled. They only feed the trace output.
- BRK prints a message and calls `exit`. It is modelled as the outcome `Halted`, so the `+7` cycles after `exit` are never reached.
- `printf` calls in the cartridge loader, the memory map and the CPU are I/O and are not modelled.
- Reading the ROM file from disk is not modelled, including the `exit` when the file cannot be opened. The cartridge is a parameter holding the file's bytes.
- Uninitialised memory is a parameter: `Reset` and the `Memory` constructor take the initial contents.
- The resolvers' cycle arguments (`zero_page(3)` and the like) are not modelled. The definitions in `src/address_modes.cpp` take none and add no cycles, and the model follows those definitions.
- The CPU keeps A, X, Y, SP, P and PC as plain fields instead of register objects. The register classes are modelled on their own in `Registers`.
- The status register is held as a record of eight booleans. `Registers.ByteRoundTrip` proves it converts to and from the byte without loss.
- `loop_cycles` is an unbounded `nat` rather than an `unsigned int`. One instruction adds at most 7, so no wrap-around can occur within a step.
- A header that never sets `mirroring` or `tv_system` leaves them uninitialised in the source. The model returns `None` for them.
- The `vs_unisystem` and `playchoice_10` fields are declared but never assigned, so they are not modelled.
- Only mapper 0 is modelled, as in the source. `getMapperNumber` is declared in `src/cartridge.h` but never defined, so the model keeps the number in the header's `mapperNumber` field.
- `src/main.cpp` (argument handling, construction of the objects) is not part of this model.
