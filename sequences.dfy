/** Instruction pairs that go through the stack: PHA then PLA, PHP then
    PLP, JSR then RTS, and RTI over the three bytes an interrupt pushes. */
module StackSequences {
  import opened Bitwise
  import opened Registers
  import opened Instructions
  import opened Machine
  import FetchAndStack

  /** Popping does not look at PC or the cycle count. */
  lemma {:induction false} PopIgnoresPcAndCycles(u: State, pc: bv16, cycles: nat)
    ensures Pop(u.(pc := pc, cycles := cycles)) == Fetched(Pop(u).value, Pop(u).next.(pc := pc, cycles := cycles))
  {
  }

  /** Below the byte just pushed and popped again, the stack reads as it
      did before the push. */
  lemma {:induction false} PopUnderValue(u: State, b: bv8)
    ensures Pop(Pop(Push(u, b)).next).value == Pop(u).value
  {
    FetchAndStack.PopAfterPush(u, b);
    FetchAndStack.PushKeepsOtherCells(u, b, u.sp);
  }

  /** Two pops after two pushes bring SP back. */
  lemma {:induction false} PopTwiceSp(u: State, first: bv8, second: bv8)
    ensures Pop(Pop(Push(Push(u, first), second)).next).next.sp == u.sp
  {
    FetchAndStack.PopAfterPush(Push(u, first), second);
  }

  /** Two pops after two pushes return the bytes in reverse order. */
  lemma {:induction false} PopTwiceValues(u: State, first: bv8, second: bv8)
    ensures Pop(Push(Push(u, first), second)).value == second
    ensures Pop(Pop(Push(Push(u, first), second)).next).value == first
  {
    FetchAndStack.PopAfterPush(Push(u, first), second);
    PopUnderValue(Push(u, first), second);
    FetchAndStack.PopAfterPush(u, first);
  }

  // PHA and PLA.

  /** PLA after PHA gets A back. */
  lemma {:induction false} PhaPlaA(s: State)
    ensures ExecImplied(Pla, ExecImplied(Pha, s)).a == s.a
  {
    FetchAndStack.PopAfterPush(s, s.a);
  }

  /** PLA after PHA puts SP back and costs 7 cycles. */
  lemma {:induction false} PhaPlaSp(s: State)
    ensures ExecImplied(Pla, ExecImplied(Pha, s)).sp == s.sp
    ensures ExecImplied(Pla, ExecImplied(Pha, s)).cycles == s.cycles + 7
  {
  }

  // PHP and PLP.

  /** PHP pushes a copy of P with bits 4 and 5 set, and leaves P itself
      unchanged. */
  lemma {:induction false} PhpPushes(s: State)
    ensures ExecImplied(Php, s).p == s.p
    ensures Pop(ExecImplied(Php, s)).value == ToByte(s.p) | 0x30
  {
    FetchAndStack.PopAfterPush(s, PushedStatus(s.p));
  }

  /** The pushed status byte, read back with bits 4 and 5 kept from the
      register, is the register. */
  lemma PulledStatus(p: Status)
    ensures FromByte(PushedStatus(p)).(bit5 := p.bit5, breakCommand := p.breakCommand) == p
  {
  }

  /** PLP after PHP gets P back. */
  lemma {:induction false} PhpPlpP(s: State)
    ensures ExecImplied(Plp, ExecImplied(Php, s)).p == s.p
  {
    FetchAndStack.PopAfterPush(s, PushedStatus(s.p));
    PulledStatus(s.p);
  }

  /** PLP after PHP puts SP back and costs 7 cycles. */
  lemma {:induction false} PhpPlpSp(s: State)
    ensures ExecImplied(Plp, ExecImplied(Php, s)).sp == s.sp
    ensures ExecImplied(Plp, ExecImplied(Php, s)).cycles == s.cycles + 7
  {
  }

  // JSR, RTS and RTI.

  /** JSR jumps to the operand word, having pushed two bytes; it changes
      nothing else and adds no cycles. */
  lemma {:induction false} JsrJumps(s: State)
    ensures ExecJsr(s).pc == FetchWord(s).value
    ensures ExecJsr(s).sp == s.sp - 2
    ensures ExecJsr(s).cycles == s.cycles
  {
  }

  /** The address JSR pushes, plus one, is the address after the JSR
      instruction. */
  lemma ReturnAddress(pc: bv16)
    ensures AddWord(CombineBytes(Low(Dec16(AddWord(pc, 2))), High(Dec16(AddWord(pc, 2)))), 1) == AddWord(pc, 2)
  {
    CombineBytesOfHalves(Dec16(AddWord(pc, 2)));
  }

  /** RTS pulls the low byte, then the high byte, and returns to the
      address they form plus one. */
  lemma {:induction false} RtsPc(t: State)
    ensures ExecImplied(Rts, t).pc ==
      AddWord(CombineBytes(ReadByte(t, StackAddress(t.sp)), ReadByte(t, StackAddress(t.sp + 1))), 1)
  {
  }

  /** RTS raises SP by two and adds no cycles. */
  lemma {:induction false} RtsSp(t: State)
    ensures ExecImplied(Rts, t).sp == t.sp + 2
    ensures ExecImplied(Rts, t).cycles == t.cycles
  {
  }

  /** JSR leaves the low byte of its return address on top of the stack. */
  lemma {:induction false} JsrPushesLow(s: State)
    ensures ReadByte(ExecJsr(s), StackAddress(s.sp - 2)) == Low(Dec16(AddWord(s.pc, 2)))
  {
    var target := FetchWord(s);
    FetchAndStack.FetchWordNext(s);
    var back := Dec16(target.next.pc);
    PopTwiceValues(target.next, High(back), Low(back));
  }

  /** JSR leaves the high byte of its return address under the low byte. */
  lemma {:induction false} JsrPushesHigh(s: State)
    ensures ReadByte(ExecJsr(s), StackAddress(s.sp - 1)) == High(Dec16(AddWord(s.pc, 2)))
  {
    var target := FetchWord(s);
    FetchAndStack.FetchWordNext(s);
    var back := Dec16(target.next.pc);
    PopTwiceValues(target.next, High(back), Low(back));
  }

  /** RTS after JSR returns to the instruction after the JSR. */
  lemma {:induction false} JsrRtsPc(s: State)
    ensures ExecImplied(Rts, ExecJsr(s)).pc == AddWord(s.pc, 2)
  {
    JsrJumps(s);
    RtsPc(ExecJsr(s));
    JsrPushesLow(s);
    JsrPushesHigh(s);
    assert s.sp - 2 + 1 == s.sp - 1;
    ReturnAddress(s.pc);
  }

  /** RTS after JSR puts SP back and adds no cycles. */
  lemma {:induction false} JsrRtsSp(s: State)
    ensures ExecImplied(Rts, ExecJsr(s)).sp == s.sp
    ensures ExecImplied(Rts, ExecJsr(s)).cycles == s.cycles
  {
    JsrJumps(s);
    RtsSp(ExecJsr(s));
  }

  /** RTI pulls the status byte, then the low and the high byte of the
      return address. */
  lemma {:induction false} RtiReads(t: State)
    ensures ExecImplied(Rti, t).p == FromByte(SetBitTo(ReadByte(t, StackAddress(t.sp)), 5, true))
    ensures ExecImplied(Rti, t).pc ==
      CombineBytes(ReadByte(t, StackAddress(t.sp + 1)), ReadByte(t, StackAddress(t.sp + 2)))
  {
  }

  /** RTI raises SP by three and adds 6 cycles. */
  lemma {:induction false} RtiSp(t: State)
    ensures ExecImplied(Rti, t).sp == t.sp + 3
    ensures ExecImplied(Rti, t).cycles == t.cycles + 6
  {
  }

  /** The stack an interrupt leaves: the return address high byte first,
      then its low byte, then the status byte. */
  function InterruptFrame(s: State, pc: bv16, status: bv8): State
  {
    Push(Push(Push(s, High(pc)), Low(pc)), status)
  }

  /** The status byte is on top of the frame. */
  lemma {:induction false} FrameTop(s: State, pc: bv16, status: bv8)
    ensures ReadByte(InterruptFrame(s, pc, status), StackAddress(s.sp - 3)) == status
  {
    FetchAndStack.PopAfterPush(Push(Push(s, High(pc)), Low(pc)), status);
  }

  /** The low byte of the return address is under the status byte. */
  lemma {:induction false} FrameMiddle(s: State, pc: bv16, status: bv8)
    ensures ReadByte(InterruptFrame(s, pc, status), StackAddress(s.sp - 2)) == Low(pc)
  {
    var v := Push(s, High(pc));
    FetchAndStack.PopAfterPush(v, Low(pc));
    FetchAndStack.PushKeepsOtherCells(Push(v, Low(pc)), status, s.sp - 2);
  }

  /** The high byte of the return address is at the bottom of the frame. */
  lemma {:induction false} FrameBottom(s: State, pc: bv16, status: bv8)
    ensures ReadByte(InterruptFrame(s, pc, status), StackAddress(s.sp - 1)) == High(pc)
  {
    var v := Push(s, High(pc));
    FetchAndStack.PopAfterPush(s, High(pc));
    FetchAndStack.PushKeepsOtherCells(v, Low(pc), s.sp - 1);
    FetchAndStack.PushKeepsOtherCells(Push(v, Low(pc)), status, s.sp - 1);
  }

  /** RTI over an interrupt frame returns to the pushed address. */
  lemma {:induction false} RtiFramePc(s: State, pc: bv16, status: bv8)
    ensures ExecImplied(Rti, InterruptFrame(s, pc, status)).pc == pc
  {
    RtiReads(InterruptFrame(s, pc, status));
    FrameMiddle(s, pc, status);
    FrameBottom(s, pc, status);
    CombineBytesOfHalves(pc);
  }

  /** RTI over an interrupt frame restores the pushed status, with bit 5
      set. */
  lemma {:induction false} RtiFrameStatus(s: State, pc: bv16, status: bv8)
    ensures ExecImplied(Rti, InterruptFrame(s, pc, status)).p == FromByte(SetBitTo(status, 5, true))
  {
    RtiReads(InterruptFrame(s, pc, status));
    FrameTop(s, pc, status);
  }

  /** RTI over an interrupt frame puts SP back where it was before the
      frame was pushed. */
  lemma {:induction false} RtiFrameSp(s: State, pc: bv16, status: bv8)
    ensures ExecImplied(Rti, InterruptFrame(s, pc, status)).sp == s.sp
  {
    RtiSp(InterruptFrame(s, pc, status));
  }
}
