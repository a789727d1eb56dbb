/** The stack over many pushes and pops: `stack_push` and `stack_pop`
    share the 256 cells of page 1 through the 8-bit SP, so up to 256 bytes
    pushed come back off in reverse order, and SP returns to where it
    started. */
module StackDiscipline {
  import opened Bitwise
  import opened Machine
  import FetchAndStack

  /** SP after `n` pushes from `sp`: each push decrements it, wrapping. */
  function Descend(sp: bv8, n: nat): bv8
  {
    if n == 0 then sp else Descend(sp, n - 1) - 1
  }

  /** SP after `n` pops from `sp`: each pop increments it, wrapping. */
  function Ascend(sp: bv8, n: nat): bv8
    decreases n
  {
    if n == 0 then sp else Ascend(sp + 1, n - 1)
  }

  lemma ByteDown(v: bv8)
    ensures (v - 1) as int == (v as int - 1) % 256
  {
  }

  lemma ByteUp(v: bv8)
    ensures (v + 1) as int == (v as int + 1) % 256
  {
  }

  lemma ModShift(a: int, b: int)
    ensures (a % 256 + b) % 256 == (a + b) % 256
  {
  }

  /** `n` pushes move SP down by `n` modulo 256. */
  lemma {:induction false} DescendValue(sp: bv8, n: nat)
    ensures Descend(sp, n) as int == (sp as int - n) % 256
  {
    if n > 0 {
      DescendValue(sp, n - 1);
      ByteDown(Descend(sp, n - 1));
      ModShift(sp as int - (n - 1), -1);
    }
  }

  /** `n` pops move SP up by `n` modulo 256. */
  lemma {:induction false} AscendValue(sp: bv8, n: nat)
    ensures Ascend(sp, n) as int == (sp as int + n) % 256
    decreases n
  {
    if n > 0 {
      AscendValue(sp + 1, n - 1);
      ByteUp(sp);
      ModShift(sp as int + 1, n - 1);
    }
  }

  /** Fewer than 256 pushes apart, SP never repeats. */
  lemma DescendDistinct(sp: bv8, j: nat, k: nat)
    requires j < k <= j + 255
    ensures Descend(sp, j) != Descend(sp, k)
  {
    DescendValue(sp, j);
    DescendValue(sp, k);
  }

  /** `k` pops undo the last `k` of `n` pushes. */
  lemma {:induction false} AscendDescend(sp: bv8, n: nat, k: nat)
    requires k <= n
    ensures Ascend(Descend(sp, n), k) == Descend(sp, n - k)
  {
    if k > 0 {
      ByteStepBack(Descend(sp, n - 1));
      AscendDescend(sp, n - 1, k - 1);
    }
  }

  /** `stack_push` of each byte of `bs`, first to last: SP ends `|bs|`
      pushes down, and nothing but SP and memory changes. */
  function PushAll(s: State, bs: seq<bv8>): (t: State)
    ensures t.sp == Descend(s.sp, |bs|)
    ensures t == s.(sp := t.sp, ram := t.ram)
    decreases |bs|
  {
    if |bs| == 0 then s
    else Push(PushAll(s, bs[..|bs| - 1]), bs[|bs| - 1])
  }

  /** `stack_pop` `n` times: the bytes in the order they come off. SP ends
      `n` pops up, and nothing else changes. */
  function PopAll(s: State, n: nat): (r: Fetched<seq<bv8>>)
    ensures |r.value| == n
    ensures r.next == s.(sp := Ascend(s.sp, n))
    decreases n
  {
    if n == 0 then Fetched([], s)
    else
      var top := Pop(s);
      var rest := PopAll(top.next, n - 1);
      Fetched([top.value] + rest.value, rest.next)
  }

  /** The bytes of `bs`, last first. */
  function Reversed(bs: seq<bv8>): (r: seq<bv8>)
    ensures |r| == |bs|
    ensures forall k :: 0 <= k < |bs| ==> r[k] == bs[|bs| - 1 - k]
  {
    seq(|bs|, k requires 0 <= k < |bs| => bs[|bs| - 1 - k])
  }

  /** The last push writes its byte one cell below the previous SP. */
  lemma LastPushed(s: State, bs: seq<bv8>)
    requires |bs| > 0
    ensures ReadByte(PushAll(s, bs), StackAddress(Descend(s.sp, |bs|))) == bs[|bs| - 1]
  {
    FetchAndStack.PopAfterPush(PushAll(s, bs[..|bs| - 1]), bs[|bs| - 1]);
  }

  /** The last push leaves the cells of the earlier pushes alone while at
      most 256 bytes are pushed. */
  lemma EarlierSurvive(s: State, bs: seq<bv8>, i: nat)
    requires i + 1 < |bs| <= 256
    ensures ReadByte(PushAll(s, bs), StackAddress(Descend(s.sp, i + 1)))
         == ReadByte(PushAll(s, bs[..|bs| - 1]), StackAddress(Descend(s.sp, i + 1)))
  {
    DescendDistinct(s.sp, i + 1, |bs|);
    FetchAndStack.PushKeepsOtherCells(PushAll(s, bs[..|bs| - 1]), bs[|bs| - 1], Descend(s.sp, i + 1));
  }

  /** After pushing `bs`, byte `i` sits in the cell of the SP value left by
      its own push: later pushes never overwrite it while at most 256 bytes
      are pushed. */
  lemma {:induction false} PushedCells(s: State, bs: seq<bv8>, i: nat)
    requires i < |bs| <= 256
    ensures ReadByte(PushAll(s, bs), StackAddress(Descend(s.sp, i + 1))) == bs[i]
    decreases |bs|
  {
    if i + 1 == |bs| {
      LastPushed(s, bs);
    } else {
      PushedCells(s, bs[..|bs| - 1], i);
      EarlierSurvive(s, bs, i);
    }
  }

  /** Popping `n` times returns the `n` cells from SP upwards. */
  lemma {:induction false} PoppedCells(s: State, n: nat, k: nat)
    requires k < n
    ensures PopAll(s, n).value[k] == ReadByte(s, StackAddress(Ascend(s.sp, k)))
    decreases n
  {
    var top := Pop(s);
    var rest := PopAll(top.next, n - 1);
    assert PopAll(s, n).value == [top.value] + rest.value;
    if k > 0 {
      PoppedCells(top.next, n - 1, k - 1);
    }
  }

  /** The `k`-th byte popped after pushing `bs` is the `k`-th from the end
      of `bs`. */
  lemma {:induction false} PoppedIsPushed(s: State, bs: seq<bv8>, k: nat)
    requires k < |bs| <= 256
    ensures PopAll(PushAll(s, bs), |bs|).value[k] == bs[|bs| - 1 - k]
  {
    var n := |bs|;
    var t := PushAll(s, bs);
    PoppedCells(t, n, k);
    AscendDescend(s.sp, n, k);
    PushedCells(s, bs, n - 1 - k);
  }

  /** The stack is last in, first out: up to 256 bytes pushed are popped
      back in reverse order, SP ends where it started, and apart from the
      stack cells written the state is as before the pushes. */
  lemma {:induction false} PopAllAfterPushAll(s: State, bs: seq<bv8>)
    requires |bs| <= 256
    ensures PopAll(PushAll(s, bs), |bs|).value == Reversed(bs)
    ensures PopAll(PushAll(s, bs), |bs|).next == s.(ram := PushAll(s, bs).ram)
  {
    var popped := PopAll(PushAll(s, bs), |bs|).value;
    forall k | 0 <= k < |bs|
      ensures popped[k] == Reversed(bs)[k]
    {
      PoppedIsPushed(s, bs, k);
    }
    AscendDescend(s.sp, |bs|, |bs|);
  }
}
