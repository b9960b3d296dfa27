/** Pending jumps, kept as lists threaded through the operands of the jump instructions themselves,
    and the threading of jumps to jumps at the end of a function.
 */
module Jumps {

  type Word = x: int | 0 <= x < 0x1_0000_0000

  const OP_JMP := 56
  const OP_TEST := 66
  const OP_TESTSET := 67
  const OP_TAILCALL := 69
  const OP_RETURN := 70
  const OP_RETURN0 := 71
  const OP_RETURN1 := 72

  /** The greatest 25-bit operand, and what is added to a signed one. */
  const MAX_SJ := 0x1FF_FFFF
  const OFFSET_SJ := 0xFF_FFFF

  const NO_JUMP := -1
  const NO_REG := 255

  /** The lowest 7 bits. */
  function Op(w: Word): nat {
    w % 128
  }

  /** The comparisons and the two tests: the instructions with the test bit in their mode. */
  predicate IsTest(w: Word) {
    57 <= Op(w) <= OP_TESTSET
  }

  /** Where the jump at pc leads. */
  function Dest(w: Word, pc: nat): int {
    pc + 1 + (w / 128 - OFFSET_SJ)
  }

  predicate InRange(pc: nat, dest: int) {
    -OFFSET_SJ <= dest - (pc + 1) <= MAX_SJ - OFFSET_SJ
  }

  function WithDest(w: Word, pc: nat, dest: int): Word
    requires InRange(pc, dest)
  {
    Op(w) + 128 * (dest - (pc + 1) + OFFSET_SJ)
  }

  lemma DestSet(w: Word, pc: nat, dest: int)
    requires InRange(pc, dest)
    ensures Op(WithDest(w, pc, dest)) == Op(w) && Dest(WithDest(w, pc, dest), pc) == dest
  {
  }

  /** `getjump`: a jump to itself ends a list. */
  function Next(w: Word, pc: nat): int {
    if Dest(w, pc) == pc then NO_JUMP else Dest(w, pc)
  }

  /** The jumps ms form the list with that head. */
  ghost predicate JumpList(code: seq<Word>, head: int, ms: seq<nat>)
    decreases |ms|
  {
    if ms == [] then head == NO_JUMP
    else
      && head == ms[0] && ms[0] < |code| && Op(code[ms[0]]) == OP_JMP && ms[0] !in ms[1..]
      && JumpList(code, Next(code[ms[0]], ms[0]), ms[1..])
  }

  lemma {:induction false} ListFrame(code: seq<Word>, code': seq<Word>, head: int, ms: seq<nat>)
    requires JumpList(code, head, ms) && |code'| == |code|
    requires forall m | m in ms && m < |code| :: code'[m] == code[m]
    ensures JumpList(code', head, ms)
    decreases |ms|
  {
    if ms != [] {
      assert ms[0] in ms;
      assert forall m | m in ms[1..] :: m in ms;
      ListFrame(code, code', Next(code[ms[0]], ms[0]), ms[1..]);
    }
  }

  lemma {:induction false} Members(code: seq<Word>, head: int, ms: seq<nat>)
    requires JumpList(code, head, ms)
    ensures forall m | m in ms :: m < |code| && Op(code[m]) == OP_JMP
    decreases |ms|
  {
    if ms != [] {
      Members(code, Next(code[ms[0]], ms[0]), ms[1..]);
    }
  }

  /** Linking the end of one list to the head of another gives the two in a row. */
  lemma {:induction false} ListJoin(code: seq<Word>, code': seq<Word>, head: int, ms: seq<nat>, l2: int, ns: seq<nat>)
    requires JumpList(code, head, ms) && ms != [] && JumpList(code, l2, ns) && ns != []
    requires forall m | m in ms :: m !in ns
    requires ms[|ms| - 1] < |code| && InRange(ms[|ms| - 1], l2)
    requires code' == code[ms[|ms| - 1] := WithDest(code[ms[|ms| - 1]], ms[|ms| - 1], l2)]
    ensures JumpList(code', head, ms + ns)
    decreases |ms|
  {
    var last := ms[|ms| - 1];
    assert last in ms;
    if |ms| == 1 {
      DestSet(code[last], last, l2);
      assert last !in ns;
      ListFrame(code, code', l2, ns);
      assert (ms + ns)[1..] == ns;
      assert l2 == ns[0] && ns[0] in ns;
    } else {
      assert ms[1..][|ms| - 2] == last;
      assert forall m | m in ms[1..] :: m in ms;
      ListJoin(code, code', Next(code[ms[0]], ms[0]), ms[1..], l2, ns);
      assert last in ms[1..];
      assert (ms + ns)[1..] == ms[1..] + ns;
      assert ms[0] in ms && ms[0] !in ns;
    }
  }

  // ---------------------------------------------------------------------- tests before jumps

  function ArgA(w: Word): nat {
    w / 128 % 256
  }

  function ArgK(w: Word): nat {
    w / 0x8000 % 2
  }

  function ArgB(w: Word): nat {
    w / 0x1_0000 % 256
  }

  function ArgC(w: Word): nat {
    w / 0x100_0000
  }

  function MakeABCk(op: nat, a: nat, k: nat, b: nat, c: nat): Word
    requires op < 128 && a < 256 && k < 2 && b < 256 && c < 256
  {
    op + 128 * a + 0x8000 * k + 0x1_0000 * b + 0x100_0000 * c
  }

  /** What `patchtestreg` makes of a TESTSET: it puts the value into reg, or only tests it. */
  function PatchedTest(w: Word, reg: nat): Word
    requires reg < 256
  {
    if reg != NO_REG && reg != ArgB(w) then MakeABCk(Op(w), reg, ArgK(w), ArgB(w), ArgC(w))
    else MakeABCk(OP_TEST, ArgB(w), ArgK(w), 0, 0)
  }

  lemma Fields(op: nat, a: nat, k: nat, b: nat, c: nat)
    requires op < 128 && a < 256 && k < 2 && b < 256 && c < 256
    ensures var w := MakeABCk(op, a, k, b, c);
      Op(w) == op && ArgA(w) == a && ArgK(w) == k && ArgB(w) == b && ArgC(w) == c
  {
    var w := MakeABCk(op, a, k, b, c);
    assert w / 128 == a + 256 * k + 512 * b + 0x2_0000 * c;
    assert w / 0x8000 == k + 2 * b + 512 * c;
    assert w / 0x1_0000 == b + 256 * c;
  }

  /** The patched word has the operands it is meant to have. */
  lemma PatchedTestIs(w: Word, reg: nat)
    requires reg < 256
    ensures var v := PatchedTest(w, reg);
      if reg != NO_REG && reg != ArgB(w) then
        Op(v) == Op(w) && ArgA(v) == reg && ArgK(v) == ArgK(w) && ArgB(v) == ArgB(w) && ArgC(v) == ArgC(w)
      else Op(v) == OP_TEST && ArgA(v) == ArgB(w) && ArgK(v) == ArgK(w) && ArgB(v) == 0 && ArgC(v) == 0
  {
    var v := PatchedTest(w, reg);
    if reg != NO_REG && reg != ArgB(w) {
      Fields(Op(w), reg, ArgK(w), ArgB(w), ArgC(w));
    } else {
      Fields(OP_TEST, ArgB(w), ArgK(w), 0, 0);
    }
  }

  /** The jump at m is controlled by a TESTSET. */
  predicate AfterTestSet(code: seq<Word>, m: nat)
    requires m < |code|
  {
    m >= 1 && Op(code[m - 1]) == OP_TESTSET
  }

  function Target(code: seq<Word>, pc: nat, vtarget: int, dtarget: int): int
    requires pc < |code|
  {
    if AfterTestSet(code, pc) then vtarget else dtarget
  }

  /** What becomes of the word at pc when the jumps ms are patched. */
  ghost predicate PatchedAt(code0: seq<Word>, code: seq<Word>, ms: seq<nat>, vtarget: int, reg: nat, dtarget: int, pc: nat)
    requires reg < 256 && pc < |code0| == |code|
  {
    if pc in ms then
      InRange(pc, Target(code0, pc, vtarget, dtarget))
      && code[pc] == WithDest(code0[pc], pc, Target(code0, pc, vtarget, dtarget))
    else if pc + 1 in ms && Op(code0[pc]) == OP_TESTSET then code[pc] == PatchedTest(code0[pc], reg)
    else code[pc] == code0[pc]
  }

  /** Exactly the jumps ms lead to their targets now, the TESTSETs before them are patched, and
      nothing else is changed. */
  ghost predicate Patched(code0: seq<Word>, code: seq<Word>, ms: seq<nat>, vtarget: int, reg: nat, dtarget: int)
    requires reg < 256
  {
    && |code| == |code0|
    && forall pc | 0 <= pc < |code| :: PatchedAt(code0, code, ms, vtarget, reg, dtarget, pc)
  }

  class Buffer {
    var code: seq<Word>

    /** `fixjump`; fails with "control structure too long". */
    method FixJump(pc: nat, dest: int) returns (ok: bool)
      requires pc < |code|
      modifies this
      ensures ok == InRange(pc, dest)
      ensures code == if ok then old(code)[pc := WithDest(old(code)[pc], pc, dest)] else old(code)
    {
      var offset := dest - (pc + 1);
      ok := -OFFSET_SJ <= offset <= MAX_SJ - OFFSET_SJ;
      if ok {
        code := code[pc := code[pc] % 128 + 128 * (offset + OFFSET_SJ)];
      }
    }

    /** `luaK_concat`. */
    method Concat(l1: int, l2: int, ghost ms: seq<nat>, ghost ns: seq<nat>) returns (ok: bool, l: int)
      requires JumpList(code, l1, ms) && JumpList(code, l2, ns) && forall m | m in ms :: m !in ns
      modifies this
      ensures ok ==> JumpList(code, l, ms + ns)
      ensures |code| == |old(code)|
      ensures forall pc | 0 <= pc < |code| && !(ok && ms != [] && ns != [] && pc == ms[|ms| - 1]) :: code[pc] == old(code)[pc]
      ensures ok <==> ms == [] || ns == [] || InRange(ms[|ms| - 1], l2)
    {
      ok, l := true, l1;
      if l2 == NO_JUMP {
        assert ms + ns == ms;
        return;
      }
      if l1 == NO_JUMP {
        assert ms + ns == ns;
        l := l2;
        return;
      }
      var list := l1;
      ghost var i := 0;
      assert ms[0..] == ms;
      while Next(code[list], list) != NO_JUMP
        invariant 0 <= i < |ms| && list == ms[i] && list < |code|
        invariant JumpList(code, list, ms[i..])
        decreases |ms| - i
      {
        assert ms[i..][1..] == ms[i + 1..];
        list := Next(code[list], list);
        i := i + 1;
      }
      assert ms[i..][1..] == ms[i + 1..];
      Members(code, l1, ms);
      ghost var code0 := code;
      ok := FixJump(list, l2);
      if ok {
        ListJoin(code0, code, l1, ms, l2, ns);
      }
    }

    /** `patchtestreg` on the instruction that controls the jump at node. */
    method PatchTestReg(node: nat, reg: nat) returns (r: bool)
      requires node < |code| && reg < 256 && Op(code[node]) == OP_JMP
      modifies this
      ensures r == AfterTestSet(old(code), node)
      ensures code == if r then old(code)[node - 1 := PatchedTest(old(code)[node - 1], reg)] else old(code)
    {
      var i := if node >= 1 && IsTest(code[node - 1]) then node - 1 else node;
      if Op(code[i]) != OP_TESTSET {
        return false;
      }
      code := code[i := PatchedTest(code[i], reg)];
      return true;
    }

    /** `patchlistaux`. */
    method PatchListAux(head: int, vtarget: int, reg: nat, dtarget: int, ghost ms: seq<nat>) returns (ok: bool)
      requires JumpList(code, head, ms) && reg < 256
      modifies this
      ensures ok ==> Patched(old(code), code, ms, vtarget, reg, dtarget)
      ensures ok <==> forall m | m in ms && m < |old(code)| ::
        InRange(m, Target(old(code), m, vtarget, dtarget))
    {
      hide Patched, JumpList;
      var list := head;
      ghost var i := 0;
      ghost var code0 := code;
      assert ms[0..] == ms;
      Members(code, head, ms);
      Unique(code, head, ms);
      NonePatched(code, ms, vtarget, reg, dtarget);
      ok := true;
      while list != NO_JUMP
        invariant 0 <= i <= |ms| && JumpList(code, list, ms[i..]) && |code| == |code0|
        invariant Patched(code0, code, ms[..i], vtarget, reg, dtarget) && ok
        decreases |ms| - i
      {
        ListHead(code, list, ms, i);
        var next := Next(code[list], list);
        ghost var code1 := code;
        PatchStep(code0, code1, ms, i, vtarget, reg, dtarget);
        var t := PatchTestReg(list, reg);
        ok := FixJump(list, if t then vtarget else dtarget);
        if !ok {
          assert list in ms && !InRange(list, Target(code0, list, vtarget, dtarget));
          return;
        }
        PatchedStep(code0, code1, code, ms, i, vtarget, reg, dtarget);
        StillList(code0, code1, code, next, ms, i);
        list := next;
        i := i + 1;
      }
      ListEnd(code, ms, i);
      PatchedTargets(code0, code, ms, vtarget, reg, dtarget);
    }

    lemma NonePatched(code: seq<Word>, ms: seq<nat>, vtarget: int, reg: nat, dtarget: int)
      requires reg < 256
      ensures Patched(code, code, ms[..0], vtarget, reg, dtarget)
    {
    }

    lemma ListHead(code: seq<Word>, list: int, ms: seq<nat>, i: nat)
      requires i <= |ms| && JumpList(code, list, ms[i..]) && list != NO_JUMP
      ensures i < |ms| && list == ms[i] && 0 <= list < |code| && Op(code[list]) == OP_JMP
      ensures JumpList(code, Next(code[list], list), ms[i + 1..])
    {
      assert i < |ms| ==> ms[i..][1..] == ms[i + 1..];
    }

    lemma ListEnd(code: seq<Word>, ms: seq<nat>, i: nat)
      requires i <= |ms| && JumpList(code, NO_JUMP, ms[i..])
      ensures ms[..i] == ms
    {
    }

    lemma PatchedTargets(code0: seq<Word>, code: seq<Word>, ms: seq<nat>, vtarget: int, reg: nat, dtarget: int)
      requires reg < 256 && Patched(code0, code, ms, vtarget, reg, dtarget)
      ensures forall m | m in ms && m < |code0| :: InRange(m, Target(code0, m, vtarget, dtarget))
    {
      forall m | m in ms && m < |code0| ensures InRange(m, Target(code0, m, vtarget, dtarget)) {
        assert PatchedAt(code0, code, ms, vtarget, reg, dtarget, m);
      }
    }

    lemma {:induction false} Unique(code: seq<Word>, head: int, ms: seq<nat>)
      requires JumpList(code, head, ms)
      ensures forall i, j | 0 <= i < j < |ms| :: ms[i] != ms[j]
      decreases |ms|
    {
      if ms != [] {
        Unique(code, Next(code[ms[0]], ms[0]), ms[1..]);
        assert forall j | 0 < j < |ms| :: ms[j] == ms[1..][j - 1];
      }
    }

    /** Before its turn, a member and the instruction before it are as they were. */
    lemma PatchStep(code0: seq<Word>, code: seq<Word>, ms: seq<nat>, i: nat, vtarget: int, reg: nat, dtarget: int)
      requires i < |ms| && reg < 256 && Patched(code0, code, ms[..i], vtarget, reg, dtarget)
      requires forall m | m in ms :: m < |code0| && Op(code0[m]) == OP_JMP
      requires forall j, k | 0 <= j < k < |ms| :: ms[j] != ms[k]
      ensures |code| == |code0| && ms[i] < |code| && code[ms[i]] == code0[ms[i]]
      ensures ms[i] >= 1 && Op(code0[ms[i] - 1]) != OP_JMP ==> code[ms[i] - 1] == code0[ms[i] - 1]
      ensures AfterTestSet(code, ms[i]) == AfterTestSet(code0, ms[i])
    {
      var m := ms[i];
      assert m in ms && forall k | k in ms[..i] :: k in ms && k != m;
      assert PatchedAt(code0, code, ms[..i], vtarget, reg, dtarget, m);
      if m >= 1 {
        assert PatchedAt(code0, code, ms[..i], vtarget, reg, dtarget, m - 1);
        if m - 1 in ms[..i] {
          DestSet(code0[m - 1], m - 1, Target(code0, m - 1, vtarget, dtarget));
        }
      }
    }

    lemma PatchedStep(code0: seq<Word>, code1: seq<Word>, code: seq<Word>, ms: seq<nat>, i: nat, vtarget: int,
                      reg: nat, dtarget: int)
      requires i < |ms| && reg < 256 && Patched(code0, code1, ms[..i], vtarget, reg, dtarget)
      requires forall m | m in ms :: m < |code0| && Op(code0[m]) == OP_JMP
      requires forall j, k | 0 <= j < k < |ms| :: ms[j] != ms[k]
      requires ms[i] < |code0|
      requires var m, target := ms[i], Target(code0, ms[i], vtarget, dtarget);
        && InRange(m, target)
        && code == (if AfterTestSet(code0, m) then code1[m - 1 := PatchedTest(code1[m - 1], reg)] else code1)
                   [m := WithDest(code1[m], m, target)]
      ensures Patched(code0, code, ms[..i + 1], vtarget, reg, dtarget)
    {
      var m := ms[i];
      PatchStep(code0, code1, ms, i, vtarget, reg, dtarget);
      assert ms[..i + 1] == ms[..i] + [m];
      assert m in ms;
      var done := ms[..i + 1];
      forall pc | 0 <= pc < |code| ensures PatchedAt(code0, code, done, vtarget, reg, dtarget, pc) {
        assert PatchedAt(code0, code1, ms[..i], vtarget, reg, dtarget, pc);
        assert pc in ms[..i + 1] <==> pc in ms[..i] || pc == m;
        assert pc + 1 in ms[..i + 1] <==> pc + 1 in ms[..i] || pc + 1 == m;
      }
    }

    /** The rest of the list has not been touched. */
    lemma StillList(code0: seq<Word>, code1: seq<Word>, code: seq<Word>, next: int, ms: seq<nat>, i: nat)
      requires i < |ms| && JumpList(code1, next, ms[i + 1..]) && |code| == |code1| == |code0|
      requires forall m | m in ms :: m < |code0| && Op(code0[m]) == OP_JMP
      requires forall j, k | 0 <= j < k < |ms| :: ms[j] != ms[k]
      requires forall pc | 0 <= pc < |code| && pc != ms[i] && Op(code0[pc]) == OP_JMP :: code[pc] == code1[pc]
      ensures JumpList(code, next, ms[i + 1..])
    {
      assert forall m | m in ms[i + 1..] :: m in ms && m != ms[i];
      ListFrame(code1, code, next, ms[i + 1..]);
    }

    // -------------------------------------------------------------------- the end of a function

    /** `finaltarget`: follows at most 100 jumps. */
    method FinalTarget(start: nat) returns (i: nat, ghost hops: nat)
      requires start < |code| && Closed(code)
      ensures i < |code| && After(code, start, hops) == i
      ensures hops <= 100 && (Op(code[start]) == OP_JMP ==> hops > 0)
      ensures forall h: nat | h < hops :: Op(code[After(code, start, h)]) == OP_JMP
    {
      i, hops := start, 0;
      var count := 0;
      while count < 100
        invariant 0 <= count <= 100 && hops == count
        invariant i < |code| && After(code, start, hops) == i
        invariant forall h: nat | h < hops :: Op(code[After(code, start, h)]) == OP_JMP
        invariant count > 0 || i == start
        decreases 100 - count
      {
        if Op(code[i]) != OP_JMP {
          break;
        }
        i := Dest(code[i], i);
        count := count + 1;
        hops := hops + 1;
      }
    }

    /** `luaK_finish`: returns get their final form, and jumps to jumps are threaded, in place. For every
        instruction, what is eventually executed from there, if anything, stays the same. */
    method Finish(needclose: bool, vararg: bool, numparams: nat) returns (ok: bool)
      requires Closed(code) && numparams < 255
      modifies this
      ensures |code| == |old(code)| && Closed(code) && SameFlow(old(code), code)
      ensures ok ==> FinishedTo(old(code), code, |code|, needclose, vararg, numparams)
      ensures |code| <= OFFSET_SJ ==> ok
    {
      hide SameFlow, Closed, After, FinishedTo, Finished, WithDest;
      ghost var code0 := code;
      var i := 0;
      SameFlowRefl(code);
      FinishedNone(code, needclose, vararg, numparams);
      while i < |code|
        invariant 0 <= i <= |code| == |code0| && Closed(code) && SameFlow(code0, code)
        invariant FinishedTo(code0, code, i, needclose, vararg, numparams)
      {
        ghost var code1 := code;
        if Op(code[i]) == OP_JMP {
          var target;
          ghost var hops;
          target, hops := FinalTarget(i);
          ok := FixJump(i, target);
          if !ok {
            return;
          }
          Threaded(code1, code, i, target, hops);
        } else {
          code := code[i := Finished(code[i], needclose, vararg, numparams)];
          FinishedOp(code1[i], needclose, vararg, numparams);
          Rewritten(code1, code, i);
        }
        FlowClosed(code1, code);
        SameFlowTrans(code0, code1, code);
        FinishedStep(code0, code1, code, i, needclose, vararg, numparams);
        i := i + 1;
      }
      ok := true;
    }
  }

  /** What `luaK_finish` makes of an instruction that is no jump. */
  function Finished(w: Word, needclose: bool, vararg: bool, numparams: nat): Word
    requires numparams < 255
  {
    var op := if (Op(w) == OP_RETURN0 || Op(w) == OP_RETURN1) && (needclose || vararg) then OP_RETURN else Op(w);
    if OP_TAILCALL <= op <= OP_RETURN then
      MakeABCk(op, ArgA(w), if needclose then 1 else ArgK(w), ArgB(w), if vararg then numparams + 1 else ArgC(w))
    else w
  }

  /** The first n instructions have their final form: jumps are still jumps. */
  ghost predicate FinishedTo(code0: seq<Word>, code: seq<Word>, n: nat, needclose: bool, vararg: bool, numparams: nat)
    requires numparams < 255
  {
    && |code| == |code0|
    && forall k | 0 <= k < |code| ::
         if k >= n then code[k] == code0[k]
         else if Op(code0[k]) == OP_JMP then Op(code[k]) == OP_JMP
         else code[k] == Finished(code0[k], needclose, vararg, numparams)
  }

  lemma FinishedNone(code: seq<Word>, needclose: bool, vararg: bool, numparams: nat)
    requires numparams < 255
    ensures FinishedTo(code, code, 0, needclose, vararg, numparams)
  {
  }

  lemma FinishedStep(code0: seq<Word>, code1: seq<Word>, code: seq<Word>, i: nat, needclose: bool, vararg: bool,
                     numparams: nat)
    requires numparams < 255 && FinishedTo(code0, code1, i, needclose, vararg, numparams) && i < |code1| == |code|
    requires forall k | 0 <= k < |code| && k != i :: code[k] == code1[k]
    requires if Op(code1[i]) == OP_JMP then Op(code[i]) == OP_JMP
             else code[i] == Finished(code1[i], needclose, vararg, numparams)
    ensures FinishedTo(code0, code, i + 1, needclose, vararg, numparams)
  {
  }

  lemma FinishedOp(w: Word, needclose: bool, vararg: bool, numparams: nat)
    requires numparams < 255
    ensures Op(w) != OP_JMP ==> Op(Finished(w, needclose, vararg, numparams)) != OP_JMP
  {
    var op := if (Op(w) == OP_RETURN0 || Op(w) == OP_RETURN1) && (needclose || vararg) then OP_RETURN else Op(w);
    Fields(op, ArgA(w), if needclose then 1 else ArgK(w), ArgB(w), if vararg then numparams + 1 else ArgC(w));
  }

  // ---------------------------------------------------------------------- control flow

  /** Every jump leads to an instruction. */
  ghost predicate Closed(code: seq<Word>) {
    forall i | 0 <= i < |code| && Op(code[i]) == OP_JMP :: 0 <= Dest(code[i], i) < |code|
  }

  /** Where h jumps in a row lead; an instruction that is no jump stays put. */
  function After(code: seq<Word>, i: nat, h: nat): (j: nat)
    requires i < |code| && Closed(code)
    ensures j < |code|
    decreases h
  {
    if h == 0 then i
    else
      var j := After(code, i, h - 1);
      if Op(code[j]) == OP_JMP then Dest(code[j], j) else j
  }

  /** The instruction that is no jump and is executed at last when execution comes to i. */
  ghost predicate Reaches(code: seq<Word>, i: nat, j: nat)
    requires i < |code| && Closed(code)
  {
    exists h: nat :: After(code, i, h) == j && Op(code[j]) != OP_JMP
  }

  /** From every instruction the same one is reached, or in both cases none because of a cycle. */
  ghost predicate SameFlow(code: seq<Word>, code': seq<Word>) {
    && Closed(code) && Closed(code') && |code'| == |code|
    && forall i, j | 0 <= i < |code| && 0 <= j < |code| :: Reaches(code, i, j) <==> Reaches(code', i, j)
  }

  lemma SameFlowRefl(code: seq<Word>)
    requires Closed(code)
    ensures SameFlow(code, code)
  {
  }

  lemma FlowClosed(a: seq<Word>, b: seq<Word>)
    requires SameFlow(a, b)
    ensures Closed(b)
  {
  }

  lemma SameFlowTrans(a: seq<Word>, b: seq<Word>, c: seq<Word>)
    requires SameFlow(a, b) && SameFlow(b, c)
    ensures SameFlow(a, c)
  {
  }

  /** The first jump of a walk can be taken first. */
  lemma {:induction false} AfterFirst(code: seq<Word>, i: nat, h: nat)
    requires i < |code| && Closed(code) && Op(code[i]) == OP_JMP
    ensures After(code, i, h + 1) == After(code, Dest(code[i], i), h)
  {
    if h == 0 {
      assert After(code, i, 1) == (var j := After(code, i, 0); if Op(code[j]) == OP_JMP then Dest(code[j], j) else j);
    } else {
      AfterFirst(code, i, h - 1);
    }
  }

  lemma {:induction false} AfterAdd(code: seq<Word>, i: nat, g: nat, h: nat)
    requires i < |code| && Closed(code)
    ensures After(code, i, g + h) == After(code, After(code, i, g), h)
    decreases h
  {
    if h > 0 {
      AfterAdd(code, i, g, h - 1);
    }
  }

  /** An instruction that is no jump is not left. */
  lemma {:induction false} AfterStays(code: seq<Word>, i: nat, h: nat)
    requires i < |code| && Closed(code) && Op(code[i]) != OP_JMP
    ensures After(code, i, h) == i
  {
    if h > 0 {
      AfterStays(code, i, h - 1);
    }
  }

  /** Walking on from a point of a walk that reaches j reaches j too, in the rest of the hops. */
  lemma Rest(code: seq<Word>, i: nat, g: nat, h: nat, j: nat)
    requires i < |code| && Closed(code) && After(code, i, h) == j && Op(code[j]) != OP_JMP
    requires forall k: nat | k < g :: Op(code[After(code, i, k)]) == OP_JMP
    ensures g <= h && After(code, After(code, i, g), h - g) == j
  {
    if g <= h {
      AfterAdd(code, i, g, h - g);
    }
  }

  /** An old walk that reaches j gives a new one, no longer. */
  lemma {:induction false} OldToNew(code: seq<Word>, code': seq<Word>, i: nat, t: nat, hops: nat, p: nat, h: nat, j: nat)
    requires Closed(code) && Closed(code') && |code'| == |code| && i < |code| && p < |code| && hops > 0
    requires Op(code[i]) == OP_JMP && Op(code'[i]) == OP_JMP && Dest(code'[i], i) == t
    requires forall k | 0 <= k < |code| && k != i :: code'[k] == code[k]
    requires After(code, i, hops) == t && forall k: nat | k < hops :: Op(code[After(code, i, k)]) == OP_JMP
    requires After(code, p, h) == j && Op(code[j]) != OP_JMP
    ensures Reaches(code', p, j)
    decreases h
  {
    if Op(code[p]) != OP_JMP {
      AfterStays(code, p, h);
      assert After(code', p, 0) == j;
    } else if p == i {
      Rest(code, i, hops, h, j);
      OldToNew(code, code', i, t, hops, t, h - hops, j);
      var g: nat :| After(code', t, g) == j;
      AfterFirst(code', i, g);
    } else {
      assert h > 0;
      AfterFirst(code, p, h - 1);
      OldToNew(code, code', i, t, hops, Dest(code[p], p), h - 1, j);
      var g: nat :| After(code', Dest(code[p], p), g) == j;
      AfterFirst(code', p, g);
    }
  }

  lemma {:induction false} NewToOld(code: seq<Word>, code': seq<Word>, i: nat, t: nat, hops: nat, p: nat, h: nat, j: nat)
    requires Closed(code) && Closed(code') && |code'| == |code| && i < |code| && p < |code|
    requires Op(code[i]) == OP_JMP && Op(code'[i]) == OP_JMP && Dest(code'[i], i) == t
    requires forall k | 0 <= k < |code| && k != i :: code'[k] == code[k]
    requires After(code, i, hops) == t
    requires After(code', p, h) == j && Op(code'[j]) != OP_JMP
    ensures Reaches(code, p, j)
    decreases h
  {
    if Op(code'[p]) != OP_JMP {
      AfterStays(code', p, h);
      assert After(code, p, 0) == j;
    } else {
      assert h > 0;
      AfterFirst(code', p, h - 1);
      NewToOld(code, code', i, t, hops, Dest(code'[p], p), h - 1, j);
      var g: nat :| After(code, Dest(code'[p], p), g) == j;
      if p == i {
        AfterAdd(code, i, hops, g);
      } else {
        AfterFirst(code, p, g);
      }
    }
  }

  /** Sending a jump straight to where some hops from it lead does not change the flow. */
  lemma Threaded(code: seq<Word>, code': seq<Word>, i: nat, t: nat, hops: nat)
    requires Closed(code) && i < |code| && t < |code| && hops > 0 && Op(code[i]) == OP_JMP && InRange(i, t)
    requires code' == code[i := WithDest(code[i], i, t)]
    requires After(code, i, hops) == t && forall k: nat | k < hops :: Op(code[After(code, i, k)]) == OP_JMP
    ensures SameFlow(code, code') && Op(code'[i]) == OP_JMP
  {
    DestSet(code[i], i, t);
    forall p, j | 0 <= p < |code| && 0 <= j < |code| ensures Reaches(code, p, j) <==> Reaches(code', p, j) {
      if Reaches(code, p, j) {
        var h: nat :| After(code, p, h) == j;
        OldToNew(code, code', i, t, hops, p, h, j);
      }
      if Reaches(code', p, j) {
        var h: nat :| After(code', p, h) == j;
        NewToOld(code, code', i, t, hops, p, h, j);
      }
    }
  }

  /** Rewriting an instruction that is no jump into another does not change the flow. */
  lemma Rewritten(code: seq<Word>, code': seq<Word>, i: nat)
    requires Closed(code) && i < |code| == |code'| && Op(code[i]) != OP_JMP && Op(code'[i]) != OP_JMP
    requires forall k | 0 <= k < |code| && k != i :: code'[k] == code[k]
    ensures SameFlow(code, code')
  {
    forall p, h: nat | 0 <= p < |code| ensures After(code, p, h) == After(code', p, h) {
      SameAfter(code, code', p, h);
    }
  }

  lemma {:induction false} SameAfter(code: seq<Word>, code': seq<Word>, p: nat, h: nat)
    requires Closed(code) && Closed(code') && p < |code| == |code'|
    requires forall k | 0 <= k < |code| :: Op(code'[k]) == Op(code[k]) || (Op(code[k]) != OP_JMP && Op(code'[k]) != OP_JMP)
    requires forall k | 0 <= k < |code| && Op(code[k]) == OP_JMP :: code'[k] == code[k]
    ensures After(code, p, h) == After(code', p, h)
  {
    if h > 0 {
      SameAfter(code, code', p, h - 1);
    }
  }
}
