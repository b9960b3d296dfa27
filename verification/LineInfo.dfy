/** The line of each instruction, kept as differences with absolute entries in between, and the
    decoder that finds a line again.
 */
module LineInfo {

  /** The difference that says that the line is in an absolute entry. */
  const ABSLINE := -0x80

  datatype AbsLine = AbsLine(pc: nat, line: int)

  /** The line before the first instruction is the one the function begins at. */
  function Prev(linedefined: int, lines: seq<int>, pc: nat): int
    requires pc <= |lines|
  {
    if pc == 0 then linedefined else lines[pc - 1]
  }

  /** The entry of instruction pc says what its line is. */
  ghost predicate Encodes(linedefined: int, info: seq<int>, abs: seq<AbsLine>, lines: seq<int>, pc: nat)
    requires pc < |info| == |lines|
  {
    if info[pc] == ABSLINE then AbsLine(pc, lines[pc]) in abs
    else info[pc] == lines[pc] - Prev(linedefined, lines, pc) && -0x80 < info[pc] < 0x80
  }

  /** Entry i gives the line of an instruction marked as absolute; it comes after the entry before it,
      and no gap is longer than 128. */
  ghost predicate EntryOk(info: seq<int>, abs: seq<AbsLine>, lines: seq<int>, i: nat)
    requires |info| == |lines| && i < |abs|
  {
    && abs[i].pc < |info| && info[abs[i].pc] == ABSLINE && abs[i].line == lines[abs[i].pc]
    && if i == 0 then abs[0].pc <= 128 else abs[i - 1].pc < abs[i].pc <= abs[i - 1].pc + 128
  }

  ghost predicate Encoded(linedefined: int, info: seq<int>, abs: seq<AbsLine>, lines: seq<int>) {
    && |info| == |lines|
    && (forall pc | 0 <= pc < |info| :: Encodes(linedefined, info, abs, lines, pc))
    && (forall i | 0 <= i < |abs| :: EntryOk(info, abs, lines, i))
  }

  /** How many instructions there are from the last absolute entry on. */
  function Distance(n: nat, abs: seq<AbsLine>): int {
    if abs == [] then n else n - abs[|abs| - 1].pc
  }

  predicate Far(linedif: int) {
    linedif <= -0x80 || 0x80 <= linedif
  }

  class Writer {
    const linedefined: int
    /** One entry for each of the `pc` instructions. */
    var lineinfo: seq<int>
    var abslineinfo: seq<AbsLine>
    var previousline: int
    /** An unsigned byte. */
    var iwthabs: nat
    /** The line last recorded for each instruction. */
    ghost var lines: seq<int>

    /** The entries so far are right, and the next absolute one will not come too late. */
    ghost predicate Sound()
      reads this
    {
      && Encoded(linedefined, lineinfo, abslineinfo, lines)
      && Distance(|lineinfo|, abslineinfo) <= 128 && Distance(|lineinfo|, abslineinfo) <= iwthabs <= 129
    }

    /** `previousline` is the line of the last instruction. */
    ghost predicate OnLine()
      reads this
    {
      previousline == Prev(linedefined, lines, |lines|)
    }

    constructor (linedefined: int)
      ensures Sound() && OnLine() && lines == [] && this.linedefined == linedefined
      ensures lineinfo == [] && abslineinfo == [] && previousline == linedefined && iwthabs == 0
    {
      this.linedefined := linedefined;
      lineinfo, abslineinfo, previousline, iwthabs := [], [], linedefined, 0;
      lines := [];
    }

    /** Whether the next entry is absolute. */
    predicate Forced(line: int)
      reads this`previousline, this`iwthabs
    {
      Far(line - previousline) || iwthabs >= 128
    }

    /** The next entry will be right, whatever its line is, exactly if it is forced to be absolute or the line
        before it is known. */
    lemma NextRight()
      ensures (forall line: int :: Forced(line) || OnLine()) <==> iwthabs >= 128 || OnLine()
    {
      assert !Far(previousline - previousline);
      assert Forced(previousline) <==> iwthabs >= 128;
    }

    /** `luaK_code`: `savelineinfo` for a new instruction. */
    method Emit(line: int)
      modifies this
      ensures OnLine() && lines == old(lines) + [line]
      ensures old(Sound()) ==> (Sound() <==> old(Forced(line) || OnLine()))
      ensures lineinfo == old(lineinfo) + [if old(Forced(line)) then ABSLINE else line - old(previousline)]
      ensures abslineinfo == old(abslineinfo) + if old(Forced(line)) then [AbsLine(|old(lineinfo)|, line)] else []
      ensures previousline == line && iwthabs == if old(Forced(line)) then 1 else (old(iwthabs) + 1) % 256
    {
      hide Encoded;
      var linedif := line - previousline;
      var pc := |lineinfo|;
      ghost var abs0, lines0, info0 := abslineinfo, lines, lineinfo;
      var absolute := Far(linedif);
      if !absolute {
        absolute := iwthabs >= 128;
        iwthabs := (iwthabs + 1) % 256;
      }
      if absolute {
        abslineinfo := abslineinfo + [AbsLine(pc, line)];
        linedif := ABSLINE;
        iwthabs := 1;
      }
      lineinfo := lineinfo + [linedif];
      previousline := line;
      lines := lines + [line];
      if old(Sound()) {
        EncodedSize(linedefined, info0, abs0, lines0);
        if old(Forced(line) || OnLine()) {
          EmitKeeps(linedefined, info0, abs0, lines0, line, linedif);
        } else {
          EmitWrong(linedefined, info0, lines0, line, linedif, abs0);
        }
      }
    }

    /** A difference that was not taken from the line before is wrong. */
    lemma EmitWrong(linedefined: int, info: seq<int>, lines: seq<int>, line: int, dif: int, abs: seq<AbsLine>)
      requires |info| == |lines| && !Far(dif) && dif != line - Prev(linedefined, lines, |lines|)
      ensures !Encoded(linedefined, info + [dif], abs, lines + [line])
    {
      assert (lines + [line])[..|lines|] == lines;
      assert Prev(linedefined, lines + [line], |lines|) == Prev(linedefined, lines, |lines|);
      assert !Encodes(linedefined, info + [dif], abs, lines + [line], |info|);
    }

    lemma EmitEntry(linedefined: int, info: seq<int>, abs: seq<AbsLine>, lines: seq<int>, line: int, dif: int, pc: nat)
      requires |info| == |lines| && pc <= |info|
      requires pc < |info| ==> Encodes(linedefined, info, abs, lines, pc)
      requires dif == ABSLINE || (-0x80 < dif < 0x80 && dif == line - Prev(linedefined, lines, |lines|))
      ensures Encodes(linedefined, info + [dif], if dif == ABSLINE then abs + [AbsLine(|info|, line)] else abs,
                      lines + [line], pc)
    {
      assert Prev(linedefined, lines + [line], pc) == Prev(linedefined, lines, pc);
      assert (abs + [AbsLine(|info|, line)])[|abs|] == AbsLine(|info|, line);
    }

    lemma EmitAbs(info: seq<int>, abs: seq<AbsLine>, lines: seq<int>, line: int, dif: int, i: nat)
      requires |info| == |lines| && Distance(|info|, abs) <= 128
      requires i < if dif == ABSLINE then |abs| + 1 else |abs|
      requires forall k | 0 <= k < |abs| :: EntryOk(info, abs, lines, k)
      ensures EntryOk(info + [dif], if dif == ABSLINE then abs + [AbsLine(|info|, line)] else abs, lines + [line], i)
    {
      if i < |abs| {
        assert EntryOk(info, abs, lines, i);
      } else if i > 0 {
        assert EntryOk(info, abs, lines, i - 1);
      }
    }

    lemma EmitKeeps(linedefined: int, info: seq<int>, abs: seq<AbsLine>, lines: seq<int>, line: int, dif: int)
      requires Encoded(linedefined, info, abs, lines) && Distance(|info|, abs) <= 128
      requires dif == ABSLINE || (-0x80 < dif < 0x80 && dif == line - Prev(linedefined, lines, |lines|))
      ensures Encoded(linedefined, info + [dif], if dif == ABSLINE then abs + [AbsLine(|info|, line)] else abs, lines + [line])
    {
      hide Encodes, EntryOk;
      var info', lines' := info + [dif], lines + [line];
      var abs' := if dif == ABSLINE then abs + [AbsLine(|info|, line)] else abs;
      forall pc | 0 <= pc < |info'| ensures Encodes(linedefined, info', abs', lines', pc) {
        EmitEntry(linedefined, info, abs, lines, line, dif, pc);
      }
      forall i | 0 <= i < |abs'| ensures EntryOk(info', abs', lines', i) {
        EmitAbs(info, abs, lines, line, dif, i);
      }
    }

    /** `removelastlineinfo`, along with the instruction. What was right stays right. How far `previousline` is from
        the line of the last instruction does not change with a relative entry; the removal of an absolute one
        leaves it as far off as the two lines are apart, and forces the next entry to be absolute. That wears off:
        it survives the removal of one relative entry, and not of a second one. */
    method RemoveLast()
      requires lineinfo != [] && |lines| == |lineinfo|
      requires lineinfo[|lineinfo| - 1] == ABSLINE ==> abslineinfo != []
      modifies this
      ensures old(Sound()) ==> Sound()
      ensures old(Sound()) && old(lineinfo[|lineinfo| - 1] != ABSLINE) ==> (OnLine() <==> old(OnLine()))
      ensures lines == old(lines[..|lines| - 1]) && lineinfo == old(lineinfo[..|lineinfo| - 1])
      ensures old(lineinfo[|lineinfo| - 1] == ABSLINE) ==>
        && previousline == old(previousline) && iwthabs == 129
        && abslineinfo == old(abslineinfo)[..|old(abslineinfo)| - 1]
      ensures old(lineinfo[|lineinfo| - 1] != ABSLINE) ==>
        && previousline == old(previousline - lineinfo[|lineinfo| - 1])
        && iwthabs == (old(iwthabs) - 1) % 256 && abslineinfo == old(abslineinfo)
    {
      hide Encoded;
      var pc := |lineinfo| - 1;
      ghost var abs0, lines0, info0 := abslineinfo, lines, lineinfo;
      if Sound() {
        LastEntry(linedefined, lineinfo, abslineinfo, lines);
        RemoveKeeps(linedefined, info0, abs0, lines0);
      }
      if lineinfo[pc] != ABSLINE {
        previousline := previousline - lineinfo[pc];
        iwthabs := (iwthabs - 1) % 256;
      } else {
        abslineinfo := abslineinfo[..|abslineinfo| - 1];
        iwthabs := 129;
      }
      lineinfo := lineinfo[..pc];
      lines := lines[..pc];
    }

    /** The last instruction has an absolute entry exactly if it is the last of those. */
    lemma LastEntry(linedefined: int, info: seq<int>, abs: seq<AbsLine>, lines: seq<int>)
      requires Encoded(linedefined, info, abs, lines) && info != []
      ensures Encodes(linedefined, info, abs, lines, |info| - 1)
      ensures info[|info| - 1] == ABSLINE <==> abs != [] && abs[|abs| - 1].pc == |info| - 1
      ensures abs != [] ==> EntryOk(info, abs, lines, |abs| - 1)
    {
      var pc := |info| - 1;
      assert Encodes(linedefined, info, abs, lines, pc);
      if info[pc] == ABSLINE {
        var i :| 0 <= i < |abs| && abs[i] == AbsLine(pc, lines[pc]);
        assert i + 1 < |abs| ==> EntryOk(info, abs, lines, i + 1);
      }
      assert abs != [] ==> EntryOk(info, abs, lines, |abs| - 1);
    }

    lemma EncodedSize(linedefined: int, info: seq<int>, abs: seq<AbsLine>, lines: seq<int>)
      requires Encoded(linedefined, info, abs, lines)
      ensures |info| == |lines|
    {
    }

    lemma RemoveKeeps(linedefined: int, info: seq<int>, abs: seq<AbsLine>, lines: seq<int>)
      requires Encoded(linedefined, info, abs, lines) && info != []
      requires info[|info| - 1] == ABSLINE ==> abs != []
      ensures var n := |info| - 1;
        Encoded(linedefined, info[..n], if info[n] == ABSLINE then abs[..|abs| - 1] else abs, lines[..n])
      ensures info[|info| - 1] == ABSLINE && Distance(|info|, abs) <= 128 ==>
        Distance(|info| - 1, abs[..|abs| - 1]) <= 128
    {
      LastEntry(linedefined, info, abs, lines);
      hide Encodes;
      var n := |info| - 1;
      var abs' := if info[n] == ABSLINE then abs[..|abs| - 1] else abs;
      forall pc | 0 <= pc < n ensures Encodes(linedefined, info[..n], abs', lines[..n], pc) {
        RemoveEntry(linedefined, info, abs, lines, pc);
      }
      forall i | 0 <= i < |abs'| ensures EntryOk(info[..n], abs', lines[..n], i) {
        assert EntryOk(info, abs, lines, i);
        Increasing(info, abs, lines, i);
      }
    }

    lemma RemoveEntry(linedefined: int, info: seq<int>, abs: seq<AbsLine>, lines: seq<int>, pc: nat)
      requires |info| == |lines| && pc < |info| - 1 && Encodes(linedefined, info, abs, lines, pc)
      requires info[|info| - 1] == ABSLINE ==> abs != [] && abs[|abs| - 1].pc == |info| - 1
      ensures var n := |info| - 1;
        Encodes(linedefined, info[..n], if info[n] == ABSLINE then abs[..|abs| - 1] else abs, lines[..n], pc)
    {
      var n := |info| - 1;
      assert Prev(linedefined, lines[..n], pc) == Prev(linedefined, lines, pc);
      if info[pc] == ABSLINE && info[n] == ABSLINE {
        var i :| 0 <= i < |abs| && abs[i] == AbsLine(pc, lines[pc]);
        assert abs[..|abs| - 1][i] == abs[i];
      }
    }

    lemma {:induction false} Increasing(info: seq<int>, abs: seq<AbsLine>, lines: seq<int>, i: nat)
      requires |info| == |lines| && i < |abs| && forall k | 0 <= k < |abs| :: EntryOk(info, abs, lines, k)
      ensures forall k | i < k < |abs| :: abs[i].pc < abs[k].pc
      decreases |abs| - i
    {
      if i + 1 < |abs| {
        assert EntryOk(info, abs, lines, i + 1);
        Increasing(info, abs, lines, i + 1);
      }
    }

    /** `luaK_fixline`: another line for the last instruction. It is right exactly if the entry was absolute, the
        next one is still forced to be, `previousline` was known, or the lines are too far apart. */
    method FixLine(line: int)
      requires lineinfo != [] && |lines| == |lineinfo|
      requires lineinfo[|lineinfo| - 1] == ABSLINE ==> abslineinfo != []
      modifies this
      ensures OnLine() && lines == old(lines[..|lines| - 1]) + [line]
      ensures old(Sound()) ==> (Sound() <==> old(
        || lineinfo[|lineinfo| - 1] == ABSLINE || iwthabs > 128 || OnLine()
        || Far(line - (previousline - lineinfo[|lineinfo| - 1]))))
    {
      hide Encoded;
      if Sound() {
        LastEntry(linedefined, lineinfo, abslineinfo, lines);
      }
      RemoveLast();
      Emit(line);
    }
  }

  method EmitThree() returns (w: Writer)
    ensures fresh(w) && w.Sound() && w.OnLine() && w.linedefined == 0 && w.lines == [1, 2, 1000]
    ensures w.lineinfo == [1, 1, ABSLINE] && w.abslineinfo == [AbsLine(2, 1000)]
  {
    hide Encoded;
    w := new Writer(0);
    assert !w.Forced(1);
    w.Emit(1);
    assert w.lineinfo == [1] && w.abslineinfo == [] && !w.Forced(2);
    w.Emit(2);
    assert w.lineinfo == [1, 1] && w.abslineinfo == [] && w.Forced(1000);
    w.Emit(1000);
  }

  /** Three removals in a row, the first of an absolute entry, are too many: the line before is then taken to be 998,
      although it is 0, and the difference for line 999 is taken from there. */
  method RemoveThree() returns (w: Writer)
    ensures w.lines == [999] && w.lineinfo == [1] && w.linedefined == 0
    ensures !w.Sound()
  {
    hide Encoded;
    w := EmitThree();
    w.RemoveLast();
    assert w.lineinfo == [1, 1] && w.lines == [1, 2] && w.previousline == 1000;
    w.RemoveLast();
    assert w.lineinfo == [1] && w.lines == [1] && w.previousline == 999;
    w.RemoveLast();
    assert w.lineinfo == [] && w.lines == [] && w.previousline == 998 && w.iwthabs == 127;
    w.Emit(999);
  }

  // ---------------------------------------------------------------------- the decoder

  /** Entry i lies within the first i + 1 stretches of 128 instructions. */
  lemma {:induction false} EarlyEnough(info: seq<int>, abs: seq<AbsLine>, lines: seq<int>, i: nat)
    requires |info| == |lines| && i < |abs| && forall k | 0 <= k < |abs| :: EntryOk(info, abs, lines, k)
    ensures abs[i].pc <= 128 * (i + 1)
  {
    assert EntryOk(info, abs, lines, i);
    if i > 0 {
      EarlyEnough(info, abs, lines, i - 1);
    }
  }

  /** The entry the search starts from exists and is not beyond pc. */
  lemma GuessOk(info: seq<int>, abs: seq<AbsLine>, lines: seq<int>, pc: nat)
    requires |info| == |lines| && forall k | 0 <= k < |abs| :: EntryOk(info, abs, lines, k)
    requires pc < |info| && Distance(|info|, abs) <= 128 && 128 <= pc
    ensures pc / 128 - 1 < |abs| && abs[pc / 128 - 1].pc <= pc
  {
    if abs != [] {
      EarlyEnough(info, abs, lines, |abs| - 1);
    }
    EarlyEnough(info, abs, lines, pc / 128 - 1);
  }

  /** `getbaseline`: the last absolute entry not beyond pc, or the start of the function. The division is
      one of unsigned numbers: for pc < 128 the guess is -1. */
  method GetBaseLine(linedefined: int, info: seq<int>, abs: seq<AbsLine>, pc: nat, ghost lines: seq<int>)
    returns (line: int, basepc: int)
    requires Encoded(linedefined, info, abs, lines) && Distance(|info|, abs) <= 128 && pc < |info| <= 0x7FFF_FFFF
    ensures -1 <= basepc <= pc && line == Prev(linedefined, lines, basepc + 1)
    ensures forall k | basepc < k <= pc :: info[k] != ABSLINE
  {
    if abs == [] || pc < abs[0].pc {
      line, basepc := linedefined, -1;
      NoneBetween(linedefined, info, abs, lines, pc, -1);
    } else {
      if pc >= 128 {
        GuessOk(info, abs, lines, pc);
      }
      var i := (pc / 128 - 1) % 0x1_0000_0000;
      i := if i >= 0x8000_0000 then i - 0x1_0000_0000 else i;
      while i + 1 < |abs| && pc >= abs[i + 1].pc
        invariant -1 <= i < |abs| && (i >= 0 ==> abs[i].pc <= pc)
      {
        i := i + 1;
      }
      basepc, line := abs[i].pc, abs[i].line;
      assert EntryOk(info, abs, lines, i);
      NoneBetween(linedefined, info, abs, lines, pc, i);
    }
  }

  lemma NoneBetween(linedefined: int, info: seq<int>, abs: seq<AbsLine>, lines: seq<int>, pc: nat, i: int)
    requires Encoded(linedefined, info, abs, lines) && pc < |info| && -1 <= i < |abs|
    requires i + 1 < |abs| ==> pc < abs[i + 1].pc
    ensures forall k | (if i < 0 then -1 else abs[i].pc) < k <= pc :: info[k] != ABSLINE
  {
    forall k | (if i < 0 then -1 else abs[i].pc) < k <= pc ensures info[k] != ABSLINE {
      assert Encodes(linedefined, info, abs, lines, k);
      if info[k] == ABSLINE {
        var e :| 0 <= e < |abs| && abs[e] == AbsLine(k, lines[k]);
        Sorted(info, abs, lines, i + 1, e);
        Sorted(info, abs, lines, e, i);
      }
    }
  }

  lemma {:induction false} Sorted(info: seq<int>, abs: seq<AbsLine>, lines: seq<int>, i: int, j: int)
    requires |info| == |lines| && forall k | 0 <= k < |abs| :: EntryOk(info, abs, lines, k)
    ensures 0 <= i < j < |abs| ==> abs[i].pc < abs[j].pc
    decreases j
  {
    if 0 <= i < j < |abs| {
      assert EntryOk(info, abs, lines, j);
      Sorted(info, abs, lines, i, j - 1);
    }
  }

  /** `luaG_getfuncline`: exactly the line last recorded for the instruction. */
  method GetFuncLine(linedefined: int, info: seq<int>, abs: seq<AbsLine>, pc: nat, ghost lines: seq<int>)
    returns (baseline: int)
    requires Encoded(linedefined, info, abs, lines) && Distance(|info|, abs) <= 128 && pc < |info| <= 0x7FFF_FFFF
    ensures baseline == lines[pc]
  {
    var basepc;
    baseline, basepc := GetBaseLine(linedefined, info, abs, pc, lines);
    while basepc < pc
      invariant -1 <= basepc <= pc && baseline == Prev(linedefined, lines, basepc + 1)
      invariant forall k | basepc < k <= pc :: info[k] != ABSLINE
    {
      basepc := basepc + 1;
      assert Encodes(linedefined, info, abs, lines, basepc);
      baseline := baseline + info[basepc];
    }
  }

  /** The round trip, on what a writer has made. */
  method LineOf(w: Writer, pc: nat) returns (line: int)
    requires w.Sound() && pc < |w.lines| <= 0x7FFF_FFFF
    ensures line == w.lines[pc]
  {
    line := GetFuncLine(w.linedefined, w.lineinfo, w.abslineinfo, pc, w.lines);
  }
}
