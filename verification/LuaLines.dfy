/** The table of source lines of a function: written as differences with an absolute entry
    now and then, read back through an estimate of where to start. */
module LuaLines {

  const LIMLINEDIFF := 0x80
  const ABSLINEINFO := -0x80
  const MAXIWTHABS := 128

  datatype AbsLine = AbsLine(pc: nat, line: int)

  function Abs(i: int): nat {
    if i < 0 then -i else i
  }

  /** The line the table gives to `pc`, with one step back at a time; -1 is before the
      first instruction. */
  function LineAt(info: seq<int>, lines: seq<AbsLine>, linedefined: int, pc: int): int
    requires -1 <= pc < |info|
    decreases pc
  {
    if pc == -1 then linedefined
    else if info[pc] == ABSLINEINFO then AbsAt(lines, pc)
    else LineAt(info, lines, linedefined, pc - 1) + info[pc]
  }

  function AbsAt(lines: seq<AbsLine>, pc: int): int {
    if lines == [] then 0
    else if lines[|lines| - 1].pc == pc then lines[|lines| - 1].line
    else AbsAt(lines[..|lines| - 1], pc)
  }

  /** Absolute entries are in order, and `info` tells where they are. */
  predicate AbsOk(info: seq<int>, lines: seq<AbsLine>) {
    && (forall i :: 0 <= i < |lines| ==> lines[i].pc < |info| && info[lines[i].pc] == ABSLINEINFO)
    && (forall i, j :: 0 <= i < j < |lines| ==> lines[i].pc < lines[j].pc)
    && (forall pc :: 0 <= pc < |info| && info[pc] == ABSLINEINFO ==> exists i :: 0 <= i < |lines| && lines[i].pc == pc)
    && (forall i :: 0 <= i < |lines| ==> lines[i].pc <= MAXIWTHABS * (i + 1))
  }

  /** Absolute entries are never far apart. */
  predicate Spaced(lines: seq<AbsLine>) {
    && (lines != [] ==> lines[0].pc <= MAXIWTHABS)
    && forall i :: 0 < i < |lines| ==> lines[i].pc <= lines[i - 1].pc + MAXIWTHABS
  }

  lemma {:induction false} AbsAtIndex(lines: seq<AbsLine>, i: nat)
    requires i < |lines| && forall a, b :: 0 <= a < b < |lines| ==> lines[a].pc < lines[b].pc
    ensures AbsAt(lines, lines[i].pc) == lines[i].line
  {
    if i < |lines| - 1 { AbsAtIndex(lines[..|lines| - 1], i); }
  }

  /** Entries after `pc` do not matter. */
  lemma {:induction false} AbsAtMore(lines: seq<AbsLine>, e: AbsLine, pc: int)
    requires e.pc != pc
    ensures AbsAt(lines + [e], pc) == AbsAt(lines, pc)
  {
    assert (lines + [e])[..|lines|] == lines;
  }

  lemma {:induction false} LineAtSame(info: seq<int>, lines: seq<AbsLine>, info1: seq<int>, lines1: seq<AbsLine>,
          linedefined: int, pc: int)
    requires -1 <= pc < |info| && pc < |info1| && info[..pc + 1] == info1[..pc + 1]
    requires forall p :: 0 <= p <= pc ==> AbsAt(lines, p) == AbsAt(lines1, p)
    ensures LineAt(info, lines, linedefined, pc) == LineAt(info1, lines1, linedefined, pc)
    decreases pc + 1
  {
    if pc >= 0 {
      assert info[pc] == info[..pc + 1][pc] == info1[..pc + 1][pc];
      assert info[..pc] == info[..pc + 1][..pc] == info1[..pc];
      LineAtSame(info, lines, info1, lines1, linedefined, pc - 1);
    }
  }

  /** Where the last absolute entry is. */
  function LastAbs(lines: seq<AbsLine>): nat {
    if lines == [] then 0 else lines[|lines| - 1].pc
  }

  /** The table is well formed: it says the line last saved for every instruction, and
      absolute entries are frequent enough for the estimate of getbaseline. */
  ghost predicate TableOk(info: seq<int>, lines: seq<AbsLine>, iwthabs: nat, linedefined: int, saved: seq<int>) {
    && AbsOk(info, lines) && Spaced(lines) && |saved| == |info|
    && (forall pc :: 0 <= pc < |info| ==> LineAt(info, lines, linedefined, pc) == saved[pc])
    && |info| <= LastAbs(lines) + iwthabs
    && |info| <= LastAbs(lines) + MAXIWTHABS && iwthabs <= MAXIWTHABS + 1
    && (forall pc :: 0 <= pc < |info| && info[pc] != ABSLINEINFO ==> -LIMLINEDIFF < info[pc] < LIMLINEDIFF)
  }

  /** The line of the last instruction, or of the function itself. */
  function LastOf(saved: seq<int>, linedefined: int): int {
    if saved == [] then linedefined else saved[|saved| - 1]
  }

  lemma SaveKeeps(info: seq<int>, lines: seq<AbsLine>, previousline: int, iwthabs: nat, linedefined: int,
          saved: seq<int>, line: int)
    requires TableOk(info, lines, iwthabs, linedefined, saved)
      && (previousline == LastOf(saved, linedefined) || iwthabs >= MAXIWTHABS)
    ensures var (info1, lines1) := Saved(info, lines, previousline, iwthabs, line);
      TableOk(info1, lines1, if info1[|info|] == ABSLINEINFO then 1 else iwthabs + 1, linedefined, saved + [line])
  {
    hide AbsOk, LineAt;
    var (info1, lines1) := Saved(info, lines, previousline, iwthabs, line);
    LastAbsLow(info, lines);
    SavedTable(info, lines, info1, lines1, linedefined, saved, line, info1[|info|]);
  }

  lemma TableSizes(info: seq<int>, lines: seq<AbsLine>, iwthabs: nat, linedefined: int, saved: seq<int>)
    requires TableOk(info, lines, iwthabs, linedefined, saved)
    ensures |saved| == |info| && AbsOk(info, lines) && |info| <= MAXIWTHABS * (|lines| + 1)
    ensures forall pc :: 0 <= pc < |info| ==> LineAt(info, lines, linedefined, pc) == saved[pc]
  {
    LastAbsLow(info, lines);
  }

  lemma LastAbsLow(info: seq<int>, lines: seq<AbsLine>)
    requires AbsOk(info, lines)
    ensures LastAbs(lines) <= MAXIWTHABS * |lines|
    ensures lines != [] ==> LastAbs(lines) < |info|
  {
  }

  lemma RemoveKeeps(info: seq<int>, lines: seq<AbsLine>, iwthabs: nat, linedefined: int, saved: seq<int>)
    requires TableOk(info, lines, iwthabs, linedefined, saved) && info != []
    ensures var n := |info| - 1;
      if info[n] == ABSLINEINFO then lines != []
        && TableOk(info[..n], lines[..|lines| - 1], MAXIWTHABS + 1, linedefined, saved[..n])
      else iwthabs > 0 && TableOk(info[..n], lines, iwthabs - 1, linedefined, saved[..n])
           && saved[n] == LastOf(saved[..n], linedefined) + info[n]
  {
    hide AbsOk, LineAt, LastAbs;
    RemovedTable(info, lines, linedefined, saved);
    RemovedBefore(info, lines);
    LastAbsLow(info, lines);
    if info[|info| - 1] == ABSLINEINFO { RemovedSpaced(lines); }
  }

  lemma RemovedSpaced(lines: seq<AbsLine>)
    requires Spaced(lines) && lines != []
    ensures Spaced(lines[..|lines| - 1])
  {
  }

  lemma RemovedBefore(info: seq<int>, lines: seq<AbsLine>)
    requires AbsOk(info, lines) && Spaced(lines) && info != []
    ensures var n := |info| - 1;
      if info[n] == ABSLINEINFO then lines != [] && n <= LastAbs(lines[..|lines| - 1]) + MAXIWTHABS
      else lines == [] || LastAbs(lines) < n
  {
    LastIsAbs(info, lines);
  }

  /** The fields of the code generator and of the function that hold line information. */
  class FuncState {
    var lineinfo: seq<int>
    var abslineinfo: seq<AbsLine>
    var previousline: int
    var iwthabs: nat
    const linedefined: int
    /** The line last saved for each instruction. */
    ghost var saved: seq<int>

    constructor (linedefined: int)
      ensures Valid() && Fresh() && saved == [] && this.linedefined == linedefined && previousline == linedefined
      ensures lineinfo == [] && abslineinfo == [] && iwthabs == 0
    {
      lineinfo, abslineinfo, previousline, iwthabs, saved := [], [], linedefined, 0, [];
      this.linedefined := linedefined;
    }

    ghost predicate Valid()
      reads this
    {
      TableOk(lineinfo, abslineinfo, iwthabs, linedefined, saved)
    }

    ghost function LastLine(): int
      reads this
    {
      LastOf(saved, linedefined)
    }

    /** A line can be saved: `previousline` is what the differences are taken from, or the
        next entry is going to be absolute whatever the line. */
    ghost predicate Fresh()
      reads this
    {
      previousline == LastLine() || iwthabs >= MAXIWTHABS
    }

    /** savelineinfo for a new instruction. */
    method Save(line: int)
      requires Valid() && Fresh()
      modifies this
      ensures Valid() && Fresh() && saved == old(saved) + [line] && previousline == line
      ensures (lineinfo, abslineinfo) == Saved(old(lineinfo), old(abslineinfo), old(previousline), old(iwthabs), line)
      ensures iwthabs == if lineinfo[|lineinfo| - 1] == ABSLINEINFO then 1 else old(iwthabs) + 1
    {
      hide TableOk;
      SaveKeeps(lineinfo, abslineinfo, previousline, iwthabs, linedefined, saved, line);
      var linedif := line - previousline;
      var full := iwthabs >= MAXIWTHABS;
      if Abs(linedif) < LIMLINEDIFF { iwthabs := iwthabs + 1; }
      if Abs(linedif) >= LIMLINEDIFF || full {
        abslineinfo := abslineinfo + [AbsLine(|lineinfo|, line)];
        linedif := ABSLINEINFO;
        iwthabs := 1;
      }
      lineinfo := lineinfo + [linedif];
      previousline := line;
      saved := saved + [line];
    }

    /** removelastlineinfo, with the instruction itself. */
    method RemoveLast()
      requires Valid() && lineinfo != []
      modifies this
      ensures |old(saved)| == |old(lineinfo)| && Valid() && saved == old(saved)[..|old(saved)| - 1]
      ensures lineinfo == old(lineinfo)[..|old(lineinfo)| - 1]
      ensures if old(lineinfo)[|old(lineinfo)| - 1] == ABSLINEINFO
              then old(abslineinfo) != [] && abslineinfo == old(abslineinfo)[..|old(abslineinfo)| - 1]
                else abslineinfo == old(abslineinfo)
      ensures old(lineinfo)[|old(lineinfo)| - 1] == ABSLINEINFO ==>
        iwthabs == MAXIWTHABS + 1 && previousline == old(previousline)
      ensures old(lineinfo)[|old(lineinfo)| - 1] != ABSLINEINFO ==>
                iwthabs == old(iwthabs) - 1 && previousline == old(previousline) - old(lineinfo)[|old(lineinfo)| - 1]
      ensures old(previousline == LastLine()) ==> Fresh()
    {
      hide TableOk;
      var pc := |lineinfo| - 1;
      RemoveKeeps(lineinfo, abslineinfo, iwthabs, linedefined, saved);
      TableSizes(lineinfo, abslineinfo, iwthabs, linedefined, saved);
      if lineinfo[pc] != ABSLINEINFO {
        previousline := previousline - lineinfo[pc];
        iwthabs := iwthabs - 1;
      } else {
        abslineinfo := abslineinfo[..|abslineinfo| - 1];
        iwthabs := MAXIWTHABS + 1;
      }
      lineinfo := lineinfo[..pc];
      saved := saved[..pc];
    }

    /** luaK_fixline: the last instruction gets another line. */
    method FixLine(line: int)
      requires Valid() && lineinfo != [] && previousline == LastLine()
      modifies this
      ensures Valid() && Fresh() && saved == old(saved)[|old(saved)| - 1 := line] && previousline == line
    {
      hide TableOk;
      RemoveLast();
      Save(line);
      assert saved == old(saved)[|old(saved)| - 1 := line];
    }
  }

  /** A new entry leaves the others, and says the right line if it is absolute or is taken
      from the right line. */
  lemma SavedTable(info: seq<int>, lines: seq<AbsLine>, info1: seq<int>, lines1: seq<AbsLine>, linedefined: int,
          saved: seq<int>, line: int, dif: int)
    requires AbsOk(info, lines) && |saved| == |info|
      && forall pc :: 0 <= pc < |info| ==> LineAt(info, lines, linedefined, pc) == saved[pc]
    requires info1 == info + [dif]
    requires if dif == ABSLINEINFO then lines1 == lines + [AbsLine(|info|, line)]
      && |info| <= LastAbs(lines) + MAXIWTHABS
             else lines1 == lines && dif == line - (if saved == [] then linedefined else saved[|saved| - 1])
    ensures AbsOk(info1, lines1)
    ensures forall pc :: 0 <= pc < |info1| ==> LineAt(info1, lines1, linedefined, pc) == (saved + [line])[pc]
  {
    SavedAbsOk(info, lines, info1, lines1, line, dif);
    forall pc | -1 <= pc < |info|
      ensures LineAt(info1, lines1, linedefined, pc) == LineAt(info, lines, linedefined, pc)
    {
      assert info1[..pc + 1] == info[..pc + 1];
      forall p | 0 <= p <= pc ensures AbsAt(lines1, p) == AbsAt(lines, p) {
        if dif == ABSLINEINFO { AbsAtMore(lines, AbsLine(|info|, line), p); }
      }
      LineAtSame(info1, lines1, info, lines, linedefined, pc);
    }
    if dif == ABSLINEINFO {
      AbsAtIndex(lines1, |lines|);
    } else {
      assert LineAt(info1, lines1, linedefined, |info|) == LineAt(info1, lines1, linedefined, |info| - 1) + dif;
    }
  }

  lemma SavedAbsOk(info: seq<int>, lines: seq<AbsLine>, info1: seq<int>, lines1: seq<AbsLine>, line: int, dif: int)
    requires AbsOk(info, lines) && info1 == info + [dif]
    requires if dif == ABSLINEINFO then lines1 == lines + [AbsLine(|info|, line)]
      && |info| <= LastAbs(lines) + MAXIWTHABS else lines1 == lines
    ensures AbsOk(info1, lines1)
  {
    LastAbsLow(info, lines);
    forall pc | 0 <= pc < |info1| && info1[pc] == ABSLINEINFO
      ensures exists i :: 0 <= i < |lines1| && lines1[i].pc == pc
    {
      if pc < |info| {
        var i :| 0 <= i < |lines| && lines[i].pc == pc;
        assert lines1[i].pc == pc;
      } else {
        assert lines1[|lines|].pc == pc;
      }
    }
  }

  lemma RemovedTable(info: seq<int>, lines: seq<AbsLine>, linedefined: int, saved: seq<int>)
    requires AbsOk(info, lines) && info != [] && |saved| == |info|
    requires forall pc :: 0 <= pc < |info| ==> LineAt(info, lines, linedefined, pc) == saved[pc]
    ensures info[|info| - 1] == ABSLINEINFO ==> lines != [] && lines[|lines| - 1].pc == |info| - 1
    ensures var info1, lines1 := info[..|info| - 1], if info[|info| - 1] == ABSLINEINFO then lines[..|lines| - 1]
      else lines;
      && AbsOk(info1, lines1)
      && forall pc :: 0 <= pc < |info1| ==> LineAt(info1, lines1, linedefined, pc) == saved[pc]
    ensures info[|info| - 1] != ABSLINEINFO ==>
              saved[|info| - 1] == (if |info| == 1 then linedefined else saved[|info| - 2]) + info[|info| - 1]
  {
    var n := |info| - 1;
    LastIsAbs(info, lines);
    var info1, lines1 := info[..n], if info[n] == ABSLINEINFO then lines[..|lines| - 1] else lines;
    RemovedAbsOk(info, lines);
    forall pc | 0 <= pc < n ensures LineAt(info1, lines1, linedefined, pc) == saved[pc] {
      assert info1[..pc + 1] == info[..pc + 1];
      forall p | 0 <= p <= pc ensures AbsAt(lines1, p) == AbsAt(lines, p) {
        if info[n] == ABSLINEINFO {
          assert lines == lines1 + [lines[|lines| - 1]];
          AbsAtMore(lines1, lines[|lines| - 1], p);
        }
      }
      LineAtSame(info1, lines1, info, lines, linedefined, pc);
    }
    if info[n] != ABSLINEINFO {
      assert LineAt(info, lines, linedefined, n) == LineAt(info, lines, linedefined, n - 1) + info[n];
    }
  }

  lemma LastIsAbs(info: seq<int>, lines: seq<AbsLine>)
    requires AbsOk(info, lines) && info != []
    ensures info[|info| - 1] == ABSLINEINFO <==> lines != [] && lines[|lines| - 1].pc == |info| - 1
  {
    if info[|info| - 1] == ABSLINEINFO {
      var i :| 0 <= i < |lines| && lines[i].pc == |info| - 1;
      assert i == |lines| - 1;
    }
  }

  lemma RemovedAbsOk(info: seq<int>, lines: seq<AbsLine>)
    requires AbsOk(info, lines) && info != []
      && (info[|info| - 1] == ABSLINEINFO <==> lines != [] && lines[|lines| - 1].pc == |info| - 1)
    ensures AbsOk(info[..|info| - 1], if info[|info| - 1] == ABSLINEINFO then lines[..|lines| - 1] else lines)
  {
    var n := |info| - 1;
    var k := if info[n] == ABSLINEINFO then |lines| - 1 else |lines|;
    var info1, lines1 := info[..n], lines[..k];
    assert lines1 == if info[n] == ABSLINEINFO then lines[..|lines| - 1] else lines;
    forall i | 0 <= i < k ensures lines1[i] == lines[i] && lines[i].pc < n {
      assert i < |lines| - 1 ==> lines[i].pc < lines[|lines| - 1].pc;
    }
    forall pc | 0 <= pc < n && info1[pc] == ABSLINEINFO ensures exists i :: 0 <= i < |lines1| && lines1[i].pc == pc {
      assert info[pc] == ABSLINEINFO;
      var i :| 0 <= i < |lines| && lines[i].pc == pc;
      assert lines1[i].pc == pc;
    }
  }

  /** The table after one more entry, whatever the state it is in. */
  function Saved(info: seq<int>, lines: seq<AbsLine>, previousline: int, iwthabs: nat, line: int): (seq<int>,
          seq<AbsLine>) {
    if Abs(line - previousline) >= LIMLINEDIFF || iwthabs >= MAXIWTHABS then
      (info + [ABSLINEINFO], lines + [AbsLine(|info|, line)])
    else (info + [line - previousline], lines)
  }

  /** Exactly when a saved line can be read back: when `previousline` is the line of the
      last instruction, or the entry is an absolute one. */
  lemma SavedIff(info: seq<int>, lines: seq<AbsLine>, linedefined: int, previousline: int, iwthabs: nat, line: int)
    requires AbsOk(info, lines)
    ensures var (info1, lines1) := Saved(info, lines, previousline, iwthabs, line);
      LineAt(info1, lines1, linedefined, |info|) == line <==>
        (|| previousline == LineAt(info, lines, linedefined, |info| - 1)
         || Abs(line - previousline) >= LIMLINEDIFF || iwthabs >= MAXIWTHABS)
  {
    var (info1, lines1) := Saved(info, lines, previousline, iwthabs, line);
    if Abs(line - previousline) >= LIMLINEDIFF || iwthabs >= MAXIWTHABS {
      assert lines1[|lines|] == AbsLine(|info|, line);
      assert forall a, b :: 0 <= a < b < |lines1| ==> lines1[a].pc < lines1[b].pc;
      AbsAtIndex(lines1, |lines|);
    } else {
      assert info1[..|info|] == info;
      assert info1[..|info| - 1 + 1] == info[..|info| - 1 + 1];
      LineAtSame(info1, lines1, info, lines, linedefined, |info| - 1);
    }
  }

  /** getbaseline: an absolute entry at or before `pc`, or the start. The first estimate is
      never past it. */
  method GetBaseLine(info: seq<int>, lines: seq<AbsLine>, linedefined: int, pc: nat) returns (basepc: int, line: int)
    requires AbsOk(info, lines) && pc < |info| <= MAXIWTHABS * (|lines| + 1)
    ensures -1 <= basepc <= pc && line == LineAt(info, lines, linedefined, basepc)
    ensures forall p :: basepc < p <= pc ==> info[p] != ABSLINEINFO
  {
    if |lines| == 0 || pc < lines[0].pc {
      NoneBetween(info, lines, -1, pc);
      return -1, linedefined;
    }
    var i := pc / MAXIWTHABS - 1;
    assert i < 0 || (i < |lines| && lines[i].pc <= pc);
    while i + 1 < |lines| && pc >= lines[i + 1].pc
      invariant -1 <= i < |lines| && (i >= 0 ==> lines[i].pc <= pc)
    {
      i := i + 1;
    }
    assert i >= 0;
    NoneBetween(info, lines, i, pc);
    AbsAtIndex(lines, i);
    return lines[i].pc, lines[i].line;
  }

  lemma NoneBetween(info: seq<int>, lines: seq<AbsLine>, i: int, pc: nat)
    requires AbsOk(info, lines) && pc < |info| && -1 <= i < |lines| && (i + 1 < |lines| ==> pc < lines[i + 1].pc)
    ensures forall p :: (if i == -1 then -1 else lines[i].pc) < p <= pc ==> info[p] != ABSLINEINFO
  {
    forall j | 0 <= j < |lines| ensures lines[j].pc <= (if i == -1 then -1 else lines[i].pc) || pc < lines[j].pc {
      if j < i {
        assert lines[j].pc < lines[i].pc;
      } else if j > i + 1 {
        assert lines[i + 1].pc < lines[j].pc;
      }
    }
  }

  /** luaG_getfuncline: the line the table says. */
  method GetFuncLine(info: seq<int>, lines: seq<AbsLine>, linedefined: int, pc: nat) returns (line: int)
    requires AbsOk(info, lines) && pc < |info| <= MAXIWTHABS * (|lines| + 1)
    ensures line == LineAt(info, lines, linedefined, pc)
  {
    var basepc: int;
    basepc, line := GetBaseLine(info, lines, linedefined, pc);
    while basepc < pc
      invariant -1 <= basepc <= pc && line == LineAt(info, lines, linedefined, basepc)
      invariant forall p :: basepc < p <= pc ==> info[p] != ABSLINEINFO
    {
      basepc := basepc + 1;
      line := line + info[basepc];
    }
  }

  /** changedline: compares lines, from the differences when they are near. */
  method ChangedLine(info: seq<int>, lines: seq<AbsLine>, linedefined: int, oldpc: nat, newpc: nat)
    returns (changed: bool)
    requires AbsOk(info, lines) && oldpc < newpc < |info| <= MAXIWTHABS * (|lines| + 1)
    ensures changed <==> LineAt(info, lines, linedefined, oldpc) != LineAt(info, lines, linedefined, newpc)
  {
    if newpc - oldpc < MAXIWTHABS / 2 {
      var delta, pc := 0, oldpc;
      while true
        invariant oldpc <= pc < newpc
          && LineAt(info, lines, linedefined, pc) == LineAt(info, lines, linedefined, oldpc) + delta
        decreases newpc - pc
      {
        pc := pc + 1;
        var lineinfo := info[pc];
        if lineinfo == ABSLINEINFO { break; }
        delta := delta + lineinfo;
        if pc == newpc { return delta != 0; }
      }
    }
    var a := GetFuncLine(info, lines, linedefined, oldpc);
    var b := GetFuncLine(info, lines, linedefined, newpc);
    return a != b;
  }

  /** An edit of the table: an instruction is added, the last one gets another line, or the
      last one is replaced. */
  datatype Edit = Emit(line: int) | Fix(line: int) | Replace(line: int)

  /** The lines that ought to be read back. */
  function Edited(lines: seq<int>, e: Edit): seq<int> {
    match e
    case Emit(l) => lines + [l]
    case Fix(l) => if lines == [] then lines else lines[..|lines| - 1] + [l]
    case Replace(l) => if lines == [] then lines else lines[..|lines| - 1] + [l]
  }

  function AllEdited(lines: seq<int>, es: seq<Edit>): seq<int> {
    if es == [] then lines else Edited(AllEdited(lines, es[..|es| - 1]), es[|es| - 1])
  }

  /** Any sequence of edits, each removal followed by a save, then any look-up: the line
      read is the line last saved. */
  method RoundTrip(linedefined: int, es: seq<Edit>, pc: nat) returns (line: int)
    requires pc < |AllEdited([], es)|
    ensures line == AllEdited([], es)[pc]
  {
    hide TableOk, AbsOk, LineAt;
    var fs := new FuncState(linedefined);
    for n := 0 to |es|
      invariant fs.Valid() && fs.previousline == fs.LastLine() && fs.saved == AllEdited([], es[..n])
        && fs.linedefined == linedefined
    {
      assert es[..n + 1][..n] == es[..n];
      TableSizes(fs.lineinfo, fs.abslineinfo, fs.iwthabs, linedefined, fs.saved);
      match es[n] {
        case Emit(l) => fs.Save(l);
        case Fix(l) => if fs.lineinfo != [] { fs.FixLine(l); }
        case Replace(l) =>
          if fs.lineinfo != [] {
            fs.RemoveLast();
            fs.Save(l);
          }
      }
    }
    assert es[..|es|] == es;
    TableSizes(fs.lineinfo, fs.abslineinfo, fs.iwthabs, linedefined, fs.saved);
    line := GetFuncLine(fs.lineinfo, fs.abslineinfo, linedefined, pc);
  }
}
