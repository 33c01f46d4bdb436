/** What it means that code computes an expression, while some of its jumps are pending,
    and what each change to the code does to that. */
module LuaBool {
  import opened LuaVm

  datatype CmpOp = EQ | NE | LT | LE | GT | GE

  datatype Expr =
    | Const(v: Val)
    | Local(i: nat)
    | NotE(e: Expr)
    | And(a: Expr, b: Expr)
    | Or(a: Expr, b: Expr)
    | Cmp(op: CmpOp, a: Expr, b: Expr)

  predicate Compare(ord: Order, op: CmpOp, x: Val, y: Val) {
    match op
    case EQ => Equal(ord, x, y)
    case NE => !Equal(ord, x, y)
    case LT => ord.lt(x, y)
    case LE => ord.le(x, y)
    case GT => ord.lt(y, x)
    case GE => ord.le(y, x)
  }

  /** What an expression denotes: `and` and `or` yield one of their operands. */
  function Eval(ord: Order, e: Expr, r: Regs): Val {
    match e
    case Const(v) => v
    case Local(i) => Get(r, i)
    case NotE(e1) => Not(Eval(ord, e1, r))
    case And(a, b) => if Falsy(Eval(ord, a, r)) then Eval(ord, a, r) else Eval(ord, b, r)
    case Or(a, b) => if Falsy(Eval(ord, a, r)) then Eval(ord, b, r) else Eval(ord, a, r)
    case Cmp(op, a, b) => Bool(Compare(ord, op, Eval(ord, a, r), Eval(ord, b, r)))
  }

  /** Expressions of a function with `nvars` active local variables. */
  predicate InScope(e: Expr, nvars: nat) {
    match e
    case Const(v) => !v.Obj?
    case Local(i) => i < nvars
    case NotE(e1) => InScope(e1, nvars)
    case And(a, b) => InScope(a, nvars) && InScope(b, nvars)
    case Or(a, b) => InScope(a, nvars) && InScope(b, nvars)
    case Cmp(_, a, b) => InScope(a, nvars) && InScope(b, nvars)
  }

  /** Registers below `low` but for `skip` are the same. */
  predicate Same(r0: Regs, r1: Regs, low: nat, skip: nat) {
    |r0| == |r1| && forall i :: 0 <= i < low && i != skip ==> Get(r0, i) == Get(r1, i)
  }

  lemma {:induction false} EvalSame(ord: Order, e: Expr, r0: Regs, r1: Regs, nvars: nat)
    requires InScope(e, nvars) && Same(r0, r1, nvars, NO_REG) && nvars <= NO_REG
    ensures Eval(ord, e, r0) == Eval(ord, e, r1)
  {
    match e
    case NotE(e1) => EvalSame(ord, e1, r0, r1, nvars);
    case And(a, b) => EvalSame(ord, a, r0, r1, nvars); EvalSame(ord, b, r0, r1, nvars);
    case Or(a, b) => EvalSame(ord, a, r0, r1, nvars); EvalSame(ord, b, r0, r1, nvars);
    case Cmp(_, a, b) => EvalSame(ord, a, r0, r1, nvars); EvalSame(ord, b, r0, r1, nvars);
    case _ =>
  }

  /** Expression kinds: constants, values in a register, an instruction whose target
      register is still open, a test followed by its jump. */
  datatype Kind =
    | VNil | VTrue | VFalse
    | VK(info: nat) | VKInt(ival: int) | VKStr(strval: string)
    | VLocal(ridx: nat)
    | VNonReloc(reg: nat)
    | VReloc(pc: nat)
    | VJmp(jpc: nat)

  const NO_JUMP := -1

  /** An expression being compiled, with its lists of jumps taken when it is true and
      when it is false. */
  datatype ExpDesc = ExpDesc(k: Kind, t: int, f: int)

  predicate HasJumps(e: ExpDesc) {
    e.t != e.f
  }

  datatype Status = Ok | TooLong | TooManyRegisters | TooManyConstants {
    predicate IsFailure() { !Ok? }
  }

  const MAX_OFFSET := 16777215
  const MAXARG_BX := 131071
  const OFFSET_SBX := 65535
  const MAXARG_AX := 33554431
  const MAXINDEXRK := 255
  const MAX_FSTACK := 255

  predicate FitsC(i: int) {
    -127 <= i <= 128
  }

  predicate FitsBx(i: int) {
    -OFFSET_SBX <= i <= MAXARG_BX - OFFSET_SBX
  }

  function Elems(js: seq<nat>): set<nat> {
    set j | j in js
  }

  /** getjump: the next jump of a list. */
  function Link(code: Code, pc: nat): int
    requires pc < |code| && code[pc].Jmp?
  {
    if code[pc].sj == NO_JUMP then NO_JUMP else pc + 1 + code[pc].sj
  }

  /** The list that starts at `head`, threaded through the jumps `js`. */
  predicate IsList(code: Code, head: int, js: seq<nat>) {
    && head == (if js == [] then NO_JUMP else js[0])
    && (forall i :: 0 <= i < |js| ==> js[i] < |code| && code[js[i]].Jmp?)
    && (forall i :: 0 <= i < |js| ==> Link(code, js[i]) == if i + 1 < |js| then js[i + 1] else NO_JUMP)
    && (forall i, j :: 0 <= i < j < |js| ==> js[i] != js[j])
  }

  /** Code before a point stays as it is, except that a LOADNIL may be merged. */
  predicate Extends(c: Code, d: Code) {
    |c| <= |d| && forall i :: 0 <= i < |c| ==> d[i] == c[i] || (c[i].LoadNil? && d[i].LoadNil?)
  }

  lemma ExtendsTrans(a: Code, b: Code, c: Code)
    requires Extends(a, b) && Extends(b, c)
    ensures Extends(a, c)
  {
  }

  /** How code from `base` on is built: tests are followed by their jumps, resolved jumps
      lead to marked targets, pending ones can still be patched. */
  predicate Shape(code: Code, pend: set<nat>, base: nat, lasttarget: nat) {
    && base <= lasttarget <= |code|
    && (base > 0 && base <= |code| ==> !IsTest(code[base - 1]))
    && (forall i :: base <= i < |code| ==> ShapeAt(code, pend, lasttarget, i))
    && (forall j :: j in pend ==> base <= j < |code| && code[j].Jmp?)
    && Patchable(code, pend)
  }

  predicate ShapeAt(code: Code, pend: set<nat>, lasttarget: nat, i: nat)
    requires i < |code|
  {
    && (IsTest(code[i]) ==> i + 1 < |code| && code[i + 1].Jmp?)
    && (code[i].Jmp? && i !in pend ==> i + 1 + code[i].sj <= lasttarget)
    && (code[i].LFalseSkip? ==> i + 2 <= lasttarget)
    && (code[i].LoadKX? ==> i + 1 < |code| && code[i + 1].ExtraArg?)
  }

  /** Appending instructions runs what was there, then them. */
  lemma ExecAppend(ord: Order, ks: seq<Val>, c: Code, d: Code, pend: set<nat>, pend1: set<nat>, base: nat,
          lasttarget: nat, r: Regs)
    requires Shape(c, pend, base, lasttarget) && base <= |c|
    requires forall j :: j < |c| ==> (j in pend1 <==> j in pend)
    ensures Exec(ord, ks, c + d, pend1, base, r) == Then(ord, ks, c + d, pend1, |c|, Exec(ord, ks, c, pend, base, r))
  {
    assert (c + d)[..|c|] == c;
    assert Inside(c + d, pend1, base, |c|) by {
      forall i | base <= i < |c|
        ensures IsTest((c + d)[i]) ==> i + 2 <= |c|
        ensures (c + d)[i].Jmp? && i !in pend1 ==> i + 1 + (c + d)[i].sj <= |c|
        ensures (c + d)[i].LFalseSkip? || (c + d)[i].LoadKX? ==> i + 2 <= |c|
      {
        assert (c + d)[i] == c[i] && ShapeAt(c, pend, lasttarget, i);
      }
    }
    ExecSplit(ord, ks, c + d, pend1, pend, base, |c|, base, r);
  }

  /** What was there when the compilation of an expression began: the code, its pending
      jumps, and the first free register. */
  datatype Ctx = Ctx(code: Code, pend: set<nat>, low: nat)

  /** A jump out of the expression says that its value is true; when the jump is
      controlled by a TESTSET the value is there to be copied, else it is the boolean. */
  predicate TrueExit(code: Code, j: nat, r: Regs, v: Val) {
    if Produces(code, j) then Get(r, code[j - 1].b) == v && !Falsy(v) else v == True
  }

  predicate FalseExit(code: Code, j: nat, r: Regs, v: Val) {
    if Produces(code, j) then Get(r, code[j - 1].b) == v && Falsy(v) else v == False
  }

  /** The value of the expression when its code falls through. */
  predicate KindValue(code: Code, k: Kind, ks: seq<Val>, r: Regs, v: Val) {
    match k
    case VNil => v == Nil
    case VTrue => v == True
    case VFalse => v == False
    case VK(info) => info < |ks| && v == ks[info] && !v.Obj?
    case VKInt(i) => v == Int(i)
    case VKStr(s) => v == Str(s)
    case VLocal(i) => Get(r, i) == v
    case VNonReloc(i) => Get(r, i) == v
    case VReloc(pc) => pc < |code| && code[pc].NotOp? && v == Not(Get(r, code[pc].b))
    case VJmp(_) => v == False
  }

  /** What is known when the code of an expression falls through: where its value is, or
      only whether it is true. */
  datatype Falls = Value(k: Kind) | Truth(holds: bool)

  predicate FallsOk(code: Code, f: Falls, ks: seq<Val>, r: Regs, v: Val) {
    match f
    case Value(k) => KindValue(code, k, ks, r, v)
    case Truth(holds) => Falsy(v) != holds
  }

  /** Outcome `o` of running code for an expression of value `v`, from registers `r0`. */
  predicate Good(code: Code, f: Falls, tl: seq<nat>, fl: seq<nat>, low: nat, skip: nat, ks: seq<Val>, r0: Regs, v: Val,
          o: Outcome) {
    match o
    case Stuck => false
    case Fall(r1) => Same(r0, r1, low, skip) && FallsOk(code, f, ks, r1, v)
    case Exit(j, r1) =>
      && Same(r0, r1, low, NO_REG)
      && (|| (j in tl && TrueExit(code, j, r1, v))
          || (j in fl && FalseExit(code, j, r1, v))
          || (f == Value(VJmp(j)) && v == True))
  }

  /** The code without an instruction whose register is still open. */
  function Core(code: Code, f: Falls): Code {
    if f.Value? && f.k.VReloc? && |code| > 0 then code[..|code| - 1] else code
  }

  function Pend(x: Ctx, f: Falls, tl: seq<nat>, fl: seq<nat>): set<nat> {
    x.pend + Elems(tl) + Elems(fl) + if f.Value? && f.k.VJmp? then {f.k.jpc} else {}
  }

  /** One run of the code, against one run of what was there before. */
  predicate MeansAt(x: Ctx, base: nat, code: Code, f: Falls, tl: seq<nat>, fl: seq<nat>, skip: nat, ex: Expr,
          ord: Order, ks: seq<Val>, r: Regs) {
    match Exec(ord, ks, x.code, x.pend, base, r)
    case Stuck => true
    case Exit(j, r1) => Exec(ord, ks, Core(code, f), Pend(x, f, tl, fl), base, r) == Exit(j, r1)
    case Fall(r0) =>
      Good(code, f, tl, fl, x.low, skip, ks, r0, Eval(ord, ex, r0),
        Exec(ord, ks, Core(code, f), Pend(x, f, tl, fl), base, r))
  }

  /** The code computes the expression: for all registers, for all constants that extend
      those so far, and for all comparisons. */
  ghost predicate Means(x: Ctx, base: nat, code: Code, ks: seq<Val>, f: Falls, tl: seq<nat>, fl: seq<nat>, skip: nat,
          ex: Expr) {
    forall ord, ks1, r :: ks <= ks1 && |r| == NO_REG ==> MeansAt(x, base, code, f, tl, fl, skip, ex, ord, ks1, r)
  }

  /** All jumps of the lists were emitted for this expression; what the kind refers to is
      the end of the code. */
  predicate Wf(x: Ctx, code: Code, lasttarget: nat, f: Falls, tl: seq<nat>, fl: seq<nat>) {
    && Elems(tl) !! Elems(fl) && (forall j :: j in x.pend ==> j < |x.code|)
    && (forall j :: j in tl + fl ==> |x.code| <= j && (Produces(code, j) ==> |x.code| < j))
    && match f
       case Value(VReloc(pc)) => |x.code| <= pc == |code| - 1 && code[pc].NotOp? && lasttarget <= pc
       case Value(VJmp(pc)) =>
         && |x.code| < pc == |code| - 1 && pc !in tl && pc !in fl && code[pc] == Jmp(NO_JUMP)
         && IsComparison(code[pc - 1]) && lasttarget < pc
       case _ => true
  }

  /** Registers in use by the expression. */
  predicate RegsOk(k: Kind, low: nat, nvars: nat, freereg: nat) {
    && nvars <= low && freereg <= MAX_FSTACK
    && match k
       case VNonReloc(r) => if r < nvars then freereg == low else r == low && freereg == low + 1
       case VLocal(i) => i < nvars && freereg == low
       case _ => freereg == low
  }

  predicate KindOk(k: Kind, ks: seq<Val>) {
    k.VK? ==> k.info < |ks|
  }

  function Target(dtarget: int): nat {
    if dtarget >= 0 then dtarget else 0
  }

  /** Only links of jumps of `l` changed. */
  predicate Relinked(c: Code, d: Code, l: set<nat>) {
    |c| == |d| && forall i :: 0 <= i < |c| ==> d[i] == c[i] || (i in l && c[i].Jmp? && d[i].Jmp?)
  }

  lemma NextInList(c: Code, head: int, js: seq<nat>, i: nat)
    requires IsList(c, head, js) && i < |js|
    ensures Link(c, js[i]) == if i + 1 < |js| then js[i + 1] else NO_JUMP
  {
  }

  /** The last jump of the first list now leads to the second. */
  lemma JoinedLink(c: Code, d: Code, l1: int, l2: int, s1: seq<nat>, s2: seq<nat>, i: nat)
    requires IsList(c, l1, s1) && IsList(c, l2, s2) && Elems(s1) !! Elems(s2) && s1 != [] && s2 != []
    requires var last := s1[|s1| - 1]; d == c[last := Jmp(l2 - (last + 1))]
    requires i < |s1 + s2|
    ensures var s := s1 + s2; s[i] < |d| && d[s[i]].Jmp? && Link(d, s[i]) == if i + 1 < |s| then s[i + 1] else NO_JUMP
  {
    var s, last := s1 + s2, s1[|s1| - 1];
    if i < |s1| - 1 {
      NextInList(c, l1, s1, i);
      assert s[i] == s1[i] && s[i + 1] == s1[i + 1] && s1[i] != last;
    } else if i == |s1| - 1 {
      assert last in Elems(s1) && s2[0] in Elems(s2);
      assert s[i] == last && s[i + 1] == s2[0] == l2 != last;
    } else {
      var k := i - |s1|;
      NextInList(c, l2, s2, k);
      assert s[i] == s2[k] && s2[k] in Elems(s2) && last in Elems(s1);
      assert i + 1 < |s| ==> s[i + 1] == s2[k + 1];
    }
  }

  lemma Joined(c: Code, d: Code, l1: int, l2: int, s1: seq<nat>, s2: seq<nat>)
    requires IsList(c, l1, s1) && IsList(c, l2, s2) && Elems(s1) !! Elems(s2) && s1 != [] && s2 != []
    requires var last := s1[|s1| - 1]; d == c[last := Jmp(l2 - (last + 1))]
    ensures IsList(d, l1, s1 + s2) && Relinked(c, d, Elems(s1))
  {
    var s, last := s1 + s2, s1[|s1| - 1];
    assert last in Elems(s1);
    forall i, j | 0 <= i < j < |s| ensures s[i] != s[j] {
      if i < |s1| <= j { assert s1[i] in Elems(s1) && s2[j - |s1|] in Elems(s2); }
    }
    forall i: nat | i < |s|
      ensures s[i] < |d| && d[s[i]].Jmp? && Link(d, s[i]) == if i + 1 < |s| then s[i + 1] else NO_JUMP
    {
      JoinedLink(c, d, l1, l2, s1, s2, i);
    }
    assert forall i :: 0 <= i < |s| ==> s[i] < |d| && d[s[i]].Jmp?;
    assert forall i :: 0 <= i < |s| ==> Link(d, s[i]) == if i + 1 < |s| then s[i + 1] else NO_JUMP;
    assert IsList(d, l1, s);
  }


  /** The tests that control the jumps of `l` lost their values. */
  predicate ValuesRemoved(c: Code, d: Code, l: set<nat>) {
    |c| == |d| && forall i ::
      0 <= i < |c| ==> d[i] == if i + 1 in l && c[i].TestSet? then Test(c[i].b, c[i].k) else c[i]
  }

  lemma RemovedMore(c: Code, d: Code, d1: Code, js: seq<nat>, i: nat)
    requires i < |js| && js[i] < |c| && ValuesRemoved(c, d, Elems(js[..i]))
    requires d1 == if Produces(d, js[i]) then d[js[i] - 1 := PatchedTest(d[js[i] - 1], NO_REG)] else d
    ensures ValuesRemoved(c, d1, Elems(js[..i + 1])) && ValuesRemoved(d, d1, Elems([js[i]]))
  {
    assert js[..i + 1] == js[..i] + [js[i]];
    assert Elems(js[..i + 1]) == Elems(js[..i]) + {js[i]};
    assert Elems([js[i]]) == {js[i]};
  }

  lemma RemovedList(c: Code, d: Code, l: set<nat>, head: int, js: seq<nat>)
    requires IsList(c, head, js) && ValuesRemoved(c, d, l)
    ensures IsList(d, head, js)
  {
    assert forall i :: 0 <= i < |js| ==> d[js[i]] == c[js[i]];
  }

  lemma PatchedNone(c: Code, vtarget: nat, reg: nat, dtarget: nat)
    ensures Patched(c, c, {}, vtarget, reg, dtarget)
  {
  }

  lemma RestOfList(c: Code, d: Code, head: int, js: seq<nat>, i: nat, vtarget: nat, reg: nat, dtarget: nat)
    requires IsList(c, head, js) && Patchable(c, Elems(js)) && i < |js|
    requires Patched(c, d, Elems(js[..i]), vtarget, reg, dtarget)
    ensures |d| == |c| && js[i] < |d| && d[js[i]] == c[js[i]] && d[js[i]].Jmp?
    ensures Link(d, js[i]) == if i + 1 < |js| then js[i + 1] else NO_JUMP
    ensures Produces(c, js[i]) <==> Produces(d, js[i])
    ensures js[i] > 0 && c[js[i] - 1].TestSet? ==> d[js[i] - 1] == c[js[i] - 1]
  {
    var j := js[i];
    assert j !in Elems(js[..i]);
    assert d[j] == PatchedInstr(c, Elems(js[..i]), j, vtarget, reg, dtarget);
    assert j in Elems(js);
    if j > 0 {
      assert d[j - 1] == PatchedInstr(c, Elems(js[..i]), j - 1, vtarget, reg, dtarget);
      if j - 1 in Elems(js[..i]) { assert c[j - 1].Jmp?; }
    }
  }

  lemma ControlApart(c: Code, j: nat)
    ensures Produces(c, j) <==> 0 < j <= |c| && c[j - 1].TestSet?
  {
  }

  lemma PatchableOne(c: Code, js: seq<nat>, i: nat)
    requires Patchable(c, Elems(js)) && i < |js|
    ensures Patchable(c, {js[i]})
  {
    assert js[i] in Elems(js);
  }

  lemma PatchedMore(c: Code, d: Code, d1: Code, js: seq<nat>, i: nat, vtarget: nat, reg: nat, dtarget: nat)
    requires i < |js| && Patched(c, d, Elems(js[..i]), vtarget, reg, dtarget) && Patchable(c, {js[i]})
    requires forall k :: 0 <= k < i ==> js[k] != js[i] && js[k] < |c| && c[js[k]].Jmp?
    requires d[js[i]] == c[js[i]] && (js[i] > 0 && c[js[i] - 1].TestSet? ==> d[js[i] - 1] == c[js[i] - 1])
    requires d1 == (if Produces(c, js[i]) then d[js[i] - 1 := PatchedTest(c[js[i] - 1], reg)] else d)
                   [js[i] := Jmp(PatchTarget(c, js[i], vtarget, dtarget) - (js[i] + 1))]
    ensures Patched(c, d1, Elems(js[..i + 1]), vtarget, reg, dtarget)
  {
    var l, l1 := Elems(js[..i]), Elems(js[..i + 1]);
    assert js[..i + 1] == js[..i] + [js[i]];
    assert l1 == l + {js[i]};
    forall k | 0 <= k < |c| ensures d1[k] == PatchedInstr(c, l1, k, vtarget, reg, dtarget) {
      assert d[k] == PatchedInstr(c, l, k, vtarget, reg, dtarget);
    }
  }

  /** The code generator at some moment. */
  datatype Gen = Gen(code: Code, lasttarget: nat, ks: seq<Val>, nvars: nat, base: nat)

  /** The code for `ex`, whatever registers it needs. */
  ghost predicate Coded(g: Gen, x: Ctx, f: Falls, tl: seq<nat>, fl: seq<nat>, skip: nat, ex: Expr) {
    && Extends(x.code, g.code) && Shape(g.code, Pend(x, f, tl, fl), g.base, g.lasttarget)
    && Wf(x, g.code, g.lasttarget, f, tl, fl)
    && InScope(ex, g.nvars) && g.nvars <= x.low <= MAX_FSTACK && g.base <= |x.code|
    && Means(x, g.base, g.code, g.ks, f, tl, fl, skip, ex)
  }

  predicate Plain(i: Instr) {
    !IsTest(i) && !i.Jmp? && !i.LFalseSkip? && !i.LoadKX? && !i.ExtraArg?
  }

  lemma RunPlain(ord: Order, ks: seq<Val>, c: Code, i: Instr, pend: set<nat>, r: Regs)
    requires Plain(i)
    ensures Exec(ord, ks, c + [i], pend, |c|, r) == Fall(Effect(ks, i, r))
  {
    assert (c + [i])[|c|] == i;
  }

  /** Without its open instruction the code still has its shape. */
  lemma CoreShape(g: Gen, x: Ctx, f: Falls, tl: seq<nat>, fl: seq<nat>)
    requires Shape(g.code, Pend(x, f, tl, fl), g.base, g.lasttarget) && Wf(x, g.code, g.lasttarget, f, tl, fl)
      && Extends(x.code, g.code) && g.base <= |x.code|
    ensures Shape(Core(g.code, f), Pend(x, f, tl, fl), g.base, g.lasttarget)
    ensures g.base <= |Core(g.code, f)| && Extends(x.code, Core(g.code, f))
    ensures Core(g.code, f) == g.code[..|Core(g.code, f)|]
  {
    var c, p := Core(g.code, f), Pend(x, f, tl, fl);
    forall i | g.base <= i < |c| ensures ShapeAt(c, p, g.lasttarget, i) {
      assert ShapeAt(g.code, p, g.lasttarget, i);
    }
  }

  /** Putting one more instruction in its place keeps the shape. */
  lemma ShapePlain(c: Code, i: Instr, pend: set<nat>, base: nat, lasttarget: nat)
    requires Shape(c, pend, base, lasttarget) && Plain(i) && base <= |c|
    ensures Shape(c + [i], pend, base, lasttarget)
  {
    forall j | base <= j < |c + [i]| ensures ShapeAt(c + [i], pend, lasttarget, j) {
      if j < |c| { assert ShapeAt(c, pend, lasttarget, j); }
    }
  }

  /** `i` puts in `reg` the value described by `k`. */
  ghost predicate Loads(code: Code, k: Kind, i: Instr, reg: nat, ks: seq<Val>) {
    forall ks1, r1, v ::
      ks <= ks1 && |r1| == NO_REG && KindValue(code, k, ks1, r1, v) ==> Effect(ks1, i, r1) == Set(r1, reg, v)
  }

  /** Outcome of running one more plain instruction. */
  function AndThen(o: Outcome, ks: seq<Val>, i: Instr): Outcome {
    match o
    case Fall(r1) => Fall(Effect(ks, i, r1))
    case _ => o
  }

  lemma ExecPlain(ord: Order, ks: seq<Val>, c: Code, i: Instr, pend: set<nat>, base: nat, lasttarget: nat, r: Regs)
    requires Shape(c, pend, base, lasttarget) && base <= |c| && Plain(i)
    ensures Exec(ord, ks, c + [i], pend, base, r) == AndThen(Exec(ord, ks, c, pend, base, r), ks, i)
  {
    hide Shape, Exec;
    ExecAppend(ord, ks, c, [i], pend, pend, base, lasttarget, r);
    match Exec(ord, ks, c, pend, base, r) {
      case Fall(r1) => RunPlain(ord, ks, c, i, pend, r1);
      case _ =>
    }
  }

  /** Exits are judged the same in code that keeps them. */
  predicate SameExits(c: Code, d: Code, tl: seq<nat>, fl: seq<nat>) {
    forall j :: j in tl + fl ==> (Produces(d, j) <==> Produces(c, j)) && (Produces(d, j) ==> d[j - 1].b == c[j - 1].b)
  }

  lemma GoodPut(c: Code, d: Code, k: Kind, tl: seq<nat>, fl: seq<nat>, low: nat, ks: seq<Val>, r0: Regs, v: Val,
          o: Outcome, i: Instr, reg: nat)
    requires Good(c, Value(k), tl, fl, low, NO_REG, ks, r0, v, o) && !k.VJmp? && SameExits(c, d, tl, fl)
    requires forall r1 :: |r1| == |r0| && KindValue(c, k, ks, r1, v) ==> Effect(ks, i, r1) == Set(r1, reg, v)
    requires |r0| == NO_REG && reg < NO_REG && low <= NO_REG
    ensures Good(d, Value(VNonReloc(reg)), tl, fl, low, reg, ks, r0, v, AndThen(o, ks, i))
  {
    hide KindValue;
    match o {
      case Fall(r1) => PutValue(d, ks, r1, reg, v);
      case Exit(j, r1) =>
        assert j in tl || j in fl ==> j in tl + fl;
      case Stuck => 
    }
  }

  lemma PutValue(d: Code, ks: seq<Val>, r1: Regs, reg: nat, v: Val)
    requires |r1| == NO_REG && reg < NO_REG
    ensures KindValue(d, VNonReloc(reg), ks, Set(r1, reg, v), v)
  {
  }

  lemma PutPlainAt(g: Gen, x: Ctx, k: Kind, tl: seq<nat>, fl: seq<nat>, ex: Expr, i: Instr, reg: nat, ord: Order,
          ks: seq<Val>, r: Regs)
    requires Coded(g, x, Value(k), tl, fl, NO_REG, ex) && !k.VJmp? && Plain(i) && reg < NO_REG
    requires g.ks <= ks && |r| == NO_REG && Loads(g.code, k, i, reg, ks)
    ensures MeansAt(x, g.base, Core(g.code, Value(k)) + [i], Value(VNonReloc(reg)), tl, fl, reg, ex, ord, ks, r)
  {
    hide Means, Shape, Extends, Exec, Good, Effect, KindValue, Eval, Wf;
    var f, c := Value(k), Core(g.code, Value(k));
    var p, d := Pend(x, f, tl, fl), c + [i];
    MeansHere(g, x, f, tl, fl, NO_REG, ex, ord, ks, r);
    CoreShape(g, x, f, tl, fl);
    ExecPlain(ord, ks, c, i, p, g.base, g.lasttarget, r);
    forall j | j in tl + fl
      ensures (Produces(d, j) <==> Produces(g.code, j)) && (Produces(d, j) ==> d[j - 1].b == g.code[j - 1].b)
    {
      ExitsStay(g, x, f, tl, fl, d, j);
    }
    match Exec(ord, ks, x.code, x.pend, g.base, r) {
      case Fall(r0) =>
        FallSize(ord, ks, x.code, x.pend, g.base, r);
        GoodPut(g.code, d, k, tl, fl, x.low, ks, r0, Eval(ord, ex, r0), Exec(ord, ks, c, p, g.base, r), i, reg);
      case _ =>
    }
  }

  /** Running code changes no more than the contents of registers. */
  lemma {:induction false} FallSize(ord: Order, ks: seq<Val>, c: Code, pend: set<nat>, pc: nat, r: Regs)
    ensures var o := Exec(ord, ks, c, pend, pc, r); !o.Stuck? ==> |o.regs| == |r|
    decreases |c| - pc
  {
    if pc < |c| {
      var n := StepIn(ord, ks, c, pend, pc, r);
      if n.Go? && n.pc <= |c| { FallSize(ord, ks, c, pend, n.pc, n.regs); }
    }
  }

  lemma MeansHere(g: Gen, x: Ctx, f: Falls, tl: seq<nat>, fl: seq<nat>, skip: nat, ex: Expr, ord: Order, ks: seq<Val>,
          r: Regs)
    requires Means(x, g.base, g.code, g.ks, f, tl, fl, skip, ex) && g.ks <= ks && |r| == NO_REG
    ensures MeansAt(x, g.base, g.code, f, tl, fl, skip, ex, ord, ks, r)
  {
  }

  /** What is before a jump of the lists is still there. */
  lemma ExitsStay(g: Gen, x: Ctx, f: Falls, tl: seq<nat>, fl: seq<nat>, d: Code, j: nat)
    requires Shape(g.code, Pend(x, f, tl, fl), g.base, g.lasttarget) && Wf(x, g.code, g.lasttarget, f, tl, fl)
    requires Core(g.code, f) <= d
    ensures j in tl || j in fl ==>
      (Produces(d, j) <==> Produces(g.code, j)) && (Produces(d, j) ==> d[j - 1] == g.code[j - 1])
  {
    if j in tl || j in fl {
      assert j in Pend(x, f, tl, fl);
      var c := Core(g.code, f);
      assert j < |g.code| && g.code[j].Jmp?;
      assert j < |c|;
      assert d[..|c|] == c;
      if j > 0 { assert d[j - 1] == d[..|c|][j - 1]; }
    }
  }

  /** An instruction that loads the value into `reg`. */
  lemma PutPlain(g: Gen, x: Ctx, k: Kind, tl: seq<nat>, fl: seq<nat>, ex: Expr, i: Instr, reg: nat, ks1: seq<Val>)
    requires Coded(g, x, Value(k), tl, fl, NO_REG, ex) && !k.VJmp? && Plain(i) && reg < NO_REG
    requires g.ks <= ks1 && Loads(g.code, k, i, reg, ks1)
    ensures Coded(g.(code := Core(g.code, Value(k)) + [i], ks := ks1), x, Value(VNonReloc(reg)), tl, fl, reg, ex)
  {
    hide Shape, Extends, Exec, Good, Effect, KindValue, Eval, Wf, MeansAt, Loads;
    var f, c := Value(k), Core(g.code, Value(k));
    CoreShape(g, x, f, tl, fl);
    ShapePlain(c, i, Pend(x, f, tl, fl), g.base, g.lasttarget);
    ExtendsTrans(x.code, c, c + [i]) by { ExtendsMore(c, [i]); }
    WfPut(g, x, k, tl, fl, c + [i], reg);
    forall ord, ks, r | ks1 <= ks && |r| == NO_REG
      ensures MeansAt(x, g.base, c + [i], Value(VNonReloc(reg)), tl, fl, reg, ex, ord, ks, r)
    {
      LoadsMore(g.code, k, i, reg, ks1, ks);
      PutPlainAt(g, x, k, tl, fl, ex, i, reg, ord, ks, r);
    }
  }

  lemma LoadsMore(c: Code, k: Kind, i: Instr, reg: nat, ks: seq<Val>, ks1: seq<Val>)
    requires Loads(c, k, i, reg, ks) && ks <= ks1
    ensures Loads(c, k, i, reg, ks1)
  {
  }

  lemma ExtendsMore(c: Code, d: Code)
    ensures Extends(c, c + d)
  {
  }

  lemma WfPut(g: Gen, x: Ctx, k: Kind, tl: seq<nat>, fl: seq<nat>, d: Code, reg: nat)
    requires Shape(g.code, Pend(x, Value(k), tl, fl), g.base, g.lasttarget)
      && Wf(x, g.code, g.lasttarget, Value(k), tl, fl)
    requires Core(g.code, Value(k)) <= d && !k.VJmp?
    ensures Wf(x, d, g.lasttarget, Value(VNonReloc(reg)), tl, fl)
    ensures Pend(x, Value(VNonReloc(reg)), tl, fl) == Pend(x, Value(k), tl, fl)
  {
    forall j | j in tl + fl ensures |x.code| <= j && (Produces(d, j) ==> |x.code| < j) {
      ExitsStay(g, x, Value(k), tl, fl, d, j);
    }
  }

  /** LOADKX and its extra argument. */
  lemma RunKX(ord: Order, ks: seq<Val>, c: Code, a: nat, ax: nat, pend: set<nat>, r: Regs)
    ensures Exec(ord, ks, c + [LoadKX(a), ExtraArg(ax)], pend, |c|, r) == Fall(Set(r, a, Constant(ks, ax)))
  {
    var d := c + [LoadKX(a), ExtraArg(ax)];
    assert d[|c|] == LoadKX(a) && d[|c| + 1] == ExtraArg(ax);
  }

  /** LOADKX with its argument does what a LOADK with a large index would do. */
  lemma PutKX(g: Gen, x: Ctx, k: Kind, tl: seq<nat>, fl: seq<nat>, ex: Expr, reg: nat, ax: nat, ks1: seq<Val>)
    requires Coded(g, x, Value(k), tl, fl, NO_REG, ex) && !k.VJmp? && !k.VReloc? && reg < NO_REG
    requires g.ks <= ks1 && Loads(g.code, k, LoadK(reg, ax), reg, ks1)
    ensures Coded(g.(code := g.code + [LoadKX(reg), ExtraArg(ax)], ks := ks1), x, Value(VNonReloc(reg)), tl, fl, reg,
      ex)
  {
    hide Shape, Extends, Exec, Good, Effect, KindValue, Eval, Wf, MeansAt, Loads;
    var f, d := Value(k), [LoadKX(reg), ExtraArg(ax)];
    var p := Pend(x, f, tl, fl);
    PutPlain(g, x, k, tl, fl, ex, LoadK(reg, ax), reg, ks1);
    CoreShape(g, x, f, tl, fl);
    ShapeKX(g.code, reg, ax, p, g.base, g.lasttarget);
    ExtendsTrans(x.code, g.code, g.code + d) by { ExtendsMore(g.code, d); }
    WfPut(g, x, k, tl, fl, g.code + d, reg);
    var q := Pend(x, Value(VNonReloc(reg)), tl, fl);
    forall ord, ks, r | ks1 <= ks && |r| == NO_REG
      ensures MeansAt(x, g.base, g.code + d, Value(VNonReloc(reg)), tl, fl, reg, ex, ord, ks, r)
    {
      MeansHere(g.(code := g.code + [LoadK(reg, ax)], ks := ks1), x, Value(VNonReloc(reg)), tl, fl, reg, ex, ord, ks,
        r);
      SameRun(g, x, tl, fl, p, reg, ax, ord, ks, r);
      StayAll(g, x, f, tl, fl, g.code + [LoadK(reg, ax)], g.code + d);
      MeansSameExits(g, x, tl, fl, g.code + [LoadK(reg, ax)], g.code + d, reg, ex, ord, ks, r);
    }
  }

  lemma ShapeKX(c: Code, reg: nat, ax: nat, pend: set<nat>, base: nat, lasttarget: nat)
    requires Shape(c, pend, base, lasttarget) && base <= |c|
    ensures Shape(c + [LoadKX(reg), ExtraArg(ax)], pend, base, lasttarget)
  {
    var d := c + [LoadKX(reg), ExtraArg(ax)];
    forall j | base <= j < |d| ensures ShapeAt(d, pend, lasttarget, j) {
      if j < |c| { assert ShapeAt(c, pend, lasttarget, j); }
    }
  }

  lemma SameRun(g: Gen, x: Ctx, tl: seq<nat>, fl: seq<nat>, p: set<nat>, reg: nat, ax: nat, ord: Order, ks: seq<Val>,
          r: Regs)
    requires Shape(g.code, p, g.base, g.lasttarget) && g.base <= |g.code|
    ensures Exec(ord, ks, g.code + [LoadKX(reg), ExtraArg(ax)], p, g.base, r) ==
      Exec(ord, ks, g.code + [LoadK(reg, ax)], p, g.base, r)
  {
    hide Shape, Exec;
    ExecAppend(ord, ks, g.code, [LoadKX(reg), ExtraArg(ax)], p, p, g.base, g.lasttarget, r);
    ExecPlain(ord, ks, g.code, LoadK(reg, ax), p, g.base, g.lasttarget, r);
    match Exec(ord, ks, g.code, p, g.base, r) {
      case Fall(r1) => RunKX(ord, ks, g.code, reg, ax, p, r1);
      case _ =>
    }
  }

  lemma StayAll(g: Gen, x: Ctx, f: Falls, tl: seq<nat>, fl: seq<nat>, c: Code, d: Code)
    requires Shape(g.code, Pend(x, f, tl, fl), g.base, g.lasttarget) && Wf(x, g.code, g.lasttarget, f, tl, fl)
    requires Core(g.code, f) <= c && Core(g.code, f) <= d
    ensures SameExits(c, d, tl, fl)
  {
    forall j | j in tl + fl
      ensures (Produces(d, j) <==> Produces(c, j)) && (Produces(d, j) ==> d[j - 1].b == c[j - 1].b)
    {
      ExitsStay(g, x, f, tl, fl, c, j);
      ExitsStay(g, x, f, tl, fl, d, j);
    }
  }

  /** Codes that run the same and keep the exits mean the same. */
  lemma MeansSameExits(g: Gen, x: Ctx, tl: seq<nat>, fl: seq<nat>, c: Code, d: Code, reg: nat, ex: Expr, ord: Order,
          ks: seq<Val>, r: Regs)
    requires SameExits(c, d, tl, fl)
    requires MeansAt(x, g.base, c, Value(VNonReloc(reg)), tl, fl, reg, ex, ord, ks, r)
    requires var p := Pend(x, Value(VNonReloc(reg)), tl, fl);
      Exec(ord, ks, d, p, g.base, r) == Exec(ord, ks, c, p, g.base, r)
    ensures MeansAt(x, g.base, d, Value(VNonReloc(reg)), tl, fl, reg, ex, ord, ks, r)
  {
    hide Exec, Eval;
    assert forall j :: j in tl || j in fl ==> j in tl + fl;
  }

  /** The registers of a LOADNIL merged with one more register next to or inside them. */
  function MergedNil(i: Instr, reg: nat): Instr
    requires i.LoadNil?
  {
    var from := if i.a < reg then i.a else reg;
    var l := if i.a + i.n > reg then i.a + i.n else reg;
    LoadNil(from, l - from)
  }

  predicate Connects(i: Instr, reg: nat) {
    i.LoadNil? && ((i.a <= reg && reg <= i.a + i.n + 1) || (reg <= i.a && i.a <= reg + 1))
  }

  lemma NilsMerge(ks: seq<Val>, i: Instr, reg: nat, r: Regs)
    requires Connects(i, reg)
    ensures Effect(ks, MergedNil(i, reg), r) == Effect(ks, LoadNil(reg, 0), Effect(ks, i, r))
  {
    var a, b := Effect(ks, MergedNil(i, reg), r), Effect(ks, LoadNil(reg, 0), Effect(ks, i, r));
    forall j: nat | j < |r| ensures a[j] == b[j] {
      assert a[j] == Get(a, j) && b[j] == Get(b, j);
      assert Get(Effect(ks, i, r), j) == if i.a <= j <= i.a + i.n then Nil else Get(r, j);
    }
  }

  /** luaK_nil: widening the LOADNIL that comes just before is as good as another one,
      since no jump leads in between. */
  lemma PutNilMerged(g: Gen, x: Ctx, tl: seq<nat>, fl: seq<nat>, ex: Expr, reg: nat)
    requires Coded(g, x, Value(VNil), tl, fl, NO_REG, ex) && reg < NO_REG
    requires g.lasttarget < |g.code| && Connects(g.code[|g.code| - 1], reg)
    ensures var n := |g.code| - 1;
      Coded(g.(code := g.code[..n] + [MergedNil(g.code[n], reg)]), x, Value(VNonReloc(reg)), tl, fl, reg, ex)
  {
    hide Shape, Extends, Exec, Good, Effect, KindValue, Eval, Wf, MeansAt;
    var n, f, i := |g.code| - 1, Value(VNil), LoadNil(reg, 0);
    var p, c, d := Pend(x, f, tl, fl), g.code + [i], g.code[..n] + [MergedNil(g.code[n], reg)];
    assert Loads(g.code, VNil, i, reg, g.ks) by { LoadsNil(g.code, reg, g.ks); }
    PutPlain(g, x, VNil, tl, fl, ex, i, reg, g.ks);
    NilShape(g, x, tl, fl, reg);
    forall ord, ks, r | g.ks <= ks && |r| == NO_REG
      ensures MeansAt(x, g.base, d, Value(VNonReloc(reg)), tl, fl, reg, ex, ord, ks, r)
    {
      MeansHere(g.(code := c), x, Value(VNonReloc(reg)), tl, fl, reg, ex, ord, ks, r);
      assert Pend(x, Value(VNonReloc(reg)), tl, fl) == p;
      NilRun(g, p, reg, ord, ks, r);
      MeansSameExits(g, x, tl, fl, c, d, reg, ex, ord, ks, r);
    }
  }

  lemma LoadsNil(c: Code, reg: nat, ks: seq<Val>)
    requires reg < NO_REG
    ensures Loads(c, VNil, LoadNil(reg, 0), reg, ks)
  {
    forall ks1, r1: Regs | ks <= ks1 && |r1| == NO_REG ensures Effect(ks1, LoadNil(reg, 0), r1) == Set(r1, reg, Nil) {
      var a, b := Effect(ks1, LoadNil(reg, 0), r1), Set(r1, reg, Nil);
      forall j: nat | j < |r1| ensures a[j] == b[j] { assert a[j] == Get(a, j) && b[j] == Get(b, j); }
    }
  }

  lemma NilFront(c: Code, n: nat, p: set<nat>, base: nat, lasttarget: nat, reg: nat)
    requires Shape(c, p, base, lasttarget) && lasttarget <= n == |c| - 1 && base <= n && Connects(c[n], reg)
    ensures Shape(c[..n], p, base, lasttarget)
  {
    forall i | base <= i < n ensures ShapeAt(c[..n], p, lasttarget, i) {
      assert ShapeAt(c, p, lasttarget, i);
    }
  }

  lemma NilShape(g: Gen, x: Ctx, tl: seq<nat>, fl: seq<nat>, reg: nat)
    requires var p := Pend(x, Value(VNil), tl, fl);
      Shape(g.code, p, g.base, g.lasttarget) && Extends(x.code, g.code) && g.base <= |x.code|
    requires Wf(x, g.code, g.lasttarget, Value(VNil), tl, fl)
    requires g.lasttarget < |g.code| && Connects(g.code[|g.code| - 1], reg)
    ensures var n, p := |g.code| - 1, Pend(x, Value(VNil), tl, fl);
      var d := g.code[..n] + [MergedNil(g.code[n], reg)];
      && Shape(g.code[..n], p, g.base, g.lasttarget) && g.base <= n
      && Shape(d, p, g.base, g.lasttarget) && Extends(x.code, d)
      && Wf(x, d, g.lasttarget, Value(VNonReloc(reg)), tl, fl)
      && SameExits(g.code + [LoadNil(reg, 0)], d, tl, fl)
  {
    var n, p := |g.code| - 1, Pend(x, Value(VNil), tl, fl);
    var c, d := g.code[..n], g.code[..n] + [MergedNil(g.code[n], reg)];
    NilFront(g.code, n, p, g.base, g.lasttarget, reg);
    ShapePlain(c, MergedNil(g.code[n], reg), p, g.base, g.lasttarget);
    assert forall j :: j in tl + fl ==> j in p;
  }

  lemma NilRun(g: Gen, p: set<nat>, reg: nat, ord: Order, ks: seq<Val>, r: Regs)
    requires g.lasttarget < |g.code| && Connects(g.code[|g.code| - 1], reg) && g.base < |g.code|
    requires Shape(g.code, p, g.base, g.lasttarget) && Shape(g.code[..|g.code| - 1], p, g.base, g.lasttarget)
    ensures var n := |g.code| - 1;
      Exec(ord, ks, g.code[..n] + [MergedNil(g.code[n], reg)], p, g.base, r) ==
        Exec(ord, ks, g.code + [LoadNil(reg, 0)], p, g.base, r)
  {
    hide Shape, Exec, Effect;
    var n := |g.code| - 1;
    var c := g.code[..n];
    assert g.code == c + [g.code[n]];
    ExecPlain(ord, ks, c, g.code[n], p, g.base, g.lasttarget, r);
    ExecPlain(ord, ks, g.code, LoadNil(reg, 0), p, g.base, g.lasttarget, r);
    ExecPlain(ord, ks, c, MergedNil(g.code[n], reg), p, g.base, g.lasttarget, r);
    match Exec(ord, ks, c, p, g.base, r) {
      case Fall(r1) => NilsMerge(ks, g.code[n], reg, r1);
      case _ =>
    }
  }

  lemma ListStays(c: Code, d: Code, head: int, js: seq<nat>)
    requires IsList(c, head, js)
    requires forall j :: j in js ==> j < |d| && d[j] == c[j]
    ensures IsList(d, head, js)
  {
    assert forall i :: 0 <= i < |js| ==> js[i] in js;
  }

  /** A looser promise about the registers that stay. */
  lemma SkipMore(g: Gen, x: Ctx, f: Falls, tl: seq<nat>, fl: seq<nat>, ex: Expr, reg: nat)
    requires Coded(g, x, f, tl, fl, NO_REG, ex)
    ensures Coded(g, x, f, tl, fl, reg, ex)
  {
    hide Shape, Extends, Exec, Eval, Wf, Core, Pend, FallsOk, TrueExit, FalseExit;
    forall ord, ks, r | g.ks <= ks && |r| == NO_REG ensures MeansAt(x, g.base, g.code, f, tl, fl, reg, ex, ord, ks, r) {
      MeansHere(g, x, f, tl, fl, NO_REG, ex, ord, ks, r);
    }
  }

  /** A register that was free is not one that has to stay. */
  lemma SkipFree(g: Gen, x: Ctx, f: Falls, tl: seq<nat>, fl: seq<nat>, ex: Expr, reg: nat)
    requires Coded(g, x, f, tl, fl, reg, ex) && x.low <= reg
    ensures Coded(g, x, f, tl, fl, NO_REG, ex)
  {
    hide Shape, Extends, Exec, Eval, Wf, Core, Pend, FallsOk, TrueExit, FalseExit;
    forall ord, ks, r | g.ks <= ks && |r| == NO_REG
      ensures MeansAt(x, g.base, g.code, f, tl, fl, NO_REG, ex, ord, ks, r)
    {
      MeansHere(g, x, f, tl, fl, reg, ex, ord, ks, r);
    }
  }

  /** More constants. */
  lemma MoreConstants(g: Gen, x: Ctx, f: Falls, tl: seq<nat>, fl: seq<nat>, skip: nat, ex: Expr, ks: seq<Val>)
    requires Coded(g, x, f, tl, fl, skip, ex) && g.ks <= ks
    ensures Coded(g.(ks := ks), x, f, tl, fl, skip, ex)
  {
    hide Shape, Extends, Exec, Eval, Wf, MeansAt;
  }

  /** The instructions that load each kind of value. */
  lemma LoadsMove(c: Code, r: nat, reg: nat, ks: seq<Val>)
    ensures Loads(c, VNonReloc(r), Move(reg, r), reg, ks)
  {
  }

  lemma LoadsSimple(c: Code, reg: nat, ks: seq<Val>)
    ensures Loads(c, VFalse, LoadFalse(reg), reg, ks) && Loads(c, VTrue, LoadTrue(reg), reg, ks)
    ensures forall i :: Loads(c, VKInt(i), LoadI(reg, i), reg, ks)
  {
  }

  lemma LoadsConstant(c: Code, k: Kind, n: nat, reg: nat, ks: seq<Val>)
    requires n < |ks| && (k == VK(n) || (k.VKInt? && ks[n] == Int(k.ival)) || (k.VKStr? && ks[n] == Str(k.strval)))
    ensures Loads(c, k, LoadK(reg, n), reg, ks)
  {
  }

  lemma LoadsNot(c: Code, pc: nat, reg: nat, ks: seq<Val>)
    requires pc < |c| && c[pc].NotOp?
    ensures Loads(c, VReloc(pc), NotOp(reg, c[pc].b), reg, ks)
  {
  }

  /** An expression that needs no code yet: a constant or a local variable. */
  lemma FreshCoded(g: Gen, x: Ctx, k: Kind, ex: Expr)
    requires x.code == g.code && Shape(g.code, x.pend, g.base, g.lasttarget) && g.base <= |g.code|
    requires InScope(ex, g.nvars) && g.nvars <= x.low <= MAX_FSTACK && !k.VReloc? && !k.VJmp?
    requires forall ord, ks, r :: g.ks <= ks ==> KindValue(g.code, k, ks, r, Eval(ord, ex, r))
    ensures Coded(g, x, Value(k), [], [], NO_REG, ex)
  {
    hide Exec, KindValue;
    assert Pend(x, Value(k), [], []) == x.pend;
    forall ord, ks, r | g.ks <= ks && |r| == NO_REG
      ensures MeansAt(x, g.base, g.code, Value(k), [], [], NO_REG, ex, ord, ks, r)
    {
      match Exec(ord, ks, x.code, x.pend, g.base, r) {
        case Fall(r0) => assert KindValue(g.code, k, ks, r0, Eval(ord, ex, r0));
        case _ =>
      }
    }
  }

  /** The constant a kind stands for. */
  function ConstantOf(k: Kind): Val {
    match k
    case VTrue => True
    case VFalse => False
    case VKInt(i) => Int(i)
    case VKStr(s) => Str(s)
    case _ => Nil
  }

  predicate IsConstant(k: Kind) {
    k.VNil? || k.VTrue? || k.VFalse? || k.VKInt? || k.VKStr?
  }

  /** The same constant, found in the list of constants. */
  lemma CodedToK(g: Gen, x: Ctx, k: Kind, n: nat, ks1: seq<Val>, ex: Expr)
    requires Coded(g, x, Value(k), [], [], NO_REG, ex) && IsConstant(k) && g.ks <= ks1 && n < |ks1|
      && ks1[n] == ConstantOf(k)
    ensures Coded(g.(ks := ks1), x, Value(VK(n)), [], [], NO_REG, ex)
  {
    hide Exec, Eval, Shape, Extends;
    forall ord, ks, r | ks1 <= ks && |r| == NO_REG
      ensures MeansAt(x, g.base, g.code, Value(VK(n)), [], [], NO_REG, ex, ord, ks, r)
    {
      MeansHere(g, x, Value(k), [], [], NO_REG, ex, ord, ks, r);
    }
  }
}
