/** The instructions that boolean expressions compile to: what the virtual machine does
    with them, and how execution depends on jumps whose destination is not known yet. */
module LuaVm {

  datatype Val = Nil | False | True | Int(i: int) | Str(s: string) | Obj(id: nat)

  predicate Falsy(v: Val) {
    v.Nil? || v.False?
  }

  function Bool(b: bool): Val {
    if b then True else False
  }

  function Not(v: Val): Val {
    Bool(Falsy(v))
  }

  /** Comparisons, with whatever metamethods do: `<`, `<=` and `==` between objects. */
  datatype Order = Order(lt: (Val, Val) -> bool, le: (Val, Val) -> bool, same: (nat, nat) -> bool)

  predicate Equal(ord: Order, a: Val, b: Val) {
    a == b || (a.Obj? && b.Obj? && ord.same(a.id, b.id))
  }

  datatype Instr =
    | Move(a: nat, b: nat)
    | LoadI(a: nat, im: int)
    | LoadK(a: nat, bx: nat)
    | LoadKX(a: nat)
    | ExtraArg(ax: nat)
    | LoadNil(a: nat, n: nat)
    | LoadFalse(a: nat)
    | LFalseSkip(a: nat)
    | LoadTrue(a: nat)
    | NotOp(a: nat, b: nat)
    | Jmp(sj: int)
    | Test(a: nat, k: bool)
    | TestSet(a: nat, b: nat, k: bool)
    | Eq(a: nat, b: nat, k: bool)
    | EqK(a: nat, bx: nat, k: bool)
    | EqI(a: nat, im: int, k: bool)
    | Lt(a: nat, b: nat, k: bool)
    | Le(a: nat, b: nat, k: bool)
    | LtI(a: nat, im: int, k: bool)
    | LeI(a: nat, im: int, k: bool)
    | GtI(a: nat, im: int, k: bool)
    | GeI(a: nat, im: int, k: bool)

  predicate IsComparison(i: Instr) {
    i.Eq? || i.EqK? || i.EqI? || i.Lt? || i.Le? || i.LtI? || i.LeI? || i.GtI? || i.GeI?
  }

  /** testTMode: instructions that test something and skip the jump that follows them. */
  predicate IsTest(i: Instr) {
    i.Test? || i.TestSet? || IsComparison(i)
  }

  type Regs = seq<Val>
  type Code = seq<Instr>

  /** Number of registers of a function, which is also the register number that stands
      for none. */
  const NO_REG := 255

  function Get(r: Regs, i: nat): Val {
    if i < |r| then r[i] else Nil
  }

  function Set(r: Regs, i: nat, v: Val): (s: Regs)
    ensures |s| == |r|
    ensures forall j: nat :: Get(s, j) == if j == i && i < |r| then v else Get(r, j)
  {
    if i < |r| then r[i := v] else r
  }

  /** LOADNIL: registers `a` to `a + n`. */
  function SetNils(r: Regs, a: nat, n: nat): (s: Regs)
    ensures |s| == |r|
    ensures forall j: nat :: Get(s, j) == if a <= j <= a + n && j < |r| then Nil else Get(r, j)
  {
    seq(|r|, j requires 0 <= j < |r| => if a <= j <= a + n then Val.Nil else r[j])
  }

  function Constant(ks: seq<Val>, i: nat): Val {
    if i < |ks| then ks[i] else Nil
  }

  /** What a comparison compares. */
  predicate Holds(ord: Order, ks: seq<Val>, i: Instr, r: Regs)
    requires IsComparison(i)
  {
    match i
    case Eq(a, b, _) => Equal(ord, Get(r, a), Get(r, b))
    case EqK(a, bx, _) => Get(r, a) == Constant(ks, bx)
    case EqI(a, im, _) => Get(r, a) == Int(im)
    case Lt(a, b, _) => ord.lt(Get(r, a), Get(r, b))
    case Le(a, b, _) => ord.le(Get(r, a), Get(r, b))
    case LtI(a, im, _) => ord.lt(Get(r, a), Int(im))
    case LeI(a, im, _) => ord.le(Get(r, a), Int(im))
    case GtI(a, im, _) => ord.lt(Int(im), Get(r, a))
    case GeI(a, im, _) => ord.le(Int(im), Get(r, a))
    case _ => false
  }

  /** Does the test go on to the jump that follows it? */
  predicate Taken(ord: Order, ks: seq<Val>, i: Instr, r: Regs)
    requires IsTest(i)
  {
    match i
    case Test(a, k) => !Falsy(Get(r, a)) == k
    case TestSet(_, b, k) => Falsy(Get(r, b)) != k
    case _ => Holds(ord, ks, i, r) == i.k
  }

  /** The value TESTSET copies when its jump is taken. */
  function Copied(i: Instr, r: Regs): (s: Regs)
    ensures |s| == |r|
  {
    if i.TestSet? then Set(r, i.a, Get(r, i.b)) else r
  }

  /** Effect on the registers of an instruction that is neither a test nor a jump. */
  function Effect(ks: seq<Val>, i: Instr, r: Regs): (s: Regs)
    ensures |s| == |r|
  {
    match i
    case Move(a, b) => Set(r, a, Get(r, b))
    case LoadI(a, im) => Set(r, a, Int(im))
    case LoadK(a, bx) => Set(r, a, Constant(ks, bx))
    case LoadNil(a, n) => SetNils(r, a, n)
    case LoadFalse(a) => Set(r, a, False)
    case LFalseSkip(a) => Set(r, a, False)
    case LoadTrue(a) => Set(r, a, True)
    case NotOp(a, b) => Set(r, a, Not(Get(r, b)))
    case _ => r
  }

  /** One step of the virtual machine; `pc` past the code means it stopped there. */
  function VmStep(ord: Order, ks: seq<Val>, code: Code, pc: nat, r: Regs): (nat, Regs) {
    if pc >= |code| then (pc, r)
    else
      var i := code[pc];
      if IsTest(i) then
        if !Taken(ord, ks, i, r) then (pc + 2, r)
        else if pc + 1 < |code| && code[pc + 1].Jmp? && pc + 2 + code[pc + 1].sj >= 0 then
          (pc + 2 + code[pc + 1].sj, Copied(i, r))
        else (pc, r)
      else if i.Jmp? then (if pc + 1 + i.sj >= 0 then pc + 1 + i.sj else pc, r)
      else if i.LFalseSkip? then (pc + 2, Effect(ks, i, r))
      else if i.LoadKX? then
        (pc + 2, if pc + 1 < |code| && code[pc + 1].ExtraArg? then Set(r, i.a, Constant(ks, code[pc + 1].ax)) else r)
      else (pc + 1, Effect(ks, i, r))
  }

  function VmRun(ord: Order, ks: seq<Val>, code: Code, pc: nat, r: Regs, steps: nat): (nat, Regs)
    decreases steps
  {
    if steps == 0 then (pc, r)
    else
      var (pc1, r1) := VmStep(ord, ks, code, pc, r);
      VmRun(ord, ks, code, pc1, r1, steps - 1)
  }

  /** Outcome of running code some of whose jumps are still pending: it falls off the end,
      or takes a pending jump, or does something the compiler never lets happen. */
  datatype Outcome = Fall(regs: Regs) | Exit(at: nat, regs: Regs) | Stuck

  datatype Next = Go(pc: nat, regs: Regs) | Stop(out: Outcome)

  function Forward(pc: nat, target: int, size: nat, r: Regs): Next {
    if pc < target <= size then Go(target, r) else Stop(Stuck)
  }

  function StepIn(ord: Order, ks: seq<Val>, code: Code, pend: set<nat>, pc: nat, r: Regs): (n: Next)
    requires pc < |code|
    ensures n.Go? ==> pc < n.pc
  {
    var i := code[pc];
    if IsTest(i) then
      if pc + 1 < |code| && code[pc + 1].Jmp? then
        if !Taken(ord, ks, i, r) then Forward(pc, pc + 2, |code|, r)
        else if pc + 1 in pend then Stop(Exit(pc + 1, Copied(i, r)))
        else Forward(pc, pc + 2 + code[pc + 1].sj, |code|, Copied(i, r))
      else Stop(Stuck)
    else if i.Jmp? then
      if pc > 0 && IsTest(code[pc - 1]) then Stop(Stuck)
      else if pc in pend then Stop(Exit(pc, r))
      else Forward(pc, pc + 1 + i.sj, |code|, r)
    else if i.LFalseSkip? then Forward(pc, pc + 2, |code|, Effect(ks, i, r))
    else if i.LoadKX? then
      if pc + 1 < |code| && code[pc + 1].ExtraArg? then Go(pc + 2, Set(r, i.a, Constant(ks, code[pc + 1].ax)))
      else Stop(Stuck)
    else if i.ExtraArg? then Stop(Stuck)
    else Go(pc + 1, Effect(ks, i, r))
  }

  /** Runs code whose resolved jumps all go forward. A jump controlled by a test is only
      ever taken through its test. */
  function Exec(ord: Order, ks: seq<Val>, code: Code, pend: set<nat>, pc: nat, r: Regs): Outcome
    decreases |code| - pc
  {
    if pc > |code| then Stuck
    else if pc == |code| then Fall(r)
    else
      match StepIn(ord, ks, code, pend, pc, r)
      case Stop(out) => out
      case Go(pc1, r1) => if pc1 <= |code| then Exec(ord, ks, code, pend, pc1, r1) else Stuck
  }

  /** With nothing pending, this is what the virtual machine does. */
  lemma {:induction false} ExecIsVm(ord: Order, ks: seq<Val>, code: Code, pc: nat, r: Regs) returns (steps: nat)
    requires Exec(ord, ks, code, {}, pc, r).Fall?
    ensures VmRun(ord, ks, code, pc, r, steps) == (|code|, Exec(ord, ks, code, {}, pc, r).regs)
    decreases |code| - pc
  {
    if pc == |code| {
      steps := 0;
    } else {
      var n := StepIn(ord, ks, code, {}, pc, r);
      var rest := ExecIsVm(ord, ks, code, n.pc, n.regs);
      assert VmStep(ord, ks, code, pc, r) == (n.pc, n.regs);
      steps := rest + 1;
    }
  }

  /** No instruction before `n` leads beyond `n`. */
  predicate Inside(code: Code, pend: set<nat>, from: nat, n: nat)
    requires n <= |code|
  {
    forall i :: from <= i < n ==>
      && (IsTest(code[i]) ==> i + 2 <= n)
      && (code[i].Jmp? && i !in pend ==> i + 1 + code[i].sj <= n)
      && (code[i].LFalseSkip? || code[i].LoadKX? ==> i + 2 <= n)
  }

  function Then(ord: Order, ks: seq<Val>, code: Code, pend: set<nat>, n: nat, o: Outcome): Outcome {
    match o
    case Fall(r1) => Exec(ord, ks, code, pend, n, r1)
    case _ => o
  }

  /** Running code is running its first part, then the rest from where that ended. */
  lemma {:induction false} ExecSplit(ord: Order, ks: seq<Val>, code: Code, pend: set<nat>, pend0: set<nat>, from: nat,
          n: nat, pc: nat, r: Regs)
    requires from <= pc <= n <= |code| && Inside(code, pend, from, n)
    requires forall j :: j < n ==> (j in pend <==> j in pend0)
    ensures Exec(ord, ks, code, pend, pc, r) == Then(ord, ks, code, pend, n, Exec(ord, ks, code[..n], pend0, pc, r))
    decreases n - pc
  {
    if pc < n {
      var a, b := StepIn(ord, ks, code, pend, pc, r), StepIn(ord, ks, code[..n], pend0, pc, r);
      assert code[..n][pc] == code[pc] && (pc + 1 < n ==> code[..n][pc + 1] == code[pc + 1]);
      assert a == b;
      if a.Go? { ExecSplit(ord, ks, code, pend, pend0, from, n, a.pc, a.regs); }
    }
  }

  /** Links of pending jumps, and registers of tests that copy nothing, do not matter. */
  predicate SameInstr(a: Instr, b: Instr, pending: bool) {
    || a == b
    || (pending && a.Jmp? && b.Jmp?)
    || (a.TestSet? && a.a == NO_REG && b == Test(a.b, a.k))
  }

  predicate SameCode(c: Code, d: Code, pend: set<nat>) {
    |c| == |d| && forall i :: 0 <= i < |c| ==> SameInstr(c[i], d[i], i in pend)
  }

  lemma {:induction false} ExecSame(ord: Order, ks: seq<Val>, c: Code, d: Code, pend: set<nat>, pc: nat, r: Regs)
    requires SameCode(c, d, pend) && |r| <= NO_REG
    ensures Exec(ord, ks, c, pend, pc, r) == Exec(ord, ks, d, pend, pc, r)
    decreases |c| - pc
  {
    if pc < |c| {
      var a, b := StepIn(ord, ks, c, pend, pc, r), StepIn(ord, ks, d, pend, pc, r);
      assert SameInstr(c[pc], d[pc], pc in pend);
      assert pc + 1 < |c| ==> SameInstr(c[pc + 1], d[pc + 1], pc + 1 in pend);
      assert pc > 0 ==> SameInstr(c[pc - 1], d[pc - 1], pc - 1 in pend);
      assert a == b by {
        if c[pc].TestSet? && c[pc].a == NO_REG { assert Set(r, NO_REG, Get(r, c[pc].b)) == r; }
      }
      if a.Go? && a.pc <= |c| { ExecSame(ord, ks, c, d, pend, a.pc, a.regs); }
    }
  }

  /** Is the jump at `j` controlled by a test that produces a value? */
  predicate Produces(c: Code, j: nat) {
    0 < j <= |c| && c[j - 1].TestSet?
  }

  function PatchTarget(c: Code, j: nat, vtarget: nat, dtarget: nat): nat {
    if Produces(c, j) then vtarget else dtarget
  }

  /** A test that produces a value, once the register for the value is known. */
  function PatchedTest(i: Instr, reg: nat): Instr
    requires i.TestSet?
  {
    if reg != NO_REG && reg != i.b then TestSet(reg, i.b, i.k) else Test(i.b, i.k)
  }

  /** `d` is `c` with the jumps of `l`, and the tests that control them, patched. */
  predicate Patched(c: Code, d: Code, l: set<nat>, vtarget: nat, reg: nat, dtarget: nat) {
    && |c| == |d|
    && forall i :: 0 <= i < |c| ==>
         d[i] == PatchedInstr(c, l, i, vtarget, reg, dtarget)
  }

  function PatchedInstr(c: Code, l: set<nat>, i: nat, vtarget: nat, reg: nat, dtarget: nat): Instr
    requires i < |c|
  {
    if i in l then Jmp(PatchTarget(c, i, vtarget, dtarget) - (i + 1))
    else if i + 1 in l && c[i].TestSet? then PatchedTest(c[i], reg)
    else c[i]
  }

  /** Jumps that wait to be patched, with tests that copy nothing yet. */
  predicate Patchable(c: Code, l: set<nat>) {
    forall j :: j in l ==> j < |c| && c[j].Jmp? && (Produces(c, j) ==> c[j - 1].a == NO_REG)
  }

  /** Where a patched jump goes on, and with which registers. */
  function Resumed(c: Code, j: nat, reg: nat, r: Regs): (s: Regs)
    ensures |s| == |r|
  {
    if Produces(c, j) && reg != NO_REG then Set(r, reg, Get(r, c[j - 1].b)) else r
  }

  function Resume(ord: Order, ks: seq<Val>, c: Code, d: Code, pend: set<nat>, l: set<nat>, vtarget: nat, reg: nat,
          dtarget: nat, o: Outcome): Outcome {
    match o
    case Exit(j, r1) => if j in l
      then Exec(ord, ks, d, pend, PatchTarget(c, j, vtarget, dtarget), Resumed(c, j, reg, r1)) else o
    case _ => o
  }

  /** Patching a list of jumps retargets all of them and nothing else. */
  lemma {:induction false} ExecPatched(ord: Order, ks: seq<Val>, c: Code, d: Code, pend: set<nat>, l: set<nat>,
          vtarget: nat, reg: nat, dtarget: nat, pc: nat, r: Regs)
    requires Patched(c, d, l, vtarget, reg, dtarget) && Patchable(c, l) && l <= pend && |r| <= NO_REG
    requires forall j :: j in l ==> j < PatchTarget(c, j, vtarget, dtarget) <= |c|
    ensures Exec(ord, ks, d, pend - l, pc, r) ==
            Resume(ord, ks, c, d, pend - l, l, vtarget, reg, dtarget, Exec(ord, ks, c, pend, pc, r))
    decreases |c| - pc
  {
    if pc < |c| {
      PatchedStep(ord, ks, c, d, pend, l, vtarget, reg, dtarget, pc, r);
      var a := StepIn(ord, ks, c, pend, pc, r);
      if a.Go? && a.pc <= |c| {
        ExecPatched(ord, ks, c, d, pend, l, vtarget, reg, dtarget, a.pc, a.regs);
      }
    }
  }

  lemma PatchedOne(c: Code, d: Code, l: set<nat>, vtarget: nat, reg: nat, dtarget: nat, i: nat)
    requires Patched(c, d, l, vtarget, reg, dtarget) && Patchable(c, l) && i < |c|
    ensures |d| == |c| && d[i] == PatchedInstr(c, l, i, vtarget, reg, dtarget)
    ensures (IsTest(c[i]) <==> IsTest(d[i])) && (c[i].Jmp? <==> d[i].Jmp?)
  {
  }

  lemma PatchedStep(ord: Order, ks: seq<Val>, c: Code, d: Code, pend: set<nat>, l: set<nat>, vtarget: nat, reg: nat,
          dtarget: nat, pc: nat, r: Regs)
    requires Patched(c, d, l, vtarget, reg, dtarget) && Patchable(c, l) && l <= pend && |r| <= NO_REG && pc < |c|
    requires forall j :: j in l ==> j < PatchTarget(c, j, vtarget, dtarget) <= |c|
    ensures var a, b := StepIn(ord, ks, c, pend, pc, r), StepIn(ord, ks, d, pend - l, pc, r);
      if a.Stop? && a.out.Exit? && a.out.at in l
      then b == Go(PatchTarget(c, a.out.at, vtarget, dtarget), Resumed(c, a.out.at, reg, a.out.regs))
      else b == a
  {
    PatchedOne(c, d, l, vtarget, reg, dtarget, pc);
    if pc > 0 { PatchedOne(c, d, l, vtarget, reg, dtarget, pc - 1); }
    if pc + 1 < |c| { PatchedOne(c, d, l, vtarget, reg, dtarget, pc + 1); }
    hide Patched;
    if IsTest(c[pc]) && pc + 1 < |c| && c[pc + 1].Jmp? {
      assert Taken(ord, ks, d[pc], r) == Taken(ord, ks, c[pc], r);
      if pc + 1 in l && c[pc].TestSet? { CopiesNothing(c[pc], reg, r); }
    }
  }

  lemma CopiesNothing(i: Instr, reg: nat, r: Regs)
    requires i.TestSet? && i.a == NO_REG && |r| <= NO_REG
    ensures Copied(i, r) == r
    ensures Copied(PatchedTest(i, reg), r) == if reg != NO_REG then Set(r, reg, Get(r, i.b)) else r
  {
  }
}
