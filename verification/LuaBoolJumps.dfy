/** Conditional jumps: what testing a value, linking a jump into a list, patching a list
    and negating do to code that computes an expression. */
module LuaBoolJumps {
  import opened LuaVm
  import opened LuaBool

  /** Outcome of a test whose jump is pending, after the outcome `o` of the code before. */
  function Tested(o: Outcome, ord: Order, ks: seq<Val>, i: Instr, pc: nat): Outcome
    requires IsTest(i)
  {
    match o
    case Fall(r1) => if Taken(ord, ks, i, r1) then Exit(pc, r1) else Fall(r1)
    case _ => o
  }

  /** Tests that leave the registers alone. */
  predicate Quiet(i: Instr) {
    IsTest(i) && (i.TestSet? ==> i.a == NO_REG)
  }

  lemma RunTest(ord: Order, ks: seq<Val>, c: Code, i: Instr, sj: int, pend: set<nat>, r: Regs)
    requires Quiet(i) && |c| + 1 in pend && |r| <= NO_REG
    ensures Exec(ord, ks, c + [i, Jmp(sj)], pend, |c|, r) == Tested(Fall(r), ord, ks, i, |c| + 1)
  {
    var d := c + [i, Jmp(sj)];
    assert d[|c|] == i && d[|c| + 1] == Jmp(sj);
    assert Copied(i, r) == r;
  }

  lemma ExecTest(ord: Order, ks: seq<Val>, c: Code, i: Instr, sj: int, pend: set<nat>, base: nat, lasttarget: nat,
          r: Regs)
    requires Shape(c, pend, base, lasttarget) && base <= |c| && Quiet(i) && |r| <= NO_REG
    ensures Exec(ord, ks, c + [i, Jmp(sj)], pend + {|c| + 1}, base, r) ==
      Tested(Exec(ord, ks, c, pend, base, r), ord, ks, i, |c| + 1)
  {
    hide Shape, Exec;
    ExecAppend(ord, ks, c, [i, Jmp(sj)], pend, pend + {|c| + 1}, base, lasttarget, r);
    FallSize(ord, ks, c, pend, base, r);
    match Exec(ord, ks, c, pend, base, r) {
      case Fall(r1) => RunTest(ord, ks, c, i, sj, pend + {|c| + 1}, r1);
      case _ =>
    }
  }

  lemma ShapeTest(c: Code, i: Instr, pend: set<nat>, base: nat, lasttarget: nat)
    requires Shape(c, pend, base, lasttarget) && base <= |c| && Quiet(i)
    ensures Shape(c + [i, Jmp(NO_JUMP)], pend + {|c| + 1}, base, lasttarget)
  {
    var d, p := c + [i, Jmp(NO_JUMP)], pend + {|c| + 1};
    forall j | base <= j < |d| ensures ShapeAt(d, p, lasttarget, j) {
      if j < |c| { assert ShapeAt(c, pend, lasttarget, j); }
    }
    forall j | j in p ensures j < |d| && d[j].Jmp? && (Produces(d, j) ==> d[j - 1].a == NO_REG) {
      if j in pend && j > 0 { assert d[j - 1] == c[j - 1]; }
    }
  }

  /** The lists once the jump at `pc` joined the one for `cond`. */
  function Add(js: seq<nat>, add: bool, pc: nat): seq<nat> {
    if add then js + [pc] else js
  }

  /** `i` tests the value described by `k`: the jump is taken when its truth is `cond`. */
  ghost predicate TestsFor(c: Code, k: Kind, i: Instr, cond: bool) {
    && Quiet(i) && !IsComparison(i)
    && forall ord, ks, r1, v :: KindValue(c, k, ks, r1, v) ==>
         && (Taken(ord, ks, i, r1) <==> (!Falsy(v) == cond))
         && (if i.TestSet? then Get(r1, i.b) == v else v == Bool(!Falsy(v)))
  }

  lemma TestsRegister(c: Code, reg: nat, cond: bool)
    ensures TestsFor(c, VNonReloc(reg), TestSet(NO_REG, reg, cond), cond)
  {
    var i := TestSet(NO_REG, reg, cond);
    forall ord, ks, r1, v | KindValue(c, VNonReloc(reg), ks, r1, v)
      ensures (Taken(ord, ks, i, r1) <==> (!Falsy(v) == cond)) && Get(r1, i.b) == v
    {
      assert Get(r1, reg) == v;
    }
  }

  lemma TestsNot(c: Code, pc: nat, cond: bool)
    requires pc < |c| && c[pc].NotOp?
    ensures TestsFor(c, VReloc(pc), Test(c[pc].b, !cond), cond)
  {
  }

  lemma GoodTest(c: Code, d: Code, k: Kind, tl: seq<nat>, fl: seq<nat>, low: nat, ord: Order, ks: seq<Val>, r0: Regs,
          v: Val, o: Outcome, i: Instr, cond: bool, pc: nat)
    requires Good(c, Value(k), tl, fl, low, NO_REG, ks, r0, v, o) && !k.VJmp? && SameExits(c, d, tl, fl)
    requires TestsFor(c, k, i, cond) && 0 < pc < |d| && d[pc - 1] == i
    ensures Good(d, Truth(!cond), Add(tl, cond, pc), Add(fl, !cond, pc), low, NO_REG, ks, r0, v,
      Tested(o, ord, ks, i, pc))
  {
    hide KindValue;
    match o {
      case Fall(r1) =>
        assert KindValue(c, k, ks, r1, v);
        assert Produces(d, pc) <==> i.TestSet?;
      case Exit(j, r1) =>
        assert j in tl || j in fl ==> j in tl + fl;
        if j in tl { assert j in Add(tl, cond, pc); }
        if j in fl { assert j in Add(fl, !cond, pc); }
      case Stuck =>
    }
  }

  /** jumponcond: a test and a pending jump after the value. */
  lemma PutTest(g: Gen, x: Ctx, k: Kind, tl: seq<nat>, fl: seq<nat>, ex: Expr, i: Instr, cond: bool)
    requires Coded(g, x, Value(k), tl, fl, NO_REG, ex) && !k.VJmp? && TestsFor(g.code, k, i, cond)
    ensures var c := Core(g.code, Value(k));
      Coded(g.(code := c + [i, Jmp(NO_JUMP)]), x, Truth(!cond), Add(tl, cond, |c| + 1), Add(fl, !cond, |c| + 1),
        NO_REG, ex)
  {
    hide Shape, Extends, Exec, Good, KindValue, Eval, Wf, MeansAt, TestsFor;
    var f, c := Value(k), Core(g.code, Value(k));
    var p, d, pc := Pend(x, f, tl, fl), c + [i, Jmp(NO_JUMP)], |c| + 1;
    var w, tl1, fl1 := Truth(!cond), Add(tl, cond, pc), Add(fl, !cond, pc);
    CoreShape(g, x, f, tl, fl);
    QuietTest(g.code, k, i, cond);
    ShapeTest(c, i, p, g.base, g.lasttarget);
    ExtendsTrans(x.code, c, d) by { ExtendsMore(c, [i, Jmp(NO_JUMP)]); }
    WfTest(g, x, k, tl, fl, i, cond);
    forall ord, ks, r | g.ks <= ks && |r| == NO_REG
      ensures MeansAt(x, g.base, d, w, tl1, fl1, NO_REG, ex, ord, ks, r)
    {
      PutTestAt(g, x, k, tl, fl, ex, i, cond, ord, ks, r);
    }
  }

  lemma QuietTest(c: Code, k: Kind, i: Instr, cond: bool)
    requires TestsFor(c, k, i, cond)
    ensures Quiet(i)
  {
  }

  lemma WfTest(g: Gen, x: Ctx, k: Kind, tl: seq<nat>, fl: seq<nat>, i: Instr, cond: bool)
    requires Shape(g.code, Pend(x, Value(k), tl, fl), g.base, g.lasttarget)
      && Wf(x, g.code, g.lasttarget, Value(k), tl, fl) && !k.VJmp?
    requires Extends(x.code, Core(g.code, Value(k)))
    ensures var c := Core(g.code, Value(k));
      var d, tl1, fl1 := c + [i, Jmp(NO_JUMP)], Add(tl, cond, |c| + 1), Add(fl, !cond, |c| + 1);
      && Wf(x, d, g.lasttarget, Truth(!cond), tl1, fl1)
      && Pend(x, Truth(!cond), tl1, fl1) == Pend(x, Value(k), tl, fl) + {|c| + 1}
      && SameExits(g.code, d, tl, fl)
  {
    var c := Core(g.code, Value(k));
    var d, tl1, fl1 := c + [i, Jmp(NO_JUMP)], Add(tl, cond, |c| + 1), Add(fl, !cond, |c| + 1);
    assert forall j :: j in tl + fl ==> j in Pend(x, Value(k), tl, fl);
    assert Elems(tl1) == Elems(tl) + (if cond then {|c| + 1} else {});
    assert Elems(fl1) == Elems(fl) + (if cond then {} else {|c| + 1});
    StayAll(g, x, Value(k), tl, fl, g.code, d);
    forall j | j in tl1 + fl1 ensures |x.code| <= j && (Produces(d, j) ==> |x.code| < j) {
      if j != |c| + 1 { assert j in tl + fl; }
    }
  }

  lemma PutTestAt(g: Gen, x: Ctx, k: Kind, tl: seq<nat>, fl: seq<nat>, ex: Expr, i: Instr, cond: bool, ord: Order,
          ks: seq<Val>, r: Regs)
    requires Coded(g, x, Value(k), tl, fl, NO_REG, ex) && !k.VJmp? && TestsFor(g.code, k, i, cond)
    requires g.ks <= ks && |r| == NO_REG
    ensures var c := Core(g.code, Value(k));
      MeansAt(x, g.base, c + [i, Jmp(NO_JUMP)], Truth(!cond), Add(tl, cond, |c| + 1), Add(fl, !cond, |c| + 1), NO_REG,
        ex, ord, ks, r)
  {
    hide Means, Shape, Extends, Exec, Good, KindValue, Eval, Wf, TestsFor, Tested, Add;
    var f, c := Value(k), Core(g.code, Value(k));
    var p, d := Pend(x, f, tl, fl), c + [i, Jmp(NO_JUMP)];
    MeansHere(g, x, f, tl, fl, NO_REG, ex, ord, ks, r);
    CoreShape(g, x, f, tl, fl);
    QuietTest(g.code, k, i, cond);
    WfTest(g, x, k, tl, fl, i, cond);
    ExecTest(ord, ks, c, i, NO_JUMP, p, g.base, g.lasttarget, r);
    assert Core(d, Truth(!cond)) == d;
    match Exec(ord, ks, x.code, x.pend, g.base, r) {
      case Fall(r0) =>
        GoodTest(g.code, d, k, tl, fl, x.low, ord, ks, r0, Eval(ord, ex, r0), Exec(ord, ks, c, p, g.base, r), i, cond,
          |c| + 1);
      case Exit(j, r1) => TestedExit(ord, ks, i, |c| + 1, j, r1);
      case Stuck =>
    }
  }

  lemma TestedExit(ord: Order, ks: seq<Val>, i: Instr, pc: nat, j: nat, r: Regs)
    requires IsTest(i)
    ensures Tested(Exit(j, r), ord, ks, i, pc) == Exit(j, r)
  {
  }

  /** Kinds whose truth is known. */
  predicate Always(k: Kind, holds: bool) {
    if holds then k.VTrue? || k.VKInt? || k.VKStr? else k.VNil? || k.VFalse?
  }

  lemma AlwaysHolds(g: Gen, x: Ctx, k: Kind, tl: seq<nat>, fl: seq<nat>, ex: Expr, holds: bool)
    requires Coded(g, x, Value(k), tl, fl, NO_REG, ex) && Always(k, holds)
    ensures Coded(g, x, Truth(holds), tl, fl, NO_REG, ex)
  {
    hide Shape, Extends, Exec, Eval;
    var w := Truth(holds);
    assert Pend(x, w, tl, fl) == Pend(x, Value(k), tl, fl);
    forall ord, ks, r | g.ks <= ks && |r| == NO_REG
      ensures MeansAt(x, g.base, g.code, w, tl, fl, NO_REG, ex, ord, ks, r)
    {
      MeansHere(g, x, Value(k), tl, fl, NO_REG, ex, ord, ks, r);
    }
  }

  /** goiffalse on a comparison: it already jumps when true. */
  lemma JumpIfTrue(g: Gen, x: Ctx, tl: seq<nat>, fl: seq<nat>, ex: Expr, pc: nat)
    requires Coded(g, x, Value(VJmp(pc)), tl, fl, NO_REG, ex)
    ensures Coded(g, x, Truth(false), tl + [pc], fl, NO_REG, ex)
  {
    hide Shape, Extends, Exec, Eval, Wf;
    var w := Truth(false);
    JumpPlace(g, x, tl, fl, pc);
    WfJump(g, x, tl, fl, pc, g.code);
    assert Elems(tl + [pc]) == Elems(tl) + {pc};
    assert Pend(x, w, tl + [pc], fl) == Pend(x, Value(VJmp(pc)), tl, fl);
    assert !Produces(g.code, pc);
    forall ord, ks, r | g.ks <= ks && |r| == NO_REG
      ensures MeansAt(x, g.base, g.code, w, tl + [pc], fl, NO_REG, ex, ord, ks, r)
    {
      MeansHere(g, x, Value(VJmp(pc)), tl, fl, NO_REG, ex, ord, ks, r);
    }
  }

  /** The comparison with its sense inverted. */
  function Negated(i: Instr): Instr
    requires IsComparison(i)
  {
    i.(k := !i.k)
  }

  /** negatecondition. */
  lemma Negate(g: Gen, x: Ctx, tl: seq<nat>, fl: seq<nat>, ex: Expr, pc: nat)
    requires Coded(g, x, Value(VJmp(pc)), tl, fl, NO_REG, ex)
    ensures 0 < pc < |g.code| && IsComparison(g.code[pc - 1])
    ensures Coded(g.(code := g.code[pc - 1 := Negated(g.code[pc - 1])]), x, Truth(true), tl, fl + [pc], NO_REG, ex)
  {
    hide Shape, Extends, Exec, Eval, Wf, MeansAt;
    JumpPlace(g, x, tl, fl, pc);
    var n, i := pc - 1, g.code[pc - 1];
    var c, d := g.code[..n], g.code[pc - 1 := Negated(i)];
    NegateShape(g, x, tl, fl, pc);
    var w := Truth(true);
    forall ord, ks, r | g.ks <= ks && |r| == NO_REG
      ensures MeansAt(x, g.base, d, w, tl, fl + [pc], NO_REG, ex, ord, ks, r)
    {
      NegateAt(g, x, tl, fl, ex, pc, ord, ks, r);
    }
  }

  lemma JumpPlace(g: Gen, x: Ctx, tl: seq<nat>, fl: seq<nat>, pc: nat)
    requires Wf(x, g.code, g.lasttarget, Value(VJmp(pc)), tl, fl)
    ensures 0 < pc == |g.code| - 1 && IsComparison(g.code[pc - 1]) && g.code[pc] == Jmp(NO_JUMP) && g.lasttarget < pc
    ensures g.code == g.code[..pc - 1] + [g.code[pc - 1], Jmp(NO_JUMP)]
    ensures g.code[pc - 1 := Negated(g.code[pc - 1])] == g.code[..pc - 1] + [Negated(g.code[pc - 1]), Jmp(NO_JUMP)]
  {
  }

  /** The jump of a comparison may join either list. */
  lemma WfJump(g: Gen, x: Ctx, tl: seq<nat>, fl: seq<nat>, pc: nat, d: Code)
    requires Wf(x, g.code, g.lasttarget, Value(VJmp(pc)), tl, fl)
    requires SameExits(g.code, d, tl, fl) && !Produces(d, pc)
    ensures Wf(x, d, g.lasttarget, Truth(false), tl + [pc], fl) && Wf(x, d, g.lasttarget, Truth(true), tl, fl + [pc])
    ensures !Produces(g.code, pc) && pc !in tl && pc !in fl
  {
    assert Elems(tl + [pc]) == Elems(tl) + {pc} && Elems(fl + [pc]) == Elems(fl) + {pc};
    forall j | j in tl + [pc] + fl || j in tl + (fl + [pc]) ensures |x.code| <= j && (Produces(d, j) ==> |x.code| < j) {
      if j != pc { assert j in tl + fl; }
    }
  }

  /** The code before a comparison at the end, and the code with it inverted. */
  lemma NegateShape(g: Gen, x: Ctx, tl: seq<nat>, fl: seq<nat>, pc: nat)
    requires Shape(g.code, Pend(x, Value(VJmp(pc)), tl, fl), g.base, g.lasttarget)
      && Wf(x, g.code, g.lasttarget, Value(VJmp(pc)), tl, fl)
    requires Extends(x.code, g.code) && g.base <= |x.code|
    requires 0 < pc < |g.code| && IsComparison(g.code[pc - 1])
    ensures var p, d := Pend(x, Value(VJmp(pc)), tl, fl), g.code[pc - 1 := Negated(g.code[pc - 1])];
      && pc in p && g.base <= pc - 1 && Shape(g.code[..pc - 1], p - {pc}, g.base, g.lasttarget)
      && Shape(d, p, g.base, g.lasttarget) && Extends(x.code, d)
      && Pend(x, Truth(true), tl, fl + [pc]) == p
      && Wf(x, d, g.lasttarget, Truth(true), tl, fl + [pc])
      && SameExits(g.code, d, tl, fl) && !Produces(d, pc) && pc !in tl && pc !in fl
  {
    hide Shape;
    var p, d := Pend(x, Value(VJmp(pc)), tl, fl), g.code[pc - 1 := Negated(g.code[pc - 1])];
    assert Elems(fl + [pc]) == Elems(fl) + {pc};
    JumpPlace(g, x, tl, fl, pc);
    assert SameExits(g.code, d, tl, fl);
    WfJump(g, x, tl, fl, pc, d);
    ShapeBefore(g.code, p, g.base, g.lasttarget, pc);
    ShapeNegated(g.code, d, p, g.base, g.lasttarget, pc);
  }

  lemma ShapeBefore(code: Code, p: set<nat>, base: nat, lasttarget: nat, pc: nat)
    requires Shape(code, p, base, lasttarget) && 0 < pc == |code| - 1 && lasttarget < pc && base <= pc - 1
      && IsTest(code[pc - 1]) && pc in p
    ensures Shape(code[..pc - 1], p - {pc}, base, lasttarget)
  {
    var c := code[..pc - 1];
    forall i | base <= i < |c| ensures ShapeAt(c, p - {pc}, lasttarget, i) {
      assert ShapeAt(code, p, lasttarget, i);
    }
    forall j | j in p - {pc} ensures base <= j < |c| && c[j].Jmp? && (Produces(c, j) ==> c[j - 1].a == NO_REG) {
      assert code[j].Jmp? && j != pc - 1;
    }
  }

  lemma ShapeNegated(c: Code, d: Code, p: set<nat>, base: nat, lasttarget: nat, pc: nat)
    requires Shape(c, p, base, lasttarget) && 0 < pc < |c| && IsComparison(c[pc - 1])
      && d == c[pc - 1 := Negated(c[pc - 1])]
    ensures Shape(d, p, base, lasttarget)
  {
    forall i | base <= i < |d| ensures ShapeAt(d, p, lasttarget, i) {
      assert ShapeAt(c, p, lasttarget, i);
    }
  }

  lemma NegateAt(g: Gen, x: Ctx, tl: seq<nat>, fl: seq<nat>, ex: Expr, pc: nat, ord: Order, ks: seq<Val>, r: Regs)
    requires Coded(g, x, Value(VJmp(pc)), tl, fl, NO_REG, ex) && g.ks <= ks && |r| == NO_REG
    requires 0 < pc < |g.code| && IsComparison(g.code[pc - 1])
    ensures MeansAt(x, g.base, g.code[pc - 1 := Negated(g.code[pc - 1])], Truth(true), tl, fl + [pc], NO_REG, ex, ord,
      ks, r)
  {
    hide Means, Shape, Extends, Exec, Eval, Wf, Tested, Good;
    var i, c, d := g.code[pc - 1], g.code[..pc - 1], g.code[pc - 1 := Negated(g.code[pc - 1])];
    var p := Pend(x, Value(VJmp(pc)), tl, fl);
    MeansHere(g, x, Value(VJmp(pc)), tl, fl, NO_REG, ex, ord, ks, r);
    JumpPlace(g, x, tl, fl, pc);
    NegateShape(g, x, tl, fl, pc);
    assert p - {pc} + {pc} == p;
    ExecTest(ord, ks, c, i, NO_JUMP, p - {pc}, g.base, g.lasttarget, r);
    ExecTest(ord, ks, c, Negated(i), NO_JUMP, p - {pc}, g.base, g.lasttarget, r);
    var o := Exec(ord, ks, c, p - {pc}, g.base, r);
    match Exec(ord, ks, x.code, x.pend, g.base, r) {
      case Fall(r0) =>
        PendingTaken(ord, ks, c, p - {pc}, g.base, r);
        GoodNegate(g.code, d, tl, fl, x.low, ord, ks, r0, Eval(ord, ex, r0), o, i, pc);
      case Exit(j, r1) =>
        PendingTaken(ord, ks, x.code, x.pend, g.base, r);
        assert j != pc by { BeforeJump(g, x, tl, fl, pc); }
        NegateExit(ord, ks, o, i, pc, j, r1);
      case Stuck =>
    }
  }

  /** An exit is through a pending jump of the code. */
  lemma {:induction false} PendingTaken(ord: Order, ks: seq<Val>, c: Code, pend: set<nat>, pc: nat, r: Regs)
    ensures var o := Exec(ord, ks, c, pend, pc, r); o.Exit? ==> o.at in pend && o.at < |c|
    decreases |c| - pc
  {
    if pc < |c| {
      var n := StepIn(ord, ks, c, pend, pc, r);
      if n.Go? && n.pc <= |c| { PendingTaken(ord, ks, c, pend, n.pc, n.regs); }
    }
  }

  lemma BeforeJump(g: Gen, x: Ctx, tl: seq<nat>, fl: seq<nat>, pc: nat)
    requires Wf(x, g.code, g.lasttarget, Value(VJmp(pc)), tl, fl)
    ensures |x.code| < pc
  {
  }

  lemma GoodNegate(c: Code, d: Code, tl: seq<nat>, fl: seq<nat>, low: nat, ord: Order, ks: seq<Val>, r0: Regs, v: Val,
          o: Outcome, i: Instr, pc: nat)
    requires IsComparison(i) && Good(c, Value(VJmp(pc)), tl, fl, low, NO_REG, ks, r0, v, Tested(o, ord, ks, i, pc))
    requires SameExits(c, d, tl, fl) && !Produces(d, pc) && pc !in tl && pc !in fl && (o.Exit? ==> o.at != pc)
    ensures Good(d, Truth(true), tl, fl + [pc], low, NO_REG, ks, r0, v, Tested(o, ord, ks, Negated(i), pc))
  {
    match o {
      case Fall(r1) =>
        assert Taken(ord, ks, Negated(i), r1) <==> !Taken(ord, ks, i, r1);
      case Exit(j, r1) =>
        assert j in tl || j in fl ==> j in tl + fl;
        assert j in fl ==> j in fl + [pc];
      case Stuck =>
    }
  }

  lemma NegateExit(ord: Order, ks: seq<Val>, o: Outcome, i: Instr, pc: nat, j: nat, r: Regs)
    requires IsComparison(i) && Tested(o, ord, ks, i, pc) == Exit(j, r) && j != pc
    ensures Tested(o, ord, ks, Negated(i), pc) == Exit(j, r)
  {
  }

  /** Links between pending jumps do not matter. */
  lemma CodedRelinked(g: Gen, x: Ctx, f: Falls, tl: seq<nat>, fl: seq<nat>, skip: nat, ex: Expr, l: set<nat>, d: Code)
    requires Coded(g, x, f, tl, fl, skip, ex) && Relinked(g.code, d, l) && l <= Elems(tl) + Elems(fl)
    ensures Coded(g.(code := d), x, f, tl, fl, skip, ex)
  {
    hide Exec, Eval, MeansAt;
    RelinkedShape(g, x, f, tl, fl, l, d);
    forall ord, ks, r | g.ks <= ks && |r| == NO_REG ensures MeansAt(x, g.base, d, f, tl, fl, skip, ex, ord, ks, r) {
      MeansHere(g, x, f, tl, fl, skip, ex, ord, ks, r);
      RelinkedAt(g, x, f, tl, fl, skip, ex, d, ord, ks, r);
    }
  }

  lemma RelinkedShape(g: Gen, x: Ctx, f: Falls, tl: seq<nat>, fl: seq<nat>, l: set<nat>, d: Code)
    requires Shape(g.code, Pend(x, f, tl, fl), g.base, g.lasttarget) && Wf(x, g.code, g.lasttarget, f, tl, fl)
      && Extends(x.code, g.code)
    requires Relinked(g.code, d, l) && l <= Elems(tl) + Elems(fl)
    ensures Shape(d, Pend(x, f, tl, fl), g.base, g.lasttarget) && Wf(x, d, g.lasttarget, f, tl, fl)
      && Extends(x.code, d)
    ensures SameCode(Core(g.code, f), Core(d, f), Pend(x, f, tl, fl))
    ensures SameFalls(g.code, d, f) && SameExits(g.code, d, tl, fl)
  {
    hide Shape;
    var p := Pend(x, f, tl, fl);
    forall j | j in l ensures j in p && j in tl + fl {}
    ShapeRelinked(g.code, d, p, l, g.base, g.lasttarget);
    forall i | 0 <= i < |x.code| ensures d[i] == g.code[i] {
      assert i in l ==> i in tl + fl;
    }
  }

  lemma ShapeRelinked(c: Code, d: Code, p: set<nat>, l: set<nat>, base: nat, lasttarget: nat)
    requires Shape(c, p, base, lasttarget) && Relinked(c, d, l) && l <= p
    ensures Shape(d, p, base, lasttarget)
  {
    forall i | base <= i < |d| ensures ShapeAt(d, p, lasttarget, i) {
      assert ShapeAt(c, p, lasttarget, i);
    }
  }

  predicate SameFalls(c: Code, d: Code, f: Falls) {
    |c| == |d| && (f.Value? && f.k.VReloc? && f.k.pc < |c| ==> d[f.k.pc] == c[f.k.pc])
  }

  lemma RelinkedAt(g: Gen, x: Ctx, f: Falls, tl: seq<nat>, fl: seq<nat>, skip: nat, ex: Expr, d: Code, ord: Order,
          ks: seq<Val>, r: Regs)
    requires MeansAt(x, g.base, g.code, f, tl, fl, skip, ex, ord, ks, r) && |r| == NO_REG
    requires SameCode(Core(g.code, f), Core(d, f), Pend(x, f, tl, fl)) && SameFalls(g.code, d, f)
      && SameExits(g.code, d, tl, fl)
    ensures MeansAt(x, g.base, d, f, tl, fl, skip, ex, ord, ks, r)
  {
    hide Exec, Eval, SameCode;
    ExecSame(ord, ks, Core(g.code, f), Core(d, f), Pend(x, f, tl, fl), g.base, r);
    assert forall j :: j in tl || j in fl ==> j in tl + fl;
  }

  /** The list that comes here once the truth of the value is known. */
  function Here(holds: bool, tl: seq<nat>, fl: seq<nat>): seq<nat> {
    if holds then tl else fl
  }

  /** luaK_patchtohere at the end of goiftrue and goiffalse. */
  lemma PatchHere(g: Gen, x: Ctx, holds: bool, tl: seq<nat>, fl: seq<nat>, ex: Expr, d: Code)
    requires Coded(g, x, Truth(holds), tl, fl, NO_REG, ex)
    requires Patched(g.code, d, Elems(Here(holds, tl, fl)), |g.code|, NO_REG, |g.code|)
    ensures Coded(g.(code := d, lasttarget := |d|), x, Truth(holds), if holds then [] else tl,
      if holds then fl else [], NO_REG, ex)
  {
    hide Exec, Eval, MeansAt, Shape, Wf, Patched, Extends;
    var tl1, fl1 := if holds then [] else tl, if holds then fl else [];
    var w := Truth(holds);
    PatchHereShape(g, x, holds, tl, fl, d);
    forall ord, ks, r | g.ks <= ks && |r| == NO_REG ensures MeansAt(x, g.base, d, w, tl1, fl1, NO_REG, ex, ord, ks, r) {
      PatchHereAt(g, x, holds, tl, fl, ex, d, ord, ks, r);
    }
  }

  lemma PatchHereShape(g: Gen, x: Ctx, holds: bool, tl: seq<nat>, fl: seq<nat>, d: Code)
    requires Shape(g.code, Pend(x, Truth(holds), tl, fl), g.base, g.lasttarget)
      && Wf(x, g.code, g.lasttarget, Truth(holds), tl, fl)
    requires Extends(x.code, g.code) && Patched(g.code, d, Elems(Here(holds, tl, fl)), |g.code|, NO_REG, |g.code|)
    ensures var tl1, fl1 := if holds then [] else tl, if holds then fl else [];
      var p, l := Pend(x, Truth(holds), tl, fl), Elems(Here(holds, tl, fl));
      && Shape(d, p - l, g.base, |d|) && Wf(x, d, |d|, Truth(holds), tl1, fl1) && Extends(x.code, d) && |d| == |g.code|
      && Pend(x, Truth(holds), tl1, fl1) == p - l && l <= p && Patchable(g.code, l) && SameExits(g.code, d, tl1, fl1)
  {
    var p, l := Pend(x, Truth(holds), tl, fl), Elems(Here(holds, tl, fl));
    var tl1, fl1 := if holds then [] else tl, if holds then fl else [];
    PendSplit(g, x, holds, tl, fl);
    PatchedShape(g.code, d, p, l, g.base, g.lasttarget, |g.code|, NO_REG, |g.code|, |d|);
    PatchedBelow(g, x, Truth(holds), tl, fl, l, d, |g.code|, NO_REG, |g.code|);
    forall j | j in tl1 + fl1
      ensures (Produces(d, j) <==> Produces(g.code, j)) && (Produces(d, j) ==> d[j - 1].b == g.code[j - 1].b)
    {
      assert j in p && j !in l;
      PatchedControl(g.code, d, l, |g.code|, NO_REG, |g.code|, j);
    }
  }

  /** Jumps of the context are in no list of this expression. */
  lemma PendSplit(g: Gen, x: Ctx, holds: bool, tl: seq<nat>, fl: seq<nat>)
    requires Shape(g.code, Pend(x, Truth(holds), tl, fl), g.base, g.lasttarget)
      && Wf(x, g.code, g.lasttarget, Truth(holds), tl, fl)
    ensures var l := Elems(Here(holds, tl, fl));
      Pend(x, Truth(holds), if holds then [] else tl, if holds then fl else []) == Pend(x, Truth(holds), tl, fl) - l
  {
    forall j | j in x.pend ensures j !in Elems(tl) && j !in Elems(fl) {
      NotOfList(g, x, Truth(holds), tl, fl, j);
    }
  }

  /** Patching resolves jumps without disturbing the others. */
  lemma PatchedShape(c: Code, d: Code, p: set<nat>, l: set<nat>, base: nat, lasttarget: nat, vtarget: nat, reg: nat,
          dtarget: nat, newtarget: nat)
    requires Shape(c, p, base, lasttarget) && l <= p && Patched(c, d, l, vtarget, reg, dtarget)
    requires lasttarget <= newtarget <= |c| && forall j :: j in l ==> PatchTarget(c, j, vtarget, dtarget) <= newtarget
    ensures Shape(d, p - l, base, newtarget) && Patchable(c, l)
  {
    forall i | 0 <= i < |c|
      ensures (IsTest(d[i]) <==> IsTest(c[i])) && (d[i].Jmp? <==> c[i].Jmp?)
        && (i !in l && !c[i].TestSet? ==> d[i] == c[i])
    {
      assert d[i] == PatchedInstr(c, l, i, vtarget, reg, dtarget);
    }
    forall i | base <= i < |d| ensures ShapeAt(d, p - l, newtarget, i) {
      assert ShapeAt(c, p, lasttarget, i);
      assert d[i] == PatchedInstr(c, l, i, vtarget, reg, dtarget);
    }
    forall j | j in p - l ensures base <= j < |d| && d[j].Jmp? && (Produces(d, j) ==> d[j - 1].a == NO_REG) {
      if Produces(d, j) { assert d[j - 1] == PatchedInstr(c, l, j - 1, vtarget, reg, dtarget); }
    }
  }

  lemma PatchedControl(c: Code, d: Code, l: set<nat>, vtarget: nat, reg: nat, dtarget: nat, j: nat)
    requires Patched(c, d, l, vtarget, reg, dtarget) && Patchable(c, l) && j !in l && j < |c|
    ensures (Produces(d, j) <==> Produces(c, j)) && (Produces(d, j) ==> d[j - 1] == c[j - 1])
  {
    if j > 0 { assert d[j - 1] == PatchedInstr(c, l, j - 1, vtarget, reg, dtarget); }
  }

  lemma PatchedBelow(g: Gen, x: Ctx, f: Falls, tl: seq<nat>, fl: seq<nat>, l: set<nat>, d: Code, vtarget: nat,
          reg: nat, dtarget: nat)
    requires Wf(x, g.code, g.lasttarget, f, tl, fl) && Extends(x.code, g.code) && l <= Elems(tl) + Elems(fl)
    requires Patched(g.code, d, l, vtarget, reg, dtarget)
    ensures Extends(x.code, d)
  {
    forall i | 0 <= i < |x.code| ensures d[i] == g.code[i] {
      assert d[i] == PatchedInstr(g.code, l, i, vtarget, reg, dtarget);
      assert i + 1 in l ==> i + 1 in tl + fl;
      assert i in l ==> i in tl + fl;
    }
  }

  lemma PatchHereAt(g: Gen, x: Ctx, holds: bool, tl: seq<nat>, fl: seq<nat>, ex: Expr, d: Code, ord: Order,
          ks: seq<Val>, r: Regs)
    requires Coded(g, x, Truth(holds), tl, fl, NO_REG, ex) && g.ks <= ks && |r| == NO_REG
    requires Patched(g.code, d, Elems(Here(holds, tl, fl)), |g.code|, NO_REG, |g.code|)
    ensures MeansAt(x, g.base, d, Truth(holds), if holds then [] else tl, if holds then fl else [], NO_REG, ex, ord,
      ks, r)
  {
    hide Means, Shape, Extends, Exec, Eval, Wf, Patched, Patchable, Good;
    var p, l := Pend(x, Truth(holds), tl, fl), Elems(Here(holds, tl, fl));
    MeansHere(g, x, Truth(holds), tl, fl, NO_REG, ex, ord, ks, r);
    PatchHereShape(g, x, holds, tl, fl, d);
    PendingBelow(g.code, p, g.base, g.lasttarget);
    ExecPatched(ord, ks, g.code, d, p, l, |g.code|, NO_REG, |g.code|, g.base, r);
    var o := Exec(ord, ks, g.code, p, g.base, r);
    match Exec(ord, ks, x.code, x.pend, g.base, r) {
      case Fall(r0) =>
        GoodHere(g.code, d, p - l, holds, tl, fl, x.low, ord, ks, r0, Eval(ord, ex, r0), o);
      case Exit(j, r1) =>
        PendingTaken(ord, ks, x.code, x.pend, g.base, r);
        NotOfList(g, x, Truth(holds), tl, fl, j);
      case Stuck =>
    }
  }

  lemma PendingBelow(c: Code, p: set<nat>, base: nat, lasttarget: nat)
    requires Shape(c, p, base, lasttarget)
    ensures forall j :: j in p ==> j < |c|
  {
  }

  lemma NotOfList(g: Gen, x: Ctx, f: Falls, tl: seq<nat>, fl: seq<nat>, j: nat)
    requires Wf(x, g.code, g.lasttarget, f, tl, fl) && j < |x.code|
    ensures j !in Elems(tl) && j !in Elems(fl)
  {
    assert forall i :: i in tl || i in fl ==> i in tl + fl;
  }

  lemma GoodHere(c: Code, d: Code, p: set<nat>, holds: bool, tl: seq<nat>, fl: seq<nat>, low: nat, ord: Order,
          ks: seq<Val>, r0: Regs, v: Val, o: Outcome)
    requires Good(c, Truth(holds), tl, fl, low, NO_REG, ks, r0, v, o) && Elems(tl) !! Elems(fl) && |d| == |c|
    requires SameExits(c, d, if holds then [] else tl, if holds then fl else [])
    ensures Good(d, Truth(holds), if holds then [] else tl, if holds then fl else [], low, NO_REG, ks, r0, v,
                 Resume(ord, ks, c, d, p, Elems(Here(holds, tl, fl)), |c|, NO_REG, |c|, o))
  {
    match o {
      case Exit(j, r1) =>
        if j in Here(holds, tl, fl) {
          assert Exec(ord, ks, d, p, |c|, r1) == Fall(r1);
        } else {
          assert j in tl ==> j in Elems(tl);
          assert j in fl ==> j in Elems(fl);
        }
      case _ =>
    }
  }
}
