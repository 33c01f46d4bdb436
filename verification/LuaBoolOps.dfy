/** The operators: `not`, `and`, `or`, and comparisons. */
module LuaBoolOps {
  import opened LuaVm
  import opened LuaBool
  import opened LuaBoolJumps

  /** No test of the lists leaves a value. */
  predicate NoValues(d: Code, tl: seq<nat>, fl: seq<nat>) {
    forall j :: j in tl + fl ==> !Produces(d, j)
  }

  lemma RemovedFacts(g: Gen, x: Ctx, f: Falls, tl: seq<nat>, fl: seq<nat>, d: Code)
    requires Shape(g.code, Pend(x, f, tl, fl), g.base, g.lasttarget) && Wf(x, g.code, g.lasttarget, f, tl, fl)
      && Extends(x.code, g.code)
    requires ValuesRemoved(g.code, d, Elems(tl) + Elems(fl))
    ensures Shape(d, Pend(x, f, tl, fl), g.base, g.lasttarget) && Extends(x.code, d) && NoValues(d, tl, fl)
    ensures SameCode(g.code, d, Pend(x, f, tl, fl)) && |d| == |g.code|
    ensures forall i :: 0 <= i < |d| && !g.code[i].TestSet? ==> d[i] == g.code[i]
    ensures f.Value? && f.k.VJmp? ==> g.code[f.k.jpc - 1] == d[f.k.jpc - 1] && g.code[f.k.jpc] == d[f.k.jpc]
  {
    hide Shape;
    var p, l := Pend(x, f, tl, fl), Elems(tl) + Elems(fl);
    assert forall j :: j in l ==> j in tl + fl && j in p;
    ShapeRemoved(g.code, d, p, l, g.base, g.lasttarget);
    forall i | 0 <= i < |x.code| ensures d[i] == g.code[i] {
      var n: nat := i + 1;
      assert n in l && g.code[i].TestSet? ==> Produces(g.code, n);
    }
  }

  lemma ShapeRemoved(c: Code, d: Code, p: set<nat>, l: set<nat>, base: nat, lasttarget: nat)
    requires Shape(c, p, base, lasttarget) && l <= p && ValuesRemoved(c, d, l)
    ensures Shape(d, p, base, lasttarget) && SameCode(c, d, p)
  {
    forall i | base <= i < |d| ensures ShapeAt(d, p, lasttarget, i) {
      assert ShapeAt(c, p, lasttarget, i);
    }
    forall i | 0 <= i < |c| ensures SameInstr(c[i], d[i], i in p) {
      if i + 1 in l && c[i].TestSet? { assert Produces(c, i + 1); }
    }
  }

  lemma GoodNot(c: Code, d: Code, k: Kind, k2: Kind, tl: seq<nat>, fl: seq<nat>, low: nat, ks: seq<Val>, r0: Regs,
          v: Val, o: Outcome)
    requires Good(c, Value(k), tl, fl, low, NO_REG, ks, r0, v, o) && !k.VJmp? && NoValues(d, tl, fl)
    requires forall r1 :: KindValue(c, k, ks, r1, v) ==> KindValue(d, k2, ks, r1, Not(v))
    ensures Good(d, Value(k2), fl, tl, low, NO_REG, ks, r0, Not(v), o)
  {
    match o {
      case Exit(j, r1) => assert j in tl || j in fl ==> j in tl + fl;
      case _ =>
    }
  }

  lemma GoodNotJump(c: Code, d: Code, tl: seq<nat>, fl: seq<nat>, low: nat, ks: seq<Val>, r0: Regs, v: Val, o: Outcome,
          pc: nat)
    requires Good(c, Truth(true), tl, fl + [pc], low, NO_REG, ks, r0, v, o) && NoValues(d, tl, fl) && !Produces(c, pc)
    ensures Good(d, Value(VJmp(pc)), fl, tl, low, NO_REG, ks, r0, Not(v), o)
  {
    match o {
      case Exit(j, r1) => assert j in tl || j in fl ==> j in tl + fl;
      case _ =>
    }
  }

  /** The kinds of a value and of its negation, with the code between them. */
  predicate NotStep(c: Code, k: Kind, c2: Code, k2: Kind) {
    || (Always(k, true) && k2 == VFalse && c2 == c)
    || (Always(k, false) && k2 == VTrue && c2 == c)
    || (k.VNonReloc? && k2 == VReloc(|c|) && c2 == c + [NotOp(0, k.reg)])
  }

  /** codenot on anything but a comparison: lists swap, and lose their values. */
  lemma CodedNot(g: Gen, x: Ctx, k: Kind, k2: Kind, tl: seq<nat>, fl: seq<nat>, ex: Expr, c2: Code, d: Code)
    requires Coded(g, x, Value(k), tl, fl, NO_REG, ex) && NotStep(g.code, k, c2, k2)
    requires ValuesRemoved(c2, d, Elems(tl) + Elems(fl))
    ensures Coded(g.(code := d), x, Value(k2), fl, tl, NO_REG, NotE(ex))
  {
    hide Exec, Eval, MeansAt, Shape, Wf, Extends, NotStep;
    NotShape(g, x, k, k2, tl, fl, c2, d);
    var w := NotE(ex);
    forall ord, ks, r | g.ks <= ks && |r| == NO_REG
      ensures MeansAt(x, g.base, d, Value(k2), fl, tl, NO_REG, w, ord, ks, r)
    {
      NotAt(g, x, k, k2, tl, fl, ex, c2, d, ord, ks, r);
    }
  }

  lemma NotShape(g: Gen, x: Ctx, k: Kind, k2: Kind, tl: seq<nat>, fl: seq<nat>, c2: Code, d: Code)
    requires Shape(g.code, Pend(x, Value(k), tl, fl), g.base, g.lasttarget)
      && Wf(x, g.code, g.lasttarget, Value(k), tl, fl)
    requires Extends(x.code, g.code) && g.base <= |x.code| && NotStep(g.code, k, c2, k2)
      && ValuesRemoved(c2, d, Elems(tl) + Elems(fl))
    ensures Shape(d, Pend(x, Value(k2), fl, tl), g.base, g.lasttarget) && Wf(x, d, g.lasttarget, Value(k2), fl, tl)
      && Extends(x.code, d)
    ensures Pend(x, Value(k2), fl, tl) == Pend(x, Value(k), tl, fl) && NoValues(d, tl, fl)
    ensures SameCode(g.code, Core(d, Value(k2)), Pend(x, Value(k), tl, fl))
    ensures k.VNonReloc? ==> d[|g.code|] == NotOp(0, k.reg) && |d| == |g.code| + 1
  {
    hide Shape, Wf, SameCode, ValuesRemoved, NoValues, Extends;
    NotLength(g.code, k, c2, k2, d, Elems(tl) + Elems(fl));
    var c := d[..|g.code|];
    var p := Pend(x, Value(k), tl, fl);
    RemovedPrefix(g, x, k, tl, fl, c2, d);
    RemovedFacts(g, x, Value(k), tl, fl, c);
    WfNot(g, x, k, k2, tl, fl, c2, d);
    if k.VNonReloc? {
      ShapePlain(c, NotOp(0, k.reg), p, g.base, g.lasttarget) by { ShapeBase(g.code, p, g.base, g.lasttarget); }
      ExtendsMore(c, [NotOp(0, k.reg)]);
      ExtendsTrans(x.code, c, d);
    }
  }

  lemma ShapeBase(c: Code, p: set<nat>, base: nat, lasttarget: nat)
    requires Shape(c, p, base, lasttarget)
    ensures base <= |c|
  {
  }

  /** At most one instruction was added, and the patching left it alone. */
  lemma NotLength(c: Code, k: Kind, c2: Code, k2: Kind, d: Code, l: set<nat>)
    requires NotStep(c, k, c2, k2) && ValuesRemoved(c2, d, l)
    ensures |c| <= |c2| == |d| && c2[..|c|] == c && Core(d, Value(k2)) == d[..|c|]
    ensures k.VNonReloc? ==> d == d[..|c|] + [NotOp(0, k.reg)]
    ensures !k.VNonReloc? ==> d == d[..|c|]
  {
  }

  lemma RemovedPrefix(g: Gen, x: Ctx, k: Kind, tl: seq<nat>, fl: seq<nat>, c2: Code, d: Code)
    requires ValuesRemoved(c2, d, Elems(tl) + Elems(fl)) && |g.code| <= |c2| && c2[..|g.code|] == g.code
    ensures ValuesRemoved(g.code, d[..|g.code|], Elems(tl) + Elems(fl))
  {
    assert forall i :: 0 <= i < |g.code| ==> c2[i] == c2[..|g.code|][i];
  }

  lemma WfNot(g: Gen, x: Ctx, k: Kind, k2: Kind, tl: seq<nat>, fl: seq<nat>, c2: Code, d: Code)
    requires Shape(g.code, Pend(x, Value(k), tl, fl), g.base, g.lasttarget)
      && Wf(x, g.code, g.lasttarget, Value(k), tl, fl)
    requires Extends(x.code, g.code) && NotStep(g.code, k, c2, k2) && ValuesRemoved(c2, d, Elems(tl) + Elems(fl))
    ensures Wf(x, d, g.lasttarget, Value(k2), fl, tl) && NoValues(d, tl, fl)
    ensures Pend(x, Value(k2), fl, tl) == Pend(x, Value(k), tl, fl)
  {
    forall j | j in tl + fl ensures |x.code| <= j && !Produces(d, j) {
      assert j in Elems(tl) + Elems(fl) && j in Pend(x, Value(k), tl, fl);
    }
    assert forall j :: j in fl + tl ==> j in tl + fl;
  }

  lemma NotAt(g: Gen, x: Ctx, k: Kind, k2: Kind, tl: seq<nat>, fl: seq<nat>, ex: Expr, c2: Code, d: Code, ord: Order,
          ks: seq<Val>, r: Regs)
    requires Coded(g, x, Value(k), tl, fl, NO_REG, ex) && NotStep(g.code, k, c2, k2) && g.ks <= ks && |r| == NO_REG
    requires ValuesRemoved(c2, d, Elems(tl) + Elems(fl))
    ensures MeansAt(x, g.base, d, Value(k2), fl, tl, NO_REG, NotE(ex), ord, ks, r)
  {
    hide Means, Shape, Extends, Exec, Wf, Good, SameCode, NoValues;
    MeansHere(g, x, Value(k), tl, fl, NO_REG, ex, ord, ks, r);
    NotShape(g, x, k, k2, tl, fl, c2, d);
    var p := Pend(x, Value(k), tl, fl);
    ExecSame(ord, ks, g.code, Core(d, Value(k2)), p, g.base, r);
    match Exec(ord, ks, x.code, x.pend, g.base, r) {
      case Fall(r0) =>
        GoodNot(g.code, d, k, k2, tl, fl, x.low, ks, r0, Eval(ord, ex, r0), Exec(ord, ks, g.code, p, g.base, r));
      case _ =>
    }
  }

  /** codenot on a comparison, already inverted. */
  lemma CodedNotJump(g: Gen, x: Ctx, tl: seq<nat>, fl: seq<nat>, ex: Expr, pc: nat, d: Code)
    requires Coded(g, x, Value(VJmp(pc)), tl, fl, NO_REG, ex) && 0 < pc < |g.code| && IsComparison(g.code[pc - 1])
    requires ValuesRemoved(g.code[pc - 1 := Negated(g.code[pc - 1])], d, Elems(tl) + Elems(fl))
    ensures Coded(g.(code := d), x, Value(VJmp(pc)), fl, tl, NO_REG, NotE(ex))
  {
    hide Exec, Eval, MeansAt, Shape, Wf, Extends;
    Negate(g, x, tl, fl, ex, pc);
    NotJumpShape(g, x, tl, fl, pc, d);
    var w := NotE(ex);
    forall ord, ks, r | g.ks <= ks && |r| == NO_REG
      ensures MeansAt(x, g.base, d, Value(VJmp(pc)), fl, tl, NO_REG, w, ord, ks, r)
    {
      NotJumpAt(g, x, tl, fl, ex, pc, d, ord, ks, r);
    }
  }

  lemma NotJumpShape(g: Gen, x: Ctx, tl: seq<nat>, fl: seq<nat>, pc: nat, d: Code)
    requires Shape(g.code, Pend(x, Value(VJmp(pc)), tl, fl), g.base, g.lasttarget)
      && Wf(x, g.code, g.lasttarget, Value(VJmp(pc)), tl, fl)
    requires Extends(x.code, g.code) && g.base <= |x.code| && 0 < pc < |g.code| && IsComparison(g.code[pc - 1])
    requires ValuesRemoved(g.code[pc - 1 := Negated(g.code[pc - 1])], d, Elems(tl) + Elems(fl))
    ensures var p, c := Pend(x, Value(VJmp(pc)), tl, fl), g.code[pc - 1 := Negated(g.code[pc - 1])];
      && Shape(d, p, g.base, g.lasttarget) && Wf(x, d, g.lasttarget, Value(VJmp(pc)), fl, tl) && Extends(x.code, d)
      && Pend(x, Value(VJmp(pc)), fl, tl) == p && Pend(x, Truth(true), tl, fl + [pc]) == p
      && NoValues(d, tl, fl) && SameCode(c, d, p) && !Produces(c, pc)
  {
    hide Shape;
    var c, g1 := g.code[pc - 1 := Negated(g.code[pc - 1])], g.(code := g.code[pc - 1 := Negated(g.code[pc - 1])]);
    NegateShape(g, x, tl, fl, pc);
    JumpPlace(g, x, tl, fl, pc);
    WfNegated(g, x, tl, fl, pc);
    RemovedFacts(g1, x, Value(VJmp(pc)), tl, fl, d);
    forall j | j in fl + tl ensures |x.code| <= j && (Produces(d, j) ==> |x.code| < j) { assert j in tl + fl; }
  }

  lemma WfNegated(g: Gen, x: Ctx, tl: seq<nat>, fl: seq<nat>, pc: nat)
    requires Wf(x, g.code, g.lasttarget, Value(VJmp(pc)), tl, fl) && 0 < pc < |g.code| && IsComparison(g.code[pc - 1])
    ensures Wf(x, g.code[pc - 1 := Negated(g.code[pc - 1])], g.lasttarget, Value(VJmp(pc)), tl, fl)
  {
  }

  lemma NotJumpAt(g: Gen, x: Ctx, tl: seq<nat>, fl: seq<nat>, ex: Expr, pc: nat, d: Code, ord: Order, ks: seq<Val>,
          r: Regs)
    requires Coded(g, x, Value(VJmp(pc)), tl, fl, NO_REG, ex) && 0 < pc < |g.code| && IsComparison(g.code[pc - 1])
    requires ValuesRemoved(g.code[pc - 1 := Negated(g.code[pc - 1])], d, Elems(tl) + Elems(fl))
    requires g.ks <= ks && |r| == NO_REG
    requires MeansAt(x, g.base, g.code[pc - 1 := Negated(g.code[pc - 1])], Truth(true), tl, fl + [pc], NO_REG, ex,
      ord, ks, r)
    ensures MeansAt(x, g.base, d, Value(VJmp(pc)), fl, tl, NO_REG, NotE(ex), ord, ks, r)
  {
    hide Means, Shape, Extends, Exec, Wf, Good, SameCode, NoValues;
    var c := g.code[pc - 1 := Negated(g.code[pc - 1])];
    NotJumpShape(g, x, tl, fl, pc, d);
    var p := Pend(x, Value(VJmp(pc)), tl, fl);
    ExecSame(ord, ks, c, d, p, g.base, r);
    match Exec(ord, ks, x.code, x.pend, g.base, r) {
      case Fall(r0) =>
        GoodNotJump(c, d, tl, fl, x.low, ks, r0, Eval(ord, ex, r0), Exec(ord, ks, c, p, g.base, r), pc);
      case _ =>
    }
  }

  /** Where the compilation of a second operand begins. */
  function After(g: Gen, x: Ctx, js: seq<nat>, low: nat): Ctx {
    Ctx(g.code, x.pend + Elems(js), low)
  }

  function Joint(holds: bool, ea: Expr, eb: Expr): Expr {
    if holds then And(ea, eb) else Or(ea, eb)
  }

  /** luaK_posfix for `and` and `or`: the jumps out of the first operand join those out of
      the second one. `js` are the jumps of the first operand. */
  lemma CodedJoint(ga: Gen, gb: Gen, x: Ctx, holds: bool, js: seq<nat>, ea: Expr, k: Kind, tl: seq<nat>, fl: seq<nat>,
          eb: Expr)
    requires Coded(ga, x, Truth(holds), if holds then [] else js, if holds then js else [], NO_REG, ea)
    requires Coded(gb, After(ga, x, js, x.low), Value(k), tl, fl, NO_REG, eb)
    requires gb.base == ga.base && gb.nvars == ga.nvars && ga.ks <= gb.ks
    ensures Coded(gb, x, Value(k), if holds then tl else tl + js, if holds then fl + js else fl, NO_REG,
      Joint(holds, ea, eb))
  {
    hide Exec, Eval, MeansAt, Shape, Wf, Extends;
    var tl1, fl1 := if holds then tl else tl + js, if holds then fl + js else fl;
    ExtendsTrans(x.code, ga.code, gb.code);
    JointShape(ga, gb, x, holds, js, k, tl, fl);
    var w := Joint(holds, ea, eb);
    forall ord, ks, r | gb.ks <= ks && |r| == NO_REG
      ensures MeansAt(x, gb.base, gb.code, Value(k), tl1, fl1, NO_REG, w, ord, ks, r)
    {
      JointAt(ga, gb, x, holds, js, ea, k, tl, fl, eb, ord, ks, r);
    }
  }

  lemma JointShape(ga: Gen, gb: Gen, x: Ctx, holds: bool, js: seq<nat>, k: Kind, tl: seq<nat>, fl: seq<nat>)
    requires Wf(x, ga.code, ga.lasttarget, Truth(holds), if holds then [] else js, if holds then js else [])
    requires Extends(x.code, ga.code) && Extends(ga.code, gb.code)
    requires Wf(After(ga, x, js, x.low), gb.code, gb.lasttarget, Value(k), tl, fl)
    requires Shape(ga.code, Pend(x, Truth(holds), if holds then [] else js, if holds then js else []), ga.base,
      ga.lasttarget)
    ensures var tl1, fl1 := if holds then tl else tl + js, if holds then fl + js else fl;
      && Wf(x, gb.code, gb.lasttarget, Value(k), tl1, fl1)
      && Pend(x, Value(k), tl1, fl1) == Pend(After(ga, x, js, x.low), Value(k), tl, fl)
    ensures Pend(x, Truth(holds), if holds then [] else js, if holds then js else []) == x.pend + Elems(js)
    ensures forall j ::
      j in js ==>
      (Produces(gb.code, j) <==> Produces(ga.code, j))
      && (Produces(gb.code, j) ==> gb.code[j - 1].b == ga.code[j - 1].b)
  {
    var tl1, fl1 := if holds then tl else tl + js, if holds then fl + js else fl;
    var x1 := After(ga, x, js, x.low);
    assert Elems(tl + js) == Elems(tl) + Elems(js) && Elems(fl + js) == Elems(fl) + Elems(js);
    forall j | j in js
      ensures |x.code| <= j < |ga.code| && (Produces(ga.code, j) ==> |x.code| < j)
      ensures (Produces(gb.code, j) <==> Produces(ga.code, j))
        && (Produces(gb.code, j) ==> gb.code[j - 1].b == ga.code[j - 1].b)
      ensures j !in tl && j !in fl && !(k.VJmp? && k.jpc == j)
    {
      assert j in x1.pend;
      assert j in (if holds then [] else js) + (if holds then js else []);
      assert j in tl || j in fl ==> j in tl + fl;
    }
    forall j | j in tl1 + fl1 ensures |x.code| <= j && (Produces(gb.code, j) ==> |x.code| < j) {
      if j !in js { assert j in tl + fl; }
    }
  }

  lemma JointAt(ga: Gen, gb: Gen, x: Ctx, holds: bool, js: seq<nat>, ea: Expr, k: Kind, tl: seq<nat>, fl: seq<nat>,
          eb: Expr, ord: Order, ks: seq<Val>, r: Regs)
    requires Coded(ga, x, Truth(holds), if holds then [] else js, if holds then js else [], NO_REG, ea)
    requires Coded(gb, After(ga, x, js, x.low), Value(k), tl, fl, NO_REG, eb)
    requires gb.base == ga.base && gb.nvars == ga.nvars && ga.ks <= gb.ks && gb.ks <= ks && |r| == NO_REG
    ensures MeansAt(x, gb.base, gb.code, Value(k), if holds then tl else tl + js, if holds then fl + js else fl,
      NO_REG, Joint(holds, ea, eb), ord, ks, r)
  {
    hide Means, Shape, Extends, Exec, Wf, Good;
    var tl0, fl0 := if holds then [] else js, if holds then js else [];
    var x1 := After(ga, x, js, x.low);
    MeansHere(ga, x, Truth(holds), tl0, fl0, NO_REG, ea, ord, ks, r);
    MeansHere(gb, x1, Value(k), tl, fl, NO_REG, eb, ord, ks, r);
    JointShape(ga, gb, x, holds, js, k, tl, fl);
    match Exec(ord, ks, x.code, x.pend, ga.base, r) {
      case Fall(r0) =>
        JointFall(ga, gb, x, holds, js, ea, k, tl, fl, eb, ord, ks, r, r0);
      case Exit(j, r1) =>
      case Stuck =>
    }
  }

  lemma JointFall(ga: Gen, gb: Gen, x: Ctx, holds: bool, js: seq<nat>, ea: Expr, k: Kind, tl: seq<nat>, fl: seq<nat>,
          eb: Expr, ord: Order, ks: seq<Val>, r: Regs, r0: Regs)
    requires InScope(eb, gb.nvars) && gb.nvars <= x.low <= NO_REG && gb.base == ga.base
    requires var x1 := After(ga, x, js, x.low);
      && Good(ga.code, Truth(holds), if holds then [] else js, if holds then js else [], x.low, NO_REG, ks, r0,
        Eval(ord, ea, r0), Exec(ord, ks, ga.code, x1.pend, gb.base, r))
      && MeansAt(x1, gb.base, gb.code, Value(k), tl, fl, NO_REG, eb, ord, ks, r)
    requires forall j ::
      j in js ==>
      (Produces(gb.code, j) <==> Produces(ga.code, j))
      && (Produces(gb.code, j) ==> gb.code[j - 1].b == ga.code[j - 1].b)
    ensures Good(gb.code, Value(k), if holds then tl else tl + js, if holds then fl + js else fl, x.low, NO_REG, ks,
      r0, Eval(ord, Joint(holds, ea, eb), r0),
                 Exec(ord, ks, Core(gb.code, Value(k)), Pend(After(ga, x, js, x.low), Value(k), tl, fl), gb.base, r))
  {
    hide Exec, Good;
    var x1 := After(ga, x, js, x.low);
    match Exec(ord, ks, ga.code, x1.pend, gb.base, r) {
      case Fall(r1) =>
        GoodSame(ga.code, Truth(holds), if holds then [] else js, if holds then js else [], x.low, ks, r0,
          Eval(ord, ea, r0), r1);
        EvalLow(ord, eb, r0, r1, gb.nvars, x.low);
        GoodJointFall(gb.code, k, holds, js, tl, fl, x.low, ks, r0, r1, Eval(ord, eb, r1),
                      Exec(ord, ks, Core(gb.code, Value(k)), Pend(x1, Value(k), tl, fl), gb.base, r));
      case Exit(j, r1) =>
        GoodJointExit(ga.code, gb.code, k, holds, js, tl, fl, x.low, ks, r0, Eval(ord, ea, r0), j, r1);
      case Stuck => GoodNotStuck(ga.code, Truth(holds), if holds then [] else js, if holds then js else [], x.low, ks,
        r0, Eval(ord, ea, r0));
    }
  }

  lemma GoodNotStuck(c: Code, f: Falls, tl: seq<nat>, fl: seq<nat>, low: nat, ks: seq<Val>, r0: Regs, v: Val)
    ensures !Good(c, f, tl, fl, low, NO_REG, ks, r0, v, Stuck)
  {
  }

  lemma GoodSame(c: Code, f: Falls, tl: seq<nat>, fl: seq<nat>, low: nat, ks: seq<Val>, r0: Regs, v: Val, r1: Regs)
    requires Good(c, f, tl, fl, low, NO_REG, ks, r0, v, Fall(r1))
    ensures Same(r0, r1, low, NO_REG) && FallsOk(c, f, ks, r1, v)
  {
  }

  lemma EvalLow(ord: Order, ex: Expr, r0: Regs, r1: Regs, nvars: nat, low: nat)
    requires InScope(ex, nvars) && nvars <= low <= NO_REG && Same(r0, r1, low, NO_REG)
    ensures Eval(ord, ex, r0) == Eval(ord, ex, r1)
  {
    EvalSame(ord, ex, r0, r1, nvars);
  }

  lemma GoodJointFall(c: Code, k: Kind, holds: bool, js: seq<nat>, tl: seq<nat>, fl: seq<nat>, low: nat, ks: seq<Val>,
          r0: Regs, r1: Regs, v: Val, o: Outcome)
    requires Good(c, Value(k), tl, fl, low, NO_REG, ks, r1, v, o) && Same(r0, r1, low, NO_REG)
    ensures Good(c, Value(k), if holds then tl else tl + js, if holds then fl + js else fl, low, NO_REG, ks, r0, v, o)
  {
  }

  lemma GoodJointExit(c: Code, d: Code, k: Kind, holds: bool, js: seq<nat>, tl: seq<nat>, fl: seq<nat>, low: nat,
          ks: seq<Val>, r0: Regs, v: Val, j: nat, r1: Regs)
    requires Good(c, Truth(holds), if holds then [] else js, if holds then js else [], low, NO_REG, ks, r0, v,
      Exit(j, r1))
    requires forall i ::
      i in js ==> (Produces(d, i) <==> Produces(c, i)) && (Produces(d, i) ==> d[i - 1].b == c[i - 1].b)
    ensures Good(d, Value(k), if holds then tl else tl + js, if holds then fl + js else fl, low, NO_REG, ks, r0, v,
      Exit(j, r1))
    ensures Falsy(v) == holds
  {
  }
}
