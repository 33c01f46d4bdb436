/** Putting the final value of an expression with jumps into a register. */
module LuaBoolFinal {
  import opened LuaVm
  import opened LuaBool
  import opened LuaBoolJumps
  import opened LuaBoolOps

  /** The place that loads the boolean `b` into `reg` and goes to the end of the code. */
  predicate BoolAt(c: Code, place: nat, reg: nat, b: bool) {
    if b then place + 1 == |c| && c[place] == LoadTrue(reg)
    else place + 2 == |c| && c[place] == LFalseSkip(reg)
  }

  lemma RunBool(ord: Order, ks: seq<Val>, c: Code, pend: set<nat>, place: nat, reg: nat, b: bool, r: Regs)
    requires BoolAt(c, place, reg, b)
    ensures Exec(ord, ks, c, pend, place, r) == Fall(Set(r, reg, Bool(b)))
  {
  }

  /** The jumps for true values, or those for false ones. */
  function Side(b: bool, tl: seq<nat>, fl: seq<nat>): seq<nat> {
    if b then tl else fl
  }

  /** The last step of exp2reg: jumps of one list go to the end with their values in
      `reg`, or to where a boolean is loaded. */
  lemma PatchFinal(g: Gen, x: Ctx, b: bool, tl: seq<nat>, fl: seq<nat>, ex: Expr, reg: nat, dtarget: nat, d: Code)
    requires Coded(g, x, Value(VNonReloc(reg)), tl, fl, reg, ex) && reg < NO_REG && g.lasttarget == |g.code|
    requires Patched(g.code, d, Elems(Side(b, tl, fl)), |g.code|, reg, dtarget)
    requires (forall j :: j in Side(b, tl, fl) ==> Produces(g.code, j)) || BoolsAfter(g, x, tl, fl, dtarget, reg, b)
    ensures Coded(g.(code := d), x, Value(VNonReloc(reg)), if b then [] else tl, if b then fl else [], reg, ex)
    ensures |d| == |g.code| && SameExits(g.code, d, if b then [] else tl, if b then fl else [])
    ensures forall i :: 0 <= i < |d| && (g.code[i].LoadTrue? || g.code[i].LFalseSkip?) ==> d[i] == g.code[i]
  {
    hide Exec, Eval, MeansAt, Shape, Wf, Patched, Extends, BoolAt, BoolsAfter;
    var tl1, fl1 := if b then [] else tl, if b then fl else [];
    PatchFinalShape(g, x, b, tl, fl, reg, dtarget, d);
    forall ord, ks, r | g.ks <= ks && |r| == NO_REG
      ensures MeansAt(x, g.base, d, Value(VNonReloc(reg)), tl1, fl1, reg, ex, ord, ks, r)
    {
      PatchFinalAt(g, x, b, tl, fl, ex, reg, dtarget, d, ord, ks, r);
    }
  }

  /** The booleans are loaded after all the jumps of the lists. */
  predicate BoolsAfter(g: Gen, x: Ctx, tl: seq<nat>, fl: seq<nat>, place: nat, reg: nat, b: bool) {
    BoolAt(g.code, place, reg, b) && forall j :: j in tl + fl ==> j < place
  }

  lemma PatchFinalShape(g: Gen, x: Ctx, b: bool, tl: seq<nat>, fl: seq<nat>, reg: nat, dtarget: nat, d: Code)
    requires Shape(g.code, Pend(x, Value(VNonReloc(reg)), tl, fl), g.base, g.lasttarget)
      && Wf(x, g.code, g.lasttarget, Value(VNonReloc(reg)), tl, fl)
    requires Extends(x.code, g.code) && g.lasttarget == |g.code|
      && Patched(g.code, d, Elems(Side(b, tl, fl)), |g.code|, reg, dtarget)
    requires (forall j :: j in Side(b, tl, fl) ==> Produces(g.code, j)) || BoolsAfter(g, x, tl, fl, dtarget, reg, b)
    ensures var tl1, fl1 := if b then [] else tl, if b then fl else [];
      var p, l := Pend(x, Value(VNonReloc(reg)), tl, fl), Elems(Side(b, tl, fl));
      && Shape(d, p - l, g.base, g.lasttarget) && Wf(x, d, g.lasttarget, Value(VNonReloc(reg)), tl1, fl1)
        && Extends(x.code, d) && |d| == |g.code|
      && Pend(x, Value(VNonReloc(reg)), tl1, fl1) == p - l && l <= p && Patchable(g.code, l)
        && SameExits(g.code, d, tl1, fl1)
      && (forall j :: j in l ==> j < PatchTarget(g.code, j, |g.code|, dtarget) <= |g.code|)
      && (forall i :: 0 <= i < |d| && (g.code[i].LoadTrue? || g.code[i].LFalseSkip?) ==> d[i] == g.code[i])
  {
    hide Shape;
    var f := Value(VNonReloc(reg));
    var p, l := Pend(x, f, tl, fl), Elems(Side(b, tl, fl));
    var tl1, fl1 := if b then [] else tl, if b then fl else [];
    assert Pend(x, f, tl1, fl1) == p - l by {
      forall j | j in x.pend ensures j !in Elems(tl) && j !in Elems(fl) { NotOfList(g, x, f, tl, fl, j); }
    }
    PendingBelow(g.code, p, g.base, g.lasttarget);
    forall j | j in l ensures j < PatchTarget(g.code, j, |g.code|, dtarget) <= |g.code| {
      assert j in Side(b, tl, fl) && j in tl + fl && j in p;
    }
    PatchedShape(g.code, d, p, l, g.base, g.lasttarget, |g.code|, reg, dtarget, g.lasttarget);
    PatchedBelow(g, x, f, tl, fl, l, d, |g.code|, reg, dtarget);
    forall j | j in tl1 + fl1
      ensures (Produces(d, j) <==> Produces(g.code, j)) && (Produces(d, j) ==> d[j - 1].b == g.code[j - 1].b)
        && j in tl + fl
    {
      assert j in p && j !in l;
      PatchedControl(g.code, d, l, |g.code|, reg, dtarget, j);
    }
    assert forall j :: j in l ==> j < |g.code| && g.code[j].Jmp?;
    forall i | 0 <= i < |d| && (g.code[i].LoadTrue? || g.code[i].LFalseSkip?) ensures d[i] == g.code[i] {
      assert d[i] == PatchedInstr(g.code, l, i, |g.code|, reg, dtarget);
    }
  }

  lemma PatchFinalAt(g: Gen, x: Ctx, b: bool, tl: seq<nat>, fl: seq<nat>, ex: Expr, reg: nat, dtarget: nat, d: Code,
          ord: Order, ks: seq<Val>, r: Regs)
    requires Coded(g, x, Value(VNonReloc(reg)), tl, fl, reg, ex) && reg < NO_REG && g.lasttarget == |g.code|
      && g.ks <= ks && |r| == NO_REG
    requires Patched(g.code, d, Elems(Side(b, tl, fl)), |g.code|, reg, dtarget)
    requires (forall j :: j in Side(b, tl, fl) ==> Produces(g.code, j)) || BoolsAfter(g, x, tl, fl, dtarget, reg, b)
    ensures MeansAt(x, g.base, d, Value(VNonReloc(reg)), if b then [] else tl, if b then fl else [], reg, ex, ord, ks,
      r)
  {
    hide Means, Shape, Extends, Exec, Eval, Wf, Patched, Patchable, Good;
    var f := Value(VNonReloc(reg));
    var p, l := Pend(x, f, tl, fl), Elems(Side(b, tl, fl));
    MeansHere(g, x, f, tl, fl, reg, ex, ord, ks, r);
    PatchFinalShape(g, x, b, tl, fl, reg, dtarget, d);
    ExecPatched(ord, ks, g.code, d, p, l, |g.code|, reg, dtarget, g.base, r);
    var o := Exec(ord, ks, g.code, p, g.base, r);
    match Exec(ord, ks, x.code, x.pend, g.base, r) {
      case Fall(r0) =>
        FallSize(ord, ks, x.code, x.pend, g.base, r);
        FallSize(ord, ks, g.code, p, g.base, r);
        WfApart(g, x, f, tl, fl);
        GoodFinal(g, x, d, p - l, b, tl, fl, ord, ks, r0, Eval(ord, ex, r0), o, reg, dtarget);
      case Exit(j, r1) =>
        PendingTaken(ord, ks, x.code, x.pend, g.base, r);
        NotOfList(g, x, f, tl, fl, j);
      case Stuck =>
    }
  }

  lemma WfApart(g: Gen, x: Ctx, f: Falls, tl: seq<nat>, fl: seq<nat>)
    requires Wf(x, g.code, g.lasttarget, f, tl, fl)
    ensures Elems(tl) !! Elems(fl)
  {
  }

  lemma GoodFinal(g: Gen, x: Ctx, d: Code, p: set<nat>, b: bool, tl: seq<nat>, fl: seq<nat>, ord: Order, ks: seq<Val>,
          r0: Regs, v: Val, o: Outcome, reg: nat, dtarget: nat)
    requires Good(g.code, Value(VNonReloc(reg)), tl, fl, x.low, reg, ks, r0, v, o) && Elems(tl) !! Elems(fl)
      && |d| == |g.code|
    requires SameExits(g.code, d, if b then [] else tl, if b then fl else []) && reg < NO_REG && |r0| == NO_REG
      && (!o.Stuck? ==> |o.regs| == NO_REG)
    requires (forall j :: j in Side(b, tl, fl) ==> Produces(g.code, j)) || BoolsAfter(g, x, tl, fl, dtarget, reg, b)
    requires forall i :: 0 <= i < |d| && (g.code[i].LoadTrue? || g.code[i].LFalseSkip?) ==> d[i] == g.code[i]
    ensures Good(d, Value(VNonReloc(reg)), if b then [] else tl, if b then fl else [], x.low, reg, ks, r0, v,
                 Resume(ord, ks, g.code, d, p, Elems(Side(b, tl, fl)), |g.code|, reg, dtarget, o))
  {
    match o {
      case Exit(j, r1) =>
        if j in Side(b, tl, fl) {
          FinalExit(g, x, d, p, b, tl, fl, ord, ks, r0, v, j, r1, reg, dtarget);
        } else {
          assert j in tl ==> j in Elems(tl);
          assert j in fl ==> j in Elems(fl);
        }
      case _ =>
    }
  }

  lemma FinalExit(g: Gen, x: Ctx, d: Code, p: set<nat>, b: bool, tl: seq<nat>, fl: seq<nat>, ord: Order, ks: seq<Val>,
          r0: Regs, v: Val, j: nat, r1: Regs, reg: nat, dtarget: nat)
    requires j in Side(b, tl, fl) && Same(r0, r1, x.low, NO_REG) && |r1| == NO_REG && reg < NO_REG && |d| == |g.code|
    requires (j in tl && TrueExit(g.code, j, r1, v)) || (j in fl && FalseExit(g.code, j, r1, v))
    requires Elems(tl) !! Elems(fl)
    requires Produces(g.code, j) || BoolsAfter(g, x, tl, fl, dtarget, reg, b)
    requires forall i :: 0 <= i < |d| && (g.code[i].LoadTrue? || g.code[i].LFalseSkip?) ==> d[i] == g.code[i]
    ensures var o := Exec(ord, ks, d, p, PatchTarget(g.code, j, |g.code|, dtarget), Resumed(g.code, j, reg, r1));
      o.Fall? && Same(r0, o.regs, x.low, reg) && Get(o.regs, reg) == v
  {
    assert j in tl ==> j in Elems(tl);
    assert j in fl ==> j in Elems(fl);
    if !Produces(g.code, j) {
      RunBool(ord, ks, d, p, dtarget, reg, b, r1);
    }
  }

  /** Code for the value in `reg` when the expression falls through: nothing more, or a
      jump around the booleans when it is a value, or the booleans when it is a test. */
  function BoolCode(k: Kind, reg: nat): Code {
    (if k.VJmp? then [] else [Jmp(2)]) + [LFalseSkip(reg), LoadTrue(reg)]
  }

  /** The jumps for true values, with the test of the expression itself. */
  function WithTest(k: Kind, tl: seq<nat>): seq<nat> {
    if k.VJmp? then tl + [k.jpc] else tl
  }

  /** exp2reg, when some jump needs a boolean: the code that loads them. */
  lemma PutBools(g: Gen, x: Ctx, k: Kind, tl: seq<nat>, fl: seq<nat>, ex: Expr, reg: nat)
    requires Coded(g, x, Value(k), tl, fl, reg, ex) && (k.VJmp? || k == VNonReloc(reg)) && reg < NO_REG
    ensures var d, tl1 := g.code + BoolCode(k, reg), WithTest(k, tl);
      && Coded(g.(code := d, lasttarget := |d|), x, Value(VNonReloc(reg)), tl1, fl, reg, ex)
      && BoolsAfter(g.(code := d, lasttarget := |d|), x, tl1, fl, |d| - 2, reg, false)
      && BoolsAfter(g.(code := d, lasttarget := |d|), x, tl1, fl, |d| - 1, reg, true)
  {
    hide Exec, Eval, MeansAt, Shape, Wf, Extends;
    var d, tl1 := g.code + BoolCode(k, reg), WithTest(k, tl);
    ExtendsTrans(x.code, g.code, d) by { ExtendsMore(g.code, BoolCode(k, reg)); }
    ExtendsSize(x.code, g.code);
    BoolsShape(g, x, k, tl, fl, reg);
    forall ord, ks, r | g.ks <= ks && |r| == NO_REG
      ensures MeansAt(x, g.base, d, Value(VNonReloc(reg)), tl1, fl, reg, ex, ord, ks, r)
    {
      PutBoolsAt(g, x, k, tl, fl, ex, reg, ord, ks, r);
    }
  }

  lemma BoolsShape(g: Gen, x: Ctx, k: Kind, tl: seq<nat>, fl: seq<nat>, reg: nat)
    requires Shape(g.code, Pend(x, Value(k), tl, fl), g.base, g.lasttarget)
      && Wf(x, g.code, g.lasttarget, Value(k), tl, fl)
    requires Extends(x.code, g.code) && g.base <= |x.code| && (k.VJmp? || k == VNonReloc(reg))
    ensures var d, tl1, p := g.code + BoolCode(k, reg), WithTest(k, tl), Pend(x, Value(k), tl, fl);
      && Shape(d, p, g.base, |d|) && Wf(x, d, |d|, Value(VNonReloc(reg)), tl1, fl)
        && Pend(x, Value(VNonReloc(reg)), tl1, fl) == p
      && BoolsAfter(g.(code := d, lasttarget := |d|), x, tl1, fl, |d| - 2, reg, false)
      && BoolsAfter(g.(code := d, lasttarget := |d|), x, tl1, fl, |d| - 1, reg, true)
      && SameExits(g.code, d, tl1, fl) && (k.VJmp? ==> !Produces(d, k.jpc))
  {
    hide Shape;
    var d, tl1, p := g.code + BoolCode(k, reg), WithTest(k, tl), Pend(x, Value(k), tl, fl);
    ShapeBools(g.code, BoolCode(k, reg), p, g.base, g.lasttarget, k, reg);
    PendingBelow(g.code, p, g.base, g.lasttarget);
    WfBools(g, x, k, tl, fl, reg);
  }

  lemma ShapeBools(c: Code, e: Code, p: set<nat>, base: nat, lasttarget: nat, k: Kind, reg: nat)
    requires Shape(c, p, base, lasttarget) && base <= |c| && e == BoolCode(k, reg)
    ensures Shape(c + e, p, base, |c + e|)
  {
    var d := c + e;
    forall i | base <= i < |d| ensures ShapeAt(d, p, |d|, i) {
      if i < |c| { assert ShapeAt(c, p, lasttarget, i); }
    }
    forall j | j in p ensures base <= j < |d| && d[j].Jmp? && (Produces(d, j) ==> d[j - 1].a == NO_REG) {
      if j > 0 { assert d[j - 1] == c[j - 1]; }
    }
  }

  lemma WfBools(g: Gen, x: Ctx, k: Kind, tl: seq<nat>, fl: seq<nat>, reg: nat)
    requires Wf(x, g.code, g.lasttarget, Value(k), tl, fl) && (k.VJmp? || k == VNonReloc(reg))
    requires forall j :: j in Pend(x, Value(k), tl, fl) ==> j < |g.code|
    ensures var d, tl1, p := g.code + BoolCode(k, reg), WithTest(k, tl), Pend(x, Value(k), tl, fl);
      && Wf(x, d, |d|, Value(VNonReloc(reg)), tl1, fl) && Pend(x, Value(VNonReloc(reg)), tl1, fl) == p
      && BoolsAfter(g.(code := d, lasttarget := |d|), x, tl1, fl, |d| - 2, reg, false)
      && BoolsAfter(g.(code := d, lasttarget := |d|), x, tl1, fl, |d| - 1, reg, true)
      && SameExits(g.code, d, tl1, fl) && (k.VJmp? ==> !Produces(d, k.jpc))
  {
    var d, tl1, p := g.code + BoolCode(k, reg), WithTest(k, tl), Pend(x, Value(k), tl, fl);
    if k.VJmp? { assert Elems(tl + [k.jpc]) == Elems(tl) + {k.jpc}; }
    forall j | j in tl1 + fl ensures j < |g.code| && ((k.VJmp? && j == k.jpc) || j in tl + fl) {
      assert j in p;
    }
  }

  lemma PutBoolsAt(g: Gen, x: Ctx, k: Kind, tl: seq<nat>, fl: seq<nat>, ex: Expr, reg: nat, ord: Order, ks: seq<Val>,
          r: Regs)
    requires Coded(g, x, Value(k), tl, fl, reg, ex) && (k.VJmp? || k == VNonReloc(reg)) && reg < NO_REG
      && g.ks <= ks && |r| == NO_REG
    ensures MeansAt(x, g.base, g.code + BoolCode(k, reg), Value(VNonReloc(reg)), WithTest(k, tl), fl, reg, ex, ord,
      ks, r)
  {
    hide Means, Shape, Extends, Exec, Eval, Wf, Good;
    var p, d := Pend(x, Value(k), tl, fl), g.code + BoolCode(k, reg);
    MeansHere(g, x, Value(k), tl, fl, reg, ex, ord, ks, r);
    BoolsShape(g, x, k, tl, fl, reg);
    CodeIsCore(g, k);
    ExtendsSize(x.code, g.code);
    ExecAppend(ord, ks, g.code, BoolCode(k, reg), p, p, g.base, g.lasttarget, r);
    var o := Exec(ord, ks, g.code, p, g.base, r);
    match Exec(ord, ks, x.code, x.pend, g.base, r) {
      case Fall(r0) =>
        FallSize(ord, ks, x.code, x.pend, g.base, r);
        FallSize(ord, ks, g.code, p, g.base, r);
        AfterCode(g, x, k, tl, fl);
        GoodBools(g.code, d, k, p, tl, fl, x.low, ord, ks, r0, Eval(ord, ex, r0), o, reg);
      case _ =>
    }
  }

  lemma ExtendsSize(c: Code, d: Code)
    requires Extends(c, d)
    ensures |c| <= |d|
  {
  }

  lemma CodeIsCore(g: Gen, k: Kind)
    requires !k.VReloc?
    ensures Core(g.code, Value(k)) == g.code
  {
  }

  lemma AfterCode(g: Gen, x: Ctx, k: Kind, tl: seq<nat>, fl: seq<nat>)
    requires Shape(g.code, Pend(x, Value(k), tl, fl), g.base, g.lasttarget)
      && Wf(x, g.code, g.lasttarget, Value(k), tl, fl)
    ensures k.VJmp? ==>
      0 < k.jpc == |g.code| - 1 && g.code[k.jpc].Jmp? && !Produces(g.code, k.jpc) && IsTest(g.code[k.jpc - 1])
    ensures forall j :: j in Pend(x, Value(k), tl, fl) ==> j < |g.code|
    ensures |g.code| > 0 && g.base < |g.code| ==> !IsTest(g.code[|g.code| - 1])
    ensures g.base == |g.code| && |g.code| > 0 ==> !IsTest(g.code[|g.code| - 1])
  {
    if g.base < |g.code| { assert ShapeAt(g.code, Pend(x, Value(k), tl, fl), g.lasttarget, |g.code| - 1); }
  }

  lemma GoodBools(c: Code, d: Code, k: Kind, p: set<nat>, tl: seq<nat>, fl: seq<nat>, low: nat, ord: Order,
          ks: seq<Val>, r0: Regs, v: Val, o: Outcome, reg: nat)
    requires Good(c, Value(k), tl, fl, low, reg, ks, r0, v, o) && (k.VJmp? || k == VNonReloc(reg))
      && d == c + BoolCode(k, reg)
    requires reg < NO_REG && |r0| == NO_REG && (!o.Stuck? ==> |o.regs| == NO_REG)
    requires SameExits(c, d, WithTest(k, tl), fl) && (k.VJmp? ==> !Produces(d, k.jpc))
      && (forall j :: j in p ==> j < |c|)
    requires |c| > 0 ==> !IsTest(c[|c| - 1])
    ensures Good(d, Value(VNonReloc(reg)), WithTest(k, tl), fl, low, reg, ks, r0, v, Then(ord, ks, d, p, |c|, o))
  {
    match o {
      case Fall(r1) => RunBoolCode(ord, ks, c, d, k, p, reg, r1);
      case Exit(j, r1) =>
        assert j in tl || j in fl ==> j in WithTest(k, tl) + fl;
        if k.VJmp? { assert k.jpc in WithTest(k, tl); assert j in tl ==> j in WithTest(k, tl); }
      case Stuck =>
    }
  }

  lemma RunBoolCode(ord: Order, ks: seq<Val>, c: Code, d: Code, k: Kind, p: set<nat>, reg: nat, r: Regs)
    requires d == c + BoolCode(k, reg) && (forall j :: j in p ==> j < |c|) && (|c| > 0 ==> !IsTest(c[|c| - 1]))
    ensures Exec(ord, ks, d, p, |c|, r) == Fall(if k.VJmp? then Set(r, reg, False) else r)
  {
    if k.VJmp? {
      assert d[|c|] == LFalseSkip(reg) && |d| == |c| + 2;
      RunBool(ord, ks, d, p, |c|, reg, false, r);
    } else {
      assert d[|c|] == Jmp(2) && |d| == |c| + 3;
      assert |c| > 0 ==> d[|c| - 1] == c[|c| - 1];
      assert StepIn(ord, ks, d, p, |c|, r) == Go(|c| + 3, r);
    }
  }

  /** exp2reg, when all jumps have values: only the end of the code becomes a target. */
  lemma MarkEnd(g: Gen, x: Ctx, f: Falls, tl: seq<nat>, fl: seq<nat>, skip: nat, ex: Expr)
    requires Coded(g, x, f, tl, fl, skip, ex) && (f.Value? ==> !f.k.VReloc? && !f.k.VJmp?)
    ensures Coded(g.(lasttarget := |g.code|), x, f, tl, fl, skip, ex)
  {
    hide Exec, Eval, MeansAt, Means, Extends;
    forall i | g.base <= i < |g.code| ensures ShapeAt(g.code, Pend(x, f, tl, fl), |g.code|, i) {
      assert ShapeAt(g.code, Pend(x, f, tl, fl), g.lasttarget, i);
    }
  }
}
