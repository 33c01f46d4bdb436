/** Comparisons: two operands, in registers or constants, and the test that compares them. */
module LuaCompare {
  import opened LuaVm
  import opened LuaBool
  import opened LuaBoolJumps
  import opened LuaBoolOps

  /** Operands of a comparison: their values do not depend on the code. */
  predicate Operand(k: Kind) {
    k.VNonReloc? || k.VKInt? || k.VK?
  }

  predicate Below(k: Kind, low: nat) {
    k.VNonReloc? ==> k.reg < low
  }

  /** Both operands are available when the code falls through; `raw` says that one of them
      is no object. */
  predicate PairAt(x: Ctx, base: nat, code: Code, ka: Kind, kb: Kind, ea: Expr, eb: Expr, raw: bool, ord: Order,
          ks: seq<Val>, r: Regs) {
    var o := Exec(ord, ks, code, x.pend, base, r);
    match Exec(ord, ks, x.code, x.pend, base, r)
    case Stuck => true
    case Exit(j, r1) => o == Exit(j, r1)
    case Fall(r0) =>
      && o.Fall? && Same(r0, o.regs, x.low, NO_REG)
      && KindValue(code, ka, ks, o.regs, Eval(ord, ea, r0)) && KindValue(code, kb, ks, o.regs, Eval(ord, eb, r0))
      && (raw ==> !Eval(ord, ea, r0).Obj? || !Eval(ord, eb, r0).Obj?)
  }

  ghost predicate Pair(g: Gen, x: Ctx, ka: Kind, kb: Kind, ea: Expr, eb: Expr, raw: bool) {
    && Extends(x.code, g.code) && Shape(g.code, x.pend, g.base, g.lasttarget)
    && (forall j :: j in x.pend ==> j < |x.code|)
    && InScope(ea, g.nvars) && InScope(eb, g.nvars) && g.nvars <= x.low <= MAX_FSTACK && g.base <= |x.code|
    && Operand(ka) && Operand(kb)
    && forall ord, ks, r :: g.ks <= ks && |r| == NO_REG ==> PairAt(x, g.base, g.code, ka, kb, ea, eb, raw, ord, ks, r)
  }

  lemma PairHere(g: Gen, x: Ctx, ka: Kind, kb: Kind, ea: Expr, eb: Expr, raw: bool, ord: Order, ks: seq<Val>, r: Regs)
    requires Pair(g, x, ka, kb, ea, eb, raw) && g.ks <= ks && |r| == NO_REG
    ensures PairAt(x, g.base, g.code, ka, kb, ea, eb, raw, ord, ks, r)
  {
  }

  /** No jumps: the code just falls through. */
  lemma GoodValue(c: Code, k: Kind, low: nat, ks: seq<Val>, r0: Regs, v: Val, o: Outcome)
    requires Good(c, Value(k), [], [], low, NO_REG, ks, r0, v, o) && !k.VJmp?
    ensures o.Fall? && Same(r0, o.regs, low, NO_REG) && KindValue(c, k, ks, o.regs, v)
  {
  }

  lemma OperandStays(c: Code, d: Code, k: Kind, low: nat, ks: seq<Val>, r0: Regs, r1: Regs, v: Val)
    requires Operand(k) && Below(k, low) && low <= NO_REG && Same(r0, r1, low, NO_REG) && KindValue(c, k, ks, r0, v)
    ensures KindValue(d, k, ks, r1, v)
  {
  }

  /** One run of code whose value is an operand. */
  lemma MeansOperand(x: Ctx, base: nat, code: Code, k: Kind, ex: Expr, ord: Order, ks: seq<Val>, r: Regs)
    requires MeansAt(x, base, code, Value(k), [], [], NO_REG, ex, ord, ks, r) && Operand(k)
    ensures var o0, o := Exec(ord, ks, x.code, x.pend, base, r), Exec(ord, ks, code, x.pend, base, r);
      && (o0.Exit? ==> o == o0)
      && (o0.Fall? ==>
        o.Fall? && Same(o0.regs, o.regs, x.low, NO_REG) && KindValue(code, k, ks, o.regs, Eval(ord, ex, o0.regs)))
  {
    hide Exec, KindValue, Good, Eval;
    assert Pend(x, Value(k), [], []) == x.pend;
    match Exec(ord, ks, x.code, x.pend, base, r) {
      case Fall(r0) => GoodValue(code, k, x.low, ks, r0, Eval(ord, ex, r0), Exec(ord, ks, code, x.pend, base, r));
      case _ =>
    }
  }

  /** A constant is no object. */
  predicate RawKind(k: Kind) {
    k.VKInt? || k.VK?
  }

  /** Two operands compiled one after the other. */
  lemma PairStart(ga: Gen, gb: Gen, x: Ctx, low: nat, ka: Kind, kb: Kind, ea: Expr, eb: Expr)
    requires Coded(ga, x, Value(ka), [], [], NO_REG, ea) && Operand(ka) && Below(ka, low) && x.low <= low
    requires Coded(gb, After(ga, x, [], low), Value(kb), [], [], NO_REG, eb) && Operand(kb)
    requires gb.base == ga.base && gb.nvars == ga.nvars && ga.ks <= gb.ks
    ensures Pair(gb, x, ka, kb, ea, eb, RawKind(ka) || RawKind(kb))
  {
    hide Exec, Eval, Extends, PairAt, Shape, MeansAt;
    var x1 := After(ga, x, [], low);
    ExtendsTrans(x.code, ga.code, gb.code);
    assert x1.pend == x.pend;
    assert Pend(x1, Value(kb), [], []) == x.pend && Pend(x, Value(ka), [], []) == x.pend;
    var raw := RawKind(ka) || RawKind(kb);
    forall ord, ks, r | gb.ks <= ks && |r| == NO_REG
      ensures PairAt(x, gb.base, gb.code, ka, kb, ea, eb, raw, ord, ks, r)
    {
      MeansHere(ga, x, Value(ka), [], [], NO_REG, ea, ord, ks, r);
      MeansHere(gb, x1, Value(kb), [], [], NO_REG, eb, ord, ks, r);
      PairStartAt(ga, gb, x, low, ka, kb, ea, eb, ord, ks, r);
    }
  }

  lemma PairStartAt(ga: Gen, gb: Gen, x: Ctx, low: nat, ka: Kind, kb: Kind, ea: Expr, eb: Expr, ord: Order,
          ks: seq<Val>, r: Regs)
    requires MeansAt(x, ga.base, ga.code, Value(ka), [], [], NO_REG, ea, ord, ks, r) && Operand(ka)
      && Below(ka, low) && x.low <= low <= NO_REG
    requires MeansAt(After(ga, x, [], low), gb.base, gb.code, Value(kb), [], [], NO_REG, eb, ord, ks, r) && Operand(kb)
    requires gb.base == ga.base && InScope(eb, ga.nvars) && ga.nvars <= x.low
    ensures PairAt(x, gb.base, gb.code, ka, kb, ea, eb, RawKind(ka) || RawKind(kb), ord, ks, r)
  {
    hide Exec, KindValue, Good, MeansAt, Eval;
    var x1 := After(ga, x, [], low);
    assert x1.pend == x.pend && x1.code == ga.code;
    MeansOperand(x, ga.base, ga.code, ka, ea, ord, ks, r);
    MeansOperand(x1, ga.base, gb.code, kb, eb, ord, ks, r);
    var o0, o1 := Exec(ord, ks, x.code, x.pend, ga.base, r), Exec(ord, ks, ga.code, x.pend, ga.base, r);
    if o0.Fall? {
      var o2 := Exec(ord, ks, gb.code, x.pend, ga.base, r);
      EvalLow(ord, eb, o0.regs, o1.regs, ga.nvars, x.low);
      OperandStays(ga.code, gb.code, ka, low, ks, o1.regs, o2.regs, Eval(ord, ea, o0.regs));
      RawValue(gb.code, ka, ks, o2.regs, Eval(ord, ea, o0.regs));
      RawValue(gb.code, kb, ks, o2.regs, Eval(ord, eb, o0.regs));
    }
  }

  lemma RawValue(c: Code, k: Kind, ks: seq<Val>, r: Regs, v: Val)
    requires KindValue(c, k, ks, r, v)
    ensures RawKind(k) ==> !v.Obj?
  {
  }

  /** The first operand, an integer constant, is given another form after both. */
  lemma PairLoad(g: Gen, gc: Gen, x: Ctx, low: nat, i: int, kc: Kind, kb: Kind, ea: Expr, eb: Expr, raw: bool)
    requires Pair(g, x, VKInt(i), kb, ea, eb, raw) && Below(kb, low) && x.low <= low
    requires Coded(gc, After(g, x, [], low), Value(kc), [], [], NO_REG, Const(Int(i))) && Operand(kc)
    requires gc.base == g.base && gc.nvars == g.nvars && g.ks <= gc.ks
    ensures Pair(gc, x, kc, kb, ea, eb, raw)
  {
    hide Exec, Eval, Extends, PairAt, Shape, MeansAt;
    var x1 := After(g, x, [], low);
    ExtendsTrans(x.code, g.code, gc.code);
    assert x1.pend == x.pend && Pend(x1, Value(kc), [], []) == x.pend;
    forall ord, ks, r | gc.ks <= ks && |r| == NO_REG
      ensures PairAt(x, gc.base, gc.code, kc, kb, ea, eb, raw, ord, ks, r)
    {
      PairHere(g, x, VKInt(i), kb, ea, eb, raw, ord, ks, r);
      MeansHere(gc, x1, Value(kc), [], [], NO_REG, Const(Int(i)), ord, ks, r);
      PairLoadAt(g, gc, x, low, i, kc, kb, ea, eb, raw, ord, ks, r);
    }
  }

  lemma PairLoadAt(g: Gen, gc: Gen, x: Ctx, low: nat, i: int, kc: Kind, kb: Kind, ea: Expr, eb: Expr, raw: bool,
          ord: Order, ks: seq<Val>, r: Regs)
    requires PairAt(x, g.base, g.code, VKInt(i), kb, ea, eb, raw, ord, ks, r) && Operand(kb) && Below(kb, low)
      && x.low <= low <= NO_REG
    requires MeansAt(After(g, x, [], low), gc.base, gc.code, Value(kc), [], [], NO_REG, Const(Int(i)), ord, ks, r)
      && Operand(kc)
    requires gc.base == g.base
    ensures PairAt(x, gc.base, gc.code, kc, kb, ea, eb, raw, ord, ks, r)
  {
    hide Exec, Good, MeansAt, KindValue;
    var x1 := After(g, x, [], low);
    assert x1.pend == x.pend && x1.code == g.code;
    MeansOperand(x1, g.base, gc.code, kc, Const(Int(i)), ord, ks, r);
    var o0, o1 := Exec(ord, ks, x.code, x.pend, g.base, r), Exec(ord, ks, g.code, x.pend, g.base, r);
    if o0.Fall? {
      var o2 := Exec(ord, ks, gc.code, x.pend, g.base, r);
      IntValue(g.code, i, ks, o1.regs, Eval(ord, ea, o0.regs));
      hide Eval;
      OperandStays(g.code, gc.code, kb, low, ks, o1.regs, o2.regs, Eval(ord, eb, o0.regs));
    }
  }

  lemma IntValue(c: Code, i: int, ks: seq<Val>, r: Regs, v: Val)
    requires KindValue(c, VKInt(i), ks, r, v)
    ensures v == Int(i)
  {
  }

  /** `i` compares what the two kinds describe. */
  ghost predicate Compares(i: Instr, op: CmpOp, ka: Kind, kb: Kind, raw: bool) {
    && IsComparison(i)
    && forall ord, ks, r, c, va, vb ::
         KindValue(c, ka, ks, r, va) && KindValue(c, kb, ks, r, vb) && (raw ==> !va.Obj? || !vb.Obj?) ==>
           (Taken(ord, ks, i, r) <==> Compare(ord, op, va, vb))
  }

  /** The test of a comparison, and its jump. */
  lemma CodedCompare(g: Gen, x: Ctx, op: CmpOp, ka: Kind, kb: Kind, ea: Expr, eb: Expr, raw: bool, i: Instr)
    requires Pair(g, x, ka, kb, ea, eb, raw) && Compares(i, op, ka, kb, raw)
    ensures Coded(g.(code := g.code + [i, Jmp(NO_JUMP)]), x, Value(VJmp(|g.code| + 1)), [], [], NO_REG, Cmp(op, ea, eb))
  {
    hide Exec, Eval, PairAt, MeansAt;
    var d, pc := g.code + [i, Jmp(NO_JUMP)], |g.code| + 1;
    ShapeTest(g.code, i, x.pend, g.base, g.lasttarget);
    ExtendsTrans(x.code, g.code, d) by { ExtendsMore(g.code, [i, Jmp(NO_JUMP)]); }
    assert Pend(x, Value(VJmp(pc)), [], []) == x.pend + {pc};
    var w := Cmp(op, ea, eb);
    forall ord, ks, r | g.ks <= ks && |r| == NO_REG
      ensures MeansAt(x, g.base, d, Value(VJmp(pc)), [], [], NO_REG, w, ord, ks, r)
    {
      PairHere(g, x, ka, kb, ea, eb, raw, ord, ks, r);
      CompareAt(g, x, op, ka, kb, ea, eb, raw, i, ord, ks, r);
    }
  }

  lemma PendJump(x: Ctx, pc: nat)
    ensures Pend(x, Value(VJmp(pc)), [], []) == x.pend + {pc}
  {
  }

  lemma CompareAt(g: Gen, x: Ctx, op: CmpOp, ka: Kind, kb: Kind, ea: Expr, eb: Expr, raw: bool, i: Instr, ord: Order,
          ks: seq<Val>, r: Regs)
    requires PairAt(x, g.base, g.code, ka, kb, ea, eb, raw, ord, ks, r) && Compares(i, op, ka, kb, raw) && |r| == NO_REG
    requires Shape(g.code, x.pend, g.base, g.lasttarget) && g.base <= |g.code|
    ensures MeansAt(x, g.base, g.code + [i, Jmp(NO_JUMP)], Value(VJmp(|g.code| + 1)), [], [], NO_REG, Cmp(op, ea, eb),
      ord, ks, r)
  {
    hide Exec, KindValue, Shape, Taken, Compare, Pend;
    var d, pc := g.code + [i, Jmp(NO_JUMP)], |g.code| + 1;
    ExecTest(ord, ks, g.code, i, NO_JUMP, x.pend, g.base, g.lasttarget, r);
    PendJump(x, pc);
    match Exec(ord, ks, x.code, x.pend, g.base, r) {
      case Fall(r0) =>
        var o1 := Exec(ord, ks, g.code, x.pend, g.base, r);
        assert Taken(ord, ks, i, o1.regs) <==> Compare(ord, op, Eval(ord, ea, r0), Eval(ord, eb, r0));
        JumpValue(d, ks, o1.regs, pc);
      case _ =>
    }
  }

  lemma JumpValue(c: Code, ks: seq<Val>, r: Regs, pc: nat)
    ensures KindValue(c, VJmp(pc), ks, r, False)
  {
  }

  /** The instructions for each pair of operands. */
  lemma ComparesOrder(op: CmpOp, ra: nat, kb: Kind)
    requires op.LT? || op.LE?
    ensures kb.VNonReloc? ==>
      Compares(if op.LT? then Lt(ra, kb.reg, true) else Le(ra, kb.reg, true), op, VNonReloc(ra), kb, false)
    ensures kb.VNonReloc? ==>
      Compares(if op.LT? then Lt(ra, kb.reg, true) else Le(ra, kb.reg, true), op, VNonReloc(ra), kb, true)
    ensures kb.VKInt? ==>
      Compares(if op.LT? then LtI(ra, kb.ival, true) else LeI(ra, kb.ival, true), op, VNonReloc(ra), kb, true)
    ensures kb.VKInt? ==>
      Compares(if op.LT? then GtI(ra, kb.ival, true) else GeI(ra, kb.ival, true), op, kb, VNonReloc(ra), true)
  {
  }

  lemma ComparesEqual(ne: bool, ra: nat, kb: Kind, raw: bool)
    requires Operand(kb)
    ensures var op := if ne then NE else EQ;
      match kb
      case VNonReloc(rb) => Compares(Eq(ra, rb, !ne), op, VNonReloc(ra), kb, raw)
      case VKInt(i) => Compares(EqI(ra, i, !ne), op, VNonReloc(ra), kb, raw)
      case VK(n) => Compares(EqK(ra, n, !ne), op, VNonReloc(ra), kb, raw)
  {
  }

  /** The same with the operands in the other order. */
  lemma ComparesEqualSwapped(ne: bool, ra: nat, kb: Kind)
    requires Operand(kb)
    ensures var op := if ne then NE else EQ;
      match kb
      case VNonReloc(rb) => Compares(Eq(ra, rb, !ne), op, kb, VNonReloc(ra), true)
      case VKInt(i) => Compares(EqI(ra, i, !ne), op, kb, VNonReloc(ra), true)
      case VK(n) => Compares(EqK(ra, n, !ne), op, kb, VNonReloc(ra), true)
  {
  }

  /** `a > b` is `b < a`. */
  lemma ComparesFlip(i: Instr, op: CmpOp, ka: Kind, kb: Kind, raw: bool)
    requires (op.LT? || op.LE?) && Compares(i, op, ka, kb, raw)
    ensures Compares(i, if op.LT? then GT else GE, kb, ka, raw)
  {
    hide Taken, KindValue;
    var op2 := if op.LT? then GT else GE;
    forall ord, ks, r, c, va, vb
      | KindValue(c, kb, ks, r, va) && KindValue(c, ka, ks, r, vb) && (raw ==> !va.Obj? || !vb.Obj?)
      ensures Taken(ord, ks, i, r) <==> Compare(ord, op2, va, vb)
    {
      assert Taken(ord, ks, i, r) <==> Compare(ord, op, vb, va);
    }
  }

  lemma PairShape(g: Gen, x: Ctx, ka: Kind, kb: Kind, ea: Expr, eb: Expr, raw: bool)
    requires Pair(g, x, ka, kb, ea, eb, raw)
    ensures Shape(g.code, x.pend, g.base, g.lasttarget) && g.base <= |g.code| && g.nvars <= x.low <= MAX_FSTACK
      && |x.code| <= |g.code|
  {
  }
}
