/** The part of the code generator that compiles boolean expressions, comparisons and
    constants, working on the code of a function as it grows. */
module LuaCodegen {
  import opened LuaVm
  import opened LuaBool
  import opened LuaBoolJumps
  import opened LuaBoolOps
  import opened LuaBoolFinal
  import opened LuaCompare

  /** Bounds for what compiling an expression adds: instructions, constants, temporaries. */
  function Instrs(ex: Expr): nat {
    match ex
    case Const(_) => 0
    case Local(_) => 0
    case NotE(e) => Instrs(e) + 3
    case And(a, b) => Instrs(a) + Instrs(b) + 4
    case Or(a, b) => Instrs(a) + Instrs(b) + 4
    case Cmp(_, a, b) => Instrs(a) + Instrs(b) + 17
  }

  function Consts(ex: Expr): nat {
    match ex
    case Const(_) => 0
    case Local(_) => 0
    case NotE(e) => Consts(e) + 1
    case And(a, b) => Consts(a) + Consts(b) + 1
    case Or(a, b) => Consts(a) + Consts(b) + 1
    case Cmp(_, a, b) => Consts(a) + Consts(b) + 5
  }

  function Temps(ex: Expr): nat {
    match ex
    case Const(_) => 1
    case Local(_) => 1
    case NotE(e) => Temps(e)
    case And(a, b) => Larger(Temps(a), Temps(b))
    case Or(a, b) => Larger(Temps(a), Temps(b))
    case Cmp(_, a, b) => Larger(Temps(a), Temps(b) + 1)
  }

  function Larger(a: nat, b: nat): nat {
    if a < b then b else a
  }

  lemma {:induction false} TempsOne(ex: Expr)
    ensures Temps(ex) >= 1
  {
    match ex {
      case NotE(e) => TempsOne(e);
      case And(a, b) => TempsOne(a);
      case Or(a, b) => TempsOne(a);
      case Cmp(_, a, b) => TempsOne(a);
      case _ =>
    }
  }

  lemma JointSize(holds: bool, a: Expr, b: Expr)
    ensures Instrs(Joint(holds, a, b)) == Instrs(a) + Instrs(b) + 4
    ensures Consts(Joint(holds, a, b)) == Consts(a) + Consts(b) + 1
    ensures 1 <= Temps(a) <= Temps(Joint(holds, a, b)) && Temps(b) <= Temps(Joint(holds, a, b))
  {
    TempsOne(a);
  }

  lemma CmpSize(op: CmpOp, a: Expr, b: Expr)
    ensures Instrs(Cmp(op, a, b)) == Instrs(a) + Instrs(b) + 17 && Consts(Cmp(op, a, b)) == Consts(a) + Consts(b) + 5
    ensures 1 <= Temps(a) <= Temps(Cmp(op, a, b)) && 2 <= Temps(b) + 1 <= Temps(Cmp(op, a, b))
  {
    TempsOne(a);
    TempsOne(b);
  }

  /** There is room for `n` more instructions and `c` more constants, and the registers below
      `top` exist. */
  predicate Room(code: Code, ks: seq<Val>, n: nat, c: nat, top: nat) {
    |code| + n <= MAX_OFFSET && |ks| + c <= MAXARG_AX && top <= MAX_FSTACK
  }

  predicate Grown(code0: Code, ks0: seq<Val>, code1: Code, ks1: seq<Val>, n: nat, c: nat) {
    |code1| <= |code0| + n && |ks1| <= |ks0| + c
  }

  class FuncState {
    var code: Code
    var lasttarget: nat
    var freereg: nat
    var maxstacksize: nat
    var ks: seq<Val>
    var kcache: map<Val, nat>
    const nvars: nat
    ghost const base: nat

    /** A function with some code already, at a point marked as a jump target. */
    constructor (nvars: nat, code: Code, ks: seq<Val>)
      requires nvars <= MAX_FSTACK && (code != [] ==> !IsTest(code[|code| - 1]))
      ensures this.nvars == nvars && this.code == code && this.ks == ks && freereg == nvars && base == |code|
      ensures Ready({}) && lasttarget == |code|
    {
      this.nvars, this.code, this.ks := nvars, code, ks;
      lasttarget, freereg, maxstacksize, kcache, base := |code|, nvars, if nvars < 2 then 2 else nvars, map[], |code|;
    }

    ghost predicate Cached()
      reads this`ks, this`kcache, this`maxstacksize
    {
      maxstacksize <= MAX_FSTACK && forall v :: v in kcache ==> kcache[v] < |ks| && ks[kcache[v]] == v
    }

    /** Between expressions. */
    ghost predicate Ready(pend: set<nat>)
      reads this
    {
      Shape(code, pend, base, lasttarget) && Cached() && nvars <= freereg <= MAX_FSTACK
    }

    ghost function Now(): Gen
      reads this
    {
      Gen(code, lasttarget, ks, nvars, base)
    }

    /** `e` describes the compiled expression `ex`. */
    ghost predicate Compiled(x: Ctx, e: ExpDesc, tl: seq<nat>, fl: seq<nat>, ex: Expr)
      reads this
    {
      && Coded(Now(), x, Value(e.k), tl, fl, NO_REG, ex) && Cached() && RegsOk(e.k, x.low, nvars, freereg)
      && IsList(code, e.t, tl) && IsList(code, e.f, fl)
    }

    /** luaK_code. */
    method Emit(i: Instr) returns (pc: nat)
      modifies this`code
      ensures code == old(code) + [i] && pc == |old(code)|
    {
      pc := |code|;
      code := code + [i];
    }

    /** luaK_getlabel: here is a jump target. */
    method GetLabel() returns (pc: nat)
      modifies this`lasttarget
      ensures pc == lasttarget == |code|
    {
      lasttarget := |code|;
      pc := |code|;
    }

    /** fixjump: jumps are relative, with a limited offset. */
    method FixJump(pc: nat, dest: int) returns (st: Status)
      requires pc < |code| && code[pc].Jmp?
      modifies this`code
      ensures st.Ok? <==> -MAX_OFFSET <= dest - (pc + 1) <= MAX_OFFSET + 1
      ensures code == if st.Ok? then old(code)[pc := Jmp(dest - (pc + 1))] else old(code)
    {
      var offset := dest - (pc + 1);
      if !(-MAX_OFFSET <= offset <= MAX_OFFSET + 1) {
        return TooLong;
      }
      code := code[pc := Jmp(offset)];
      return Ok;
    }

    /** luaK_concat: the last jump of `l1` is linked to `l2`. */
    method Concat(l1: int, l2: int, ghost s1: seq<nat>, ghost s2: seq<nat>) returns (st: Status, l: int)
      requires IsList(code, l1, s1) && IsList(code, l2, s2) && Elems(s1) !! Elems(s2)
      modifies this`code
      ensures |code| == |old(code)| && (|code| <= MAX_OFFSET ==> st.Ok?)
      ensures st.Ok? ==> IsList(code, l, s1 + s2) && Relinked(old(code), code, Elems(s1))
    {
      if l2 == NO_JUMP {
        assert s1 + s2 == s1;
        return Ok, l1;
      }
      if l1 == NO_JUMP {
        assert s1 + s2 == s2;
        return Ok, l2;
      }
      var list: nat := l1;
      ghost var i := 0;
      while Link(code, list) != NO_JUMP
        invariant 0 <= i < |s1| && list == s1[i] && code == old(code)
        decreases |s1| - i
      {
        NextInList(code, l1, s1, i);
        list := Link(code, list);
        i := i + 1;
      }
      NextInList(code, l1, s1, i);
      st := FixJump(list, l2);
      l := l1;
      if st.Ok? {
        Joined(old(code), code, l1, l2, s1, s2);
      }
    }

    /** getjumpcontrol and patchtestreg: the register of a TESTSET, or a plain TEST. */
    method PatchTestReg(node: nat, reg: nat) returns (ok: bool)
      requires node < |code| && code[node].Jmp?
      modifies this`code
      ensures ok == Produces(old(code), node)
      ensures code == if ok then old(code)[node - 1 := PatchedTest(old(code)[node - 1], reg)] else old(code)
    {
      var control := if node >= 1 && IsTest(code[node - 1]) then node - 1 else node;
      if !code[control].TestSet? {
        return false;
      }
      code := code[control := PatchedTest(code[control], reg)];
      return true;
    }

    /** removevalues. */
    method RemoveValues(list: int, ghost js: seq<nat>)
      requires IsList(code, list, js)
      modifies this`code
      ensures |code| == |old(code)| && ValuesRemoved(old(code), code, Elems(js)) && IsList(code, list, js)
    {
      var l := list;
      ghost var i := 0;
      while l != NO_JUMP
        invariant 0 <= i <= |js| && l == (if i < |js| then js[i] else NO_JUMP)
        invariant ValuesRemoved(old(code), code, Elems(js[..i])) && IsList(code, list, js)
        decreases |js| - i
      {
        ghost var c := code;
        var ok := PatchTestReg(l, NO_REG);
        RemovedMore(old(code), c, code, js, i);
        RemovedList(c, code, Elems([js[i]]), list, js);
        NextInList(code, list, js, i);
        l := Link(code, l);
        i := i + 1;
      }
      assert js[..|js|] == js;
    }

    /** need_value: some jump of the list comes from a test that leaves no value. */
    method NeedValue(list: int, ghost js: seq<nat>) returns (need: bool)
      requires IsList(code, list, js)
      ensures need <==> exists j :: j in js && !Produces(code, j)
    {
      var l := list;
      ghost var i := 0;
      while l != NO_JUMP
        invariant 0 <= i <= |js| && l == (if i < |js| then js[i] else NO_JUMP)
        invariant forall j :: 0 <= j < i ==> Produces(code, js[j])
        decreases |js| - i
      {
        var control := if l >= 1 && IsTest(code[l - 1]) then l - 1 else l;
        if !code[control].TestSet? {
          assert js[i] in js;
          return true;
        }
        NextInList(code, list, js, i);
        l := Link(code, l);
        i := i + 1;
      }
      return false;
    }

    /** patchlistaux: tests that produce values put them in `reg` and go to `vtarget`; the
        other jumps go to `dtarget`. */
    method PatchListAux(list: int, vtarget: nat, reg: nat, dtarget: int, ghost js: seq<nat>) returns (st: Status)
      requires IsList(code, list, js) && Patchable(code, Elems(js))
      requires dtarget >= 0 || forall j :: j in js ==> Produces(code, j)
      modifies this`code
      ensures |code| == |old(code)|
      ensures vtarget <= |code| <= MAX_OFFSET && dtarget <= |code| ==> st.Ok?
      ensures st.Ok? ==> Patched(old(code), code, Elems(js), vtarget, reg, Target(dtarget))
    {
      hide Patched, Patchable, Produces;
      var l := list;
      ghost var i := 0;
      PatchedNone(code, vtarget, reg, Target(dtarget));
      assert Elems(js[..i]) == {};
      while l != NO_JUMP
        invariant 0 <= i <= |js| && l == (if i < |js| then js[i] else NO_JUMP)
        invariant Patched(old(code), code, Elems(js[..i]), vtarget, reg, Target(dtarget)) && |code| == |old(code)|
        decreases |js| - i
      {
        RestOfList(old(code), code, list, js, i, vtarget, reg, Target(dtarget));
        ghost var c := code;
        var next := Link(code, l);
        var produced := PatchTestReg(l, reg);
        ControlApart(c, l);
        ControlApart(old(code), l);
        if produced {
          st := FixJump(l, vtarget);
        } else {
          st := FixJump(l, dtarget);
        }
        if st.IsFailure() { return; }
        PatchableOne(old(code), js, i);
        PatchedMore(old(code), c, code, js, i, vtarget, reg, Target(dtarget));
        l := next;
        i := i + 1;
      }
      assert js[..|js|] == js;
      st := Ok;
    }

    /** luaK_patchtohere: all jumps of the list come here, and produce nothing. */
    method PatchToHere(list: int, ghost js: seq<nat>) returns (st: Status)
      requires IsList(code, list, js) && Patchable(code, Elems(js))
      modifies this`code, this`lasttarget
      ensures |code| == |old(code)| && (|code| <= MAX_OFFSET ==> st.Ok?)
      ensures lasttarget == |old(code)|
      ensures st.Ok? ==> Patched(old(code), code, Elems(js), |code|, NO_REG, |code|)
    {
      var here := GetLabel();
      st := PatchListAux(list, here, NO_REG, here, js);
    }

    /** addk and k2proto: the index of a constant, which is added if it is new. */
    method K2Proto(v: Val) returns (st: Status, n: nat)
      requires Cached()
      modifies this`ks, this`kcache
      ensures |ks| <= |old(ks)| + 1 && (|old(ks)| < MAXARG_AX ==> st.Ok?)
      ensures Cached() && old(ks) <= ks
      ensures st.Ok? ==> n < |ks| && ks[n] == v
    {
      if v in kcache {
        return Ok, kcache[v];
      }
      if |ks| >= MAXARG_AX {
        return TooManyConstants, 0;
      }
      n := |ks|;
      ks := ks + [v];
      kcache := kcache[v := n];
      return Ok, n;
    }

    /** luaK_codek. */
    method CodeK(reg: nat, n: nat)
      modifies this`code
      ensures code == old(code) + if n <= MAXARG_BX then [LoadK(reg, n)] else [LoadKX(reg), ExtraArg(n)]
    {
      if n <= MAXARG_BX {
        var pc := Emit(LoadK(reg, n));
      } else {
        var pc := Emit(LoadKX(reg));
        pc := Emit(ExtraArg(n));
        assert code == old(code) + [LoadKX(reg), ExtraArg(n)];
      }
    }

    /** luaK_nil for one register: widens the previous instruction if it is a LOADNIL that
        connects and no jump may lead here. */
    method LoadNilReg(reg: nat)
      modifies this`code
      ensures code == if lasttarget < |old(code)| && Connects(old(code)[|old(code)| - 1], reg)
                      then old(code)[..|old(code)| - 1] + [MergedNil(old(code)[|old(code)| - 1], reg)]
                      else old(code) + [LoadNil(reg, 0)]
    {
      if |code| > lasttarget && code[|code| - 1].LoadNil? {
        var prev := code[|code| - 1];
        var pfrom, pl := prev.a, prev.a + prev.n;
        var from, l := reg, reg;
        if (pfrom <= from && from <= pl + 1) || (from <= pfrom && pfrom <= l + 1) {
          if pfrom < from { from := pfrom; }
          if pl > l { l := pl; }
          code := code[..|code| - 1] + [LoadNil(from, l - from)];
          return;
        }
      }
      var pc := Emit(LoadNil(reg, 0));
    }

    /** discharge2reg. */
    method Discharge2Reg(e: ExpDesc, reg: nat, ghost x: Ctx, ghost tl: seq<nat>, ghost fl: seq<nat>, ghost ex: Expr)
      returns (st: Status, e1: ExpDesc)
      requires Coded(Now(), x, Value(e.k), tl, fl, NO_REG, ex) && Cached() && reg < NO_REG && !e.k.VLocal?
      requires IsList(code, e.t, tl) && IsList(code, e.f, fl) && KindOk(e.k, ks)
      modifies this`code, this`ks, this`kcache
      ensures Grown(old(code), old(ks), code, ks, 2, 1)
      ensures Room(old(code), old(ks), 2, 1, 0) ==> st.Ok?
      ensures Cached() && old(ks) <= ks
      ensures st.Ok? ==> IsList(code, e1.t, tl) && IsList(code, e1.f, fl)
      ensures st.Ok? ==>
        e1 == (if e.k.VJmp? then e else e.(k := VNonReloc(reg))) && Coded(Now(), x, Value(e1.k), tl, fl, reg, ex)
    {
      hide Coded, Loads, IsList, Cached;
      ghost var g := Now();
      if e.k.VJmp? {
        SkipMore(g, x, Value(e.k), tl, fl, ex, reg);
        return Ok, e;
      }
      e1 := e.(k := VNonReloc(reg));
      match e.k {
        case VNil =>
          LoadNilReg(reg);
          DischargedNil(g, x, e, tl, fl, ex, reg);
        case VFalse =>
          LoadsSimple(code, reg, ks);
          PutPlain(g, x, e.k, tl, fl, ex, LoadFalse(reg), reg, ks);
          var pc := Emit(LoadFalse(reg));
        case VTrue =>
          LoadsSimple(code, reg, ks);
          PutPlain(g, x, e.k, tl, fl, ex, LoadTrue(reg), reg, ks);
          var pc := Emit(LoadTrue(reg));
        case VKStr(s) =>
          var n: nat;
          st, n := K2Proto(Str(s));
          if st.IsFailure() { return; }
          DischargedConstant(g, x, e, tl, fl, ex, reg, n, ks);
          CodeK(reg, n);
        case VK(n) =>
          DischargedConstant(g, x, e, tl, fl, ex, reg, n, ks);
          CodeK(reg, n);
        case VKInt(i) =>
          if FitsBx(i) {
            LoadsSimple(code, reg, ks);
            PutPlain(g, x, e.k, tl, fl, ex, LoadI(reg, i), reg, ks);
            var pc := Emit(LoadI(reg, i));
          } else {
            var n: nat;
            st, n := K2Proto(Int(i));
            if st.IsFailure() { return; }
            DischargedConstant(g, x, e, tl, fl, ex, reg, n, ks);
            CodeK(reg, n);
          }
        case VReloc(pc) =>
          RelocPlace(g, x, tl, fl, ex, pc);
          LoadsNot(code, pc, reg, ks);
          PutPlain(g, x, e.k, tl, fl, ex, NotOp(reg, code[pc].b), reg, ks);
          code := code[pc := NotOp(reg, code[pc].b)];
          assert code == Core(g.code, Value(e.k)) + [NotOp(reg, g.code[pc].b)];
        case VNonReloc(r) =>
          if reg != r {
            LoadsMove(code, r, reg, ks);
            PutPlain(g, x, e.k, tl, fl, ex, Move(reg, r), reg, ks);
            var pc := Emit(Move(reg, r));
          } else {
            SkipMore(g, x, Value(e.k), tl, fl, ex, reg);
          }
        case VLocal(_) => assert false;
        case VJmp(_) => assert false;
      }
      DischargedLists(g, code, x, e, tl, fl, ex);
      st := Ok;
    }

    /** luaK_reserveregs, with luaK_checkstack. */
    method ReserveRegs(n: nat) returns (st: Status)
      requires Cached()
      modifies this`freereg, this`maxstacksize
      ensures Cached()
      ensures st.Ok? ==> freereg == old(freereg) + n && freereg <= MAX_FSTACK
      ensures !st.Ok? ==> old(freereg) + n > MAX_FSTACK
    {
      var newstack := freereg + n;
      if newstack > maxstacksize {
        if newstack > MAX_FSTACK { return TooManyRegisters; }
        maxstacksize := newstack;
      }
      freereg := freereg + n;
      st := Ok;
    }

    /** freereg: only temporaries are freed, the last one first. */
    method FreeReg(reg: nat)
      requires reg >= nvars ==> freereg == reg + 1
      modifies this`freereg
      ensures freereg == if reg >= nvars then reg else old(freereg)
    {
      if reg >= nvars {
        freereg := freereg - 1;
      }
    }

    method FreeExp(e: ExpDesc)
      requires e.k.VNonReloc? && e.k.reg >= nvars ==> freereg == e.k.reg + 1
      modifies this`freereg
      ensures freereg == if e.k.VNonReloc? && e.k.reg >= nvars then e.k.reg else old(freereg)
    {
      if e.k.VNonReloc? {
        FreeReg(e.k.reg);
      }
    }

    /** luaK_dischargevars: a local variable is in its register already. */
    method DischargeVars(e: ExpDesc, ghost x: Ctx, ghost tl: seq<nat>, ghost fl: seq<nat>, ghost ex: Expr)
      returns (e1: ExpDesc)
      requires Compiled(x, e, tl, fl, ex)
      ensures Compiled(x, e1, tl, fl, ex)
      ensures e1 == if e.k.VLocal? then e.(k := VNonReloc(e.k.ridx)) else e
    {
      hide Coded, IsList;
      if e.k.VLocal? {
        LocalRegister(Now(), x, tl, fl, ex, e.k.ridx);
        return e.(k := VNonReloc(e.k.ridx));
      }
      return e;
    }

    /** discharge2anyreg. */
    method Discharge2AnyReg(e: ExpDesc, ghost x: Ctx, ghost tl: seq<nat>, ghost fl: seq<nat>, ghost ex: Expr)
      returns (st: Status, e1: ExpDesc)
      requires Compiled(x, e, tl, fl, ex) && !e.k.VLocal? && !e.k.VJmp? && KindOk(e.k, ks)
      modifies this`code, this`ks, this`kcache, this`freereg, this`maxstacksize
      ensures Grown(old(code), old(ks), code, ks, 2, 1)
      ensures Room(old(code), old(ks), 2, 1, x.low + 1) ==> st.Ok?
      ensures old(ks) <= ks
      ensures st.Ok? ==> Compiled(x, e1, tl, fl, ex) && e1 == e.(k := e1.k) && e1.k.VNonReloc?
    {
      hide Coded, IsList, Cached;
      LowBounds(Now(), x, Value(e.k), tl, fl, ex);
      if e.k.VNonReloc? {
        return Ok, e;
      }
      st := ReserveRegs(1);
      e1 := e;
      if st.IsFailure() { return; }
      st, e1 := Discharge2Reg(e, freereg - 1, x, tl, fl, ex);
      if st.IsFailure() { return; }
      SkipFree(Now(), x, Value(e1.k), tl, fl, ex, x.low);
    }

    /** exp2reg: the value, from all jumps, ends in `reg`. */
    method Exp2Reg(e: ExpDesc, reg: nat, ghost x: Ctx, ghost tl: seq<nat>, ghost fl: seq<nat>, ghost ex: Expr)
      returns (st: Status, e1: ExpDesc)
      requires Coded(Now(), x, Value(e.k), tl, fl, NO_REG, ex) && Cached() && reg < NO_REG && !e.k.VLocal?
        && KindOk(e.k, ks)
      requires IsList(code, e.t, tl) && IsList(code, e.f, fl)
      modifies this`code, this`ks, this`kcache, this`lasttarget
      ensures Grown(old(code), old(ks), code, ks, 5, 1)
      ensures Room(old(code), old(ks), 5, 1, 0) ==> st.Ok?
      ensures Cached() && old(ks) <= ks
      ensures st.Ok? ==>
        e1 == ExpDesc(VNonReloc(reg), NO_JUMP, NO_JUMP) && Coded(Now(), x, Value(VNonReloc(reg)), [], [], reg, ex)
    {
      hide Coded, IsList, Cached, Produces, Patched;
      st, e1 := Discharge2Reg(e, reg, x, tl, fl, ex);
      if st.IsFailure() { return; }
      ghost var tl1 := WithTest(e1.k, tl);
      CodedPatchable(Now(), x, Value(e1.k), tl, fl, reg, ex);
      var t := e1.t;
      if e1.k.VJmp? {
        SingleList(Now(), x, tl, fl, reg, ex, e1.k.jpc);
        ghost var g := Now();
        st, t := Concat(e1.t, e1.k.jpc, tl, [e1.k.jpc]);
        if st.IsFailure() { return; }
        JoinedTest(g, x, e1, tl, fl, reg, ex, code);
      }
      NoJumpsEmpty(code, t, e1.f, tl1, fl);
      if t != e1.f {
        st := FinishJumps(e1.k, t, e1.f, reg, x, tl, fl, ex);
        if st.IsFailure() { return; }
      }
      e1 := ExpDesc(VNonReloc(reg), NO_JUMP, NO_JUMP);
    }

    /** The part of exp2reg for expressions with jumps. */
    method FinishJumps(k: Kind, t: int, f: int, reg: nat, ghost x: Ctx, ghost tl: seq<nat>, ghost fl: seq<nat>,
            ghost ex: Expr) returns (st: Status)
      requires Coded(Now(), x, Value(k), tl, fl, reg, ex) && (k.VJmp? || k == VNonReloc(reg)) && reg < NO_REG
      requires IsList(code, t, WithTest(k, tl)) && IsList(code, f, fl)
      modifies this`code, this`lasttarget
      ensures Grown(old(code), old(ks), code, ks, 3, 0)
      ensures Room(old(code), old(ks), 3, 0, 0) ==> st.Ok?
      ensures st.Ok? ==> Coded(Now(), x, Value(VNonReloc(reg)), [], [], reg, ex)
    {
      hide Coded, IsList, Produces, Patched, BoolsAfter, Patchable;
      ghost var tl1 := WithTest(k, tl);
      ghost var g := Now();
      var pf, pt := NO_JUMP, NO_JUMP;
      var needt := NeedValue(t, tl1);
      var needf := NeedValue(f, fl);
      EndOfCode(g, x, k, tl, fl, reg, ex);
      if needt || needf {
        PutBools(g, x, k, tl, fl, ex, reg);
        st, pf, pt := LoadBools(k, reg);
        if st.IsFailure() { return; }
        ListsAppend(g, x, Value(k), tl1, fl, code, t, f);
      } else {
        TestNeeds(g, x, k, tl, fl, reg, ex);
        MarkEnd(g, x, Value(k), tl, fl, reg, ex);
      }
      var final := GetLabel();
      st := PatchSides(t, f, final, reg, pf, pt, x, tl1, fl, ex);
    }

    /** Both lists are patched: values go to the end, the rest to the booleans. */
    method PatchSides(t: int, f: int, final: nat, reg: nat, pf: int, pt: int, ghost x: Ctx, ghost tl: seq<nat>,
            ghost fl: seq<nat>, ghost ex: Expr) returns (st: Status)
      requires Coded(Now(), x, Value(VNonReloc(reg)), tl, fl, reg, ex) && reg < NO_REG && final == lasttarget == |code|
      requires IsList(code, t, tl) && IsList(code, f, fl)
      requires || (pf >= 0 && pt >= 0 && BoolsAfter(Now(), x, tl, fl, pf, reg, false)
        && BoolsAfter(Now(), x, tl, fl, pt, reg, true))
               || ((forall j :: j in tl ==> Produces(code, j)) && (forall j :: j in fl ==> Produces(code, j)))
      modifies this`code
      ensures |code| == |old(code)| && (pf <= |code| <= MAX_OFFSET && pt <= |code| ==> st.Ok?)
      ensures st.Ok? ==> Coded(Now(), x, Value(VNonReloc(reg)), [], [], reg, ex)
    {
      hide Coded, IsList, Produces, Patched, BoolsAfter, Patchable;
      ghost var g1 := Now();
      CodedPatchable(g1, x, Value(VNonReloc(reg)), tl, fl, reg, ex);
      st := PatchListAux(f, final, reg, pf, fl);
      if st.IsFailure() { return; }
      ghost var g2 := Now();
      PatchFinal(g1, x, false, tl, fl, ex, reg, Target(pf), g2.code);
      OtherList(g1.code, g2.code, fl, final, reg, Target(pf), t, tl, x, g1, ex);
      CodedPatchable(g2, x, Value(VNonReloc(reg)), tl, [], reg, ex);
      SecondSide(g1, g2, x, tl, fl, reg, Target(pt), pt >= 0 && BoolsAfter(g1, x, tl, fl, Target(pt), reg, true));
      st := PatchListAux(t, final, reg, pt, tl);
      if st.IsFailure() { return; }
      PatchFinal(g2, x, true, tl, [], ex, reg, Target(pt), code);
    }

    /** The booleans, and the jump around them unless the expression is a test. */
    method LoadBools(k: Kind, reg: nat) returns (st: Status, pf: int, pt: int)
      requires |code| > 0 && !k.VJmp? ==> !IsTest(code[|code| - 1])
      modifies this`code, this`lasttarget
      ensures |code| <= |old(code)| + 3 && (|old(code)| + 3 <= MAX_OFFSET ==> st.Ok?)
      ensures st.Ok? ==>
        code == old(code) + BoolCode(k, reg) && pf == |code| - 2 && pt == |code| - 1 && lasttarget == |code|
    {
      var fj := NO_JUMP;
      if !k.VJmp? {
        fj := Emit(Jmp(NO_JUMP));
      }
      var here := GetLabel();
      pf := Emit(LFalseSkip(reg));
      here := GetLabel();
      pt := Emit(LoadTrue(reg));
      ghost var js: seq<nat> := if k.VJmp? then [] else [|old(code)|];
      ghost var c := code;
      if !k.VJmp? { OneJump(code, |old(code)|); }
      st := PatchToHere(fj, js);
      if st.Ok? {
        AroundBools(old(code), c, code, k, reg, js);
      }
    }

    /** luaK_exp2nextreg. */
    method Exp2NextReg(e: ExpDesc, ghost x: Ctx, ghost tl: seq<nat>, ghost fl: seq<nat>, ghost ex: Expr)
      returns (st: Status, e1: ExpDesc)
      requires Compiled(x, e, tl, fl, ex) && KindOk(e.k, ks)
      modifies this`code, this`ks, this`kcache, this`lasttarget, this`freereg, this`maxstacksize
      ensures Grown(old(code), old(ks), code, ks, 5, 1)
      ensures Room(old(code), old(ks), 5, 1, x.low + 1) ==> st.Ok?
      ensures old(ks) <= ks
      ensures st.Ok? ==> Compiled(x, e1, [], [], ex) && e1 == ExpDesc(VNonReloc(x.low), NO_JUMP, NO_JUMP)
    {
      hide Coded, IsList, Cached;
      LowBounds(Now(), x, Value(e.k), tl, fl, ex);
      e1 := DischargeVars(e, x, tl, fl, ex);
      FreeExp(e1);
      st := ReserveRegs(1);
      if st.IsFailure() { return; }
      st, e1 := Exp2Reg(e1, freereg - 1, x, tl, fl, ex);
      if st.IsFailure() { return; }
      SkipFree(Now(), x, Value(e1.k), [], [], ex, x.low);
      EmptyList(code);
    }

    /** luaK_exp2anyreg. */
    method Exp2AnyReg(e: ExpDesc, ghost x: Ctx, ghost tl: seq<nat>, ghost fl: seq<nat>, ghost ex: Expr)
      returns (st: Status, e1: ExpDesc)
      requires Compiled(x, e, tl, fl, ex) && KindOk(e.k, ks)
      modifies this`code, this`ks, this`kcache, this`lasttarget, this`freereg, this`maxstacksize
      ensures Grown(old(code), old(ks), code, ks, 5, 1)
      ensures Room(old(code), old(ks), 5, 1, x.low + 1) ==> st.Ok?
      ensures old(ks) <= ks
      ensures st.Ok? ==> Compiled(x, e1, [], [], ex) && e1 == ExpDesc(e1.k, NO_JUMP, NO_JUMP) && e1.k.VNonReloc?
    {
      hide Coded, IsList, Cached;
      LowBounds(Now(), x, Value(e.k), tl, fl, ex);
      e1 := DischargeVars(e, x, tl, fl, ex);
      if e1.k.VNonReloc? {
        CodedPatchable(Now(), x, Value(e1.k), tl, fl, NO_REG, ex);
        NoJumpsEmpty(code, e1.t, e1.f, tl, fl);
        if !HasJumps(e1) {
          EmptyHeads(code, e1.t, e1.f);
          return Ok, e1;
        }
        if e1.k.reg >= nvars {
          st, e1 := Exp2Reg(e1, e1.k.reg, x, tl, fl, ex);
          if st.IsFailure() { return; }
          SkipFree(Now(), x, Value(e1.k), [], [], ex, x.low);
          EmptyList(code);
          return;
        }
      }
      st, e1 := Exp2NextReg(e1, x, tl, fl, ex);
    }

    /** condjump. */
    method CondJump(i: Instr) returns (pc: nat)
      modifies this`code
      ensures code == old(code) + [i, Jmp(NO_JUMP)] && pc == |old(code)| + 1
    {
      pc := Emit(i);
      pc := Emit(Jmp(NO_JUMP));
      assert code == old(code) + [i, Jmp(NO_JUMP)];
    }

    /** The optimized case of jumponcond: a NOT just emitted is removed. */
    method JumpOnNot(e: ExpDesc, cond: bool, ghost x: Ctx, ghost tl: seq<nat>, ghost fl: seq<nat>, ghost ex: Expr)
      returns (pc: nat)
      requires Compiled(x, e, tl, fl, ex) && e.k.VReloc?
      modifies this`code
      ensures |code| == |old(code)| + 1
      ensures Coded(Now(), x, Truth(!cond), Add(tl, cond, pc), Add(fl, !cond, pc), NO_REG, ex) && Cached()
        && freereg == x.low
      ensures IsList(code, e.t, tl) && IsList(code, e.f, fl) && IsList(code, pc, [pc]) && pc !in tl && pc !in fl
    {
      hide Coded, IsList, Cached, TestsFor, Add;
      RelocPlace(Now(), x, tl, fl, ex, e.k.pc);
      ghost var g := Now();
      var ie := code[e.k.pc];
      TestsNot(code, e.k.pc, cond);
      PutTest(g, x, e.k, tl, fl, ex, Test(ie.b, !cond), cond);
      code := code[..|code| - 1];
      pc := CondJump(Test(ie.b, !cond));
      TestedLists(g, x, e, tl, fl, ex, code, pc);
    }

    /** The general case: the value goes to a register and is tested there. */
    method JumpOnRegister(e: ExpDesc, cond: bool, ghost x: Ctx, ghost tl: seq<nat>, ghost fl: seq<nat>, ghost ex: Expr)
      returns (pc: nat)
      requires Compiled(x, e, tl, fl, ex) && e.k.VNonReloc?
      modifies this`code, this`freereg
      ensures |code| == |old(code)| + 2
      ensures Coded(Now(), x, Truth(!cond), Add(tl, cond, pc), Add(fl, !cond, pc), NO_REG, ex) && Cached()
        && freereg == x.low
      ensures IsList(code, e.t, tl) && IsList(code, e.f, fl) && IsList(code, pc, [pc]) && pc !in tl && pc !in fl
    {
      hide Coded, IsList, Cached, TestsFor, Add;
      LowBounds(Now(), x, Value(e.k), tl, fl, ex);
      FreeExp(e);
      ghost var g := Now();
      TestsRegister(code, e.k.reg, cond);
      PutTest(g, x, e.k, tl, fl, ex, TestSet(NO_REG, e.k.reg, cond), cond);
      pc := CondJump(TestSet(NO_REG, e.k.reg, cond));
      TestedLists(g, x, e, tl, fl, ex, code, pc);
    }

    /** jumponcond: jumps when the value is `cond`. */
    method JumpOnCond(e: ExpDesc, cond: bool, ghost x: Ctx, ghost tl: seq<nat>, ghost fl: seq<nat>, ghost ex: Expr)
      returns (st: Status, pc: nat)
      requires Compiled(x, e, tl, fl, ex) && !e.k.VLocal? && !e.k.VJmp? && KindOk(e.k, ks)
      modifies this`code, this`ks, this`kcache, this`freereg, this`maxstacksize
      ensures Grown(old(code), old(ks), code, ks, 4, 1)
      ensures Room(old(code), old(ks), 4, 1, x.low + 1) ==> st.Ok?
      ensures old(ks) <= ks
      ensures st.Ok? ==>
        Coded(Now(), x, Truth(!cond), Add(tl, cond, pc), Add(fl, !cond, pc), NO_REG, ex) && Cached() && freereg == x.low
      ensures st.Ok? ==>
        IsList(code, e.t, tl) && IsList(code, e.f, fl) && IsList(code, pc, [pc]) && pc !in tl && pc !in fl
    {
      hide Coded, IsList, Cached, Add;
      if e.k.VReloc? {
        pc := JumpOnNot(e, cond, x, tl, fl, ex);
        return Ok, pc;
      }
      var e1: ExpDesc;
      pc := 0;
      st, e1 := Discharge2AnyReg(e, x, tl, fl, ex);
      if st.IsFailure() { return; }
      pc := JumpOnRegister(e1, cond, x, tl, fl, ex);
    }

    /** After goiftrue or goiffalse: code goes on when the truth of the value is `holds`,
        and the jumps `js`, threaded from `list`, are taken otherwise. */
    ghost predicate Passed(x: Ctx, holds: bool, list: int, js: seq<nat>, ex: Expr)
      reads this
    {
      && Coded(Now(), x, Truth(holds), if holds then [] else js, if holds then js else [], NO_REG, ex)
      && Cached() && freereg == x.low && IsList(code, list, js)
    }

    /** luaK_goiftrue: returns the list of jumps taken when the value is false. */
    method GoIfTrue(e: ExpDesc, ghost x: Ctx, ghost tl: seq<nat>, ghost fl: seq<nat>, ghost ex: Expr)
      returns (st: Status, f: int, ghost js: seq<nat>)
      requires Compiled(x, e, tl, fl, ex) && !e.k.VK?
      modifies this`code, this`ks, this`kcache, this`lasttarget, this`freereg, this`maxstacksize
      ensures Grown(old(code), old(ks), code, ks, 4, 1)
      ensures Room(old(code), old(ks), 4, 1, x.low + 1) ==> st.Ok?
      ensures old(ks) <= ks
      ensures st.Ok? ==> Passed(x, true, f, js, ex)
    {
      hide Coded, IsList, Cached, Patched, Add;
      ghost var pcs: seq<nat>;
      var pc: int;
      var e1 := DischargeVars(e, x, tl, fl, ex);
      f, js := e1.f, [];
      if e1.k.VJmp? {
        var jpc := e1.k.jpc;
        Negate(Now(), x, tl, fl, ex, jpc);
        NegatedLists(Now(), x, e1, tl, fl, ex, jpc);
        code := code[jpc - 1 := Negated(code[jpc - 1])];
        pc, pcs := jpc, [jpc];
      } else if Always(e1.k, true) {
        AlwaysHolds(Now(), x, e1.k, tl, fl, ex, true);
        EmptyList(code);
        pc, pcs := NO_JUMP, [];
      } else {
        var jump: nat;
        st, jump := JumpOnCond(e1, false, x, tl, fl, ex);
        if st.IsFailure() { return; }
        pc, pcs := jump, [jump];
        AddOne(tl, fl, jump, false);
      }
      AddNone(fl);
      st, f, js := GoOn(true, e1.t, e1.f, pc, x, tl, fl, pcs, ex);
    }

    /** luaK_goiffalse: returns the list of jumps taken when the value is true. */
    method GoIfFalse(e: ExpDesc, ghost x: Ctx, ghost tl: seq<nat>, ghost fl: seq<nat>, ghost ex: Expr)
      returns (st: Status, t: int, ghost js: seq<nat>)
      requires Compiled(x, e, tl, fl, ex) && !e.k.VK?
      modifies this`code, this`ks, this`kcache, this`lasttarget, this`freereg, this`maxstacksize
      ensures Grown(old(code), old(ks), code, ks, 4, 1)
      ensures Room(old(code), old(ks), 4, 1, x.low + 1) ==> st.Ok?
      ensures old(ks) <= ks
      ensures st.Ok? ==> Passed(x, false, t, js, ex)
    {
      hide Coded, IsList, Cached, Patched, Add;
      ghost var pcs: seq<nat>;
      var pc: int;
      var e1 := DischargeVars(e, x, tl, fl, ex);
      t, js := e1.t, [];
      if e1.k.VJmp? {
        var jpc := e1.k.jpc;
        SingleList(Now(), x, tl, fl, NO_REG, ex, jpc);
        JumpIfTrue(Now(), x, tl, fl, ex, jpc);
        pc, pcs := jpc, [jpc];
      } else if Always(e1.k, false) {
        AlwaysHolds(Now(), x, e1.k, tl, fl, ex, false);
        EmptyList(code);
        pc, pcs := NO_JUMP, [];
      } else {
        var jump: nat;
        st, jump := JumpOnCond(e1, true, x, tl, fl, ex);
        if st.IsFailure() { return; }
        pc, pcs := jump, [jump];
        AddOne(tl, fl, jump, true);
      }
      AddNone(tl);
      st, t, js := GoOn(false, e1.f, e1.t, pc, x, tl, fl, pcs, ex);
    }

    /** The common end of goiftrue and goiffalse: the new jump joins the list for the other
        outcome, and the list for this outcome comes here. */
    method GoOn(holds: bool, here: int, there: int, pc: int, ghost x: Ctx, ghost tl: seq<nat>, ghost fl: seq<nat>,
            ghost pcs: seq<nat>, ghost ex: Expr)
      returns (st: Status, list: int, ghost js: seq<nat>)
      requires Coded(Now(), x, Truth(holds), if holds then tl else tl + pcs, if holds then fl + pcs else fl, NO_REG,
        ex) && Cached() && freereg == x.low
      requires IsList(code, here, Here(holds, tl, fl)) && IsList(code, there, Here(!holds, tl, fl))
        && IsList(code, pc, pcs)
      requires forall j :: j in pcs ==> j !in tl && j !in fl
      modifies this`code, this`lasttarget
      ensures |code| == |old(code)| && (|code| <= MAX_OFFSET ==> st.Ok?)
      ensures st.Ok? ==> Passed(x, holds, list, js, ex)
    {
      hide Coded, IsList, Cached, Patched, Relinked, Patchable;
      ghost var tl1, fl1 := if holds then tl else tl + pcs, if holds then fl + pcs else fl;
      js := Here(!holds, tl, fl) + pcs;
      ghost var g := Now();
      ApartSides(g, x, holds, tl, fl, ex, pcs);
      st, list := Concat(there, pc, Here(!holds, tl, fl), pcs);
      if st.IsFailure() { return; }
      CodedRelinked(g, x, Truth(holds), tl1, fl1, NO_REG, ex, Elems(Here(!holds, tl, fl)), code);
      RelinkedOther(g.code, code, Here(!holds, tl, fl), here, Here(holds, tl, fl));
      ghost var g1 := Now();
      CodedPatchable(g1, x, Truth(holds), tl1, fl1, NO_REG, ex);
      st := PatchToHere(here, Here(holds, tl, fl));
      if st.IsFailure() { return; }
      PatchHere(g1, x, holds, tl1, fl1, ex, code);
      OtherList(g1.code, code, Here(holds, tl, fl), |g1.code|, NO_REG, |g1.code|, list, js, x, g1, ex);
      SameSize(g1.code, code, Elems(Here(holds, tl, fl)), |g1.code|, NO_REG, |g1.code|);
    }

    /** Values are useless once negated. */
    method RemoveBoth(t: int, f: int, ghost tl: seq<nat>, ghost fl: seq<nat>)
      requires IsList(code, t, tl) && IsList(code, f, fl)
      modifies this`code
      ensures |code| == |old(code)|
      ensures IsList(code, t, tl) && IsList(code, f, fl) && ValuesRemoved(old(code), code, Elems(tl) + Elems(fl))
    {
      hide IsList, ValuesRemoved;
      RemoveValues(t, tl);
      RemovedList(old(code), code, Elems(tl), f, fl);
      ghost var c := code;
      RemoveValues(f, fl);
      RemovedList(c, code, Elems(fl), t, tl);
      RemovedTwice(old(code), c, code, Elems(tl), Elems(fl));
    }

    /** codenot. */
    method CodeNot(e: ExpDesc, ghost x: Ctx, ghost tl: seq<nat>, ghost fl: seq<nat>, ghost ex: Expr)
      returns (st: Status, e1: ExpDesc)
      requires Compiled(x, e, tl, fl, ex) && !e.k.VLocal? && !e.k.VK?
      modifies this`code, this`ks, this`kcache, this`freereg, this`maxstacksize
      ensures Grown(old(code), old(ks), code, ks, 3, 1)
      ensures Room(old(code), old(ks), 3, 1, x.low + 1) ==> st.Ok?
      ensures old(ks) <= ks
      ensures st.Ok? ==> Compiled(x, e1, fl, tl, NotE(ex)) && !e1.k.VK? && !e1.k.VLocal?
    {
      hide Coded, IsList, Cached, ValuesRemoved;
      var k: Kind := e.k;
      ghost var g := Now();
      ghost var ek := e.k;
      ghost var c2 := code;
      LowBounds(g, x, Value(e.k), tl, fl, ex);
      if e.k.VNil? || e.k.VFalse? {
        k := VTrue;
      } else if e.k.VKInt? || e.k.VKStr? || e.k.VTrue? {
        k := VFalse;
      } else if e.k.VJmp? {
        Negate(g, x, tl, fl, ex, e.k.jpc);
        NegatedLists(g, x, e, tl, fl, ex, e.k.jpc);
        code := code[e.k.jpc - 1 := Negated(code[e.k.jpc - 1])];
      } else {
        st, e1 := Discharge2AnyReg(e, x, tl, fl, ex);
        if st.IsFailure() { return; }
        FreeExp(e1);
        g, ek := Now(), e1.k;
        var pc := Emit(NotOp(0, e1.k.reg));
        k := VReloc(pc);
        ListsAppend(g, x, Value(e1.k), tl, fl, code, e.t, e.f);
      }
      c2 := code;
      RemoveBoth(e.t, e.f, tl, fl);
      if ek.VJmp? {
        CodedNotJump(g, x, tl, fl, ex, ek.jpc, code);
      } else {
        CodedNot(g, x, ek, k, tl, fl, ex, c2, code);
      }
      e1 := ExpDesc(k, e.f, e.t);
      st := Ok;
    }

    /** luaK_exp2K: constants without jumps may become indices of the list of constants. */
    method Exp2K(e: ExpDesc, ghost x: Ctx, ghost tl: seq<nat>, ghost fl: seq<nat>, ghost ex: Expr)
      returns (st: Status, ok: bool, e1: ExpDesc)
      requires Compiled(x, e, tl, fl, ex) && !e.k.VK?
      modifies this`ks, this`kcache
      ensures |ks| <= |old(ks)| + 1 && (|old(ks)| < MAXARG_AX ==> st.Ok?)
      ensures old(ks) <= ks
      ensures st.Ok? ==> Compiled(x, e1, tl, fl, ex)
      ensures st.Ok? ==>
        if ok then e1 == ExpDesc(e1.k, NO_JUMP, NO_JUMP) && e1.k.VK? && tl == fl == [] && KindOk(e1.k, ks) else e1 == e
    {
      hide Coded, IsList;
      ok, e1 := false, e;
      CodedPatchable(Now(), x, Value(e.k), tl, fl, NO_REG, ex);
      NoJumpsEmpty(code, e.t, e.f, tl, fl);
      if !HasJumps(e) && IsConstant(e.k) {
        EmptyHeads(code, e.t, e.f);
        ghost var g := Now();
        var n: nat;
        st, n := K2Proto(ConstantOf(e.k));
        if st.IsFailure() { return; }
        MoreConstants(g, x, Value(e.k), tl, fl, NO_REG, ex, ks);
        if n <= MAXINDEXRK {
          CodedToK(g, x, e.k, n, ks, ex);
          return Ok, true, e.(k := VK(n));
        }
      }
      st := Ok;
    }

    /** luaK_infix for comparisons: the first operand goes to a register, unless it may be
        an immediate operand or, for equality, a constant. */
    method InfixCompare(op: CmpOp, v: ExpDesc, ghost x: Ctx, ghost tl: seq<nat>, ghost fl: seq<nat>, ghost ex: Expr)
      returns (st: Status, e1: ExpDesc)
      requires Compiled(x, v, tl, fl, ex) && !v.k.VK?
      modifies this`code, this`ks, this`kcache, this`lasttarget, this`freereg, this`maxstacksize
      ensures Grown(old(code), old(ks), code, ks, 5, 2)
      ensures Room(old(code), old(ks), 5, 2, x.low + 1) ==> st.Ok?
      ensures old(ks) <= ks
      ensures st.Ok? ==>
        Compiled(x, e1, [], [], ex) && e1 == ExpDesc(e1.k, NO_JUMP, NO_JUMP) && Operand(e1.k) && KindOk(e1.k, ks)
      ensures st.Ok? && !op.EQ? && !op.NE? ==> !e1.k.VK? && (e1.k.VKInt? ==> FitsC(e1.k.ival))
    {
      hide Coded, IsList, Cached;
      e1 := DischargeVars(v, x, tl, fl, ex);
      CodedPatchable(Now(), x, Value(e1.k), tl, fl, NO_REG, ex);
      NoJumpsEmpty(code, e1.t, e1.f, tl, fl);
      if op.EQ? || op.NE? {
        if e1.k.VKInt? && !HasJumps(e1) {
          EmptyHeads(code, e1.t, e1.f);
          return Ok, e1;
        }
        var ok: bool;
        st, ok, e1 := Exp2K(e1, x, tl, fl, ex);
        if st.IsFailure() || ok { return; }
        st, e1 := Exp2AnyReg(e1, x, tl, fl, ex);
      } else {
        if IsSCInt(e1) {
          EmptyHeads(code, e1.t, e1.f);
          return Ok, e1;
        }
        st, e1 := Exp2AnyReg(e1, x, tl, fl, ex);
      }
    }

    /** freeexps: both operands are done with, the later register first. */
    method FreeExps(k1: Kind, k2: Kind, ghost low: nat)
      requires nvars <= low && TempsAre(k1, k2, low, nvars, freereg)
      modifies this`freereg
      ensures freereg == low
    {
      var r1 := if k1.VNonReloc? then k1.reg as int else -1;
      var r2 := if k2.VNonReloc? then k2.reg as int else -1;
      if r1 > r2 {
        if r1 >= 0 { FreeReg(r1); }
        if r2 >= 0 { FreeReg(r2); }
      } else {
        if r2 >= 0 { FreeReg(r2); }
        if r1 >= 0 { FreeReg(r1); }
      }
    }

    /** Between the operands of a comparison: the first one, `a`, is done and waits; the
        second one, `b`, has just been compiled. */
    ghost predicate Operands(x: Ctx, ga: Gen, low: nat, a: Kind, ea: Expr, b: ExpDesc, tl: seq<nat>, fl: seq<nat>,
            eb: Expr)
      reads this
    {
      && Coded(ga, x, Value(a), [], [], NO_REG, ea) && Operand(a) && RegsOk(a, x.low, nvars, low)
      && Compiled(After(ga, x, [], low), b, tl, fl, eb) && ga.ks <= ks && ga.base == base && ga.nvars == nvars
    }

    /** Both operands available, and the temporaries they use. */
    ghost predicate Ready2(x: Ctx, a: Kind, b: Kind, ea: Expr, eb: Expr, raw: bool)
      reads this
    {
      Pair(Now(), x, a, b, ea, eb, raw) && Cached() && TempsAre(a, b, x.low, nvars, freereg)
        && freereg <= MAX_FSTACK && KindOk(b, ks)
    }

    /** The second operand goes to a register. */
    method LoadSecond(a: Kind, b: ExpDesc, ghost x: Ctx, ghost ga: Gen, ghost low: nat, ghost ea: Expr,
            ghost tl: seq<nat>, ghost fl: seq<nat>, ghost eb: Expr)
      returns (st: Status, r: nat)
      requires Operands(x, ga, low, a, ea, b, tl, fl, eb) && !b.k.VK?
      modifies this`code, this`ks, this`kcache, this`lasttarget, this`freereg, this`maxstacksize
      ensures Grown(old(code), old(ks), code, ks, 5, 1)
      ensures Room(old(code), old(ks), 5, 1, x.low + 2) ==> st.Ok?
      ensures old(ks) <= ks
      ensures st.Ok? ==> Ready2(x, a, VNonReloc(r), ea, eb, RawKind(a))
    {
      hide Coded, IsList, Cached, Pair;
      var b1: ExpDesc;
      r := 0;
      LowBounds(ga, x, Value(a), [], [], ea);
      st, b1 := Exp2AnyReg(b, After(ga, x, [], low), tl, fl, eb);
      if st.IsFailure() { return; }
      r := b1.k.reg;
      PairStart(ga, Now(), x, low, a, b1.k, ea, eb);
    }

    /** The second operand is an immediate or a constant; the first one goes to a
        register if it is not in one. */
    method LoadFirst(a: Kind, b: ExpDesc, ghost x: Ctx, ghost ga: Gen, ghost low: nat, ghost ea: Expr, ghost eb: Expr)
      returns (st: Status, r: nat)
      requires Operands(x, ga, low, a, ea, b, [], [], eb) && RawKind(b.k) && !a.VK? && KindOk(b.k, ks)
      modifies this`code, this`ks, this`kcache, this`lasttarget, this`freereg, this`maxstacksize
      ensures Grown(old(code), old(ks), code, ks, 5, 1)
      ensures Room(old(code), old(ks), 5, 1, x.low + 2) ==> st.Ok?
      ensures old(ks) <= ks
      ensures st.Ok? ==> Ready2(x, VNonReloc(r), b.k, ea, eb, true)
    {
      hide Coded, IsList, Cached, Pair;
      LowBounds(ga, x, Value(a), [], [], ea);
      PairStart(ga, Now(), x, low, a, b.k, ea, eb);
      if a.VNonReloc? {
        return Ok, a.reg;
      }
      r := 0;
      var a1: ExpDesc;
      st, a1 := LoadConstant(a.ival, b.k, x, ea, eb);
      if st.IsFailure() { return; }
      r := a1.k.reg;
    }

    /** The first operand, an integer constant, goes to a register after both. */
    method LoadConstant(i: int, b: Kind, ghost x: Ctx, ghost ea: Expr, ghost eb: Expr) returns (st: Status, a1: ExpDesc)
      requires Ready2(x, VKInt(i), b, ea, eb, true)
      modifies this`code, this`ks, this`kcache, this`lasttarget, this`freereg, this`maxstacksize
      ensures Grown(old(code), old(ks), code, ks, 5, 1)
      ensures Room(old(code), old(ks), 5, 1, x.low + 2) ==> st.Ok?
      ensures old(ks) <= ks
      ensures st.Ok? ==> a1.k.VNonReloc? && Ready2(x, a1.k, b, ea, eb, true)
    {
      hide Coded, IsList, Cached, Pair, Shape;
      ghost var g := Now();
      ghost var x2 := After(g, x, [], freereg);
      PairShape(g, x, VKInt(i), b, ea, eb, true);
      assert x2.pend == x.pend;
      FreshCoded(g, x2, VKInt(i), Const(Int(i)));
      EmptyList(code);
      st, a1 := Exp2AnyReg(ExpDesc(VKInt(i), NO_JUMP, NO_JUMP), x2, [], [], Const(Int(i)));
      if st.IsFailure() { return; }
      PairLoad(g, Now(), x, x2.low, i, a1.k, b, ea, eb, true);
    }

    /** The end of a comparison: operands are freed and the test is coded. */
    method FinishCompare(i: Instr, op: CmpOp, k1: Kind, k2: Kind, ghost x: Ctx, ghost ea: Expr, ghost eb: Expr,
            ghost raw: bool) returns (e: ExpDesc)
      requires Ready2(x, k1, k2, ea, eb, raw) && Compares(i, op, k1, k2, raw)
      modifies this`code, this`freereg
      ensures |code| == |old(code)| + 2
      ensures Compiled(x, e, [], [], Cmp(op, ea, eb)) && e.k.VJmp?
    {
      hide Coded, Cached, Pair, Shape, Compares;
      PairShape(Now(), x, k1, k2, ea, eb, raw);
      CodedCompare(Now(), x, op, k1, k2, ea, eb, raw, i);
      FreeExps(k1, k2, x.low);
      var pc := CondJump(i);
      EmptyList(code);
      e := ExpDesc(VJmp(pc), NO_JUMP, NO_JUMP);
    }

    /** codeorder, with the swap that luaK_posfix does for `>` and `>=`. */
    method CodeOrder(op: CmpOp, a: ExpDesc, b: ExpDesc, ghost x: Ctx, ghost ga: Gen, ghost low: nat, ghost ea: Expr,
            ghost tl: seq<nat>, ghost fl: seq<nat>, ghost eb: Expr)
      returns (st: Status, e: ExpDesc)
      requires Operands(x, ga, low, a.k, ea, b, tl, fl, eb) && !b.k.VK? && !a.k.VK? && (a.k.VKInt? ==> IsSCInt(a))
        && !op.EQ? && !op.NE?
      modifies this`code, this`ks, this`kcache, this`lasttarget, this`freereg, this`maxstacksize
      ensures Grown(old(code), old(ks), code, ks, 7, 1)
      ensures Room(old(code), old(ks), 7, 1, x.low + 2) ==> st.Ok?
      ensures old(ks) <= ks
      ensures st.Ok? ==> Compiled(x, e, [], [], Cmp(op, ea, eb)) && e.k.VJmp?
    {
      hide Coded, IsList, Cached, Pair, Compares;
      var flip, le := op.GT? || op.GE?, op.LE? || op.GE?;
      ghost var base := if le then LE else LT;
      var e1, e2 := if flip then b else a, if flip then a else b;
      CodedPatchable(Now(), After(ga, x, [], low), Value(b.k), tl, fl, NO_REG, eb);
      NoJumpsEmpty(code, b.t, b.f, tl, fl);
      e := a;
      var r: nat;
      if IsSCInt(e2) {
        // immediate second operand: LTI, LEI
        var im := e2.k.ival;
        var i: Instr;
        if flip {
          st, r := LoadSecond(a.k, b, x, ga, low, ea, tl, fl, eb);
          if st.IsFailure() { return; }
          i := if le then LeI(r, im, true) else LtI(r, im, true);
          ComparesOrder(base, r, a.k);
          ComparesFlip(i, base, VNonReloc(r), a.k, true);
          e := FinishCompare(i, op, a.k, VNonReloc(r), x, ea, eb, true);
        } else {
          st, r := LoadFirst(a.k, b, x, ga, low, ea, eb);
          if st.IsFailure() { return; }
          i := if le then LeI(r, im, true) else LtI(r, im, true);
          ComparesOrder(base, r, b.k);
          e := FinishCompare(i, op, VNonReloc(r), b.k, x, ea, eb, true);
        }
      } else if IsSCInt(e1) {
        // immediate first operand: (A < B) is (B > A)
        st, e := CodeOrderSwapped(op, e1.k.ival, a, b, x, ga, low, ea, tl, fl, eb);
      } else {
        st, r := LoadSecond(a.k, b, x, ga, low, ea, tl, fl, eb);
        if st.IsFailure() { return; }
        st, e := CodeOrderRegisters(op, a.k.reg, r, x, ea, eb);
      }
    }

    method CodeOrderSwapped(op: CmpOp, im: int, a: ExpDesc, b: ExpDesc, ghost x: Ctx, ghost ga: Gen, ghost low: nat,
            ghost ea: Expr, ghost tl: seq<nat>, ghost fl: seq<nat>, ghost eb: Expr)
      returns (st: Status, e: ExpDesc)
      requires Operands(x, ga, low, a.k, ea, b, tl, fl, eb) && !b.k.VK? && !a.k.VK? && !op.EQ? && !op.NE?
      requires if op.GT? || op.GE? then a.k.VNonReloc? && b.k == VKInt(im) && tl == fl == [] else a.k == VKInt(im)
      modifies this`code, this`ks, this`kcache, this`lasttarget, this`freereg, this`maxstacksize
      ensures Grown(old(code), old(ks), code, ks, 7, 1)
      ensures Room(old(code), old(ks), 7, 1, x.low + 2) ==> st.Ok?
      ensures old(ks) <= ks
      ensures st.Ok? ==> Compiled(x, e, [], [], Cmp(op, ea, eb)) && e.k.VJmp?
    {
      hide Coded, IsList, Cached, Pair, Compares;
      var le := op.LE? || op.GE?;
      ghost var base := if le then LE else LT;
      e := a;
      var r: nat;
      if op.GT? || op.GE? {
        st, r := LoadFirst(a.k, b, x, ga, low, ea, eb);
        if st.IsFailure() { return; }
        var i := if le then GeI(r, im, true) else GtI(r, im, true);
        ComparesOrder(base, r, b.k);
        ComparesFlip(i, base, b.k, VNonReloc(r), true);
        e := FinishCompare(i, op, VNonReloc(r), b.k, x, ea, eb, true);
      } else {
        st, r := LoadSecond(a.k, b, x, ga, low, ea, tl, fl, eb);
        if st.IsFailure() { return; }
        var i := if le then GeI(r, im, true) else GtI(r, im, true);
        ComparesOrder(base, r, a.k);
        e := FinishCompare(i, op, a.k, VNonReloc(r), x, ea, eb, true);
      }
    }

    method CodeOrderRegisters(op: CmpOp, ra: nat, rb: nat, ghost x: Ctx, ghost ea: Expr, ghost eb: Expr)
      returns (st: Status, e: ExpDesc)
      requires Ready2(x, VNonReloc(ra), VNonReloc(rb), ea, eb, false) && !op.EQ? && !op.NE?
      modifies this`code, this`freereg
      ensures |code| == |old(code)| + 2
      ensures st.Ok? && Compiled(x, e, [], [], Cmp(op, ea, eb)) && e.k.VJmp?
    {
      hide Coded, IsList, Cached, Pair, Compares;
      var flip, le := op.GT? || op.GE?, op.LE? || op.GE?;
      ghost var base := if le then LE else LT;
      var r1, r2 := if flip then rb else ra, if flip then ra else rb;
      var i := if le then Le(r1, r2, true) else Lt(r1, r2, true);
      ComparesOrder(base, r1, VNonReloc(r2));
      if flip { ComparesFlip(i, base, VNonReloc(r1), VNonReloc(r2), false); }
      e := FinishCompare(i, op, VNonReloc(ra), VNonReloc(rb), x, ea, eb, false);
      st := Ok;
    }

    /** luaK_posfix, for a comparison. */
    method PosfixCompare(op: CmpOp, a: ExpDesc, b: ExpDesc, ghost x: Ctx, ghost ga: Gen, ghost low: nat,
            ghost ea: Expr, ghost tl: seq<nat>, ghost fl: seq<nat>, ghost eb: Expr)
      returns (st: Status, e: ExpDesc)
      requires Operands(x, ga, low, a.k, ea, b, tl, fl, eb) && !b.k.VK?
      requires if op.EQ? || op.NE? then a == ExpDesc(a.k, NO_JUMP, NO_JUMP) && KindOk(a.k, ks)
        else !a.k.VK? && (a.k.VKInt? ==> IsSCInt(a))
      modifies this`code, this`ks, this`kcache, this`lasttarget, this`freereg, this`maxstacksize
      ensures Grown(old(code), old(ks), code, ks, 12, 3)
      ensures Room(old(code), old(ks), 12, 3, x.low + 2) ==> st.Ok?
      ensures old(ks) <= ks
      ensures st.Ok? ==> Compiled(x, e, [], [], Cmp(op, ea, eb)) && e.k.VJmp?
    {
      hide Operands, Compiled;
      if op.EQ? || op.NE? {
        st, e := CodeEq(op.NE?, a, b, x, ga, low, ea, tl, fl, eb);
      } else {
        st, e := CodeOrder(op, a, b, x, ga, low, ea, tl, fl, eb);
      }
    }

    /** codeeq. */
    method CodeEq(ne: bool, a: ExpDesc, b: ExpDesc, ghost x: Ctx, ghost ga: Gen, ghost low: nat, ghost ea: Expr,
            ghost tl: seq<nat>, ghost fl: seq<nat>, ghost eb: Expr)
      returns (st: Status, e: ExpDesc)
      requires Operands(x, ga, low, a.k, ea, b, tl, fl, eb) && !b.k.VK? && a == ExpDesc(a.k, NO_JUMP, NO_JUMP)
        && KindOk(a.k, ks)
      modifies this`code, this`ks, this`kcache, this`lasttarget, this`freereg, this`maxstacksize
      ensures Grown(old(code), old(ks), code, ks, 12, 3)
      ensures Room(old(code), old(ks), 12, 3, x.low + 2) ==> st.Ok?
      ensures old(ks) <= ks
      ensures st.Ok? ==> Compiled(x, e, [], [], Cmp(if ne then NE else EQ, ea, eb)) && e.k.VJmp?
    {
      hide Coded, IsList, Cached, Pair, Compares;
      if a.k.VNonReloc? {
        st, e := CodeEqRegister(ne, a.k.reg, b, x, ga, low, ea, tl, fl, eb);
        return;
      }
      // the first operand is a constant: operands are swapped
      var op := if ne then NE else EQ;
      e := a;
      var r: nat;
      st, r := LoadSecond(a.k, b, x, ga, low, ea, tl, fl, eb);
      if st.IsFailure() { return; }
      if IsSCInt(a) {
        ComparesEqualSwapped(ne, r, a.k);
        e := FinishCompare(EqI(r, a.k.ival, !ne), op, a.k, VNonReloc(r), x, ea, eb, true);
      } else if a.k.VK? {
        ComparesEqualSwapped(ne, r, a.k);
        e := FinishCompare(EqK(r, a.k.info, !ne), op, a.k, VNonReloc(r), x, ea, eb, true);
      } else {
        var k: Kind;
        st, k := ConstantRK(a.k.ival, VNonReloc(r), x, ea, eb);
        if st.IsFailure() { return; }
        ComparesEqualSwapped(ne, r, k);
        e := FinishCompare(if k.VK? then EqK(r, k.info, !ne) else Eq(r, k.reg, !ne), op, k, VNonReloc(r), x, ea, eb,
          true);
      }
    }

    /** codeeq when the first operand is in a register. */
    method CodeEqRegister(ne: bool, ra: nat, b: ExpDesc, ghost x: Ctx, ghost ga: Gen, ghost low: nat, ghost ea: Expr,
            ghost tl: seq<nat>, ghost fl: seq<nat>, ghost eb: Expr)
      returns (st: Status, e: ExpDesc)
      requires Operands(x, ga, low, VNonReloc(ra), ea, b, tl, fl, eb) && !b.k.VK?
      modifies this`code, this`ks, this`kcache, this`lasttarget, this`freereg, this`maxstacksize
      ensures Grown(old(code), old(ks), code, ks, 7, 2)
      ensures Room(old(code), old(ks), 7, 2, x.low + 2) ==> st.Ok?
      ensures old(ks) <= ks
      ensures st.Ok? ==> Compiled(x, e, [], [], Cmp(if ne then NE else EQ, ea, eb)) && e.k.VJmp?
    {
      hide Coded, IsList, Cached, Pair, Compares;
      var op := if ne then NE else EQ;
      var r: nat;
      e := b;
      CodedPatchable(Now(), After(ga, x, [], low), Value(b.k), tl, fl, NO_REG, eb);
      NoJumpsEmpty(code, b.t, b.f, tl, fl);
      if IsSCInt(b) {
        st, r := LoadFirst(VNonReloc(ra), b, x, ga, low, ea, eb);
        if st.IsFailure() { return; }
        ComparesEqual(ne, r, b.k, true);
        e := FinishCompare(EqI(r, b.k.ival, !ne), op, VNonReloc(r), b.k, x, ea, eb, true);
        return;
      }
      var ok: bool;
      var b1: ExpDesc;
      st, ok, b1 := Exp2K(b, After(ga, x, [], low), tl, fl, eb);
      if st.IsFailure() { return; }
      if ok {
        st, r := LoadFirst(VNonReloc(ra), b1, x, ga, low, ea, eb);
        if st.IsFailure() { return; }
        ComparesEqual(ne, r, b1.k, true);
        e := FinishCompare(EqK(r, b1.k.info, !ne), op, VNonReloc(r), b1.k, x, ea, eb, true);
      } else {
        st, r := LoadSecond(VNonReloc(ra), b1, x, ga, low, ea, tl, fl, eb);
        if st.IsFailure() { return; }
        ComparesEqual(ne, ra, VNonReloc(r), false);
        e := FinishCompare(Eq(ra, r, !ne), op, VNonReloc(ra), VNonReloc(r), x, ea, eb, false);
      }
    }

    /** exp2RK on an integer constant that is no immediate, after both operands. */
    method ConstantRK(i: int, b: Kind, ghost x: Ctx, ghost ea: Expr, ghost eb: Expr) returns (st: Status, k: Kind)
      requires Ready2(x, VKInt(i), b, ea, eb, true) && b.VNonReloc?
      modifies this`code, this`ks, this`kcache, this`lasttarget, this`freereg, this`maxstacksize
      ensures Grown(old(code), old(ks), code, ks, 5, 2)
      ensures Room(old(code), old(ks), 5, 2, x.low + 2) ==> st.Ok?
      ensures old(ks) <= ks
      ensures st.Ok? ==> (k.VNonReloc? || k.VK?) && Ready2(x, k, b, ea, eb, true)
    {
      hide Coded, IsList, Cached, Pair, Shape;
      ghost var g := Now();
      ghost var x2 := After(g, x, [], freereg);
      k := b;
      PairShape(g, x, VKInt(i), b, ea, eb, true);
      assert x2.pend == x.pend;
      FreshCoded(g, x2, VKInt(i), Const(Int(i)));
      EmptyList(code);
      var ok: bool;
      var e: ExpDesc;
      st, ok, e := Exp2K(ExpDesc(VKInt(i), NO_JUMP, NO_JUMP), x2, [], [], Const(Int(i)));
      if st.IsFailure() { return; }
      if !ok {
        st, e := Exp2AnyReg(e, x2, [], [], Const(Int(i)));
        if st.IsFailure() { return; }
      }
      k := e.k;
      PairLoad(g, Now(), x, x2.low, i, e.k, b, ea, eb, true);
    }

    /** A point where an expression may begin. */
    ghost predicate Begin(x: Ctx)
      reads this
    {
      && x == Ctx(code, x.pend, freereg) && Shape(code, x.pend, base, lasttarget) && base <= |code|
      && Cached() && nvars <= freereg <= MAX_FSTACK
    }

    /** subexpr: compiles an expression. What it leaves is described by `e` and by the
        jumps of its lists. */
    method Compile(ex: Expr, ghost x: Ctx) returns (st: Status, e: ExpDesc, ghost tl: seq<nat>, ghost fl: seq<nat>)
      requires Begin(x) && InScope(ex, nvars)
      modifies this`code, this`ks, this`kcache, this`lasttarget, this`freereg, this`maxstacksize
      ensures Grown(old(code), old(ks), code, ks, Instrs(ex), Consts(ex))
      ensures Room(old(code), old(ks), Instrs(ex), Consts(ex), x.low + Temps(ex)) ==> st.Ok?
      ensures old(ks) <= ks
      ensures st.Ok? ==> Compiled(x, e, tl, fl, ex) && !e.k.VK?
      decreases ex, 1
    {
      hide Coded, IsList, Shape, Cached;
      TempsOne(ex);
      tl, fl := [], [];
      e := ExpDesc(VNil, NO_JUMP, NO_JUMP);
      match ex {
        case Const(v) => e := Constant(v, x); st := Ok;
        case Local(i) => e := LocalVar(i, x); st := Ok;
        case NotE(e1) =>
          st, e, tl, fl := Compile(e1, x);
          if st.IsFailure() { return; }
          e := DischargeVars(e, x, tl, fl, e1);
          st, e := CodeNot(e, x, tl, fl, e1);
          tl, fl := fl, tl;
        case And(a, b) => st, e, tl, fl := CompileJoint(true, a, b, x);
        case Or(a, b) => st, e, tl, fl := CompileJoint(false, a, b, x);
        case Cmp(op, a, b) => st, e := CompileCompare(op, a, b, x);
      }
    }

    method Constant(v: Val, ghost x: Ctx) returns (e: ExpDesc)
      requires Begin(x) && !v.Obj?
      ensures Compiled(x, e, [], [], Const(v)) && !e.k.VK?
    {
      var k := match v
        case Nil => VNil
        case False => VFalse
        case True => VTrue
        case Int(i) => VKInt(i)
        case Str(s) => VKStr(s)
        case Obj(_) => VNil;
      FreshCoded(Now(), x, k, Const(v));
      EmptyList(code);
      e := ExpDesc(k, NO_JUMP, NO_JUMP);
    }

    method LocalVar(i: nat, ghost x: Ctx) returns (e: ExpDesc)
      requires Begin(x) && i < nvars
      ensures Compiled(x, e, [], [], Local(i)) && e.k == VLocal(i)
    {
      FreshCoded(Now(), x, VLocal(i), Local(i));
      EmptyList(code);
      e := ExpDesc(VLocal(i), NO_JUMP, NO_JUMP);
    }

    /** `and` and `or`: luaK_infix, the second operand, luaK_posfix. */
    method CompileJoint(holds: bool, a: Expr, b: Expr, ghost x: Ctx)
      returns (st: Status, e: ExpDesc, ghost tl: seq<nat>, ghost fl: seq<nat>)
      requires Begin(x) && InScope(a, nvars) && InScope(b, nvars)
      modifies this`code, this`ks, this`kcache, this`lasttarget, this`freereg, this`maxstacksize
      ensures Grown(old(code), old(ks), code, ks, Instrs(Joint(holds, a, b)), Consts(Joint(holds, a, b)))
      ensures !st.Ok? ==>
        !Room(old(code), old(ks), Instrs(Joint(holds, a, b)), Consts(Joint(holds, a, b)),
              x.low + Temps(Joint(holds, a, b)))
      ensures old(ks) <= ks
      ensures st.Ok? ==> Compiled(x, e, tl, fl, Joint(holds, a, b)) && !e.k.VK?
      decreases if holds then And(a, b) else Or(a, b), 0
    {
      hide Coded, IsList, Compiled, Passed, Begin, Instrs, Consts, Temps, Joint;
      JointSize(holds, a, b);
      ghost var js: seq<nat>;
      var list: int;
      st, e, tl, fl := Compile(a, x);
      if st.IsFailure() { return; }
      st, list, js := InfixJoint(holds, e, x, tl, fl, a);
      if st.IsFailure() { return; }
      ghost var ga := Now();
      PassedFacts(x, holds, list, js, a);
      st, e, tl, fl := Compile(b, After(ga, x, js, x.low));
      if st.IsFailure() { return; }
      e := DischargeVars(e, After(ga, x, js, x.low), tl, fl, b);
      st, e := PosfixJoint(holds, list, e, ga, x, js, a, tl, fl, b);
      tl, fl := if holds then tl else tl + js, if holds then fl + js else fl;
    }

    lemma PassedFacts(x: Ctx, holds: bool, list: int, js: seq<nat>, ex: Expr)
      requires Passed(x, holds, list, js, ex)
      ensures Coded(Now(), x, Truth(holds), if holds then [] else js, if holds then js else [], NO_REG, ex)
      ensures IsList(code, list, js)
    {
    }

    /** luaK_infix for `and` and `or`. */
    method InfixJoint(holds: bool, e: ExpDesc, ghost x: Ctx, ghost tl: seq<nat>, ghost fl: seq<nat>, ghost ex: Expr)
      returns (st: Status, list: int, ghost js: seq<nat>)
      requires Compiled(x, e, tl, fl, ex) && !e.k.VK?
      modifies this`code, this`ks, this`kcache, this`lasttarget, this`freereg, this`maxstacksize
      ensures Grown(old(code), old(ks), code, ks, 4, 1)
      ensures Room(old(code), old(ks), 4, 1, x.low + 1) ==> st.Ok?
      ensures old(ks) <= ks
      ensures st.Ok? ==> Passed(x, holds, list, js, ex) && Begin(After(Now(), x, js, x.low))
    {
      hide Coded, IsList, Shape, Cached;
      if holds {
        st, list, js := GoIfTrue(e, x, tl, fl, ex);
      } else {
        st, list, js := GoIfFalse(e, x, tl, fl, ex);
      }
      if st.IsFailure() { return; }
      PassedBegin(Now(), x, holds, js, ex);
    }

    /** luaK_posfix for `and` and `or`: the list of the first operand joins that of the
        second one. */
    method PosfixJoint(holds: bool, list: int, e: ExpDesc, ghost ga: Gen, ghost x: Ctx, ghost js: seq<nat>,
            ghost ea: Expr, ghost tl: seq<nat>, ghost fl: seq<nat>, ghost eb: Expr)
      returns (st: Status, e1: ExpDesc)
      requires Coded(ga, x, Truth(holds), if holds then [] else js, if holds then js else [], NO_REG, ea)
        && IsList(ga.code, list, js)
      requires Compiled(After(ga, x, js, x.low), e, tl, fl, eb) && base == ga.base && nvars == ga.nvars && ga.ks <= ks
      modifies this`code
      ensures |code| == |old(code)| && (|code| <= MAX_OFFSET ==> st.Ok?)
      ensures st.Ok? ==>
        e1.k == e.k && Compiled(x, e1, if holds then tl else tl + js, if holds then fl + js else fl,
        Joint(holds, ea, eb))
    {
      hide Coded, IsList, Shape, Cached;
      JoinLists(ga, Now(), x, holds, js, ea, e, tl, fl, eb, list);
      ghost var gb := Now();
      var joined: int;
      if holds {
        st, joined := Concat(e.f, list, fl, js);
      } else {
        st, joined := Concat(e.t, list, tl, js);
      }
      e1 := if holds then e.(f := joined) else e.(t := joined);
      if st.IsFailure() { return; }
      JoinedCoded(gb, x, holds, js, ea, e, tl, fl, eb, code);
    }

    lemma FirstOperand(x: Ctx, e: ExpDesc, ex: Expr)
      requires Compiled(x, e, [], [], ex) && Operand(e.k)
      ensures Begin(After(Now(), x, [], freereg)) && freereg <= x.low + 1
      ensures Coded(Now(), x, Value(e.k), [], [], NO_REG, ex) && RegsOk(e.k, x.low, nvars, freereg)
    {
      hide Coded, IsList, Shape, Cached;
      CodedBegin(Now(), x, e.k, ex);
    }

    lemma BothOperands(x: Ctx, ga: Gen, low: nat, a: Kind, ea: Expr, b: ExpDesc, tl: seq<nat>, fl: seq<nat>, eb: Expr)
      requires Coded(ga, x, Value(a), [], [], NO_REG, ea) && Operand(a) && RegsOk(a, x.low, ga.nvars, low)
      requires Compiled(After(ga, x, [], low), b, tl, fl, eb) && ga.ks <= ks && ga.base == base && ga.nvars == nvars
      ensures Operands(x, ga, low, a, ea, b, tl, fl, eb)
    {
    }

    /** Comparisons: luaK_infix, the second operand, luaK_posfix. */
    method CompileCompare(op: CmpOp, a: Expr, b: Expr, ghost x: Ctx) returns (st: Status, e: ExpDesc)
      requires Begin(x) && InScope(a, nvars) && InScope(b, nvars)
      modifies this`code, this`ks, this`kcache, this`lasttarget, this`freereg, this`maxstacksize
      ensures Grown(old(code), old(ks), code, ks, Instrs(Cmp(op, a, b)), Consts(Cmp(op, a, b)))
      ensures !st.Ok? ==>
        !Room(old(code), old(ks), Instrs(Cmp(op, a, b)), Consts(Cmp(op, a, b)), x.low + Temps(Cmp(op, a, b)))
      ensures old(ks) <= ks
      ensures st.Ok? ==> Compiled(x, e, [], [], Cmp(op, a, b)) && e.k.VJmp?
      decreases Cmp(op, a, b), 0
    {
      hide Coded, Compiled, Begin, Operands, RegsOk, Instrs, Consts, Temps;
      CmpSize(op, a, b);
      ghost var tl: seq<nat>, fl: seq<nat>;
      st, e, tl, fl := Compile(a, x);
      if st.IsFailure() { return; }
      st, e := InfixCompare(op, e, x, tl, fl, a);
      if st.IsFailure() { return; }
      ghost var ga, low := Now(), freereg;
      ghost var x1 := After(ga, x, [], low);
      FirstOperand(x, e, a);
      var e2: ExpDesc;
      st, e2, tl, fl := Compile(b, x1);
      if st.IsFailure() { return; }
      e2 := DischargeVars(e2, x1, tl, fl, b);
      BothOperands(x, ga, low, e.k, a, e2, tl, fl, b);
      st, e := PosfixCompare(op, e, e2, x, ga, low, a, tl, fl, b);
    }

    /** An expression for a new local variable or an argument: its value goes to the next
        free register. */
    method ExprToNextReg(ex: Expr) returns (st: Status, reg: nat)
      requires Ready({}) && base <= |code| && InScope(ex, nvars)
      modifies this`code, this`ks, this`kcache, this`lasttarget, this`freereg, this`maxstacksize
      ensures Grown(old(code), old(ks), code, ks, Instrs(ex) + 5, Consts(ex) + 1)
      ensures Room(old(code), old(ks), Instrs(ex) + 5, Consts(ex) + 1, old(freereg) + Temps(ex)) ==> st.Ok?
      ensures st.Ok? ==> reg == old(freereg) && freereg == reg + 1 && Ready({})
      ensures st.Ok? ==> old(ks) <= ks && Computes(old(code), code, base, ks, ex, reg, reg)
    {
      hide Coded, IsList, Shape, Cached, Computes;
      TempsOne(ex);
      ghost var x := Ctx(code, {}, freereg);
      ghost var tl: seq<nat>, fl: seq<nat>;
      var e: ExpDesc;
      reg := 0;
      st, e, tl, fl := Compile(ex, x);
      if st.IsFailure() { return; }
      st, e := Exp2NextReg(e, x, tl, fl, ex);
      if st.IsFailure() { return; }
      reg := e.k.reg;
      SkipMore(Now(), x, Value(e.k), [], [], ex, reg);
      FinalComputes(Now(), x, ex, reg);
    }

    /** luaK_storevar for a local variable: `reg = ex`. */
    method AssignLocal(reg: nat, ex: Expr) returns (st: Status)
      requires Ready({}) && base <= |code| && InScope(ex, nvars) && reg < nvars
      modifies this`code, this`ks, this`kcache, this`lasttarget, this`freereg, this`maxstacksize
      ensures Grown(old(code), old(ks), code, ks, Instrs(ex) + 5, Consts(ex) + 1)
      ensures Room(old(code), old(ks), Instrs(ex) + 5, Consts(ex) + 1, old(freereg) + Temps(ex)) ==> st.Ok?
      ensures st.Ok? ==> freereg == old(freereg) && Ready({})
      ensures st.Ok? ==> old(ks) <= ks && Computes(old(code), code, base, ks, ex, reg, freereg)
    {
      hide Coded, IsList, Shape, Cached, Computes;
      ghost var x := Ctx(code, {}, freereg);
      ghost var tl: seq<nat>, fl: seq<nat>;
      var e: ExpDesc;
      st, e, tl, fl := Compile(ex, x);
      if st.IsFailure() { return; }
      e := DischargeVars(e, x, tl, fl, ex);
      LowBounds(Now(), x, Value(e.k), tl, fl, ex);
      FreeExp(e);
      st, e := Exp2Reg(e, reg, x, tl, fl, ex);
      if st.IsFailure() { return; }
      FinalComputes(Now(), x, ex, reg);
    }
  }

  lemma DischargedNil(g: Gen, x: Ctx, e: ExpDesc, tl: seq<nat>, fl: seq<nat>, ex: Expr, reg: nat)
    requires Coded(g, x, Value(e.k), tl, fl, NO_REG, ex) && e.k.VNil? && reg < NO_REG
    ensures var n := |g.code|;
      Coded(g.(code := if g.lasttarget < n
        && Connects(g.code[n - 1], reg) then g.code[..n - 1] + [MergedNil(g.code[n - 1], reg)]
                       else g.code + [LoadNil(reg, 0)]), x, Value(VNonReloc(reg)), tl, fl, reg, ex)
  {
    hide Coded;
    if g.lasttarget < |g.code| && Connects(g.code[|g.code| - 1], reg) {
      PutNilMerged(g, x, tl, fl, ex, reg);
    } else {
      LoadsNil(g.code, reg, g.ks);
      PutPlain(g, x, e.k, tl, fl, ex, LoadNil(reg, 0), reg, g.ks);
    }
  }

  lemma DischargedConstant(g: Gen, x: Ctx, e: ExpDesc, tl: seq<nat>, fl: seq<nat>, ex: Expr, reg: nat, n: nat,
          ks: seq<Val>)
    requires Coded(g, x, Value(e.k), tl, fl, NO_REG, ex) && reg < NO_REG && g.ks <= ks && n < |ks|
    requires e.k == VK(n) || (e.k.VKInt? && ks[n] == Int(e.k.ival)) || (e.k.VKStr? && ks[n] == Str(e.k.strval))
    ensures Coded(g.(code := g.code + if n <= MAXARG_BX then [LoadK(reg, n)] else [LoadKX(reg), ExtraArg(n)], ks := ks),
                  x, Value(VNonReloc(reg)), tl, fl, reg, ex)
  {
    hide Coded;
    LoadsConstant(g.code, e.k, n, reg, ks);
    if n <= MAXARG_BX {
      PutPlain(g, x, e.k, tl, fl, ex, LoadK(reg, n), reg, ks);
    } else {
      PutKX(g, x, e.k, tl, fl, ex, reg, n, ks);
    }
  }

  lemma RelocPlace(g: Gen, x: Ctx, tl: seq<nat>, fl: seq<nat>, ex: Expr, pc: nat)
    requires Coded(g, x, Value(VReloc(pc)), tl, fl, NO_REG, ex)
    ensures pc == |g.code| - 1 && g.code[pc].NotOp?
    ensures forall i: Instr :: g.code[pc := i] == Core(g.code, Value(VReloc(pc))) + [i]
  {
  }

  lemma DischargedLists(g: Gen, d: Code, x: Ctx, e: ExpDesc, tl: seq<nat>, fl: seq<nat>, ex: Expr)
    requires Coded(g, x, Value(e.k), tl, fl, NO_REG, ex) && IsList(g.code, e.t, tl) && IsList(g.code, e.f, fl)
    requires |d| >= |g.code| && forall j :: 0 <= j < |g.code| && g.code[j].Jmp? ==> d[j] == g.code[j]
    ensures IsList(d, e.t, tl) && IsList(d, e.f, fl)
  {
    ListStays(g.code, d, e.t, tl);
    ListStays(g.code, d, e.f, fl);
  }

  lemma AroundBools(c0: Code, c: Code, d: Code, k: Kind, reg: nat, js: seq<nat>)
    requires c == c0 + (if k.VJmp? then [] else [Jmp(NO_JUMP)]) + [LFalseSkip(reg)] + [LoadTrue(reg)]
    requires js == (if k.VJmp? then [] else [|c0|]) && Patched(c, d, Elems(js), |c|, NO_REG, |c|)
    requires |c0| > 0 && !k.VJmp? ==> !IsTest(c0[|c0| - 1])
    ensures d == c0 + BoolCode(k, reg)
  {
    var e := c0 + BoolCode(k, reg);
    assert |e| == |d|;
    forall i | 0 <= i < |d| ensures d[i] == e[i] {
      assert d[i] == PatchedInstr(c, Elems(js), i, |c|, NO_REG, |c|);
      if !k.VJmp? && i + 1 == |c0| { assert c[i] == c0[i]; }
    }
  }

  lemma LowBounds(g: Gen, x: Ctx, f: Falls, tl: seq<nat>, fl: seq<nat>, ex: Expr)
    requires Coded(g, x, f, tl, fl, NO_REG, ex)
    ensures g.nvars <= x.low <= MAX_FSTACK
  {
  }

  lemma LocalRegister(g: Gen, x: Ctx, tl: seq<nat>, fl: seq<nat>, ex: Expr, i: nat)
    requires Coded(g, x, Value(VLocal(i)), tl, fl, NO_REG, ex)
    ensures Coded(g, x, Value(VNonReloc(i)), tl, fl, NO_REG, ex)
  {
    hide Exec, Eval, Shape, Extends;
    forall ord, ks, r | g.ks <= ks && |r| == NO_REG
      ensures MeansAt(x, g.base, g.code, Value(VNonReloc(i)), tl, fl, NO_REG, ex, ord, ks, r)
    {
      MeansHere(g, x, Value(VLocal(i)), tl, fl, NO_REG, ex, ord, ks, r);
    }
  }

  /** The jump of a comparison is a list by itself, apart from the others. */
  lemma SingleList(g: Gen, x: Ctx, tl: seq<nat>, fl: seq<nat>, skip: nat, ex: Expr, pc: nat)
    requires Coded(g, x, Value(VJmp(pc)), tl, fl, skip, ex)
    ensures IsList(g.code, pc, [pc]) && Elems(tl) !! Elems([pc]) && Elems(fl) !! Elems([pc]) && pc !in tl && pc !in fl
    ensures Elems(tl + [pc]) !! Elems(fl)
  {
    OneJump(g.code, pc);
    assert Elems(tl + [pc]) == Elems(tl) + {pc};
  }

  lemma OneJump(c: Code, pc: nat)
    requires pc < |c| && c[pc] == Jmp(NO_JUMP)
    ensures IsList(c, pc, [pc])
  {
    var js := [pc];
    assert js[0] == pc && Link(c, js[0]) == NO_JUMP;
    assert forall i :: 0 <= i < |js| ==> js[i] == pc && i == 0;
  }

  lemma JoinedTest(g: Gen, x: Ctx, e: ExpDesc, tl: seq<nat>, fl: seq<nat>, skip: nat, ex: Expr, d: Code)
    requires Coded(g, x, Value(e.k), tl, fl, skip, ex) && e.k.VJmp? && Relinked(g.code, d, Elems(tl))
      && IsList(g.code, e.f, fl)
    ensures Coded(g.(code := d), x, Value(e.k), tl, fl, skip, ex) && IsList(d, e.f, fl)
  {
    CodedRelinked(g, x, Value(e.k), tl, fl, skip, ex, Elems(tl), d);
    forall j | j in fl ensures j < |d| && d[j] == g.code[j] {
      assert j in Elems(fl) && j !in Elems(tl);
    }
    ListStays(g.code, d, e.f, fl);
  }

  lemma NoJumpsEmpty(c: Code, t: int, f: int, tl: seq<nat>, fl: seq<nat>)
    requires IsList(c, t, tl) && IsList(c, f, fl) && Elems(tl) !! Elems(fl)
    ensures t == f ==> tl == [] && fl == []
  {
    if tl != [] { assert tl[0] in Elems(tl); }
    if fl != [] { assert fl[0] in Elems(fl); }
  }

  lemma EndOfCode(g: Gen, x: Ctx, k: Kind, tl: seq<nat>, fl: seq<nat>, reg: nat, ex: Expr)
    requires Coded(g, x, Value(k), tl, fl, reg, ex)
    ensures |g.code| > 0 ==> !IsTest(g.code[|g.code| - 1])
  {
    AfterCode(g, x, k, tl, fl);
  }

  lemma ListsAppend(g: Gen, x: Ctx, f: Falls, tl: seq<nat>, fl: seq<nat>, d: Code, t: int, fh: int)
    requires IsList(g.code, t, tl) && IsList(g.code, fh, fl) && g.code <= d
    ensures IsList(d, t, tl) && IsList(d, fh, fl)
  {
    assert d[..|g.code|] == g.code;
    assert forall i :: 0 <= i < |g.code| ==> d[i] == d[..|g.code|][i];
    assert forall i :: 0 <= i < |tl| ==> tl[i] < |g.code|;
    assert forall i :: 0 <= i < |fl| ==> fl[i] < |g.code|;
    ListStays(g.code, d, t, tl);
    ListStays(g.code, d, fh, fl);
  }

  /** Without need for booleans the expression is no test. */
  lemma TestNeeds(g: Gen, x: Ctx, k: Kind, tl: seq<nat>, fl: seq<nat>, reg: nat, ex: Expr)
    requires Coded(g, x, Value(k), tl, fl, reg, ex) && forall j :: j in WithTest(k, tl) ==> Produces(g.code, j)
    ensures !k.VJmp?
  {
    assert k.VJmp? ==> k.jpc in WithTest(k, tl);
  }

  lemma CodedPatchable(g: Gen, x: Ctx, f: Falls, tl: seq<nat>, fl: seq<nat>, skip: nat, ex: Expr)
    requires Coded(g, x, f, tl, fl, skip, ex)
    ensures Patchable(g.code, Elems(tl)) && Patchable(g.code, Elems(fl)) && Elems(tl) !! Elems(fl)
  {
  }

  /** Patching one list leaves the other as it was. */
  lemma OtherList(c: Code, d: Code, fl: seq<nat>, final: nat, reg: nat, dtarget: nat, t: int, tl: seq<nat>, x: Ctx,
          g: Gen, ex: Expr)
    requires Patched(c, d, Elems(fl), final, reg, dtarget) && IsList(c, t, tl) && Elems(tl) !! Elems(fl)
    ensures IsList(d, t, tl)
  {
    forall j | j in tl ensures j < |d| && d[j] == c[j] {
      assert j in Elems(tl) && j !in Elems(fl);
      assert d[j] == PatchedInstr(c, Elems(fl), j, final, reg, dtarget);
    }
    ListStays(c, d, t, tl);
  }

  lemma SecondSide(g1: Gen, g2: Gen, x: Ctx, tl: seq<nat>, fl: seq<nat>, reg: nat, place: nat, need: bool)
    requires |g1.code| == |g2.code| && SameExits(g1.code, g2.code, tl, [])
    requires forall i ::
      0 <= i < |g2.code| && (g1.code[i].LoadTrue? || g1.code[i].LFalseSkip?) ==> g2.code[i] == g1.code[i]
    requires if need then BoolsAfter(g1, x, tl, fl, place, reg, true) else forall j :: j in tl ==> Produces(g1.code, j)
    ensures if need then BoolsAfter(g2, x, tl, [], place, reg, true) else forall j :: j in tl ==> Produces(g2.code, j)
  {
    assert forall j :: j in tl + [] ==> j in tl + fl;
    assert forall j :: j in tl ==> j in tl + [];
  }

  lemma EmptyList(c: Code)
    ensures IsList(c, NO_JUMP, [])
  {
  }

  lemma EmptyHeads(c: Code, t: int, f: int)
    requires IsList(c, t, []) && IsList(c, f, [])
    ensures t == f == NO_JUMP
  {
  }

  lemma TestedLists(g: Gen, x: Ctx, e: ExpDesc, tl: seq<nat>, fl: seq<nat>, ex: Expr, d: Code, pc: nat)
    requires Coded(g, x, Value(e.k), tl, fl, NO_REG, ex) && IsList(g.code, e.t, tl) && IsList(g.code, e.f, fl)
    requires Core(g.code, Value(e.k)) <= d && |Core(g.code, Value(e.k))| <= pc < |d| && d[pc] == Jmp(NO_JUMP)
    ensures IsList(d, e.t, tl) && IsList(d, e.f, fl) && IsList(d, pc, [pc]) && pc !in tl && pc !in fl
  {
    var c := Core(g.code, Value(e.k));
    assert d[..|c|] == c;
    forall j | j in tl || j in fl ensures j < |d| && d[j] == g.code[j] {
      assert j in Pend(x, Value(e.k), tl, fl) && j < |c|;
      assert d[..|c|][j] == d[j];
    }
    ListStays(g.code, d, e.t, tl);
    ListStays(g.code, d, e.f, fl);
    OneJump(d, pc);
  }

  lemma AddOne(tl: seq<nat>, fl: seq<nat>, pc: nat, cond: bool)
    ensures Add(tl, cond, pc) == if cond then tl + [pc] else tl
    ensures Add(fl, !cond, pc) == if cond then fl else fl + [pc]
  {
  }

  lemma AddNone(js: seq<nat>)
    ensures js + [] == js
  {
  }

  lemma NegatedLists(g: Gen, x: Ctx, e: ExpDesc, tl: seq<nat>, fl: seq<nat>, ex: Expr, pc: nat)
    requires Coded(g, x, Value(VJmp(pc)), tl, fl, NO_REG, ex) && IsList(g.code, e.t, tl) && IsList(g.code, e.f, fl)
    ensures 0 < pc < |g.code| && IsComparison(g.code[pc - 1])
    ensures var d := g.code[pc - 1 := Negated(g.code[pc - 1])];
      IsList(d, e.t, tl) && IsList(d, e.f, fl) && IsList(d, pc, [pc])
    ensures pc !in tl && pc !in fl
  {
    JumpPlace(g, x, tl, fl, pc);
    var d := g.code[pc - 1 := Negated(g.code[pc - 1])];
    forall j | j in tl || j in fl ensures j < |d| && d[j] == g.code[j] {
      assert j in Pend(x, Value(VJmp(pc)), tl, fl);
    }
    ListStays(g.code, d, e.t, tl);
    ListStays(g.code, d, e.f, fl);
    OneJump(d, pc);
  }

  lemma ApartSides(g: Gen, x: Ctx, holds: bool, tl: seq<nat>, fl: seq<nat>, ex: Expr, pcs: seq<nat>)
    requires Coded(g, x, Truth(holds), if holds then tl else tl + pcs, if holds then fl + pcs else fl, NO_REG, ex)
    requires forall j :: j in pcs ==> j !in tl && j !in fl
    ensures Elems(Here(!holds, tl, fl)) !! Elems(pcs) && Elems(tl) !! Elems(fl)
    ensures Elems(Here(!holds, tl, fl)) <= Elems(if holds then tl else tl + pcs) + Elems(if holds then fl + pcs else fl)
    ensures Elems(Here(holds, tl, fl)) !! Elems(Here(!holds, tl, fl) + pcs)
  {
    CodedPatchable(g, x, Truth(holds), if holds then tl else tl + pcs, if holds then fl + pcs else fl, NO_REG, ex);
    assert forall j :: j in tl ==> j in tl + pcs;
    assert forall j :: j in fl ==> j in fl + pcs;
    assert Elems(tl + pcs) == Elems(tl) + Elems(pcs) && Elems(fl + pcs) == Elems(fl) + Elems(pcs);
  }

  lemma RelinkedOther(c: Code, d: Code, js: seq<nat>, head: int, other: seq<nat>)
    requires Relinked(c, d, Elems(js)) && IsList(c, head, other) && Elems(js) !! Elems(other)
    ensures IsList(d, head, other)
  {
    forall j | j in other ensures j < |d| && d[j] == c[j] {
      assert j in Elems(other) && j !in Elems(js);
    }
    ListStays(c, d, head, other);
  }

  lemma SameSize(c: Code, d: Code, l: set<nat>, vtarget: nat, reg: nat, dtarget: nat)
    requires Patched(c, d, l, vtarget, reg, dtarget)
    ensures |d| == |c|
  {
  }

  lemma RemovedTwice(c: Code, d: Code, e: Code, l: set<nat>, m: set<nat>)
    requires ValuesRemoved(c, d, l) && ValuesRemoved(d, e, m)
    ensures ValuesRemoved(c, e, l + m)
  {
  }

  /** isSCnumber, for integers. */
  predicate IsSCInt(e: ExpDesc) {
    e.k.VKInt? && !HasJumps(e) && FitsC(e.k.ival)
  }

  /** A temporary register of an operand, if any. */
  predicate IsTemp(k: Kind, nvars: nat) {
    k.VNonReloc? && k.reg >= nvars
  }

  predicate TempsAre(k1: Kind, k2: Kind, low: nat, nvars: nat, freereg: nat) {
    if IsTemp(k1, nvars) && IsTemp(k2, nvars) then
      freereg == low + 2 && ((k1.reg == low && k2.reg == low + 1) || (k2.reg == low && k1.reg == low + 1))
    else if IsTemp(k1, nvars) then freereg == low + 1 && k1.reg == low
    else if IsTemp(k2, nvars) then freereg == low + 1 && k2.reg == low
    else freereg == low
  }

  /** Where the second operand of `and` and `or` begins. */
  lemma PassedBegin(g: Gen, x: Ctx, holds: bool, js: seq<nat>, ex: Expr)
    requires Coded(g, x, Truth(holds), if holds then [] else js, if holds then js else [], NO_REG, ex)
    ensures Shape(g.code, After(g, x, js, x.low).pend, g.base, g.lasttarget) && g.base <= |g.code|
      && g.nvars <= x.low <= MAX_FSTACK
    ensures |x.code| <= |g.code|
  {
    assert Pend(x, Truth(holds), if holds then [] else js, if holds then js else []) == x.pend + Elems(js);
  }

  lemma CodedBegin(g: Gen, x: Ctx, k: Kind, ex: Expr)
    requires Coded(g, x, Value(k), [], [], NO_REG, ex) && !k.VJmp?
    ensures forall low :: Shape(g.code, After(g, x, [], low).pend, g.base, g.lasttarget)
    ensures g.base <= |g.code| && g.nvars <= x.low <= MAX_FSTACK
  {
    assert Pend(x, Value(k), [], []) == x.pend;
    assert x.pend + Elems([]) == x.pend;
  }

  /** The list of the first operand survives the second one, apart from its lists. */
  lemma JoinLists(ga: Gen, gb: Gen, x: Ctx, holds: bool, js: seq<nat>, ea: Expr, e: ExpDesc, tl: seq<nat>,
          fl: seq<nat>, eb: Expr, list: int)
    requires Coded(ga, x, Truth(holds), if holds then [] else js, if holds then js else [], NO_REG, ea)
    requires Coded(gb, After(ga, x, js, x.low), Value(e.k), tl, fl, NO_REG, eb)
    requires gb.base == ga.base && gb.nvars == ga.nvars && ga.ks <= gb.ks
    requires IsList(ga.code, list, js)
    ensures IsList(gb.code, list, js) && Elems(fl) !! Elems(js) && Elems(tl) !! Elems(js) && Elems(tl) !! Elems(fl)
    ensures Coded(gb, x, Value(e.k), if holds then tl else tl + js, if holds then fl + js else fl, NO_REG,
      Joint(holds, ea, eb))
  {
    CodedJoint(ga, gb, x, holds, js, ea, e.k, tl, fl, eb);
    var x1 := After(ga, x, js, x.low);
    forall j | j in js ensures j < |gb.code| && gb.code[j] == ga.code[j] && j !in tl && j !in fl {
      assert j in x1.pend;
      assert j in tl || j in fl ==> j in tl + fl;
    }
    ListStays(ga.code, gb.code, list, js);
  }

  lemma JoinedCoded(g: Gen, x: Ctx, holds: bool, js: seq<nat>, ea: Expr, e: ExpDesc, tl: seq<nat>, fl: seq<nat>,
          eb: Expr, d: Code)
    requires Coded(g, x, Value(e.k), if holds then tl else tl + js, if holds then fl + js else fl, NO_REG,
      Joint(holds, ea, eb))
    requires IsList(g.code, e.t, tl) && IsList(g.code, e.f, fl) && Relinked(g.code, d, Elems(if holds then fl else tl))
    requires Elems(tl) !! Elems(fl)
    ensures Coded(g.(code := d), x, Value(e.k), if holds then tl else tl + js, if holds then fl + js else fl, NO_REG,
      Joint(holds, ea, eb))
    ensures if holds then IsList(d, e.t, tl) else IsList(d, e.f, fl)
  {
    var tl1, fl1 := if holds then tl else tl + js, if holds then fl + js else fl;
    assert Elems(tl + js) == Elems(tl) + Elems(js) && Elems(fl + js) == Elems(fl) + Elems(js);
    CodedRelinked(g, x, Value(e.k), tl1, fl1, NO_REG, Joint(holds, ea, eb), Elems(if holds then fl else tl), d);
    if holds {
      RelinkedOther(g.code, d, fl, e.t, tl);
    } else {
      RelinkedOther(g.code, d, tl, e.f, fl);
    }
  }

  /** The new code does what the old code did, and then leaves the value of the expression
      in `reg`, with the other registers below `low` as they were. */
  ghost predicate Computes(code0: Code, code: Code, base: nat, ks: seq<Val>, ex: Expr, reg: nat, low: nat) {
    forall ord, ks1, r :: ks <= ks1 && |r| == NO_REG && Exec(ord, ks1, code0, {}, base, r).Fall? ==>
      var r0, o := Exec(ord, ks1, code0, {}, base, r).regs, Exec(ord, ks1, code, {}, base, r);
      o.Fall? && Get(o.regs, reg) == Eval(ord, ex, r0) && Same(r0, o.regs, low, reg)
  }

  lemma FinalComputes(g: Gen, x: Ctx, ex: Expr, reg: nat)
    requires Coded(g, x, Value(VNonReloc(reg)), [], [], reg, ex) && x.pend == {}
    ensures Computes(x.code, g.code, g.base, g.ks, ex, reg, x.low)
    ensures Shape(g.code, {}, g.base, g.lasttarget) && g.base <= |g.code|
  {
    hide Exec, Eval, Extends, Shape;
    assert Pend(x, Value(VNonReloc(reg)), [], []) == {};
    forall ord, ks1, r | g.ks <= ks1 && |r| == NO_REG && Exec(ord, ks1, x.code, {}, g.base, r).Fall?
      ensures var r0, o := Exec(ord, ks1, x.code, {}, g.base, r).regs, Exec(ord, ks1, g.code, {}, g.base, r);
        o.Fall? && Get(o.regs, reg) == Eval(ord, ex, r0) && Same(r0, o.regs, x.low, reg)
    {
      MeansHere(g, x, Value(VNonReloc(reg)), [], [], reg, ex, ord, ks1, r);
    }
    BaseLow(g, x, ex, reg);
  }

  lemma BaseLow(g: Gen, x: Ctx, ex: Expr, reg: nat)
    requires Coded(g, x, Value(VNonReloc(reg)), [], [], reg, ex)
    ensures g.base <= |g.code|
  {
  }

  /** What compiling a boolean expression is for: from a marked point on, the virtual
      machine runs to the end of the new code and finds in `reg` the value that the
      expression denotes, whatever the registers, the comparisons and the constants added
      later. */
  lemma CompiledCorrect(code0: Code, code: Code, base: nat, ks: seq<Val>, ex: Expr, reg: nat, low: nat, ord: Order,
          ks1: seq<Val>, r: Regs)
    returns (steps: nat, r1: Regs)
    requires base == |code0| && Computes(code0, code, base, ks, ex, reg, low) && ks <= ks1 && |r| == NO_REG
    ensures VmRun(ord, ks1, code, base, r, steps) == (|code|, r1)
    ensures Get(r1, reg) == Eval(ord, ex, r)
    ensures forall i :: 0 <= i < low && i != reg ==> Get(r1, i) == Get(r, i)
  {
    assert Exec(ord, ks1, code0, {}, base, r) == Fall(r);
    r1 := Exec(ord, ks1, code, {}, base, r).regs;
    steps := ExecIsVm(ord, ks1, code, base, r);
  }

  /** The same for a function that starts with this expression. */
  method CompileAlone(nvars: nat, code: Code, ks: seq<Val>, ex: Expr) returns (st: Status, fs: FuncState, reg: nat)
    requires nvars <= MAX_FSTACK && (code != [] ==> !IsTest(code[|code| - 1])) && InScope(ex, nvars)
    ensures Room(code, ks, Instrs(ex) + 5, Consts(ex) + 1, nvars + Temps(ex)) ==> st.Ok?
    ensures st.Ok? ==> Computes(code, fs.code, |code|, fs.ks, ex, reg, nvars) && ks <= fs.ks && reg == nvars
  {
    fs := new FuncState(nvars, code, ks);
    st, reg := fs.ExprToNextReg(ex);
  }
}
