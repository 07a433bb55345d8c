/**
 Interface calls made under concrete-type facts: the function that lookup by name finds for
 the noted type against the one loaded from the object's method table, and where the facts
 that code generation relies on inside a construct are right or wrong.
 */
module DevirtCalls {
  import opened Hir
  import opened Scan
  import opened Semantics
  import opened Devirt
  import V = Vtables
  import SC = StaticCast
  import Mangle

  // -- the two ways to call ----------------------------------------------------------------------

  /** The type written where an object of a type number is made, the substitution of the
      instance that makes it, and the compiled function of an instance. */
  datatype Linking = Linking(types: DefId -> SC.Ty, subst: DefId -> SC.Subst, code: Mangle.Instance -> DefId)

  /** The function a virtual call loads: the slot of `m` in the table that was emitted for
      the type and the method's interface. */
  function Loaded(ds: V.Defs, lk: Linking, ty: DefId, m: DefId): Option<DefId>
  {
    if m >= |ds.table| || ds.table[m].parent.None? then None
    else
      match V.Table(ds, lk.subst(ty), lk.types(ty), ds.table[m].parent.value)
      case None => None
      case Some(entries) =>
        match V.VtableSlot(ds, m)
        case None => None
        case Some(i) => if i < |entries| then Some(lk.code(entries[i])) else None
  }

  /** The function a direct call names: `m` resolved by name for the noted type, which was
      resolved when it was noted. */
  function Found(ds: V.Defs, lk: Linking, ty: DefId, m: DefId): Option<DefId>
  {
    match V.Resolve(ds, lk.subst(ty), m, SC.Shallow(lk.subst(ty), lk.types(ty)))
    case None => None
    case Some(i) => Some(lk.code(i))
  }

  /** The receiver, the other arguments, then the function with the data pointer first. */
  function CallOn(pr: Program, target: Option<DefId>, v: Value, args: Exprs, s: State, fuel: nat): Out
  {
    var r := EvalArgs(pr, args, s, fuel);
    if !r.ctl.Normal? then Out(r.ctl, r.s)
    else if !v.Object? || target.None? then Out(Stuck, r.s)
    else if fuel == 0 then Out(Timeout, r.s)
    else CallFn(pr, target.value, [v.data] + r.vs, r.s, fuel - 1)
  }

  /** `x.m(args)` through the table of the object that `x` holds. */
  function TableCall(pr: Program, ds: V.Defs, lk: Linking, m: DefId, x: LocalId, args: Exprs, s: State, fuel: nat): Out
  {
    var v := Get(s.env, x);
    CallOn(pr, if v.Object? then Loaded(ds, lk, v.ty, m) else None, v, args, s, fuel)
  }

  /** `x.m(args)` as generated from the facts `f`. */
  function GeneratedCall(pr: Program, ds: V.Defs, lk: Linking, f: Facts, m: DefId, x: LocalId, args: Exprs, s: State,
                         fuel: nat): Out
  {
    if x in f && Found(ds, lk, f[x], m).Some? then CallOn(pr, Found(ds, lk, f[x], m), Get(s.env, x), args, s, fuel)
    else TableCall(pr, ds, lk, m, x, args, s, fuel)
  }

  /** `m` is a method of `iface`, whose table for type `ty` was emitted. */
  predicate Tabled(ds: V.Defs, lk: Linking, ty: DefId, m: DefId, iface: DefId)
  {
    V.IsMethodOf(ds, m, iface) && V.Table(ds, lk.subst(ty), lk.types(ty), iface).Some?
  }

  /** The `extend` that implements the interface is not generic, or the type's arguments
      mention no parameter of the enclosing instance. */
  predicate Plain(ds: V.Defs, lk: Linking, ty: DefId, iface: DefId)
  {
    var t := SC.Shallow(lk.subst(ty), lk.types(ty));
    t.Named? && (t.def, iface) in ds.impls &&
    (!V.GenericExtend(ds, ds.impls[(t.def, iface)]) || V.Settled(lk.subst(ty), t.args))
  }

  /** The slot holds the method that lookup by name finds, and the very instance if and only
      if the type is plain, for any numbering of functions that tells the two apart. */
  lemma LoadedExactly(ds: V.Defs, lk: Linking, ty: DefId, m: DefId, iface: DefId)
    requires Tabled(ds, lk, ty, m, iface)
    requires forall i, j :: lk.code(i) == lk.code(j) && i.def == j.def ==> i == j
    ensures Loaded(ds, lk, ty, m).Some? && Found(ds, lk, ty, m).Some?
    ensures Loaded(ds, lk, ty, m) == Found(ds, lk, ty, m) <==> Plain(ds, lk, ty, iface)
  {
    V.SlotExactly(ds, lk.subst(ty), lk.types(ty), m, iface);
  }

  lemma LoadedIsFound(ds: V.Defs, lk: Linking, ty: DefId, m: DefId, iface: DefId)
    requires Tabled(ds, lk, ty, m, iface) && Plain(ds, lk, ty, iface)
    ensures Loaded(ds, lk, ty, m).Some? && Loaded(ds, lk, ty, m) == Found(ds, lk, ty, m)
  {
    V.SlotExactly(ds, lk.subst(ty), lk.types(ty), m, iface);
  }

  /** A call devirtualised under a right fact about a plain type runs the function that the
      table holds, on the same data pointer and arguments: same outcome, same effects. */
  lemma DirectCallSame(pr: Program, ds: V.Defs, lk: Linking, m: DefId, iface: DefId, x: LocalId, args: Exprs,
                       k: set<LocalId>, f: Facts, s: State, fuel: nat)
    requires Right(k, f, s.env) && x in k
    requires x in f ==> Tabled(ds, lk, f[x], m, iface) && Plain(ds, lk, f[x], iface)
    ensures GeneratedCall(pr, ds, lk, f, m, x, args, s, fuel) == TableCall(pr, ds, lk, m, x, args, s, fuel)
  {
    if x in f {
      LoadedIsFound(ds, lk, f[x], m, iface);
      hide Loaded, Found, CallOn;
    }
  }

  // -- generic code ----------------------------------------------------------------------------------

  /** `interface I { m }`, `extend<T> Box<T>: I { m }`: definitions 0 to 4, in that order. */
  function BoxDefs(): V.Defs
  {
    V.Defs([V.Def(V.OtherKind, None, "I", false), V.Def(V.InterfaceMethod, Some(0), "m", false),
            V.Def(V.OtherKind, None, "extend", true), V.Def(V.ExtendMethod, Some(2), "m", false),
            V.Def(V.OtherKind, None, "Box", true)],
           map[(4, 0) := 2])
  }

  /** `fn f<T>(v: T) { var x: I = Box<T> { v }; x.m() }`, in the instance `T = i32`: the table
      of the object that `x` holds names the instance of `m` for `i32`, and the direct call
      the one for `T`, although the fact about `x` is right. */
  lemma GenericReceiverMissed(code: Mangle.Instance -> DefId)
    ensures var ds, i32 := BoxDefs(), SC.IntTy(SC.I32);
            var lk := Linking(_ => SC.Named(4, [SC.Param(0)]), _ => map[0 := i32], code);
            && Tabled(ds, lk, 0, 1, 0) && !Plain(ds, lk, 0, 0)
            && Loaded(ds, lk, 0, 1) == Some(code(Mangle.Instance(3, [i32])))
            && Found(ds, lk, 0, 1) == Some(code(Mangle.Instance(3, [SC.Param(0)])))
  {
    var ds, i32 := BoxDefs(), SC.IntTy(SC.I32);
    var sub, t := map[0 := i32], SC.Named(4, [SC.Param(0)]);
    BoxLookup();
    assert V.Methods(ds, 0, 5) == [1];
    assert V.Position([1], 1) == Some(0);
    hide V.FindImpl, V.Methods, V.Position;
    assert V.ShallowAll(sub, [SC.Param(0)]) == [i32];
    assert |ds.table| == 5 && V.NameOf(ds, 1) == "m" && V.Targs(ds, 2, [i32]) == [i32];
    assert V.Table(ds, sub, t, 0).Some? && |V.Table(ds, sub, t, 0).value| == 1;
    assert V.Table(ds, sub, t, 0).value[0] == Mangle.Instance(3, [i32]);
    assert SC.Shallow(sub, t.args[0]) != t.args[0];
  }

  lemma BoxLookup()
    ensures V.FindImpl(BoxDefs(), 2, "m", 0) == Some(3)
    ensures V.Methods(BoxDefs(), 0, 5) == [1]
  {
    var ds := BoxDefs();
    assert V.FindImpl(ds, 2, "m", 3) == Some(3);
    assert V.FindImpl(ds, 2, "m", 1) == Some(3);
    assert V.Methods(ds, 0, 0) == [] && V.Methods(ds, 0, 1) == [] && V.Methods(ds, 0, 2) == [1];
    assert V.Methods(ds, 0, 4) == [1];
  }

  /** The program's interface methods are what the tables hold. */
  ghost predicate Wired(pr: Program, ds: V.Defs, lk: Linking)
  {
    forall ty: DefId, m: DefId ::
      if (ty, m) in pr.impls then Loaded(ds, lk, ty, m) == Some(pr.impls[(ty, m)]) else Loaded(ds, lk, ty, m).None?
  }

  /** In a wired program the meaning of an interface call is the call through the table. */
  lemma VirtualIsTableCall(pr: Program, ds: V.Defs, lk: Linking, m: DefId, x: LocalId, args: Exprs, s: State, fuel: nat)
    requires Wired(pr, ds, lk)
    ensures Eval(pr, Call(Virtual(m), ECons(Local(x), args)), s, fuel) == TableCall(pr, ds, lk, m, x, args, s, fuel)
  {
    var e := Call(Virtual(m), ECons(Local(x), args));
    var v, r := Get(s.env, x), EvalArgs(pr, args, s, fuel);
    assert Eval(pr, Local(x), s, fuel) == Out(Normal(v), s);
    hide CallFn, Loaded;
    if r.ctl.Normal? {
      assert EvalArgs(pr, e.args, s, fuel) == Outs(r.ctl, [v] + r.vs, r.s);
      assert ([v] + r.vs)[1..] == r.vs;
    }
  }

  // -- facts inside loops ---------------------------------------------------------------------------

  /** The state before round `n` of a `while` body, if the run gets that far. */
  function BeforeRound(pr: Program, cond: Expr, body: Block, s: State, fuel: nat, n: nat): Option<State>
    decreases n
  {
    var c := Eval(pr, cond, s, fuel);
    if !c.ctl.Normal? || !Truthy(c.ctl.v) then None
    else if n == 0 then Some(c.s)
    else
      var r := EvalBlock(pr, body, c.s, fuel);
      if (!r.ctl.Normal? && !r.ctl.Cont?) || fuel == 0 then None
      else BeforeRound(pr, cond, body, r.s, fuel - 1, n - 1)
  }

  /** A loop body is generated once, from the facts before the loop. They are right in
      every round if every assignment to a local they speak about, in condition or body,
      notes the type they state. */
  lemma {:induction false} LoopBodyFacts(pr: Program, cond: Expr, body: Block, k: set<LocalId>, f: Facts, s: State,
                                         fuel: nat, n: nat)
    requires Right(k, f, s.env) && Bound(cond) !! k && BoundBlock(body) !! k
    requires Agreeing(cond, k, f) && AgreeingBlock(body, k, f)
    ensures BeforeRound(pr, cond, body, s, fuel, n).Some? ==>
              Right(k, f, BeforeRound(pr, cond, body, s, fuel, n).value.env)
    decreases n
  {
    hide Eval, EvalBlock, Right, Agreeing, AgreeingBlock;
    var c := Eval(pr, cond, s, fuel);
    var r := EvalBlock(pr, body, c.s, fuel);
    AgreeKeeps(pr, k, f, cond, s, fuel);
    AgreeBlockKeeps(pr, k, f, body, c.s, fuel);
    if n > 0 && c.ctl.Normal? && (r.ctl.Normal? || r.ctl.Cont?) && fuel > 0 {
      LoopBodyFacts(pr, cond, body, k, f, r.s, fuel - 1, n - 1);
    }
  }

  /** `x = B {}`, for the local `x` with number 0. */
  function SetTo(b: DefId): Stmt
  {
    Assign(Local(0), Adjust(WidenDyn(b), Null))
  }

  /** `{ x.m(); x = B {} }`. */
  function CallThenSet(m: DefId, b: DefId): Block
  {
    Then(ExprStmt(Call(Virtual(m), ECons(Local(0), ENil))), Then(SetTo(b), Tail(Null)))
  }

  /** `x = B {}` puts a `B` behind `x`. */
  lemma Reassign(pr: Program, b: DefId, s: State, fuel: nat)
    ensures EvalStmt(pr, SetTo(b), s, fuel) == Out(Normal(Nil), s.(env := s.env[0 := Object(b, Nil)]))
  {
    assert Eval(pr, Null, s, fuel) == Out(Normal(Nil), s);
    assert Eval(pr, Adjust(WidenDyn(b), Null), s, fuel) == Out(Normal(Object(b, Nil)), s);
  }

  lemma VirtualNeverContinues(pr: Program, m: DefId, s: State, fuel: nat)
    ensures !Eval(pr, Call(Virtual(m), ECons(Local(0), ENil)), s, fuel).ctl.Cont?
  {
    var args := ECons(Local(0), ENil);
    assert Eval(pr, Local(0), s, fuel) == Out(Normal(Get(s.env, 0)), s);
    assert EvalArgs(pr, ENil, s, fuel) == Outs(Normal(Nil), [], s);
    var r := EvalArgs(pr, args, s, fuel);
    assert r.ctl.Normal?;
    if Dispatch(pr, Virtual(m), r.vs).Some? && fuel > 0 {
      var (d, vs) := Dispatch(pr, Virtual(m), r.vs).value;
      hide EvalBlock;
      assert !CallFn(pr, d, vs, r.s, fuel - 1).ctl.Cont?;
    }
  }

  /** One round of `{ x.m(); x = B {} }`. */
  lemma RoundOf(pr: Program, m: DefId, b: DefId, s: State, fuel: nat)
    ensures var q := Eval(pr, Call(Virtual(m), ECons(Local(0), ENil)), s, fuel);
            EvalBlock(pr, CallThenSet(m, b), s, fuel)
            == if q.ctl.Normal? then Out(Normal(Nil), q.s.(env := q.s.env[0 := Object(b, Nil)])) else q
    ensures !EvalBlock(pr, CallThenSet(m, b), s, fuel).ctl.Cont?
  {
    var body := CallThenSet(m, b);
    var q := Eval(pr, Call(Virtual(m), ECons(Local(0), ENil)), s, fuel);
    assert EvalStmt(pr, body.s, s, fuel) == q;
    VirtualNeverContinues(pr, m, s, fuel);
    if q.ctl.Normal? {
      var s1 := q.s.(env := q.s.env[0 := Object(b, Nil)]);
      Reassign(pr, b, q.s, fuel);
      assert Eval(pr, Null, s1, fuel) == Out(Normal(Nil), s1);
      assert EvalBlock(pr, Tail(Null), s1, fuel) == Out(Normal(Nil), s1);
      hide EvalStmt, Eval;
      assert EvalBlock(pr, body.rest, q.s, fuel) == Out(Normal(Nil), s1);
    }
  }

  /** `while true { x.m(); x = B {} }` under the fact that `x` holds an `A`, in any run that
      reaches the second round. The fact is right before the first round, and before the
      second exactly if `B` is `A`; and the function that the body's code calls there is
      the one the table holds exactly if `A` and `B` implement `m` by the same one. */
  lemma LoopBodyFactsWrong(pr: Program, ds: V.Defs, lk: Linking, a: DefId, b: DefId, m: DefId, iface: DefId, s: State,
                           fuel: nat)
    requires Get(s.env, 0) == Object(a, Nil) && Tabled(ds, lk, b, m, iface) && Plain(ds, lk, b, iface)
    requires BeforeRound(pr, Int(1), CallThenSet(m, b), s, fuel, 1).Some?
    ensures var first := BeforeRound(pr, Int(1), CallThenSet(m, b), s, fuel, 0);
            var second := BeforeRound(pr, Int(1), CallThenSet(m, b), s, fuel, 1);
            && first.Some? && Right({0}, map[0 := a], first.value.env)
            && Get(second.value.env, 0) == Object(b, Nil) && (Right({0}, map[0 := a], second.value.env) <==> a == b)
            && (Found(ds, lk, a, m) == Loaded(ds, lk, b, m) <==> Found(ds, lk, a, m) == Found(ds, lk, b, m))
  {
    var f := map[0 := a];
    RoundOf(pr, m, b, s, fuel);
    LoadedIsFound(ds, lk, b, m, iface);
    assert Eval(pr, Int(1), s, fuel) == Out(Normal(Num(1)), s);
    hide EvalBlock, Loaded, Found, CallThenSet;
    var s1 := EvalBlock(pr, CallThenSet(m, b), s, fuel).s;
    assert BeforeRound(pr, Int(1), CallThenSet(m, b), s1, fuel - 1, 0) == Some(s1);
    assert 0 in f && f[0] == a;
  }

  /** `fn m(self) { effect op }`. */
  predicate DoesOp(pr: Program, d: DefId, op: nat)
  {
    d in pr.funcs && pr.funcs[d] == Func([9], Tail(Prim(op, ENil)), {}) && pr.prim(op, []).Some?
  }

  lemma OpCall(pr: Program, d: DefId, op: nat, v: Value, s: State, fuel: nat)
    requires DoesOp(pr, d, op) && fuel > 0
    ensures CallFn(pr, d, [v], s, fuel) == Out(Normal(Num(pr.prim(op, []).value)), s.(trace := s.trace + [Did(op, [])]))
  {
    var f := pr.funcs[d];
    var s1 := Enter(s, f, [v]);
    assert EvalArgs(pr, ENil, s1, fuel - 1) == Outs(Normal(Nil), [], s1);
    assert EvalBlock(pr, f.body, s1, fuel - 1)
           == Out(Normal(Num(pr.prim(op, []).value)), s1.(trace := s.trace + [Did(op, [])]));
  }

  lemma OpCallOn(pr: Program, d: DefId, op: nat, v: Value, s: State, fuel: nat)
    requires DoesOp(pr, d, op) && fuel > 1 && v.Object?
    ensures CallOn(pr, Some(d), v, ENil, s, fuel)
            == Out(Normal(Num(pr.prim(op, []).value)), s.(trace := s.trace + [Did(op, [])]))
  {
    assert EvalArgs(pr, ENil, s, fuel) == Outs(Normal(Nil), [], s);
    assert [v.data] + [] == [v.data];
    OpCall(pr, d, op, v.data, s, fuel - 1);
  }

  /** The second round is reached, and there the code does `A`'s effect where the program
      means `B`'s. */
  lemma SecondRoundDiffers(pr: Program, ds: V.Defs, lk: Linking, a: DefId, b: DefId, m: DefId, iface: DefId, opA: nat,
                           opB: nat, dA: DefId, dB: DefId, s: State, fuel: nat)
    requires Wired(pr, ds, lk) && Tabled(ds, lk, a, m, iface) && Tabled(ds, lk, b, m, iface)
    requires Plain(ds, lk, a, iface) && Plain(ds, lk, b, iface) && opA != opB
    requires Found(ds, lk, a, m) == Some(dA) && DoesOp(pr, dA, opA) && Found(ds, lk, b, m) == Some(dB)
             && DoesOp(pr, dB, opB)
    requires Get(s.env, 0) == Object(a, Nil) && fuel > 2
    ensures var second := BeforeRound(pr, Int(1), CallThenSet(m, b), s, fuel, 1);
            && second.Some?
            && GeneratedCall(pr, ds, lk, map[0 := a], m, 0, ENil, second.value, fuel - 1).s.trace
               == s.trace + [Did(opA, []), Did(opA, [])]
            && TableCall(pr, ds, lk, m, 0, ENil, second.value, fuel - 1).s.trace
               == s.trace + [Did(opA, []), Did(opB, [])]
  {
    LoadedIsFound(ds, lk, a, m, iface);
    LoadedIsFound(ds, lk, b, m, iface);
    VirtualIsTableCall(pr, ds, lk, m, 0, ENil, s, fuel);
    hide Loaded, Found, Wired, CallOn, Eval, EvalBlock, CallThenSet, BeforeRound;
    OpCallOn(pr, dA, opA, Get(s.env, 0), s, fuel);
    RoundOf(pr, m, b, s, fuel);
    var t := s.(trace := s.trace + [Did(opA, [])]);
    var s1 := t.(env := t.env[0 := Object(b, Nil)]);
    SecondRound(pr, CallThenSet(m, b), s, s1, fuel);
    OpCallOn(pr, dA, opA, Get(s1.env, 0), s1, fuel - 1);
    OpCallOn(pr, dB, opB, Get(s1.env, 0), s1, fuel - 1);
    var f := map[0 := a];
    assert 0 in f && f[0] == a;
  }

  // -- a closed program -------------------------------------------------------------------------------

  /** `interface I { m }`, `extend A: I { m }`, `extend B: I { m }`: definitions 0 to 7. */
  function TwoDefs(): V.Defs
  {
    V.Defs([V.Def(V.OtherKind, None, "I", false), V.Def(V.InterfaceMethod, Some(0), "m", false),
            V.Def(V.OtherKind, None, "extend", false), V.Def(V.ExtendMethod, Some(2), "m", false),
            V.Def(V.OtherKind, None, "extend", false), V.Def(V.ExtendMethod, Some(4), "m", false),
            V.Def(V.OtherKind, None, "A", false), V.Def(V.OtherKind, None, "B", false)],
           map[(6, 0) := 2, (7, 0) := 4])
  }

  /** Type numbers 0 and 1 are `A` and `B`; functions are numbered by their definition. */
  function TwoTypes(): Linking
  {
    Linking(ty => if ty == 0 then SC.Named(6, []) else if ty == 1 then SC.Named(7, []) else SC.NullTy,
            _ => map[],
            (i: Mangle.Instance) => i.def)
  }

  /** The method of `A` has effect 3 and that of `B` effect 5. */
  function TwoEffects(): Program
  {
    Program(map[3 := Func([9], Tail(Prim(3, ENil)), {}), 5 := Func([9], Tail(Prim(5, ENil)), {})],
            map[(0, 1) := 3, (1, 1) := 5], (_, _) => Some(0))
  }

  lemma TwoLookup()
    ensures V.FindImpl(TwoDefs(), 2, "m", 0) == Some(3) && V.FindImpl(TwoDefs(), 4, "m", 0) == Some(5)
    ensures V.Methods(TwoDefs(), 0, 8) == [1]
  {
    var ds := TwoDefs();
    assert V.FindImpl(ds, 2, "m", 3) == Some(3);
    assert V.FindImpl(ds, 2, "m", 1) == Some(3);
    assert V.FindImpl(ds, 4, "m", 5) == Some(5);
    assert V.FindImpl(ds, 4, "m", 3) == Some(5);
    assert V.FindImpl(ds, 4, "m", 1) == Some(5);
    assert V.Methods(ds, 0, 1) == [] && V.Methods(ds, 0, 2) == [1];
    assert V.Methods(ds, 0, 4) == [1];
    assert V.Methods(ds, 0, 6) == [1];
  }

  lemma TwoTables()
    ensures V.Table(TwoDefs(), map[], SC.Named(6, []), 0) == Some([Mangle.Instance(3, [])])
    ensures V.Table(TwoDefs(), map[], SC.Named(7, []), 0) == Some([Mangle.Instance(5, [])])
    ensures V.VtableSlot(TwoDefs(), 1) == Some(0)
  {
    var ds := TwoDefs();
    TwoLookup();
    assert V.Position([1], 1) == Some(0);
    hide V.FindImpl, V.Methods, V.Position;
    assert |ds.table| == 8 && V.NameOf(ds, 1) == "m";
    assert V.Table(ds, map[], SC.Named(6, []), 0).Some? && V.Table(ds, map[], SC.Named(7, []), 0).Some?;
    assert V.Table(ds, map[], SC.Named(6, []), 0).value == [Mangle.Instance(3, [])];
    assert V.Table(ds, map[], SC.Named(7, []), 0).value == [Mangle.Instance(5, [])];
  }

  /** The tables of the two types hold what the program says the methods are. */
  lemma TwoWired()
    ensures Wired(TwoEffects(), TwoDefs(), TwoTypes())
    ensures Loaded(TwoDefs(), TwoTypes(), 0, 1) == Some(3) && Loaded(TwoDefs(), TwoTypes(), 1, 1) == Some(5)
  {
    TwoTables();
    var ds, lk := TwoDefs(), TwoTypes();
    hide V.FindImpl, V.Methods, V.Position, V.VtableSlot;
    forall ty: DefId, m: DefId | m != 1 || ty > 1
      ensures Loaded(ds, lk, ty, m).None?
    {
      if m < 8 && ds.table[m].parent.Some? {
        assert m == 1 ==> ds.table[m].parent == Some(0);
        assert m != 1 ==> ds.table[m].parent.value != 0;
      }
    }
    hide V.Table, Loaded;
  }

  /** `while true { x.m(); x = B {} }` from `x = A {}`, in that program: the second round does
      effect 3 again where the program means effect 5. */
  lemma SecondRoundOfTwo(s: State)
    requires Get(s.env, 0) == Object(0, Nil)
    ensures var pr, ds, lk := TwoEffects(), TwoDefs(), TwoTypes();
            var second := BeforeRound(pr, Int(1), CallThenSet(1, 1), s, 3, 1);
            && second.Some?
            && GeneratedCall(pr, ds, lk, map[0 := 0], 1, 0, ENil, second.value, 2).s.trace
               == s.trace + [Did(3, []), Did(3, [])]
            && Eval(pr, Call(Virtual(1), ECons(Local(0), ENil)), second.value, 2).s.trace
               == s.trace + [Did(3, []), Did(5, [])]
  {
    var pr, ds, lk := TwoEffects(), TwoDefs(), TwoTypes();
    TwoWired();
    TwoTables();
    assert Tabled(ds, lk, 0, 1, 0) && Tabled(ds, lk, 1, 1, 0) && Plain(ds, lk, 0, 0) && Plain(ds, lk, 1, 0);
    LoadedIsFound(ds, lk, 0, 1, 0);
    LoadedIsFound(ds, lk, 1, 1, 0);
    assert DoesOp(pr, 3, 3) && DoesOp(pr, 5, 5);
    hide Loaded, Found, Tabled, Plain, Wired, DoesOp, TwoEffects, TwoDefs, TwoTypes;
    SecondRoundDiffers(pr, ds, lk, 0, 1, 1, 0, 3, 5, 3, 5, s, 3);
    hide BeforeRound, GeneratedCall;
    VirtualIsTableCall(pr, ds, lk, 1, 0, ENil, BeforeRound(pr, Int(1), CallThenSet(1, 1), s, 3, 1).value, 2);
  }

  lemma SecondRound(pr: Program, body: Block, s: State, s1: State, fuel: nat)
    requires fuel > 0 && EvalBlock(pr, body, s, fuel) == Out(Normal(Nil), s1)
    ensures BeforeRound(pr, Int(1), body, s, fuel, 1) == Some(s1)
  {
    hide EvalBlock;
    assert BeforeRound(pr, Int(1), body, s1, fuel - 1, 0) == Some(s1);
  }

  // -- facts after conditions ---------------------------------------------------------------------

  /** `if { x = B {}; true } { } else { }`: the condition is outside the kill set, so the
      fact that `x` holds an `A` outlives the assignment. It is right afterwards exactly if
      `B` is `A`, and a call `x.m()` made under it names the function the table holds
      exactly if `A` and `B` implement `m` by the same one. */
  lemma ConditionNotKilled(ifaces: set<LocalId>, pr: Program, ds: V.Defs, lk: Linking, a: DefId, b: DefId, m: DefId,
                           iface: DefId, s: State, fuel: nat)
    requires Get(s.env, 0) == Object(a, Nil) && Tabled(ds, lk, b, m, iface) && Plain(ds, lk, b, iface)
    ensures var e := If(BlockExpr(Then(SetTo(b), Tail(Int(1)))), Tail(Null), Null);
            var after := Eval(pr, e, s, fuel);
            && Right({0}, map[0 := a], s.env) && After(ifaces, e, map[0 := a]) == map[0 := a]
            && after.ctl.Normal? && Get(after.s.env, 0) == Object(b, Nil)
            && (Right({0}, map[0 := a], after.s.env) <==> a == b)
            && (Found(ds, lk, a, m) == Loaded(ds, lk, b, m) <==> Found(ds, lk, a, m) == Found(ds, lk, b, m))
  {
    LoadedIsFound(ds, lk, b, m, iface);
    hide Loaded, Found;
    var f := map[0 := a];
    var blk := Then(SetTo(b), Tail(Int(1)));
    var s1 := s.(env := s.env[0 := Object(b, Nil)]);
    Reassign(pr, b, s, fuel);
    assert EvalBlock(pr, Tail(Int(1)), s1, fuel) == Out(Normal(Num(1)), s1);
    assert EvalBlock(pr, blk, s, fuel) == Out(Normal(Num(1)), s1);
    assert Eval(pr, BlockExpr(blk), s, fuel) == Out(Normal(Num(1)), s1);
    assert EvalBlock(pr, Tail(Null), s1, fuel) == Out(Normal(Nil), s1);
    assert 0 in f && f[0] == a;
  }
}
