/**
 Programs just outside the safe fragment, whose runs touch a freed object.
 */
module ArcUnsafe {
  import opened Hir
  import opened AsyncLayout
  import opened Arc
  import opened ArcGuards
  import opened ArcFragment

  // -- a borrowed value before a receiver that releases ------------------------------------------------

  /** `fn clear(y: N): N { y.f = M { x: 0 }; y }`, for `@RefCounted` structs `M { x }` (0)
      and `N { f: M }` (1). */
  function Clear(): Func
  {
    Func([0], Then(Assign(Field(Local(0), 0), Fresh()), Tail(Local(0))))
  }

  function Fresh(): Expr
  {
    Struct(0, ECons(Int(0), ENil))
  }

  /** `let y = N { f: M { x: 0 } }; clear(y).f = y.f`: the borrowed `y.f` is read first, the
      call frees it, and then it is retained. */
  function Nested(): Func
  {
    Func([], Then(Let(Bind(1), Struct(1, ECons(Fresh(), ENil))),
             Then(Assign(Field(Call(Direct(0), ECons(Local(1), ENil)), 0), Field(Local(1), 0)), Tail(Null))))
  }

  function Clearing(prim: (nat, seq<Value>) -> Option<int>): Program
  {
    Program(map[0 := Clear(), 1 := Nested()], {0, 1}, prim)
  }

  /** Arguments are locals, no parameter is assigned, every counted field always holds an
      object, and still a freed object is retained. Only the field store of `Nested` is
      outside the fragment. */
  lemma ReceiverCallIsUnsafe(prim: (nat, seq<Value>) -> Option<int>)
    ensures CallFn(Clearing(prim), 1, [], State(map[], []), 5).ctl == Bad
    ensures SafeFunc(Clear()) && !SafeFunc(Nested())
    ensures var s := Nested().body.rest.s;
            Safe(s.value, NoKeep(), []) && Safe(s.target.recv, NoKeep(), []) && !Storable(s.value, s.target.recv)
  {
    NestedFails(Clearing(prim));
    hide EvalBlock;
    assert Bindings(map[], [], []) == map[];
    ClearIsSafe();
    NestedIsNot();
  }

  function NoKeep(): Keep
  {
    Keep({}, {}, {})
  }

  lemma ClearIsSafe()
    ensures SafeFunc(Clear())
  {
    var f, k := Clear(), Keep({0}, {0}, {});
    assert Elems(f.params) == {0};
    assert SafeArgs(ENil, k, []);
    assert Safe(Fresh(), k, []);
    assert SafeStmt(f.body.s, k, []);
    assert SafeBlock(f.body, k, []);
  }

  lemma NestedIsNot()
    ensures !SafeFunc(Nested())
    ensures var s := Nested().body.rest.s;
            Safe(s.value, NoKeep(), []) && Safe(s.target.recv, NoKeep(), []) && !Storable(s.value, s.target.recv)
  {
    var b := Nested().body;
    var s := b.rest.s;
    assert !Storable(s.value, s.target.recv);
    forall k: Keep, o: seq<LocalId> ensures !SafeBlock(b.rest, k, o) && !SafeBlock(b, k, o) {
      assert !SafeStmt(s, k, o);
      assert !SafeBlock(b.rest, k, o);
    }
    assert AtomArgs(ENil, NoKeep());
  }

  lemma NestedFails(pr: Program)
    requires 0 in pr.funcs && pr.funcs[0] == Clear() && 0 in pr.counted && 1 in pr.counted
    ensures EvalBlock(pr, Nested().body, [], State(map[], []), 4).ctl == Bad
  {
    var b := Nested().body;
    var st0, st1 := State(map[], []), State(map[1 := Ref(1)], Before());
    BuildNested(pr, st0);
    StoreAfterClear(pr, b.rest.s, st1);
    assert EvalStmt(pr, b.s, [], st0, 4) == Out(Normal(Nil), st1) by {
      hide Eval, Own;
    }
    hide EvalStmt;
    assert OwnStmt(b.s, []) == [1];
    assert EvalBlock(pr, b.rest, [1], st1, 4).ctl == Bad;
  }

  /** The memory before and after the call of `clear`. */
  function Before(): seq<Obj>
  {
    [Counted(1, [Num(0)]), Counted(1, [Ref(0)])]
  }

  function Cleared(count: nat): seq<Obj>
  {
    [Freed, Counted(count, [Ref(2)]), Counted(1, [Num(0)])]
  }

  lemma StoreAfterClear(pr: Program, s: Stmt, st1: State)
    requires 0 in pr.funcs && pr.funcs[0] == Clear() && 0 in pr.counted && st1 == State(map[1 := Ref(1)], Before())
    requires s == Assign(Field(Call(Direct(0), ECons(Local(1), ENil)), 0), Field(Local(1), 0))
    ensures EvalStmt(pr, s, [1], st1, 4).ctl == Bad
  {
    hide CallFn, Release;
    var y, st2 := Ref(1), State(map[1 := Ref(1)], Cleared(2));
    assert Eval(pr, Local(1), [1], st1, 4) == Out(Normal(y), st1);
    assert Eval(pr, s.value, [1], st1, 4) == Out(Normal(Ref(0)), st1);
    ClearCall(pr, s.target.recv, st1, st2);
    assert StoreField(y, 0, Ref(0), false, st2).ctl == Bad;
    hide StoreField, Eval;
    assert EvalStore(pr, s.target, Ref(0), false, [1], st1, 4).ctl == Bad;
  }

  lemma ClearCall(pr: Program, e: Expr, st1: State, st2: State)
    requires 0 in pr.funcs && pr.funcs[0] == Clear() && 0 in pr.counted && Get(st1.env, 1) == Ref(1)
             && st1.objs == Before()
    requires st2 == st1.(objs := Cleared(2)) && e == Call(Direct(0), ECons(Local(1), ENil))
    ensures Eval(pr, e, [1], st1, 4) == Out(Normal(Ref(1)), st2)
  {
    ClearFrees(pr, st1);
    hide CallFn;
    assert EvalArgs(pr, ENil, [1], st1, 4) == Outs(Normal(Nil), [], st1);
    assert EvalArgs(pr, e.args, [1], st1, 4) == Outs(Normal(Nil), [Ref(1)], st1);
  }

  lemma FreshEval(pr: Program, o: seq<LocalId>, st: State, fuel: nat)
    requires 0 in pr.counted
    ensures Eval(pr, Fresh(), o, st, fuel) == Out(Normal(Ref(|st.objs|)), st.(objs := st.objs + [Counted(1, [Num(0)])]))
  {
    assert EvalFields(pr, ENil, o, st, fuel) == Outs(Normal(Nil), [], st);
    assert EvalFields(pr, ECons(Int(0), ENil), o, st, fuel) == Outs(Normal(Nil), [Num(0)], st);
  }

  lemma BuildNested(pr: Program, st: State)
    requires 0 in pr.counted && 1 in pr.counted && st == State(map[], [])
    ensures Eval(pr, Struct(1, ECons(Fresh(), ENil)), [], st, 4) == Out(Normal(Ref(1)), State(map[], Before()))
  {
    FreshEval(pr, [], st, 4);
    var st1 := State(map[], [Counted(1, [Num(0)])]);
    assert EvalFields(pr, ENil, Own(Fresh(), []), st1, 4) == Outs(Normal(Nil), [], st1);
    assert EvalFields(pr, ECons(Fresh(), ENil), [], st, 4) == Outs(Normal(Nil), [Ref(0)], st1);
  }

  lemma ClearFrees(pr: Program, st: State)
    requires 0 in pr.funcs && pr.funcs[0] == Clear() && 0 in pr.counted && st.objs == Before()
    ensures CallFn(pr, 0, [Ref(1)], st, 3) == Out(Normal(Ref(1)), st.(objs := Cleared(2)))
  {
    var env := map[0 := Ref(1)];
    assert Bindings(map[], [0], [Ref(1)]) == env by {
      assert Bindings(env, [], []) == env;
    }
    ClearBody(pr, State(env, st.objs), State(env, Cleared(1)));
    ClearLeaves(State(env, Cleared(1)));
    hide EvalBlock, Leave, Bindings, Before, Cleared, OwnBlock;
  }

  lemma ClearBody(pr: Program, st1: State, st2: State)
    requires 0 in pr.counted && st1 == State(map[0 := Ref(1)], Before()) && st2 == State(map[0 := Ref(1)], Cleared(1))
    ensures EvalBlock(pr, Clear().body, [], st1, 2) == Out(Normal(Ref(1)), st2)
    ensures OwnBlock(Clear().body, []) == []
  {
    var body := Clear().body;
    ClearStore(pr, st1, st2);
    hide EvalStmt;
    assert EvalBlock(pr, body.rest, OwnStmt(body.s, []), st2, 2) == Out(Normal(Ref(1)), st2);
  }

  lemma ClearLeaves(st: State)
    requires st == State(map[0 := Ref(1)], Cleared(1))
    ensures Leave(false, Ref(1), [], st) == Out(Ret(Ref(1)), State(map[], Cleared(2)))
  {
    assert Retain(st.objs, Ref(1)) == Some(Cleared(2)) by {
      assert st.objs[1 := Counted(2, [Ref(2)])] == Cleared(2);
    }
  }

  lemma ClearStore(pr: Program, st1: State, st2: State)
    requires 0 in pr.counted && st1 == State(map[0 := Ref(1)], Before()) && st2 == State(map[0 := Ref(1)], Cleared(1))
    ensures EvalStmt(pr, Clear().body.s, [], st1, 2) == Out(Normal(Nil), st2)
  {
    var s, built := Clear().body.s, Before() + [Counted(1, [Num(0)])];
    var mid := [Freed, Counted(1, [Ref(0)]), Counted(1, [Num(0)])];
    FreshEval(pr, [], st1, 2);
    assert ReleaseAll(mid, [Num(0)]) == Some(mid) by {
      assert ReleaseAll(mid, []) == Some(mid);
    }
    assert Release(built, Ref(0)) == Some(mid) by {
      assert built[0 := Freed] == mid;
    }
    hide Release, ReleaseAll;
    assert [Ref(0)][0 := Ref(2)] == [Ref(2)];
    assert mid[1 := Counted(1, [Ref(2)])] == st2.objs;
    assert StoreField(Ref(1), 0, Ref(2), true, st1.(objs := built)) == Out(Normal(Nil), st2);
    hide StoreField;
    assert Eval(pr, Local(0), [], st1.(objs := built), 2) == Out(Normal(Ref(1)), st1.(objs := built));
    assert EvalStore(pr, s.target, Ref(2), true, Own(Fresh(), []), st1.(objs := built), 2) == Out(Normal(Nil), st2);
  }

  // -- arms that bind the scrutinee ----------------------------------------------------------------------

  /** `N { f: M { x: 0 } }`. */
  function Pair(): Expr
  {
    Struct(1, ECons(Fresh(), ENil))
  }

  /** `let y = N { f: M { x: 0 } }; match sc { z => body }`, for `y` 1 and `z` 2. */
  function Arms2(sc: Expr, body: Block): Func
  {
    Func([], Then(Let(Bind(1), Pair()), Tail(Match(sc, Arm(Bind(2), Int(1), BlockExpr(body), NoArms)))))
  }

  /** `match y { z => { z = N { .. }; y.f } }`: the arm's local never took a reference, but
      assigning it gives one back. */
  function AssignsArm(): Func
  {
    Arms2(Local(1), Then(Assign(Local(2), Pair()), Tail(Field(Local(1), 0))))
  }

  /** `match y.f { z => { clear(y); z.x } }`: nobody keeps what the arm borrowed. */
  function ReleasesUnderArm(): Func
  {
    Arms2(Field(Local(1), 0), Then(ExprStmt(Call(Direct(0), ECons(Local(1), ENil))), Tail(Field(Local(2), 0))))
  }

  /** Both read a freed object, though arguments are locals and no parameter is assigned. */
  lemma ArmBorrowIsUnsafe(pr: Program, d: DefId)
    requires 0 in pr.funcs && pr.funcs[0] == Clear() && 0 in pr.counted && 1 in pr.counted
    requires d in pr.funcs && (pr.funcs[d] == AssignsArm() || pr.funcs[d] == ReleasesUnderArm())
    ensures CallFn(pr, d, [], State(map[], []), 5).ctl == Bad
  {
    hide *;
    if pr.funcs[d] == AssignsArm() {
      AssignsArmBad(pr, d);
    } else {
      ReleasesBad(pr, d);
    }
  }

  lemma AssignsArmBad(pr: Program, d: DefId)
    requires 0 in pr.counted && 1 in pr.counted && d in pr.funcs && pr.funcs[d] == AssignsArm()
    ensures CallFn(pr, d, [], State(map[], []), 5).ctl == Bad
  {
    hide EvalBlock, CallFn;
    var m, st1 := AssignsArm().body.rest.e, State(map[1 := Ref(1)], Before());
    AssignsArmFails(pr, m.arms.arm.block, st1.(env := st1.env[2 := Ref(1)]));
    assert Eval(pr, m.scrut, [1], st1, 4) == Out(Normal(Ref(1)), st1);
    hide Eval;
    MatchFails(pr, m, Ref(1), st1);
    ArmsFail(pr, d, m.scrut, m.arms.arm.block);
  }

  lemma ReleasesBad(pr: Program, d: DefId)
    requires 0 in pr.funcs && pr.funcs[0] == Clear() && 0 in pr.counted && 1 in pr.counted
    requires d in pr.funcs && pr.funcs[d] == ReleasesUnderArm()
    ensures CallFn(pr, d, [], State(map[], []), 5).ctl == Bad
  {
    hide EvalBlock, CallFn;
    var m, st1 := ReleasesUnderArm().body.rest.e, State(map[1 := Ref(1)], Before());
    ReleasesFails(pr, m.arms.arm.block, st1.(env := st1.env[2 := Ref(0)]));
    assert Eval(pr, Local(1), [1], st1, 4) == Out(Normal(Ref(1)), st1);
    assert Eval(pr, m.scrut, [1], st1, 4) == Out(Normal(Ref(0)), st1);
    hide Eval;
    MatchFails(pr, m, Ref(0), st1);
    ArmsFail(pr, d, m.scrut, m.arms.arm.block);
  }

  lemma ArmsFail(pr: Program, d: DefId, sc: Expr, body: Block)
    requires 0 in pr.counted && 1 in pr.counted && d in pr.funcs && pr.funcs[d] == Arms2(sc, body)
    requires Eval(pr, Arms2(sc, body).body.rest.e, [1], State(map[1 := Ref(1)], Before()), 4).ctl == Bad
    ensures CallFn(pr, d, [], State(map[], []), 5).ctl == Bad
  {
    hide Eval, Before, OwnBlock, OwnArms;
    var b, st0, st1 := Arms2(sc, body).body, State(map[], []), State(map[1 := Ref(1)], Before());
    BuildNested(pr, st0);
    assert EvalStmt(pr, b.s, [], st0, 4) == Out(Normal(Nil), st1);
    hide EvalStmt;
    assert OwnStmt(b.s, []) == [1] && Bindings(map[], [], []) == map[];
    assert EvalBlock(pr, b.rest, [1], st1, 4).ctl == Bad;
    assert EvalBlock(pr, b, [], st0, 4).ctl == Bad;
  }

  lemma MatchFails(pr: Program, m: Expr, v: Value, st: State)
    requires m.Match? && m.arms.Arm? && m.arms.pat == Bind(2) && m.arms.guard == Int(1) && m.arms.arm.BlockExpr?
             && Own(m.scrut, [1]) == [1]
    requires Eval(pr, m.scrut, [1], st, 4) == Out(Normal(v), st)
    requires EvalBlock(pr, m.arms.arm.block, [1], st.(env := st.env[2 := v]), 4).ctl == Bad
    ensures Eval(pr, m, [1], st, 4).ctl == Bad
  {
    var st1 := st.(env := st.env[2 := v]);
    assert Eval(pr, Int(1), [1], st1, 4) == Out(Normal(Num(1)), st1);
    assert Eval(pr, m.arms.arm, [1], st1, 4) == EvalBlock(pr, m.arms.arm.block, [1], st1, 4);
    hide EvalBlock;
    assert EvalArms(pr, m.arms, v, [1], st, 4).ctl == Bad;
  }

  /** The memory after the second pair is built, and after the first was freed. */
  function Both(): seq<Obj>
  {
    Before() + [Counted(1, [Num(0)]), Counted(1, [Ref(2)])]
  }

  lemma AssignsArmFails(pr: Program, b: Block, st: State)
    requires 0 in pr.counted && 1 in pr.counted && b == AssignsArm().body.rest.e.arms.arm.block
    requires st == State(map[1 := Ref(1), 2 := Ref(1)], Before())
    ensures EvalBlock(pr, b, [1], st, 4).ctl == Bad
  {
    var st1 := st.(objs := Both());
    SecondPair(pr, st);
    var mid, end := Both()[1 := Freed], Both()[1 := Freed][0 := Freed];
    assert mid[0] == Counted(1, [Num(0)]);
    assert ReleaseAll(end, [Num(0)]) == Some(end) by {
      assert ReleaseAll(end, []) == Some(end);
    }
    assert Release(mid, Ref(0)) == Some(end);
    assert ReleaseAll(end, []) == Some(end);
    assert ReleaseAll(mid, [Ref(0)]) == Some(end);
    assert Release(Both(), Ref(1)) == Some(end);
    hide Release, ReleaseAll;
    var st2 := State(map[1 := Ref(1), 2 := Ref(3)], end);
    assert st.env[2 := Ref(3)] == st2.env;
    assert EvalStore(pr, Local(2), Ref(3), true, Own(Pair(), [1]), st1, 4) == Out(Normal(Nil), st2);
    assert EvalStmt(pr, b.s, [1], st, 4) == Out(Normal(Nil), st2) by {
      hide EvalStore, Eval;
    }
    hide EvalStmt;
    ReadsFreed(pr, 1, OwnStmt(b.s, [1]), st2);
    hide Eval;
    assert EvalBlock(pr, b.rest, OwnStmt(b.s, [1]), st2, 4).ctl == Bad;
  }

  lemma SecondPair(pr: Program, st: State)
    requires 0 in pr.counted && 1 in pr.counted && st.objs == Before()
    ensures Eval(pr, Pair(), [1], st, 4) == Out(Normal(Ref(3)), st.(objs := Both()))
  {
    FreshEval(pr, [1], st, 4);
    var st1 := st.(objs := st.objs + [Counted(1, [Num(0)])]);
    assert EvalFields(pr, ENil, Own(Fresh(), [1]), st1, 4) == Outs(Normal(Nil), [], st1);
    assert EvalFields(pr, ECons(Fresh(), ENil), [1], st, 4) == Outs(Normal(Nil), [Ref(2)], st1);
    assert st1.objs + [Counted(1, [Ref(2)])] == Both();
  }

  lemma ReleasesFails(pr: Program, b: Block, st: State)
    requires 0 in pr.funcs && pr.funcs[0] == Clear() && 0 in pr.counted
             && b == ReleasesUnderArm().body.rest.e.arms.arm.block
    requires st == State(map[1 := Ref(1), 2 := Ref(0)], Before())
    ensures EvalBlock(pr, b, [1], st, 4).ctl == Bad
  {
    var st3, o := st.(objs := Cleared(1)), OwnStmt(b.s, [1]);
    ClearAndDrop(pr, b.s, st);
    hide EvalStmt;
    ReadsFreed(pr, 2, o, st3);
    hide Eval;
    assert EvalBlock(pr, b.rest, o, st3, 4).ctl == Bad;
  }

  lemma ReadsFreed(pr: Program, x: LocalId, o: seq<LocalId>, st: State)
    requires Deref(st.objs, Get(st.env, x)) == Dangling
    ensures Eval(pr, Field(Local(x), 0), o, st, 4).ctl == Bad
  {
    assert Eval(pr, Local(x), o, st, 4) == Out(Normal(Get(st.env, x)), st);
  }

  lemma ClearAndDrop(pr: Program, s: Stmt, st: State)
    requires 0 in pr.funcs && pr.funcs[0] == Clear() && 0 in pr.counted && Get(st.env, 1) == Ref(1)
             && st.objs == Before()
    requires s == ExprStmt(Call(Direct(0), ECons(Local(1), ENil)))
    ensures EvalStmt(pr, s, [1], st, 4) == Out(Normal(Nil), st.(objs := Cleared(1)))
  {
    hide Eval, Release, Before, Cleared, Clear;
    ClearCall(pr, s.e, st, st.(objs := Cleared(2)));
    ClearedOnce();
  }

  lemma ClearedOnce()
    ensures Release(Cleared(2), Ref(1)) == Some(Cleared(1))
  {
    assert Cleared(2)[1 := Counted(1, [Ref(2)])] == Cleared(1);
  }

  /** The first program assigns the arm's local, the second lets it outlive its owner. */
  lemma ArmsOutside()
    ensures !SafeFunc(AssignsArm()) && !SafeFunc(ReleasesUnderArm())
  {
    forall k: Keep, o: seq<LocalId>
      ensures !SafeBlock(AssignsArm().body, k, o) && !SafeBlock(ReleasesUnderArm().body, k, o)
    {
      AssignsArmOutside(k, o);
      ReleasesOutside(k, o);
    }
  }

  lemma AssignsArmOutside(k: Keep, o: seq<LocalId>)
    ensures !SafeBlock(AssignsArm().body, k, o)
  {
    var b := AssignsArm().body;
    var m, o1 := b.rest.e, OwnStmt(b.s, o);
    var arm := m.arms.arm;
    assert !GentleStmt(arm.block.s) && !GentleBlock(arm.block) && !Gentle(arm);
    hide Safe;
    forall k1: Keep, o2: seq<LocalId> | 2 in k1.borrowed
      ensures !Safe(arm, k1, o2)
    {
      AssigningArm(k1, o2);
    }
    assert !SafeArms(m.arms, m.scrut, k, Own(m.scrut, o1));
    NotSafe(b, k, o);
  }

  lemma AssigningArm(k: Keep, o: seq<LocalId>)
    requires 2 in k.borrowed
    ensures !Safe(AssignsArm().body.rest.e.arms.arm, k, o)
  {
    var b := AssignsArm().body.rest.e.arms.arm.block;
    assert !Free(2, k);
    assert !SafeStmt(b.s, k, o);
    assert !SafeBlock(b, k, o);
  }

  /** A block whose last expression is a match with unsafe arms is not safe. */
  lemma NotSafe(b: Block, k: Keep, o: seq<LocalId>)
    requires b.Then? && b.rest.Tail? && b.rest.e.Match?
    requires var m := b.rest.e; !SafeArms(m.arms, m.scrut, k, Own(m.scrut, OwnStmt(b.s, o)))
    ensures !SafeBlock(b, k, o)
  {
    hide SafeArms, SafeStmt;
    assert !Safe(b.rest.e, k, OwnStmt(b.s, o));
    assert !SafeBlock(b.rest, k, OwnStmt(b.s, o));
  }

  lemma ReleasesOutside(k: Keep, o: seq<LocalId>)
    ensures !SafeBlock(ReleasesUnderArm().body, k, o)
  {
    var b := ReleasesUnderArm().body;
    var m, o1 := b.rest.e, OwnStmt(b.s, o);
    var arm := m.arms.arm;
    assert !GentleStmt(arm.block.s) && !GentleBlock(arm.block) && !Gentle(arm);
    hide Safe;
    assert !SafeArms(m.arms, m.scrut, k, Own(m.scrut, o1));
    NotSafe(b, k, o);
  }

  /** `match y { z => { clear(y); z.x } }` and `match y.f { z => z.x }` are in the fragment: a
      local keeps what the first borrows, and the second releases nothing. */
  lemma ArmsInside()
    ensures SafeFunc(Arms2(Local(1), ReleasesUnderArm().body.rest.e.arms.arm.block))
    ensures SafeFunc(Arms2(Field(Local(1), 0), Tail(Field(Local(2), 0))))
  {
    PairSafe();
    var k, o := Keep({2}, {}, {}), OwnStmt(Let(Bind(1), Pair()), []);
    LentArm(o);
    hide Safe, SafeArms, Arms2;
    InsideFunc(Local(1), ReleasesUnderArm().body.rest.e.arms.arm.block, k, o);
    GentleArm(o);
    InsideFunc(Field(Local(1), 0), Tail(Field(Local(2), 0)), k, o);
  }

  lemma PairSafe()
    ensures Safe(Pair(), Keep({2}, {}, {}), [])
  {
    var k := Keep({2}, {}, {});
    assert SafeArgs(ENil, k, Own(Fresh(), [])) && SafeArgs(ENil, k, []);
    assert Safe(Fresh(), k, []);
    assert SafeArgs(ECons(Fresh(), ENil), k, []);
  }

  lemma LentArm(o: seq<LocalId>)
    ensures SafeArms(Arm(Bind(2), Int(1), BlockExpr(ReleasesUnderArm().body.rest.e.arms.arm.block), NoArms), Local(1),
                     Keep({2}, {}, {}), o)
  {
    var k, k1, body := Keep({2}, {}, {}), Keep({2}, {2}, {1}), ReleasesUnderArm().body.rest.e.arms.arm.block;
    var arms := Arm(Bind(2), Int(1), BlockExpr(body), NoArms);
    assert AtomArgs(ENil, k1) && AtomArgs(ECons(Local(1), ENil), k1);
    assert SafeStmt(body.s, k1, o);
    assert Safe(Local(2), k1, OwnStmt(body.s, o)) && Safe(Field(Local(2), 0), k1, OwnStmt(body.s, o));
    assert SafeBlock(body.rest, k1, OwnStmt(body.s, o));
    assert SafeBlock(body, k1, o);
    assert Own(Int(1), o) == o && Safe(BlockExpr(body), k1, o);
    assert Hold(Lend(k, 1), 2) == k1;
    assert SafeBoth(arms, k1, o);
  }

  lemma GentleArm(o: seq<LocalId>)
    ensures SafeArms(Arm(Bind(2), Int(1), BlockExpr(Tail(Field(Local(2), 0))), NoArms), Field(Local(1), 0),
                     Keep({2}, {}, {}), o)
  {
    var k, k2, body := Keep({2}, {}, {}), Keep({2}, {2}, {}), Tail(Field(Local(2), 0));
    var arms := Arm(Bind(2), Int(1), BlockExpr(body), NoArms);
    assert Safe(Local(2), k2, o) && Safe(Field(Local(2), 0), k2, o) && SafeBlock(body, k2, o);
    assert Hold(k, 2) == k2;
    assert SafeBoth(arms, k2, o);
    assert Gentle(Local(2)) && Gentle(Field(Local(2), 0)) && GentleBlock(body) && Gentle(BlockExpr(body));
  }

  lemma ScrutSafe(sc: Expr, k: Keep, o: seq<LocalId>)
    requires 1 !in k.borrowed && (sc == Local(1) || sc == Field(Local(1), 0))
    ensures Safe(sc, k, o) && Own(sc, o) == o
  {
    assert Own(Local(1), o) == o && Safe(Local(1), k, o);
  }

  lemma InsideFunc(sc: Expr, body: Block, k: Keep, o: seq<LocalId>)
    requires k == Keep({2}, {}, {}) && o == OwnStmt(Let(Bind(1), Pair()), []) && Safe(Pair(), k, [])
    requires sc == Local(1) || sc == Field(Local(1), 0)
    requires SafeArms(Arm(Bind(2), Int(1), BlockExpr(body), NoArms), sc, k, o)
    ensures SafeFunc(Arms2(sc, body))
  {
    hide SafeArms, Pair, OwnStmt;
    var f := Arms2(sc, body);
    ScrutSafe(sc, k, o);
    hide Own;
    assert Safe(f.body.rest.e, k, o);
    assert SafeBlock(f.body.rest, k, o);
    assert SafeStmt(f.body.s, k, []);
    assert SafeBlock(f.body, k, []);
    assert Elems(f.params) == {};
  }
}
