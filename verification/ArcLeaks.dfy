/**
 Programs that lose references, and one that does not.
 */
module ArcLeaks {
  import opened Hir
  import opened Arc
  import opened AsyncLayout
  import opened ArcExact

  /** `M { x: 3 }`, for a `@RefCounted` struct 0. */
  function Fresh(): Expr
  {
    Struct(0, ECons(Int(3), ENil))
  }

  lemma FreshEval(pr: Program, o: seq<LocalId>, st: State, fuel: nat)
    requires 0 in pr.counted
    ensures Eval(pr, Fresh(), o, st, fuel) == Out(Normal(Ref(|st.objs|)), st.(objs := st.objs + [Counted(1, [Num(3)])]))
  {
    assert EvalFields(pr, ENil, o, st, fuel) == Outs(Normal(Nil), [], st);
    assert EvalFields(pr, ECons(Int(3), ENil), o, st, fuel) == Outs(Normal(Nil), [Num(3)], st);
  }

  // -- a local ----------------------------------------------------------------------------------

  /** `fn f() { let x = M { x: 3 }; 0 }`. */
  function OneLocal(): Func
  {
    Func([], Then(Let(Bind(1), Fresh()), Tail(Int(0))))
  }

  /** It is tidy, and the object is gone when the call returns. */
  lemma LocalIsFreed(pr: Program, d: DefId)
    requires 0 in pr.counted && d in pr.funcs && pr.funcs[d] == OneLocal()
    ensures TidyFunc(OneLocal())
    ensures CallFn(pr, d, [], State(map[], []), 1) == Out(Normal(Num(0)), State(map[], [Freed]))
  {
    OneIsTidy();
    var f, st0 := OneLocal(), State(map[], []);
    var st1 := State(map[1 := Ref(0)], [Counted(1, [Num(3)])]);
    BindsFresh(pr, f.body.s, [], st0, 0);
    assert EvalBlock(pr, f.body.rest, [1], st1, 0) == Out(Normal(Num(0)), st1);
    hide EvalStmt, TidyFunc;
    assert OwnStmt(f.body.s, []) == [1];
    assert EvalBlock(pr, f.body, [], st0, 0) == Out(Normal(Num(0)), st1);
    Given(st1);
    hide EvalBlock, Leave;
    assert OwnBlock(f.body, []) == [1] && Bindings(map[], [], []) == map[];
  }

  lemma OneIsTidy()
    ensures TidyFunc(OneLocal())
  {
    var f := OneLocal();
    FreshTidy({}, []);
    assert TidyStmt(f.body.s, {}, []) && TidyBlock(f.body.rest, {}, OwnStmt(f.body.s, []));
    assert TidyBlock(f.body, {}, []);
    assert Elems(f.params) == {};
  }

  lemma FreshTidy(b: set<LocalId>, o: seq<LocalId>)
    ensures Tidy(Fresh(), b, o) && Own(Fresh(), o) == o
  {
    assert TidyArgs(ENil, b, o, true) && OwnArgs(ENil, o) == o;
    assert TidyArgs(ECons(Int(3), ENil), b, o, true) && OwnArgs(ECons(Int(3), ENil), o) == o;
  }

  /** `let x = M { x: 3 }` where `x` is not listed. */
  lemma BindsFresh(pr: Program, s: Stmt, o: seq<LocalId>, st: State, fuel: nat)
    requires s == Let(Bind(1), Fresh()) && 1 !in o && 0 in pr.counted
    ensures EvalStmt(pr, s, o, st, fuel)
            == Out(Normal(Nil), State(st.env[1 := Ref(|st.objs|)], st.objs + [Counted(1, [Num(3)])]))
    ensures OwnStmt(s, o) == o + [1]
  {
    FreshEval(pr, o, st, fuel);
    FreshTidy({}, o);
    hide Eval, Own;
    assert PatLocals(Bind(1)) == [1] && [1][1..] == [];
  }

  lemma Given(st: State)
    requires st == State(map[1 := Ref(0)], [Counted(1, [Num(3)])])
    ensures Leave(false, Num(0), [1], st) == Out(Ret(Num(0)), State(map[], [Freed]))
  {
    var mid := [Freed];
    assert st.objs[0 := Freed] == mid;
    assert ReleaseAll(mid, []) == Some(mid);
    assert ReleaseAll(mid, [Num(3)]) == Some(mid);
    assert Release(st.objs, Ref(0)) == Some(mid);
    hide Release;
    assert ReleaseLocals([], st.(objs := mid)) == Some(mid);
    assert [1][..0] == [];
    assert ReleaseLocals([1], st) == Some(mid);
  }

  // -- a local bound in a loop -------------------------------------------------------------------

  /** `let d = 0; loop { let x = M { x: 3 }; if d { break }; d = 1 }; 0`. */
  function LoopLocal(): Func
  {
    Func([], Then(Let(Bind(2), Int(0)), Then(ExprStmt(Loop(Body())), Tail(Int(0)))))
  }

  function Body(): Block
  {
    Then(Let(Bind(1), Fresh()),
         Then(ExprStmt(If(Local(2), Tail(Break(Null)), Null)), Then(Assign(Local(2), Int(1)), Tail(Null))))
  }

  /** Binding `x` in the second round releases nothing, because the list that generation
      consults did not hold `x` yet: the first object stays behind with a count of one that
      nobody owns. */
  lemma LoopLocalLeaks(pr: Program, d: DefId)
    requires 0 in pr.counted && d in pr.funcs && pr.funcs[d] == LoopLocal()
    ensures CallFn(pr, d, [], State(map[], []), 3)
            == Out(Normal(Num(0)), State(map[], [Counted(1, [Num(3)]), Freed]))
  {
    var f, body := LoopLocal(), LoopLocal().body;
    var one := Counted(1, [Num(3)]);
    var st1, st2 := State(map[2 := Num(0)], []), State(map[2 := Num(1), 1 := Ref(1)], [one, one]);
    assert EvalStmt(pr, body.s, [], State(map[], []), 2) == Out(Normal(Nil), st1);
    LoopRuns(pr, st1, st2);
    LoopLists();
    hide Body;
    assert EvalStmt(pr, body.rest.s, [2], st1, 2) == Out(Normal(Nil), st2);
    assert EvalBlock(pr, body.rest.rest, [2, 1], st2, 2) == Out(Normal(Num(0)), st2);
    hide EvalStmt, Eval;
    assert EvalBlock(pr, body.rest, [2], st1, 2) == Out(Normal(Num(0)), st2);
    assert EvalBlock(pr, body, [], State(map[], []), 2) == Out(Normal(Num(0)), st2);
    LastGiven(st2);
    hide EvalBlock, Leave;
    assert Bindings(map[], [], []) == map[];
  }

  lemma LoopLists()
    ensures OwnStmt(LoopLocal().body.s, []) == [2] && OwnStmt(LoopLocal().body.rest.s, [2]) == [2, 1]
    ensures OwnBlock(LoopLocal().body, []) == [2, 1]
  {
    hide Body;
    var body := LoopLocal().body;
    FlagListed();
    BodyListed();
    hide OwnStmt;
    assert OwnBlock(body.rest.rest, [2, 1]) == [2, 1];
    assert OwnBlock(body.rest, [2]) == [2, 1];
  }

  lemma FlagListed()
    ensures OwnStmt(Let(Bind(2), Int(0)), []) == [2]
  {
    assert PatLocals(Bind(2)) == [2] && [2][1..] == [] && [] + [2] == [2];
  }

  lemma BodyListed()
    ensures OwnStmt(ExprStmt(Loop(Body())), [2]) == [2, 1]
  {
    BodyLists([2]);
    LoopOwns(Body(), [2]);
    hide *;
    assert [2] + [1] == [2, 1];
  }

  lemma LoopOwns(b: Block, o: seq<LocalId>)
    ensures OwnStmt(ExprStmt(Loop(b)), o) == OwnBlock(b, o)
  {
    hide OwnBlock;
  }

  /** The list at the end of the body. */
  lemma BodyLists(o: seq<LocalId>)
    requires 1 !in o
    ensures OwnBlock(Body(), o) == o + [1]
  {
  }

  lemma LoopRuns(pr: Program, st1: State, st2: State)
    requires 0 in pr.counted && st1 == State(map[2 := Num(0)], [])
    requires st2 == State(map[2 := Num(1), 1 := Ref(1)], [Counted(1, [Num(3)]), Counted(1, [Num(3)])])
    ensures Eval(pr, Loop(Body()), [2], st1, 2) == Out(Normal(Nil), st2)
  {
    hide EvalBlock, Body;
    var mid := State(map[2 := Num(1), 1 := Ref(0)], [Counted(1, [Num(3)])]);
    Round(pr, st1, 2);
    Round(pr, mid, 1);
    assert st1.env[1 := Ref(0)][2 := Num(1)] == mid.env && mid.env[1 := Ref(1)] == st2.env;
    assert st1.objs + [Counted(1, [Num(3)])] == mid.objs && mid.objs + [Counted(1, [Num(3)])] == st2.objs;
    assert Eval(pr, Loop(Body()), [2], mid, 1) == Out(Normal(Nil), st2);
  }

  /** One round: an object is made, and the first time the flag is set. */
  lemma Round(pr: Program, st: State, fuel: nat)
    requires 0 in pr.counted && 2 in st.env && (st.env[2] == Num(0) || st.env[2] == Num(1))
    ensures var st' := State(st.env[1 := Ref(|st.objs|)], st.objs + [Counted(1, [Num(3)])]);
            EvalBlock(pr, Body(), [2], st, fuel)
            == if st.env[2] == Num(1) then Out(Brk(Nil), st')
               else Out(Normal(Nil), st'.(env := st'.env[2 := Num(1)]))
  {
    var b, st' := Body(), State(st.env[1 := Ref(|st.objs|)], st.objs + [Counted(1, [Num(3)])]);
    var test, put := b.rest.s, b.rest.rest.s;
    BindsFresh(pr, b.s, [2], st, fuel);
    Tests(pr, test, st', fuel);
    assert [2] + [1] == [2, 1];
    hide EvalStmt, Fresh;
    if st.env[2] == Num(1) {
      assert EvalBlock(pr, b.rest, [2, 1], st', fuel) == Out(Brk(Nil), st');
    } else {
      Sets(pr, put, st', fuel);
      var st2 := st'.(env := st'.env[2 := Num(1)]);
      assert EvalBlock(pr, Tail(Null), [2, 1], st2, fuel) == Out(Normal(Nil), st2);
      assert EvalBlock(pr, b.rest.rest, [2, 1], st', fuel) == Out(Normal(Nil), st2);
      assert EvalBlock(pr, b.rest, [2, 1], st', fuel) == Out(Normal(Nil), st2);
    }
  }

  lemma Tests(pr: Program, s: Stmt, st: State, fuel: nat)
    requires s == ExprStmt(If(Local(2), Tail(Break(Null)), Null))
    requires Get(st.env, 2) == Num(0) || Get(st.env, 2) == Num(1)
    ensures EvalStmt(pr, s, [2, 1], st, fuel) == Out(if Get(st.env, 2) == Num(1) then Brk(Nil) else Normal(Nil), st)
    ensures OwnStmt(s, [2, 1]) == [2, 1]
  {
    assert Eval(pr, Local(2), [2, 1], st, fuel) == Out(Normal(Get(st.env, 2)), st);
    assert Eval(pr, Break(Null), [2, 1], st, fuel) == Out(Brk(Nil), st);
    assert EvalBlock(pr, Tail(Break(Null)), [2, 1], st, fuel) == Out(Brk(Nil), st);
  }

  lemma Sets(pr: Program, s: Stmt, st: State, fuel: nat)
    requires s == Assign(Local(2), Int(1)) && !Get(st.env, 2).Ref?
    ensures EvalStmt(pr, s, [2, 1], st, fuel) == Out(Normal(Nil), st.(env := st.env[2 := Num(1)]))
    ensures OwnStmt(s, [2, 1]) == [2, 1]
  {
    assert Eval(pr, Int(1), [2, 1], st, fuel) == Out(Normal(Num(1)), st);
  }

  lemma LastGiven(st: State)
    requires st == State(map[2 := Num(1), 1 := Ref(1)], [Counted(1, [Num(3)]), Counted(1, [Num(3)])])
    ensures Leave(false, Num(0), [2, 1], st) == Out(Ret(Num(0)), State(map[], [Counted(1, [Num(3)]), Freed]))
  {
    var mid := [Counted(1, [Num(3)]), Freed];
    assert st.objs[1 := Freed] == mid;
    assert ReleaseAll(mid, []) == Some(mid);
    assert ReleaseAll(mid, [Num(3)]) == Some(mid);
    assert Release(st.objs, Ref(1)) == Some(mid);
    hide Release;
    var st' := st.(objs := mid);
    assert Release(mid, Num(1)) == Some(mid);
    assert ReleaseLocals([], st') == Some(mid);
    assert [2, 1][..1] == [2] && [2][..0] == [];
    assert ReleaseLocals([2], st') == Some(mid);
    assert ReleaseLocals([2, 1], st) == Some(mid);
  }
}
