/**
 Runs in which nothing leaks: in tidy code every strong count is the number of owners at
 every point, so an object is freed as soon as nobody owns it.
 */
module ArcExact {
  import opened Hir
  import opened Scan
  import opened AsyncLayout
  import opened Arc
  import opened ArcLedger
  import opened ArcFragment
  import opened ArcInv
  import opened ArcBalance
  import opened ArcExits

  // -- tidy code --------------------------------------------------------------------------------

  /** Code that loses no reference: a value with a reference of its own stands only where
      code generation sees that it does, nothing leaves while such a value waits, locals are
      bound again only where they are listed already, and loops list no new local. `b` are
      the locals that borrow. */
  predicate Tidy(e: Expr, b: set<LocalId>, o: seq<LocalId>)
    decreases e, 0
  {
    match e
    case Int(_) => true
    case Null => true
    case Local(_) => true
    case Continue => true
    case Prim(_, args) => TidyArgs(args, b, o, false)
    case Logic(_, l, r) => Borrows(l, b, o) && Borrows(r, b, Own(l, o))
    case Call(c, args) => c.Direct? && TidyArgs(args, b, o, false)
    case Struct(_, fields) => TidyArgs(fields, b, o, true)
    case Field(recv, _) => Borrows(recv, b, o)
    case Append(l, i) => Borrows(l, b, o) && Borrows(i, b, Own(l, o))
    case If(c, t, f) =>
      && Borrows(c, b, o) && BorrowsBlock(t, b, Own(c, o))
      && Borrows(f, b, OwnBlock(t, Own(c, o)))
    case Match(sc, arms) => Borrows(sc, b, o) && TidyArms(arms, b, Own(sc, o))
    case BlockExpr(blk) => BorrowsBlock(blk, b, o)
    case Loop(blk) => BorrowsBlock(blk, b, o) && OwnBlock(blk, o) == o
    case While(c, blk) => Borrows(c, b, o) && Own(c, o) == o && BorrowsBlock(blk, b, o) && OwnBlock(blk, o) == o
    case For(pat, iter, _, blk, d) =>
      && d.ListFast? && Borrows(iter, b, o) && TidyPat(pat, b)
      && PushAll(Own(iter, o), PatLocals(pat)) == Own(iter, o)
      && BorrowsBlock(blk, b, Own(iter, o)) && OwnBlock(blk, Own(iter, o)) == Own(iter, o)
    case Return(v) => Tidy(v, b, o)
    case Break(v) => Borrows(v, b, o)
    case _ => false
  }

  /** Tidy, and the value is a borrow. */
  predicate Borrows(e: Expr, b: set<LocalId>, o: seq<LocalId>)
    decreases e, 1
  {
    !Owned(e) && Tidy(e, b, o)
  }

  predicate TidyArgs(es: Exprs, b: set<LocalId>, o: seq<LocalId>, taken: bool)
    decreases es, 0
  {
    es.ECons? ==>
      && (if taken then CompletesArgs(es.tail) else !Owned(es.head))
      && Tidy(es.head, b, o) && TidyArgs(es.tail, b, Own(es.head, o), taken)
  }

  predicate TidyArms(arms: Arms, b: set<LocalId>, o: seq<LocalId>)
    decreases arms, 0
  {
    arms.Arm? ==>
      var o1 := ArmOwn(arms.pat, o);
      var o2 := Own(arms.guard, o1);
      && (if arms.pat.Bind? then arms.pat.local in b else !arms.pat.TypeTest? && TidyPat(arms.pat, b))
      && Borrows(arms.guard, b, o1) && Borrows(arms.arm, b, o2) && TidyArms(arms.rest, b, Own(arms.arm, o2))
  }

  predicate TidyPat(pat: Pattern, b: set<LocalId>)
  {
    forall x <- PatLocals(pat) :: x !in b
  }

  predicate TidyStmt(st: Stmt, b: set<LocalId>, o: seq<LocalId>)
    decreases st, 0
  {
    match st
    case Let(pat, init) => Tidy(init, b, o) && TidyPat(pat, b) && (pat.Bind? || !Owned(init))
    case Assign(Local(x), v) => Tidy(v, b, o) && x !in b && x in Own(v, o)
    case Assign(Field(recv, _), v) => Tidy(v, b, o) && Borrows(recv, b, Own(v, o)) && (Owned(v) ==> Completes(recv))
    case Assign(Null, v) => Borrows(v, b, o)
    case Assign(_, _) => false
    case ExprStmt(e) => Tidy(e, b, o)
  }

  predicate TidyBlock(blk: Block, b: set<LocalId>, o: seq<LocalId>)
    decreases blk, 0
  {
    match blk
    case Tail(e) => Tidy(e, b, o)
    case Then(st, rest) => TidyStmt(st, b, o) && (TermStmt(st) || TidyBlock(rest, b, OwnStmt(st, o)))
  }

  predicate BorrowsBlock(blk: Block, b: set<LocalId>, o: seq<LocalId>)
    decreases blk, 1
  {
    !Owned(LastOf(blk)) && TidyBlock(blk, b, o)
  }

  /** For some choice of the locals that borrow. */
  ghost predicate TidyFunc(f: Func)
  {
    exists b: set<LocalId> :: Elems(f.params) <= b && TidyBlock(f.body, b, [])
  }

  ghost predicate TidyProgram(pr: Program)
  {
    forall d <- pr.funcs :: TidyFunc(pr.funcs[d])
  }

  // -- the owned-locals list --------------------------------------------------------------------

  /** The list goes from `o` to `o'`. */
  predicate Grows(o: seq<LocalId>, o': seq<LocalId>, b: set<LocalId>)
  {
    ListOk(o', b) && forall x <- o :: x in o'
  }

  lemma GrowsTrans(o: seq<LocalId>, o1: seq<LocalId>, o2: seq<LocalId>, b: set<LocalId>)
    requires Grows(o, o1, b) && Grows(o1, o2, b)
    ensures Grows(o, o2, b)
  {
  }

  lemma PushGrows(o: seq<LocalId>, xs: seq<LocalId>, b: set<LocalId>)
    requires ListOk(o, b) && forall x <- xs :: x !in b
    ensures Grows(o, PushAll(o, xs), b)
  {
    PushAllOk(o, xs, b);
    PushAllExtends(o, xs);
    forall x <- o
      ensures x in PushAll(o, xs)
    {
      assert x in Elems(o) + Elems(xs);
    }
  }

  lemma {:induction false} OwnGrows(e: Expr, b: set<LocalId>, o: seq<LocalId>)
    requires Tidy(e, b, o) && ListOk(o, b)
    ensures Grows(o, Own(e, o), b)
    decreases e
  {
    hide ListOk;
    match e
    case Prim(_, args) => ArgsGrow(args, b, o, false);
    case Call(_, args) => ArgsGrow(args, b, o, false);
    case Struct(_, fields) => ArgsGrow(fields, b, o, true);
    case Logic(_, l, r) =>
      OwnGrows(l, b, o);
      OwnGrows(r, b, Own(l, o));
      GrowsTrans(o, Own(l, o), Own(e, o), b);
    case Field(recv, _) => OwnGrows(recv, b, o);
    case Append(l, i) =>
      OwnGrows(l, b, o);
      OwnGrows(i, b, Own(l, o));
      GrowsTrans(o, Own(l, o), Own(e, o), b);
    case If(c, t, f) =>
      var o1, o2 := Own(c, o), OwnBlock(t, Own(c, o));
      OwnGrows(c, b, o);
      BlockGrows(t, b, o1);
      OwnGrows(f, b, o2);
      GrowsTrans(o, o1, o2, b);
      GrowsTrans(o, o2, Own(e, o), b);
    case Match(sc, arms) =>
      OwnGrows(sc, b, o);
      ArmsGrow(arms, b, Own(sc, o));
      GrowsTrans(o, Own(sc, o), Own(e, o), b);
    case BlockExpr(blk) => BlockGrows(blk, b, o);
    case For(_, iter, _, _, _) => OwnGrows(iter, b, o);
    case Return(v) => OwnGrows(v, b, o);
    case Break(v) => OwnGrows(v, b, o);
    case _ =>
  }

  lemma {:induction false} ArgsGrow(es: Exprs, b: set<LocalId>, o: seq<LocalId>, taken: bool)
    requires TidyArgs(es, b, o, taken) && ListOk(o, b)
    ensures Grows(o, OwnArgs(es, o), b)
    decreases es
  {
    hide ListOk;
    if es.ECons? {
      OwnGrows(es.head, b, o);
      ArgsGrow(es.tail, b, Own(es.head, o), taken);
      GrowsTrans(o, Own(es.head, o), OwnArgs(es, o), b);
    }
  }

  lemma ArmGrows(pat: Pattern, b: set<LocalId>, o: seq<LocalId>)
    requires ListOk(o, b) && (!pat.Bind? ==> TidyPat(pat, b))
    ensures Grows(o, ArmOwn(pat, o), b)
  {
    if pat.Record? {
      PushGrows(o, PatLocals(pat), b);
    }
  }

  lemma {:induction false} ArmsGrow(arms: Arms, b: set<LocalId>, o: seq<LocalId>)
    requires TidyArms(arms, b, o) && ListOk(o, b)
    ensures Grows(o, OwnArms(arms, o), b)
    decreases arms
  {
    hide ListOk;
    if arms.Arm? {
      var o1 := ArmOwn(arms.pat, o);
      var o2 := Own(arms.guard, o1);
      ArmGrows(arms.pat, b, o);
      OwnGrows(arms.guard, b, o1);
      OwnGrows(arms.arm, b, o2);
      ArmsGrow(arms.rest, b, Own(arms.arm, o2));
      GrowsTrans(o, o1, o2, b);
      GrowsTrans(o, o2, Own(arms.arm, o2), b);
      GrowsTrans(o, Own(arms.arm, o2), OwnArms(arms, o), b);
    }
  }

  lemma {:induction false} StmtGrows(st: Stmt, b: set<LocalId>, o: seq<LocalId>)
    requires TidyStmt(st, b, o) && ListOk(o, b)
    ensures Grows(o, OwnStmt(st, o), b)
    decreases st
  {
    hide ListOk;
    match st
    case Let(pat, init) =>
      OwnGrows(init, b, o);
      PushGrows(Own(init, o), PatLocals(pat), b);
      GrowsTrans(o, Own(init, o), OwnStmt(st, o), b);
    case Assign(t, v) =>
      OwnGrows(v, b, o);
      if t.Field? {
        OwnGrows(t.recv, b, Own(v, o));
        assert OwnStmt(st, o) == Own(t.recv, Own(v, o));
        GrowsTrans(o, Own(v, o), OwnStmt(st, o), b);
      }
    case ExprStmt(e) => OwnGrows(e, b, o);
  }

  lemma {:induction false} BlockGrows(blk: Block, b: set<LocalId>, o: seq<LocalId>)
    requires TidyBlock(blk, b, o) && ListOk(o, b)
    ensures Grows(o, OwnBlock(blk, o), b)
    decreases blk
  {
    hide ListOk;
    match blk
    case Tail(e) => OwnGrows(e, b, o);
    case Then(st, rest) =>
      StmtGrows(st, b, o);
      if !TermStmt(st) {
        BlockGrows(rest, b, OwnStmt(st, o));
        GrowsTrans(o, OwnStmt(st, o), OwnBlock(blk, o), b);
      }
  }

  // -- the invariant ------------------------------------------------------------------------------

  ghost predicate Pre(pr: Program, fs: seq<Frame>, b: set<LocalId>, o: seq<LocalId>, pend: multiset<nat>, st: State)
  {
    && TidyProgram(pr) && ListOk(o, b)
    && Exact(fs, Frame(st.env, b), pend, st.objs) && Listed(st.env, o, b)
  }

  /** What a run leaves behind; one that panics or goes wrong leaves nothing to say. */
  ghost predicate Post(fs: seq<Frame>, b: set<LocalId>, o: seq<LocalId>, pend: multiset<nat>, owned: bool, r: Out)
  {
    match r.ctl
    case Normal(v) =>
      Exact(fs, Frame(r.st.env, b), pend + Pending(owned, v), r.st.objs) && Listed(r.st.env, o, b)
    case Brk(_) => Exact(fs, Frame(r.st.env, b), pend, r.st.objs) && Listed(r.st.env, o, b)
    case Cont => Exact(fs, Frame(r.st.env, b), pend, r.st.objs) && Listed(r.st.env, o, b)
    case Ret(v) => Exact(fs, Frame(map[], b), pend + One(v), r.st.objs)
    case _ => true
  }

  lemma Widen(fs: seq<Frame>, b: set<LocalId>, o: seq<LocalId>, o': seq<LocalId>, pend: multiset<nat>, owned: bool,
              r: Out)
    requires Post(fs, b, o, pend, owned, r) && Grows(o, o', b)
    ensures Post(fs, b, o', pend, owned, r)
  {
    hide Exact;
  }

  /** A borrowed result leaves the state as it has to be for what follows. */
  lemma Goes(pr: Program, fs: seq<Frame>, b: set<LocalId>, o: seq<LocalId>, o': seq<LocalId>, pend: multiset<nat>,
             st: State, r: Out)
    requires Pre(pr, fs, b, o, pend, st) && Post(fs, b, o', pend, false, r) && Grows(o, o', b)
    requires r.ctl.Normal? || r.ctl.Cont?
    ensures Pre(pr, fs, b, o', pend, r.st)
  {
    hide Exact;
    if r.ctl.Normal? {
      assert pend + Pending(false, r.ctl.v) == pend;
    }
  }

  /** Another value that is no owned reference. */
  lemma Yields(pr: Program, fs: seq<Frame>, b: set<LocalId>, o: seq<LocalId>, pend: multiset<nat>, st: State, v: Value)
    requires Pre(pr, fs, b, o, pend, st)
    ensures Post(fs, b, o, pend, false, Out(Normal(v), st))
  {
    hide Exact;
    assert pend + Pending(false, v) == pend;
  }

  lemma BreakYields(fs: seq<Frame>, b: set<LocalId>, o: seq<LocalId>, pend: multiset<nat>, r: Out, v: Value)
    requires Post(fs, b, o, pend, false, r) && r.ctl.Brk?
    ensures Post(fs, b, o, pend, false, Out(Normal(v), r.st))
  {
    hide Exact;
    assert pend + Pending(false, v) == pend;
  }

  // -- evaluating -------------------------------------------------------------------------------------

  /** Tidy code keeps counts exact. */
  lemma {:induction false} EvalExact(pr: Program, e: Expr, b: set<LocalId>, o: seq<LocalId>, fs: seq<Frame>,
                                     pend: multiset<nat>, st: State, fuel: nat)
    requires Pre(pr, fs, b, o, pend, st) && Tidy(e, b, o)
    ensures Post(fs, b, Own(e, o), pend, Owned(e), Eval(pr, e, o, st, fuel))
    decreases fuel, e, 1
  {
    hide Pre, Post, Grows, Exact, Listed, ListOk;
    match e
    case Int(n) => Yields(pr, fs, b, o, pend, st, Num(n));
    case Null => Yields(pr, fs, b, o, pend, st, Nil);
    case Local(x) => Yields(pr, fs, b, o, pend, st, Get(st.env, x));
    case Continue => Continues(pr, fs, b, o, pend, st);
    case Prim(_, _) => PrimExact(pr, e, b, o, fs, pend, st, fuel);
    case Logic(_, _, _) => LogicExact(pr, e, b, o, fs, pend, st, fuel);
    case Call(_, _) => CallExprExact(pr, e, b, o, fs, pend, st, fuel);
    case Struct(_, _) => StructExact(pr, e, b, o, fs, pend, st, fuel);
    case Field(_, _) => FieldOfExact(pr, e, b, o, fs, pend, st, fuel);
    case Append(_, _) => AppendExprExact(pr, e, b, o, fs, pend, st, fuel);
    case If(_, _, _) => IfExact(pr, e, b, o, fs, pend, st, fuel);
    case Match(_, _) => MatchExact(pr, e, b, o, fs, pend, st, fuel);
    case BlockExpr(blk) => BlockBorrows(pr, blk, b, o, fs, pend, st, fuel);
    case Loop(_) => LoopExact(pr, e, b, o, fs, pend, st, fuel);
    case While(_, _) => WhileExact(pr, e, b, o, fs, pend, st, fuel);
    case For(_, _, _, _, _) => ForExact(pr, e, b, o, fs, pend, st, fuel);
    case Return(_) => ReturnExact(pr, e, b, o, fs, pend, st, fuel);
    case Break(_) => BreakExact(pr, e, b, o, fs, pend, st, fuel);
  }

  lemma Continues(pr: Program, fs: seq<Frame>, b: set<LocalId>, o: seq<LocalId>, pend: multiset<nat>, st: State)
    requires Pre(pr, fs, b, o, pend, st)
    ensures Post(fs, b, o, pend, false, Out(Cont, st))
  {
    hide Exact;
  }

  lemma {:induction false} PrimExact(pr: Program, e: Expr, b: set<LocalId>, o: seq<LocalId>, fs: seq<Frame>,
                                     pend: multiset<nat>, st: State, fuel: nat)
    requires Pre(pr, fs, b, o, pend, st) && Tidy(e, b, o) && e.Prim?
    ensures Post(fs, b, Own(e, o), pend, Owned(e), Eval(pr, e, o, st, fuel))
    decreases fuel, e, 0
  {
    hide Pre, Grows, Exact, Listed, ListOk;
    ArgsExact(pr, e.args, b, o, fs, pend, st, fuel);
    var r := EvalArgs(pr, e.args, o, st, fuel);
    if r.ctl.Normal? && pr.prim(e.op, r.vs).Some? {
      Yields(pr, fs, b, OwnArgs(e.args, o), pend, r.st, Num(pr.prim(e.op, r.vs).value));
    }
  }

  lemma {:induction false} LogicExact(pr: Program, e: Expr, b: set<LocalId>, o: seq<LocalId>, fs: seq<Frame>,
                                      pend: multiset<nat>, st: State, fuel: nat)
    requires Pre(pr, fs, b, o, pend, st) && Tidy(e, b, o) && e.Logic?
    ensures Post(fs, b, Own(e, o), pend, Owned(e), Eval(pr, e, o, st, fuel))
    decreases fuel, e, 0
  {
    hide Post, Grows, Exact, Listed, ListOk;
    assert ListOk(o, b);
    hide Pre;
    var o1 := Own(e.left, o);
    EvalExact(pr, e.left, b, o, fs, pend, st, fuel);
    OwnGrows(e.left, b, o);
    var r := Eval(pr, e.left, o, st, fuel);
    Lists(o, o1, b);
    OwnGrows(e.right, b, o1);
    if r.ctl.Normal? && Truthy(r.ctl.v) == e.isAnd {
      Goes(pr, fs, b, o, o1, pend, st, r);
      EvalExact(pr, e.right, b, o1, fs, pend, r.st, fuel);
    } else {
      Widen(fs, b, o1, Own(e, o), pend, false, r);
    }
  }

  lemma Lists(o: seq<LocalId>, o': seq<LocalId>, b: set<LocalId>)
    requires Grows(o, o', b)
    ensures ListOk(o', b)
  {
  }

  lemma {:induction false} CallExprExact(pr: Program, e: Expr, b: set<LocalId>, o: seq<LocalId>, fs: seq<Frame>,
                                         pend: multiset<nat>, st: State, fuel: nat)
    requires Pre(pr, fs, b, o, pend, st) && Tidy(e, b, o) && e.Call?
    ensures Post(fs, b, Own(e, o), pend, Owned(e), Eval(pr, e, o, st, fuel))
    decreases fuel, e, 0
  {
    hide Pre, Grows, Exact, Listed, ListOk, CallFn;
    ArgsExact(pr, e.args, b, o, fs, pend, st, fuel);
    var r := EvalArgs(pr, e.args, o, st, fuel);
    if r.ctl.Normal? && fuel > 0 {
      CallExact(pr, e.callee.def, r.vs, b, OwnArgs(e.args, o), fs, pend, r.st, fuel - 1);
    }
  }

  lemma {:induction false} StructExact(pr: Program, e: Expr, b: set<LocalId>, o: seq<LocalId>, fs: seq<Frame>,
                                       pend: multiset<nat>, st: State, fuel: nat)
    requires Pre(pr, fs, b, o, pend, st) && Tidy(e, b, o) && e.Struct?
    ensures Post(fs, b, Own(e, o), pend, Owned(e), Eval(pr, e, o, st, fuel))
    decreases fuel, e, 0
  {
    hide Grows, Exact, Listed, ListOk, Pre;
    FieldsExact(pr, e.fields, b, o, fs, pend, st, fuel);
    var r := EvalFields(pr, e.fields, o, st, fuel);
    if r.ctl.Normal? {
      var counted, n := e.def in pr.counted, |r.st.objs|;
      PreExact(pr, fs, b, OwnArgs(e.fields, o), pend + Refs(r.vs), r.st);
      AllocExact(fs, Frame(r.st.env, b), pend, r.st.objs, r.vs, counted);
      assert pend + Pending(true, if counted then Ref(n) else Gc(n))
             == pend + (if counted then multiset{n} else multiset{});
    }
  }

  lemma PreExact(pr: Program, fs: seq<Frame>, b: set<LocalId>, o: seq<LocalId>, pend: multiset<nat>, st: State)
    requires Pre(pr, fs, b, o, pend, st)
    ensures Exact(fs, Frame(st.env, b), pend, st.objs) && Listed(st.env, o, b) && ListOk(o, b)
  {
    hide Exact;
  }

  lemma {:induction false} FieldOfExact(pr: Program, e: Expr, b: set<LocalId>, o: seq<LocalId>, fs: seq<Frame>,
                                        pend: multiset<nat>, st: State, fuel: nat)
    requires Pre(pr, fs, b, o, pend, st) && Tidy(e, b, o) && e.Field?
    ensures Post(fs, b, Own(e, o), pend, Owned(e), Eval(pr, e, o, st, fuel))
    decreases fuel, e, 0
  {
    hide Pre, Post, Grows, Exact, Listed, ListOk;
    EvalExact(pr, e.recv, b, o, fs, pend, st, fuel);
    PreExact(pr, fs, b, o, pend, st);
    OwnGrows(e.recv, b, o);
    var r := Eval(pr, e.recv, o, st, fuel);
    if r.ctl.Normal? {
      Goes(pr, fs, b, o, Own(e, o), pend, st, r);
      Wrong(fs, b, Own(e, o), pend, r.st);
      match Deref(r.st.objs, r.ctl.v)
      case Fields(vs) =>
        if e.idx < |vs| {
          Yields(pr, fs, b, Own(e, o), pend, r.st, vs[e.idx]);
        }
      case _ =>
    }
  }

  lemma Wrong(fs: seq<Frame>, b: set<LocalId>, o: seq<LocalId>, pend: multiset<nat>, st: State)
    ensures Post(fs, b, o, pend, false, Out(Bad, st)) && Post(fs, b, o, pend, false, Out(Stuck, st))
    ensures Post(fs, b, o, pend, false, Out(Timeout, st))
  {
  }

  lemma {:induction false} AppendExprExact(pr: Program, e: Expr, b: set<LocalId>, o: seq<LocalId>, fs: seq<Frame>,
                                           pend: multiset<nat>, st: State, fuel: nat)
    requires Pre(pr, fs, b, o, pend, st) && Tidy(e, b, o) && e.Append?
    ensures Post(fs, b, Own(e, o), pend, Owned(e), Eval(pr, e, o, st, fuel))
    decreases fuel, e, 0
  {
    hide Pre, Post, Grows, Exact, Listed, ListOk;
    var o1, o2 := Own(e.list, o), Own(e, o);
    EvalExact(pr, e.list, b, o, fs, pend, st, fuel);
    PreExact(pr, fs, b, o, pend, st);
    OwnGrows(e.list, b, o);
    Lists(o, o1, b);
    OwnGrows(e.item, b, o1);
    var r := Eval(pr, e.list, o, st, fuel);
    Widen(fs, b, o1, o2, pend, false, r);
    if r.ctl.Normal? {
      Goes(pr, fs, b, o, o1, pend, st, r);
      EvalExact(pr, e.item, b, o1, fs, pend, r.st, fuel);
      var q := Eval(pr, e.item, o1, r.st, fuel);
      if q.ctl.Normal? {
        Goes(pr, fs, b, o1, o2, pend, r.st, q);
        PushedExact(pr, fs, b, o2, pend, r.ctl.v, q.ctl.v, q.st);
      }
    }
  }

  lemma PushedExact(pr: Program, fs: seq<Frame>, b: set<LocalId>, o: seq<LocalId>, pend: multiset<nat>, p: Value,
                    v: Value, st: State)
    requires Pre(pr, fs, b, o, pend, st)
    ensures Post(fs, b, o, pend, false, AppendTo(p, v, st))
  {
    hide Exact;
    if AppendTo(p, v, st).ctl.Normal? {
      AppendExact(fs, Frame(st.env, b), pend, p, v, st);
      assert pend + Pending(false, Nil) == pend;
    }
  }

  lemma {:induction false} IfExact(pr: Program, e: Expr, b: set<LocalId>, o: seq<LocalId>, fs: seq<Frame>,
                                   pend: multiset<nat>, st: State, fuel: nat)
    requires Pre(pr, fs, b, o, pend, st) && Tidy(e, b, o) && e.If?
    ensures Post(fs, b, Own(e, o), pend, Owned(e), Eval(pr, e, o, st, fuel))
    decreases fuel, e, 0
  {
    hide Pre, Post, Grows, Exact, Listed, ListOk;
    var o1 := Own(e.cond, o);
    var o2, o3 := OwnBlock(e.thn, o1), Own(e, o);
    EvalExact(pr, e.cond, b, o, fs, pend, st, fuel);
    PreExact(pr, fs, b, o, pend, st);
    OwnGrows(e.cond, b, o);
    Lists(o, o1, b);
    BlockGrows(e.thn, b, o1);
    Lists(o1, o2, b);
    OwnGrows(e.els, b, o2);
    GrowsTrans(o1, o2, o3, b);
    var r := Eval(pr, e.cond, o, st, fuel);
    Widen(fs, b, o1, o3, pend, false, r);
    if r.ctl.Normal? {
      Goes(pr, fs, b, o, o1, pend, st, r);
      if Truthy(r.ctl.v) {
        BlockBorrows(pr, e.thn, b, o1, fs, pend, r.st, fuel);
        Widen(fs, b, o2, o3, pend, false, EvalBlock(pr, e.thn, o1, r.st, fuel));
      } else {
        PreWider(pr, fs, b, o1, o2, pend, r.st);
        EvalExact(pr, e.els, b, o2, fs, pend, r.st, fuel);
      }
    }
  }

  lemma PreWider(pr: Program, fs: seq<Frame>, b: set<LocalId>, o: seq<LocalId>, o': seq<LocalId>, pend: multiset<nat>,
                 st: State)
    requires Pre(pr, fs, b, o, pend, st) && Grows(o, o', b)
    ensures Pre(pr, fs, b, o', pend, st)
  {
    hide Exact;
  }

  lemma {:induction false} MatchExact(pr: Program, e: Expr, b: set<LocalId>, o: seq<LocalId>, fs: seq<Frame>,
                                      pend: multiset<nat>, st: State, fuel: nat)
    requires Pre(pr, fs, b, o, pend, st) && Tidy(e, b, o) && e.Match?
    ensures Post(fs, b, Own(e, o), pend, Owned(e), Eval(pr, e, o, st, fuel))
    decreases fuel, e, 0
  {
    hide Pre, Post, Grows, Exact, Listed, ListOk;
    var o1 := Own(e.scrut, o);
    EvalExact(pr, e.scrut, b, o, fs, pend, st, fuel);
    PreExact(pr, fs, b, o, pend, st);
    OwnGrows(e.scrut, b, o);
    Lists(o, o1, b);
    ArmsGrow(e.arms, b, o1);
    var r := Eval(pr, e.scrut, o, st, fuel);
    Widen(fs, b, o1, Own(e, o), pend, false, r);
    if r.ctl.Normal? {
      Goes(pr, fs, b, o, o1, pend, st, r);
      ArmsExact(pr, e.arms, r.ctl.v, b, o1, fs, pend, r.st, fuel);
    }
  }

  /** A pattern binds each local with a reference of its own, or as a borrow. */
  lemma {:induction false} RecordExact(pr: Program, rs: seq<Option<LocalId>>, i: nat, p: Value, b: set<LocalId>,
                                       o: seq<LocalId>, fs: seq<Frame>, pend: multiset<nat>, st: State)
    requires Pre(pr, fs, b, o, pend, st) && i <= |rs| && forall x <- FieldLocals(rs[i..]) :: x !in b
    ensures Post(fs, b, PushAll(o, FieldLocals(rs[i..])), pend, false, BindRecord(rs, i, p, o, st))
    decreases |rs| - i
  {
    if i == |rs| {
      Yields(pr, fs, b, o, pend, st, Nil);
    } else if Deref(st.objs, p).Fields? && i < |Deref(st.objs, p).vs| {
      assert rs[i..][1..] == rs[i + 1..];
      if rs[i].None? {
        assert FieldLocals(rs[i..]) == FieldLocals(rs[i + 1..]);
        RecordExact(pr, rs, i + 1, p, b, o, fs, pend, st);
      } else {
        var x, v := rs[i].value, Deref(st.objs, p).vs[i];
        assert FieldLocals(rs[i..]) == [x] + FieldLocals(rs[i + 1..]);
        PushFirst(o, x, FieldLocals(rs[i + 1..]));
        var r := BindLocal(x, v, false, o, st);
        assert pend + Pending(false, v) == pend;
        hide Post, FieldLocals, BindLocal, Exact, Listed, ListOk;
        LocalBound(pr, x, v, false, b, o, fs, pend, st);
        if r.ctl.Normal? {
          RecordExact(pr, rs, i + 1, p, b, Push(o, x), fs, pend, r.st);
        }
      }
    }
  }

  lemma PushFirst(o: seq<LocalId>, x: LocalId, xs: seq<LocalId>)
    ensures PushAll(o, [x] + xs) == PushAll(Push(o, x), xs)
    ensures forall y <- xs :: y in [x] + xs
    ensures x in [x] + xs
  {
    assert ([x] + xs)[1..] == xs;
  }

  lemma LocalBound(pr: Program, x: LocalId, v: Value, owned: bool, b: set<LocalId>, o: seq<LocalId>, fs: seq<Frame>,
                   pend: multiset<nat>, st: State)
    requires TidyProgram(pr) && ListOk(o, b) && Listed(st.env, o, b) && x !in b
    requires Exact(fs, Frame(st.env, b), pend + Pending(owned, v), st.objs)
    ensures var r := BindLocal(x, v, owned, o, st);
            if r.ctl.Normal? then Pre(pr, fs, b, Push(o, x), pend, r.st)
            else r.ctl == Bad
  {
    hide Exact;
    var r := BindLocal(x, v, owned, o, st);
    if r.ctl.Normal? {
      BindExact(fs, Frame(st.env, b), pend, x, v, owned, o, st);
      PushAllOk(o, [x], b);
      assert PushAll(o, [x]) == Push(o, x) by { assert [x][1..] == []; }
    }
  }

  /** Patterns of `let` and `for`. */
  lemma PatExact(pr: Program, pat: Pattern, v: Value, owned: bool, b: set<LocalId>, o: seq<LocalId>, fs: seq<Frame>,
                 pend: multiset<nat>, st: State)
    requires Pre(pr, fs, b, o, pend + Pending(owned, v), st) && TidyPat(pat, b) && (pat.Bind? || !owned)
    ensures Post(fs, b, PushAll(o, PatLocals(pat)), pend, false, BindPat(pat, v, owned, o, st))
  {
    if !owned {
      assert pend + Pending(owned, v) == pend;
    }
    match pat
    case Bind(x) =>
      assert PushAll(o, [x]) == Push(o, x) by { assert [x][1..] == []; }
      hide Exact;
      LocalBound(pr, x, v, owned, b, o, fs, pend, st);
      hide Pre;
      var r := BindLocal(x, v, owned, o, st);
      if r.ctl.Normal? {
        Yields(pr, fs, b, Push(o, x), pend, r.st, Nil);
      }
    case Record(rs) =>
      assert rs[0..] == rs;
      RecordExact(pr, rs, 0, v, b, o, fs, pend, st);
    case Wild => Yields(pr, fs, b, o, pend, st, Nil);
    case _ =>
  }

  /** Arms bind the whole value without a reference. */
  lemma ArmBindExact(pr: Program, pat: Pattern, v: Value, b: set<LocalId>, o: seq<LocalId>, fs: seq<Frame>,
                     pend: multiset<nat>, st: State)
    requires Pre(pr, fs, b, o, pend, st)
    requires if pat.Bind? then pat.local in b else !pat.TypeTest? && TidyPat(pat, b)
    ensures Post(fs, b, ArmOwn(pat, o), pend, false, ArmBind(pat, v, o, st))
  {
    if pat.Bind? {
      BorrowExact(fs, Frame(st.env, b), pend, st.objs, pat.local, v);
      hide Exact;
      assert Pre(pr, fs, b, o, pend, st.(env := st.env[pat.local := v]));
      Yields(pr, fs, b, o, pend, st.(env := st.env[pat.local := v]), Nil);
    } else if pat.Lit? {
      Yields(pr, fs, b, o, pend, st, Nil);
    } else {
      assert pend + Pending(false, v) == pend;
      PatExact(pr, pat, v, false, b, o, fs, pend, st);
      if pat.Wild? {
        assert PushAll(o, []) == o;
      }
    }
  }

  lemma {:induction false} ArmsExact(pr: Program, arms: Arms, v: Value, b: set<LocalId>, o: seq<LocalId>,
                                     fs: seq<Frame>, pend: multiset<nat>, st: State, fuel: nat)
    requires Pre(pr, fs, b, o, pend, st) && TidyArms(arms, b, o)
    ensures Post(fs, b, OwnArms(arms, o), pend, false, EvalArms(pr, arms, v, o, st, fuel))
    decreases fuel, arms, 2
  {
    hide Pre, Post, Grows, Exact, Listed, ListOk;
    Wrong(fs, b, o, pend, st);
    if arms.Arm? {
      PreExact(pr, fs, b, o, pend, st);
      var o1 := ArmOwn(arms.pat, o);
      var o2 := Own(arms.guard, o1);
      var o3 := Own(arms.arm, o2);
      ArmGrows(arms.pat, b, o);
      Lists(o, o1, b);
      OwnGrows(arms.guard, b, o1);
      Lists(o1, o2, b);
      OwnGrows(arms.arm, b, o2);
      Lists(o2, o3, b);
      ArmsGrow(arms.rest, b, o3);
      GrowsTrans(o1, o2, o3, b);
      GrowsTrans(o, o1, o3, b);
      if !Matches(arms.pat, v) {
        PreWider(pr, fs, b, o, o3, pend, st);
        ArmsExact(pr, arms.rest, v, b, o3, fs, pend, st, fuel);
      } else {
        ArmBindExact(pr, arms.pat, v, b, o, fs, pend, st);
        var r := ArmBind(arms.pat, v, o, st);
        GrowsTrans(o1, o3, OwnArms(arms, o), b);
        Widen(fs, b, o1, OwnArms(arms, o), pend, false, r);
        if r.ctl.Normal? {
          Goes(pr, fs, b, o, o1, pend, st, r);
          ArmExact(pr, arms, v, b, o, fs, pend, r.st, fuel);
        }
      }
    }
  }

  /** An arm whose pattern is bound: its guard, then its body or the arms after it. */
  function Guarded(pr: Program, arms: Arms, v: Value, o: seq<LocalId>, st: State, fuel: nat): Out
    requires arms.Arm?
  {
    var o1 := ArmOwn(arms.pat, o);
    var g := Eval(pr, arms.guard, o1, st, fuel);
    if !g.ctl.Normal? then g
    else if Truthy(g.ctl.v) then Eval(pr, arms.arm, Own(arms.guard, o1), g.st, fuel)
    else EvalArms(pr, arms.rest, v, Own(arms.arm, Own(arms.guard, o1)), g.st, fuel)
  }

  lemma {:induction false} ArmExact(pr: Program, arms: Arms, v: Value, b: set<LocalId>, o: seq<LocalId>,
                                    fs: seq<Frame>, pend: multiset<nat>, st: State, fuel: nat)
    requires arms.Arm? && Pre(pr, fs, b, ArmOwn(arms.pat, o), pend, st) && TidyArms(arms, b, o)
    ensures Post(fs, b, OwnArms(arms, o), pend, false, Guarded(pr, arms, v, o, st, fuel))
    decreases fuel, arms, 1
  {
    hide Pre, Post, Grows, Exact, Listed, ListOk, EvalArms;
    var o1 := ArmOwn(arms.pat, o);
    var o2 := Own(arms.guard, o1);
    var o3, o4 := Own(arms.arm, o2), OwnArms(arms, o);
    PreExact(pr, fs, b, o1, pend, st);
    OwnGrows(arms.guard, b, o1);
    Lists(o1, o2, b);
    OwnGrows(arms.arm, b, o2);
    Lists(o2, o3, b);
    ArmsGrow(arms.rest, b, o3);
    GrowsTrans(o2, o3, o4, b);
    EvalExact(pr, arms.guard, b, o1, fs, pend, st, fuel);
    var g := Eval(pr, arms.guard, o1, st, fuel);
    Widen(fs, b, o2, o4, pend, false, g);
    if g.ctl.Normal? {
      Goes(pr, fs, b, o1, o2, pend, st, g);
      if Truthy(g.ctl.v) {
        EvalExact(pr, arms.arm, b, o2, fs, pend, g.st, fuel);
        Widen(fs, b, o3, o4, pend, false, Eval(pr, arms.arm, o2, g.st, fuel));
      } else {
        PreWider(pr, fs, b, o2, o3, pend, g.st);
        ArmsExact(pr, arms.rest, v, b, o3, fs, pend, g.st, fuel);
      }
    }
  }

  lemma {:induction false} LoopExact(pr: Program, e: Expr, b: set<LocalId>, o: seq<LocalId>, fs: seq<Frame>,
                                     pend: multiset<nat>, st: State, fuel: nat)
    requires Pre(pr, fs, b, o, pend, st) && Tidy(e, b, o) && e.Loop?
    ensures Post(fs, b, Own(e, o), pend, Owned(e), Eval(pr, e, o, st, fuel))
    decreases fuel, e, 0
  {
    hide Pre, Post, Grows, Exact, Listed, ListOk;
    PreExact(pr, fs, b, o, pend, st);
    BlockGrows(e.body, b, o);
    BlockBorrows(pr, e.body, b, o, fs, pend, st, fuel);
    var r := EvalBlock(pr, e.body, o, st, fuel);
    Wrong(fs, b, o, pend, r.st);
    if r.ctl.Brk? {
      BreakYields(fs, b, o, pend, r, r.ctl.v);
    } else if (r.ctl.Normal? || r.ctl.Cont?) && fuel > 0 {
      Goes(pr, fs, b, o, o, pend, st, r);
      EvalExact(pr, e, b, o, fs, pend, r.st, fuel - 1);
    }
  }

  lemma {:induction false} WhileExact(pr: Program, e: Expr, b: set<LocalId>, o: seq<LocalId>, fs: seq<Frame>,
                                      pend: multiset<nat>, st: State, fuel: nat)
    requires Pre(pr, fs, b, o, pend, st) && Tidy(e, b, o) && e.While?
    ensures Post(fs, b, Own(e, o), pend, Owned(e), Eval(pr, e, o, st, fuel))
    decreases fuel, e, 0
  {
    hide Pre, Post, Grows, Exact, Listed, ListOk;
    PreExact(pr, fs, b, o, pend, st);
    OwnGrows(e.cond, b, o);
    BlockGrows(e.body, b, o);
    EvalExact(pr, e.cond, b, o, fs, pend, st, fuel);
    var q := Eval(pr, e.cond, o, st, fuel);
    if q.ctl.Normal? {
      Goes(pr, fs, b, o, o, pend, st, q);
      if !Truthy(q.ctl.v) {
        Yields(pr, fs, b, o, pend, q.st, Nil);
      } else {
        BlockBorrows(pr, e.body, b, o, fs, pend, q.st, fuel);
        var r := EvalBlock(pr, e.body, o, q.st, fuel);
        Wrong(fs, b, o, pend, r.st);
        if r.ctl.Brk? {
          BreakYields(fs, b, o, pend, r, Nil);
        } else if (r.ctl.Normal? || r.ctl.Cont?) && fuel > 0 {
          Goes(pr, fs, b, o, o, pend, q.st, r);
          EvalExact(pr, e, b, o, fs, pend, r.st, fuel - 1);
        }
      }
    }
  }

  lemma {:induction false} ForExact(pr: Program, e: Expr, b: set<LocalId>, o: seq<LocalId>, fs: seq<Frame>,
                                    pend: multiset<nat>, st: State, fuel: nat)
    requires Pre(pr, fs, b, o, pend, st) && Tidy(e, b, o) && e.For?
    ensures Post(fs, b, Own(e, o), pend, Owned(e), Eval(pr, e, o, st, fuel))
    decreases fuel, e, 0
  {
    hide Pre, Post, Grows, Exact, Listed, ListOk, EvalFor;
    var o1 := Own(e.iter, o);
    PreExact(pr, fs, b, o, pend, st);
    OwnGrows(e.iter, b, o);
    EvalExact(pr, e.iter, b, o, fs, pend, st, fuel);
    var r := Eval(pr, e.iter, o, st, fuel);
    if r.ctl.Normal? {
      Goes(pr, fs, b, o, o1, pend, st, r);
      RoundsExact(pr, e.pat, e.body, r.ctl.v, 0, b, o1, fs, pend, r.st, fuel);
    }
  }

  lemma {:induction false} RoundsExact(pr: Program, pat: Pattern, body: Block, p: Value, i: nat, b: set<LocalId>,
                                       o: seq<LocalId>, fs: seq<Frame>, pend: multiset<nat>, st: State, fuel: nat)
    requires Pre(pr, fs, b, o, pend, st) && TidyPat(pat, b) && PushAll(o, PatLocals(pat)) == o
    requires BorrowsBlock(body, b, o) && OwnBlock(body, o) == o
    ensures Post(fs, b, o, pend, false, EvalFor(pr, pat, body, p, i, o, st, fuel))
    decreases fuel, body, 2
  {
    hide Pre, Post, Grows, Exact, Listed, ListOk, BindPat;
    PreExact(pr, fs, b, o, pend, st);
    BlockGrows(body, b, o);
    Wrong(fs, b, o, pend, st);
    Yields(pr, fs, b, o, pend, st, Nil);
    if ListAt(st.objs, p).Some? && i < |ListAt(st.objs, p).value| {
      var v := ListAt(st.objs, p).value[i];
      assert pend + Pending(false, v) == pend;
      PatExact(pr, pat, v, false, b, o, fs, pend, st);
      var q := BindPat(pat, v, false, o, st);
      if q.ctl.Normal? {
        Goes(pr, fs, b, o, o, pend, st, q);
        BlockBorrows(pr, body, b, o, fs, pend, q.st, fuel);
        var r := EvalBlock(pr, body, o, q.st, fuel);
        Wrong(fs, b, o, pend, r.st);
        if r.ctl.Brk? {
          BreakYields(fs, b, o, pend, r, Nil);
        } else if (r.ctl.Normal? || r.ctl.Cont?) && fuel > 0 {
          Goes(pr, fs, b, o, o, pend, q.st, r);
          RoundsExact(pr, pat, body, p, i + 1, b, o, fs, pend, r.st, fuel - 1);
        }
      }
    }
  }

  lemma {:induction false} ReturnExact(pr: Program, e: Expr, b: set<LocalId>, o: seq<LocalId>, fs: seq<Frame>,
                                       pend: multiset<nat>, st: State, fuel: nat)
    requires Pre(pr, fs, b, o, pend, st) && Tidy(e, b, o) && e.Return?
    ensures Post(fs, b, Own(e, o), pend, Owned(e), Eval(pr, e, o, st, fuel))
    decreases fuel, e, 0
  {
    hide Pre, Grows, Exact, Listed, ListOk;
    var o1 := Own(e.value, o);
    PreExact(pr, fs, b, o, pend, st);
    OwnGrows(e.value, b, o);
    Lists(o, o1, b);
    EvalExact(pr, e.value, b, o, fs, pend, st, fuel);
    var r := Eval(pr, e.value, o, st, fuel);
    if r.ctl.Normal? {
      LeftExact(fs, b, o1, pend, Owned(e.value), r.ctl.v, r.st);
    }
  }

  lemma LeftExact(fs: seq<Frame>, b: set<LocalId>, o: seq<LocalId>, pend: multiset<nat>, owned: bool, v: Value,
                  st: State)
    requires Exact(fs, Frame(st.env, b), pend + Pending(owned, v), st.objs) && Listed(st.env, o, b) && ListOk(o, b)
    ensures Post(fs, b, o, pend, false, Leave(owned, v, o, st)) && !Leave(owned, v, o, st).ctl.Normal?
    ensures Leave(owned, v, o, st).ctl == Ret(v) || Leave(owned, v, o, st).ctl == Bad
  {
    hide Exact;
    if Leave(owned, v, o, st).ctl.Ret? {
      LeaveExact(fs, Frame(st.env, b), pend, owned, v, o, st);
    }
  }

  lemma {:induction false} BreakExact(pr: Program, e: Expr, b: set<LocalId>, o: seq<LocalId>, fs: seq<Frame>,
                                      pend: multiset<nat>, st: State, fuel: nat)
    requires Pre(pr, fs, b, o, pend, st) && Tidy(e, b, o) && e.Break?
    ensures Post(fs, b, Own(e, o), pend, Owned(e), Eval(pr, e, o, st, fuel))
    decreases fuel, e, 0
  {
    hide Pre, Grows, Exact, Listed, ListOk;
    EvalExact(pr, e.value, b, o, fs, pend, st, fuel);
    var r := Eval(pr, e.value, o, st, fuel);
    if r.ctl.Normal? {
      assert pend + Pending(false, r.ctl.v) == pend;
    }
  }

  // -- argument lists -------------------------------------------------------------------------------------

  ghost predicate PostArgs(pr: Program, fs: seq<Frame>, b: set<LocalId>, o: seq<LocalId>, pend: multiset<nat>,
                           taken: bool, r: Outs)
  {
    if r.ctl.Normal? then Pre(pr, fs, b, o, pend + (if taken then Refs(r.vs) else multiset{}), r.st)
    else Post(fs, b, o, pend, false, Out(r.ctl, r.st))
  }

  lemma {:induction false} ArgsExact(pr: Program, es: Exprs, b: set<LocalId>, o: seq<LocalId>, fs: seq<Frame>,
                                     pend: multiset<nat>, st: State, fuel: nat)
    requires Pre(pr, fs, b, o, pend, st) && TidyArgs(es, b, o, false)
    ensures PostArgs(pr, fs, b, OwnArgs(es, o), pend, false, EvalArgs(pr, es, o, st, fuel))
    ensures var r := EvalArgs(pr, es, o, st, fuel); r.ctl.Normal? ==> Pre(pr, fs, b, OwnArgs(es, o), pend, r.st)
    decreases fuel, es, 0
  {
    hide Pre, Post, Grows, Exact, Listed, ListOk;
    assert pend + multiset{} == pend;
    if es.ECons? {
      var o1, o2 := Own(es.head, o), OwnArgs(es, o);
      PreExact(pr, fs, b, o, pend, st);
      OwnGrows(es.head, b, o);
      Lists(o, o1, b);
      ArgsGrow(es.tail, b, o1, false);
      EvalExact(pr, es.head, b, o, fs, pend, st, fuel);
      var h := Eval(pr, es.head, o, st, fuel);
      Widen(fs, b, o1, o2, pend, false, h);
      if h.ctl.Normal? {
        Goes(pr, fs, b, o, o1, pend, st, h);
        ArgsExact(pr, es.tail, b, o1, fs, pend, h.st, fuel);
      } else {
        Same(fs, b, o2, pend, h);
      }
    }
  }

  lemma Same(fs: seq<Frame>, b: set<LocalId>, o: seq<LocalId>, pend: multiset<nat>, r: Out)
    requires Post(fs, b, o, pend, false, r)
    ensures Post(fs, b, o, pend, false, Out(r.ctl, r.st))
  {
  }

  /** Each field initialiser of a literal leaves one pending reference. */
  lemma {:induction false} FieldsExact(pr: Program, es: Exprs, b: set<LocalId>, o: seq<LocalId>, fs: seq<Frame>,
                                       pend: multiset<nat>, st: State, fuel: nat)
    requires Pre(pr, fs, b, o, pend, st) && TidyArgs(es, b, o, true)
    ensures PostArgs(pr, fs, b, OwnArgs(es, o), pend, true, EvalFields(pr, es, o, st, fuel))
    decreases fuel, es, 0
  {
    hide Pre, Post, Grows, Exact, Listed, ListOk;
    if es.ENil? {
      assert pend + Refs([]) == pend;
    } else {
      var o1, o2 := Own(es.head, o), OwnArgs(es, o);
      PreExact(pr, fs, b, o, pend, st);
      OwnGrows(es.head, b, o);
      Lists(o, o1, b);
      ArgsGrow(es.tail, b, o1, true);
      EvalExact(pr, es.head, b, o, fs, pend, st, fuel);
      var h := Eval(pr, es.head, o, st, fuel);
      Widen(fs, b, o1, o2, pend, Owned(es.head), h);
      if h.ctl.Normal? {
        var k := Take(Owned(es.head), h.ctl.v, h.st);
        TakenExact(pr, fs, b, o, o1, pend, st, Owned(es.head), h);
        if k.ctl.Normal? {
          var v := h.ctl.v;
          FieldsExact(pr, es.tail, b, o1, fs, pend + One(v), k.st, fuel);
          var t := EvalFields(pr, es.tail, o1, k.st, fuel);
          if t.ctl.Normal? {
            assert pend + One(v) + Refs(t.vs) == pend + Refs([v] + t.vs) by { RefsPrepend(v, t.vs); }
          } else {
            ArgsComplete(pr, es.tail, o1, k.st, fuel);
            Wrongs(fs, b, o2, pend, Out(t.ctl, t.st));
          }
        } else {
          Wrongs(fs, b, o2, pend, Out(k.ctl, k.st));
        }
      } else {
        Unfinished(fs, b, o2, pend, Owned(es.head), h);
      }
    }
  }

  lemma Unfinished(fs: seq<Frame>, b: set<LocalId>, o: seq<LocalId>, pend: multiset<nat>, owned: bool, r: Out)
    requires Post(fs, b, o, pend, owned, r) && !r.ctl.Normal?
    ensures Post(fs, b, o, pend, false, Out(r.ctl, r.st))
  {
  }

  lemma TakenExact(pr: Program, fs: seq<Frame>, b: set<LocalId>, o: seq<LocalId>, o1: seq<LocalId>,
                   pend: multiset<nat>, st: State, owned: bool, r: Out)
    requires Pre(pr, fs, b, o, pend, st) && Grows(o, o1, b) && Post(fs, b, o1, pend, owned, r) && r.ctl.Normal?
    ensures var k := Take(owned, r.ctl.v, r.st);
            if k.ctl.Normal? then Pre(pr, fs, b, o1, pend + One(r.ctl.v), k.st) else k.ctl == Bad
  {
    hide Exact;
    if Take(owned, r.ctl.v, r.st).ctl.Normal? {
      TakeExact(fs, Frame(r.st.env, b), pend, owned, r.ctl.v, r.st);
    }
  }

  /** With the value's own reference among the pending ones. */
  lemma GoesOwned(pr: Program, fs: seq<Frame>, b: set<LocalId>, o: seq<LocalId>, o1: seq<LocalId>,
                  pend: multiset<nat>, st: State, owned: bool, r: Out)
    requires Pre(pr, fs, b, o, pend, st) && Grows(o, o1, b) && Post(fs, b, o1, pend, owned, r) && r.ctl.Normal?
    ensures Pre(pr, fs, b, o1, pend + Pending(owned, r.ctl.v), r.st)
  {
    hide Exact;
  }

  // -- statements -------------------------------------------------------------------------------------------

  lemma {:induction false} StmtExact(pr: Program, s: Stmt, b: set<LocalId>, o: seq<LocalId>, fs: seq<Frame>,
                                     pend: multiset<nat>, st: State, fuel: nat)
    requires Pre(pr, fs, b, o, pend, st) && TidyStmt(s, b, o)
    ensures Post(fs, b, OwnStmt(s, o), pend, false, EvalStmt(pr, s, o, st, fuel))
    decreases fuel, s, 1
  {
    hide Pre, Post, Grows, Exact, Listed, ListOk;
    PreExact(pr, fs, b, o, pend, st);
    StmtGrows(s, b, o);
    match s
    case Let(pat, init) =>
      var o1, owned := Own(init, o), Owned(init);
      EvalExact(pr, init, b, o, fs, pend, st, fuel);
      OwnGrows(init, b, o);
      Lists(o, o1, b);
      PushGrows(o1, PatLocals(pat), b);
      var r := Eval(pr, init, o, st, fuel);
      Widen(fs, b, o1, OwnStmt(s, o), pend, owned, r);
      if r.ctl.Normal? {
        GoesOwned(pr, fs, b, o, o1, pend, st, owned, r);
        PatExact(pr, pat, r.ctl.v, owned, b, o1, fs, pend, r.st);
      } else {
        Unfinished(fs, b, OwnStmt(s, o), pend, owned, r);
      }
    case Assign(_, _) => AssignExact(pr, s, b, o, fs, pend, st, fuel);
    case ExprStmt(e) =>
      EvalExact(pr, e, b, o, fs, pend, st, fuel);
      var r := Eval(pr, e, o, st, fuel);
      if Owned(e) {
        DroppedExact(fs, b, Own(e, o), pend, r);
      }
  }

  /** A discarded temporary gives its reference up. */
  lemma DroppedExact(fs: seq<Frame>, b: set<LocalId>, o: seq<LocalId>, pend: multiset<nat>, r: Out)
    requires Post(fs, b, o, pend, true, r)
    ensures Post(fs, b, o, pend, false,
                 if r.ctl.Normal? then Lift(Release(r.st.objs, r.ctl.v), Normal(Nil), r.st) else r)
  {
    hide Exact;
    if r.ctl.Normal? {
      ReleaseExact(fs, Frame(r.st.env, b), pend, r.st.objs, r.ctl.v);
      assert pend + Pending(false, Nil) == pend;
    }
  }

  lemma {:induction false} AssignExact(pr: Program, s: Stmt, b: set<LocalId>, o: seq<LocalId>, fs: seq<Frame>,
                                       pend: multiset<nat>, st: State, fuel: nat)
    requires Pre(pr, fs, b, o, pend, st) && TidyStmt(s, b, o) && s.Assign?
    ensures Post(fs, b, OwnStmt(s, o), pend, false, EvalStmt(pr, s, o, st, fuel))
    decreases fuel, s, 0
  {
    hide Pre, Post, Grows, Exact, Listed, ListOk, EvalStore;
    var o1, o2, owned := Own(s.value, o), OwnStmt(s, o), Owned(s.value);
    PreExact(pr, fs, b, o, pend, st);
    EvalExact(pr, s.value, b, o, fs, pend, st, fuel);
    OwnGrows(s.value, b, o);
    Lists(o, o1, b);
    assert s == Assign(s.target, s.value) && o2 == Own(s.target, o1);
    if s.target.Field? {
      OwnGrows(s.target.recv, b, o1);
      assert o2 == Own(s.target.recv, o1);
    }
    Stays(o1, b);
    var r := Eval(pr, s.value, o, st, fuel);
    Widen(fs, b, o1, o2, pend, owned, r);
    if r.ctl.Normal? {
      GoesOwned(pr, fs, b, o, o1, pend, st, owned, r);
      StoreExact(pr, s, b, o1, fs, pend, r.ctl.v, r.st, fuel);
    } else {
      Unfinished(fs, b, o2, pend, owned, r);
    }
  }

  lemma Stays(o: seq<LocalId>, b: set<LocalId>)
    requires ListOk(o, b)
    ensures Grows(o, o, b)
  {
  }

  lemma {:induction false} StoreExact(pr: Program, s: Stmt, b: set<LocalId>, o: seq<LocalId>, fs: seq<Frame>,
                                      pend: multiset<nat>, v: Value, st: State, fuel: nat)
    requires s.Assign? && (s.target.Local? || s.target.Field? || (s.target.Null? && !Owned(s.value)))
    requires Pre(pr, fs, b, o, pend + Pending(Owned(s.value), v), st)
    requires s.target.Local? ==> s.target.x !in b && s.target.x in o
    requires s.target.Field? ==> Borrows(s.target.recv, b, o) && (Owned(s.value) ==> Completes(s.target.recv))
    ensures Post(fs, b, Own(s.target, o), pend, false, EvalStore(pr, s.target, v, Owned(s.value), o, st, fuel))
    decreases fuel, s.target, 2
  {
    hide Exact, Grows, ListOk, Eval;
    var owned := Owned(s.value);
    match s.target
    case Local(x) =>
      if Take(owned, v, st).ctl.Normal? {
        StoreLocalExact(fs, Frame(st.env, b), pend, x, v, owned, st);
        assert pend + Pending(false, Nil) == pend;
      }
    case Field(recv, idx) =>
      hide Pre, Post, Listed, StoreField;
      var more, o1 := pend + Pending(owned, v), Own(recv, o);
      PreExact(pr, fs, b, o, more, st);
      EvalExact(pr, recv, b, o, fs, more, st, fuel);
      OwnGrows(recv, b, o);
      var q := Eval(pr, recv, o, st, fuel);
      if q.ctl.Normal? {
        Goes(pr, fs, b, o, o1, more, st, q);
        FieldStored(pr, fs, b, o1, pend, q.ctl.v, idx, v, owned, q.st);
      } else if owned {
        ExprCompletes(pr, recv, o, st, fuel);
        Wrongs(fs, b, o1, pend, q);
      } else {
        assert more == pend;
      }
    case Null =>
      assert pend + Pending(false, v) == pend && pend + Pending(false, Nil) == pend;
  }

  lemma Wrongs(fs: seq<Frame>, b: set<LocalId>, o: seq<LocalId>, pend: multiset<nat>, r: Out)
    requires r.ctl.Panic? || r.ctl.Stuck? || r.ctl.Timeout? || r.ctl.Bad?
    ensures Post(fs, b, o, pend, false, r)
  {
  }

  lemma FieldStored(pr: Program, fs: seq<Frame>, b: set<LocalId>, o: seq<LocalId>, pend: multiset<nat>, p: Value,
                    idx: nat, v: Value, owned: bool, st: State)
    requires Pre(pr, fs, b, o, pend + Pending(owned, v), st)
    ensures Post(fs, b, o, pend, false, StoreField(p, idx, v, owned, st))
  {
    hide Exact, Release;
    var r := StoreField(p, idx, v, owned, st);
    if r.ctl.Normal? {
      StoreFieldExact(fs, Frame(st.env, b), pend, p, idx, v, owned, st);
      assert pend + Pending(false, Nil) == pend;
    } else {
      assert r.ctl.Bad? || r.ctl.Stuck?;
    }
  }

  lemma {:induction false} BlockBorrows(pr: Program, blk: Block, b: set<LocalId>, o: seq<LocalId>, fs: seq<Frame>,
                                        pend: multiset<nat>, st: State, fuel: nat)
    requires Pre(pr, fs, b, o, pend, st) && BorrowsBlock(blk, b, o)
    ensures Post(fs, b, OwnBlock(blk, o), pend, false, EvalBlock(pr, blk, o, st, fuel))
    decreases fuel, blk, 1
  {
    hide Pre, Post;
    BlockExact(pr, blk, b, o, fs, pend, st, fuel);
  }

  lemma {:induction false} BlockExact(pr: Program, blk: Block, b: set<LocalId>, o: seq<LocalId>, fs: seq<Frame>,
                                      pend: multiset<nat>, st: State, fuel: nat)
    requires Pre(pr, fs, b, o, pend, st) && TidyBlock(blk, b, o)
    ensures Post(fs, b, OwnBlock(blk, o), pend, Owned(LastOf(blk)), EvalBlock(pr, blk, o, st, fuel))
    decreases fuel, blk, 0
  {
    hide Pre, Post, Grows, Exact, Listed, ListOk, Eval;
    match blk
    case Tail(e) => EvalExact(pr, e, b, o, fs, pend, st, fuel);
    case Then(s, rest) =>
      var o1, owned := OwnStmt(s, o), Owned(LastOf(blk));
      PreExact(pr, fs, b, o, pend, st);
      StmtExact(pr, s, b, o, fs, pend, st, fuel);
      StmtGrows(s, b, o);
      Lists(o, o1, b);
      var r := EvalStmt(pr, s, o, st, fuel);
      if TermStmt(s) {
        StmtStops(pr, s, o, st, fuel);
        Leaves(fs, b, o1, pend, owned, r);
      } else {
        BlockGrows(rest, b, o1);
        Widen(fs, b, o1, OwnBlock(blk, o), pend, false, r);
        if r.ctl.Normal? {
          Goes(pr, fs, b, o, o1, pend, st, r);
          BlockExact(pr, rest, b, o1, fs, pend, r.st, fuel);
        } else {
          Leaves(fs, b, OwnBlock(blk, o), pend, owned, r);
        }
      }
  }

  lemma Leaves(fs: seq<Frame>, b: set<LocalId>, o: seq<LocalId>, pend: multiset<nat>, owned: bool, r: Out)
    requires Post(fs, b, o, pend, false, r) && !r.ctl.Normal?
    ensures Post(fs, b, o, pend, owned, r)
  {
  }

  // -- calls ------------------------------------------------------------------------------------------------

  lemma {:induction false} BindingsKeys(env: Env, xs: seq<LocalId>, vs: seq<Value>)
    requires |xs| == |vs|
    ensures forall x <- Bindings(env, xs, vs) :: x in env || x in xs
    decreases xs
  {
    if xs != [] {
      BindingsKeys(env[xs[0] := vs[0]], xs[1..], vs[1..]);
    }
  }

  /** A choice of the locals that borrow. */
  lemma BorrowersOf(pr: Program, d: DefId) returns (b: set<LocalId>)
    requires TidyProgram(pr) && d in pr.funcs
    ensures Elems(pr.funcs[d].params) <= b && TidyBlock(pr.funcs[d].body, b, []) && ListOk([], b)
  {
    hide TidyBlock;
    var f := pr.funcs[d];
    assert TidyFunc(f);
    b :| Elems(f.params) <= b && TidyBlock(f.body, b, []);
  }

  /** A call returns one reference to its result and leaves every other count as it was. */
  lemma {:induction false} CallExact(pr: Program, d: DefId, vs: seq<Value>, b: set<LocalId>, o: seq<LocalId>,
                                     fs: seq<Frame>, pend: multiset<nat>, st: State, fuel: nat)
    requires Pre(pr, fs, b, o, pend, st)
    ensures Post(fs, b, o, pend, true, CallFn(pr, d, vs, st, fuel))
    decreases fuel, ENil, 1
  {
    hide Pre, Exact, Grows, Listed, ListOk, TidyBlock, TidyProgram;
    if d in pr.funcs && |pr.funcs[d].params| == |vs| && fuel > 0 {
      var f := pr.funcs[d];
      assert TidyProgram(pr) by { PreTidy(pr, fs, b, o, pend, st); }
      var b' := BorrowersOf(pr, d);
      var here := Frame(st.env, b);
      var fs', st' := [here] + fs, st.(env := Bindings(map[], f.params, vs));
      PreExact(pr, fs, b, o, pend, st);
      Entered(pr, fs, b, pend, st, f, b', vs);
      BlockExact(pr, f.body, b', [], fs', pend, st', fuel - 1);
      var q, o', owned := EvalBlock(pr, f.body, [], st', fuel - 1), OwnBlock(f.body, []), Owned(LastOf(f.body));
      hide EvalBlock;
      if q.ctl.Normal? {
        BlockGrows(f.body, b', []);
        Lists([], o', b');
        LeftExact(fs', b', o', pend, owned, q.ctl.v, q.st);
        var r := Leave(owned, q.ctl.v, o', q.st);
        hide Leave;
        if r.ctl.Ret? {
          BackExact(fs, here, pend + One(r.ctl.v), r.st.objs, Frame(map[], b'));
        }
      } else if q.ctl.Ret? {
        BackExact(fs, here, pend + One(q.ctl.v), q.st.objs, Frame(map[], b'));
      }
    }
  }

  lemma PreTidy(pr: Program, fs: seq<Frame>, b: set<LocalId>, o: seq<LocalId>, pend: multiset<nat>, st: State)
    requires Pre(pr, fs, b, o, pend, st)
    ensures TidyProgram(pr)
  {
    hide Exact, TidyProgram;
  }

  lemma Entered(pr: Program, fs: seq<Frame>, b: set<LocalId>, pend: multiset<nat>, st: State, f: Func,
                b': set<LocalId>, vs: seq<Value>)
    requires TidyProgram(pr) && Exact(fs, Frame(st.env, b), pend, st.objs) && ListOk([], b')
    requires |f.params| == |vs| && Elems(f.params) <= b'
    ensures Pre(pr, [Frame(st.env, b)] + fs, b', [], pend, st.(env := Bindings(map[], f.params, vs)))
  {
    hide Exact, TidyProgram;
    var env := Bindings(map[], f.params, vs);
    BindingsKeys(map[], f.params, vs);
    assert forall x <- env :: x in Elems(f.params);
    EnterExact(fs, Frame(st.env, b), pend, st.objs, Frame(env, b'));
  }

  // -- whole runs ---------------------------------------------------------------------------------------------

  /** From an empty heap, a call of any function of a tidy program with scalars, through any
      recursion, ends with every count exact: an object is live if and only if the result or
      a field of an object refers to it, and its count says how often. */
  lemma CountsExact(pr: Program, d: DefId, vs: seq<Value>, fuel: nat)
    requires TidyProgram(pr)
    ensures var r := CallFn(pr, d, vs, State(map[], []), fuel);
            r.ctl.Normal? ==>
              forall a: nat ::
                if Live(r.st.objs, a)
                then r.st.objs[a].count == FieldOwners(r.st.objs, a) + One(r.ctl.v)[a] && r.st.objs[a].count > 0
                else FieldOwners(r.st.objs, a) + One(r.ctl.v)[a] == 0
  {
    var st, f := State(map[], []), Frame(map[], {});
    assert Exact([], f, multiset{}, []);
    hide CallFn, Exact;
    CallExact(pr, d, vs, {}, [], [], multiset{}, st, fuel);
    var r := CallFn(pr, d, vs, st, fuel);
    if r.ctl.Normal? {
      assert multiset{} + Pending(true, r.ctl.v) == One(r.ctl.v);
      assert Exact([], Frame(r.st.env, {}), One(r.ctl.v), r.st.objs);
      BackEnv(pr, d, vs, st, fuel);
      forall a: nat
        ensures ExactAt([], f, One(r.ctl.v), r.st.objs, a)
        ensures Owners([], f, One(r.ctl.v), r.st.objs, a) == FieldOwners(r.st.objs, a) + One(r.ctl.v)[a]
      {
        At([], f, One(r.ctl.v), r.st.objs, a);
        assert LocalSites(f, a) == {};
      }
    }
  }

  lemma At(fs: seq<Frame>, f: Frame, pend: multiset<nat>, objs: seq<Obj>, a: nat)
    requires Exact(fs, f, pend, objs)
    ensures ExactAt(fs, f, pend, objs, a)
  {
  }

  lemma BackEnv(pr: Program, d: DefId, vs: seq<Value>, st: State, fuel: nat)
    ensures CallFn(pr, d, vs, st, fuel).st.env == st.env
  {
  }

  /** If the result is no reference and no field holds one, nothing is left. */
  lemma AllFreed(pr: Program, d: DefId, vs: seq<Value>, fuel: nat, a: nat)
    requires TidyProgram(pr)
    requires var r := CallFn(pr, d, vs, State(map[], []), fuel);
             && r.ctl.Normal? && !r.ctl.v.Ref? && a < |r.st.objs|
             && forall i, j | 0 <= i < |r.st.objs| && 0 <= j < |FieldsOf(r.st.objs[i])| ::
                !FieldsOf(r.st.objs[i])[j].Ref?
    ensures !CallFn(pr, d, vs, State(map[], []), fuel).st.objs[a].Counted?
  {
    CountsExact(pr, d, vs, fuel);
    var r := CallFn(pr, d, vs, State(map[], []), fuel);
    hide CallFn, TidyProgram;
    NoFields(r.st.objs, a);
    assert !Live(r.st.objs, a);
  }

  lemma {:induction false} NoFields(objs: seq<Obj>, a: nat)
    requires forall i, j | 0 <= i < |objs| && 0 <= j < |FieldsOf(objs[i])| :: !FieldsOf(objs[i])[j].Ref?
    ensures FieldOwners(objs, a) == 0
    decreases objs
  {
    if objs != [] {
      NoFields(objs[..|objs| - 1], a);
      NoRefs(FieldsOf(objs[|objs| - 1]), a);
    }
  }

  lemma {:induction false} NoRefs(vs: seq<Value>, a: nat)
    requires forall j | 0 <= j < |vs| :: !vs[j].Ref?
    ensures Refs(vs)[a] == 0
    decreases vs
  {
    if vs != [] {
      NoRefs(vs[1..], a);
    }
  }
}
