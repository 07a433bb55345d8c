/**
 Concrete-type facts about interface locals: what code generation believes after each
 construct, when the belief is right, and what a call made under a right belief does.
 */
module Devirt {
  import opened Hir
  import opened Scan
  import opened Semantics
  import opened IfaceTypes
  import opened FrameLocals
  import opened PollFacts

  type Facts = map<LocalId, DefId>

  // -- the facts ---------------------------------------------------------------------

  /** `ifaces` are the uncaptured locals of interface type. */
  function Note(ifaces: set<LocalId>, x: LocalId, value: Expr, f: Facts): Facts
  {
    if x in ifaces && Concrete(value).Some? then f[x := Concrete(value).value] else f - {x}
  }

  /** The facts after generating `e` from facts `f`. Conditionals and loops restore the
      map they started with and drop the locals assigned in their branches or body;
      `&&`, `||` and `for` just go on with the map. */
  function After(ifaces: set<LocalId>, e: Expr, f: Facts): Facts
    decreases e
  {
    match e
    case Await(_, x) => After(ifaces, x, f)
    case Prim(_, args) => AfterArgs(ifaces, args, f)
    case Logic(_, l, r) => After(ifaces, r, After(ifaces, l, f))
    case Call(_, args) => AfterArgs(ifaces, args, f)
    case Struct(_, fields) => AfterArgs(ifaces, fields, f)
    case Field(recv, _) => After(ifaces, recv, f)
    case Append(l, i) => After(ifaces, i, After(ifaces, l, f))
    case Adjust(_, inner) => After(ifaces, inner, f)
    case Cast(_, inner, _, _) => After(ifaces, inner, f)
    case If(_, t, els) => f - (AssignedBlock(t) + Assigned(els))
    case Match(_, arms) => f - AssignedArms(arms)
    case BlockExpr(b) => AfterBlock(ifaces, b, f)
    case Loop(b) => f - AssignedBlock(b)
    case While(_, b) => f - AssignedBlock(b)
    case For(_, iter, _, b, _) => AfterBlock(ifaces, b, After(ifaces, iter, f))
    case Return(v) => After(ifaces, v, f)
    case Break(v) => After(ifaces, v, f)
    case _ => f
  }

  function AfterArgs(ifaces: set<LocalId>, es: Exprs, f: Facts): Facts
    decreases es
  {
    if es.ENil? then f else AfterArgs(ifaces, es.tail, After(ifaces, es.head, f))
  }

  function AfterStmt(ifaces: set<LocalId>, st: Stmt, f: Facts): Facts
    decreases st
  {
    match st
    case Let(pat, init) =>
      var f1 := After(ifaces, init, f);
      if pat.Bind? then Note(ifaces, pat.local, init, f1) else f1 - PatSet(pat)
    case Assign(t, v) =>
      var f1 := After(ifaces, v, f);
      if t.Local? then Note(ifaces, t.x, v, f1) else After(ifaces, t, f1)
    case ExprStmt(e) => After(ifaces, e, f)
  }

  /** Generation stops at the first statement that terminates. */
  function AfterBlock(ifaces: set<LocalId>, b: Block, f: Facts): Facts
    decreases b
  {
    match b
    case Tail(e) => After(ifaces, e, f)
    case Then(st, rest) =>
      if TermStmt(st) then AfterStmt(ifaces, st, f) else AfterBlock(ifaces, rest, AfterStmt(ifaces, st, f))
  }

  /** The facts about the locals of `k` are true of `env`. */
  predicate Right(k: set<LocalId>, f: Facts, env: Env)
  {
    forall x <- f | x in k :: Get(env, x).Object? && Get(env, x).ty == f[x]
  }

  // -- facts on exit --------------------------------------------------------------------------

  /** Every assignment in `e` to a local that `g` speaks about notes what `g` says. */
  predicate Agreeing(e: Expr, k: set<LocalId>, g: Facts)
  {
    forall x <- g | x in k :: OnlyAs(x, Some(g[x]), e)
  }

  predicate AgreeingBlock(b: Block, k: set<LocalId>, g: Facts)
  {
    forall x <- g | x in k :: OnlyAsBlock(x, Some(g[x]), b)
  }

  /** About the locals of `k`, `g` says nothing that `f` does not say. */
  predicate Within(k: set<LocalId>, g: Facts, f: Facts)
  {
    forall x <- g | x in k :: x in f && f[x] == g[x]
  }

  /** Where the map is restored, the part outside the kill set agrees with what is kept;
      where it just goes on, the part that may not run adds and changes nothing. */
  predicate Calm(ifaces: set<LocalId>, e: Expr, k: set<LocalId>, f: Facts)
    decreases e
  {
    match e
    case Await(_, x) => Calm(ifaces, x, k, f)
    case Prim(_, args) => CalmArgs(ifaces, args, k, f)
    case Logic(_, l, r) =>
      var f1 := After(ifaces, l, f);
      Calm(ifaces, l, k, f) && Calm(ifaces, r, k, f1) && Within(k, After(ifaces, r, f1), f1)
    case Call(_, args) => CalmArgs(ifaces, args, k, f)
    case Struct(_, fields) => CalmArgs(ifaces, fields, k, f)
    case Field(recv, _) => Calm(ifaces, recv, k, f)
    case Append(l, i) => Calm(ifaces, l, k, f) && Calm(ifaces, i, k, After(ifaces, l, f))
    case Adjust(_, inner) => Calm(ifaces, inner, k, f)
    case Cast(_, inner, _, _) => Calm(ifaces, inner, k, f)
    case If(c, _, _) => Agreeing(c, k, After(ifaces, e, f))
    case Match(sc, _) => Agreeing(sc, k, After(ifaces, e, f))
    case BlockExpr(b) => CalmBlock(ifaces, b, k, f)
    case While(c, _) => Agreeing(c, k, After(ifaces, e, f))
    case For(_, iter, _, b, _) =>
      var f1 := After(ifaces, iter, f);
      Calm(ifaces, iter, k, f) && Within(k, AfterBlock(ifaces, b, f1), f1)
        && AgreeingBlock(b, k, AfterBlock(ifaces, b, f1))
    case _ => true
  }

  predicate CalmArgs(ifaces: set<LocalId>, es: Exprs, k: set<LocalId>, f: Facts)
    decreases es
  {
    es.ECons? ==> Calm(ifaces, es.head, k, f) && CalmArgs(ifaces, es.tail, k, After(ifaces, es.head, f))
  }

  predicate CalmStmt(ifaces: set<LocalId>, st: Stmt, k: set<LocalId>, f: Facts)
    decreases st
  {
    match st
    case Let(_, init) => Calm(ifaces, init, k, f)
    case Assign(t, v) => Calm(ifaces, v, k, f) && Calm(ifaces, t, k, After(ifaces, v, f))
    case ExprStmt(e) => Calm(ifaces, e, k, f)
  }

  predicate CalmBlock(ifaces: set<LocalId>, b: Block, k: set<LocalId>, f: Facts)
    decreases b
  {
    match b
    case Tail(e) => Calm(ifaces, e, k, f)
    case Then(st, rest) =>
      CalmStmt(ifaces, st, k, f) && CalmBlock(ifaces, rest, ScopeAfter(st, k), AfterStmt(ifaces, st, f))
  }

  /** A piece that binds no local of `k` and agrees with the facts keeps them right, however
      it ends. */
  lemma AgreeKeeps(pr: Program, k: set<LocalId>, g: Facts, e: Expr, s: State, fuel: nat)
    requires Right(k, g, s.env) && Bound(e) !! k && Agreeing(e, k, g)
    ensures Right(k, g, Eval(pr, e, s, fuel).s.env)
  {
    hide Eval;
    forall x <- g | x in k
      ensures Holds(x, g[x], Eval(pr, e, s, fuel).s.env)
    {
      KeptExpr(x, Some(g[x]), pr, e, s, fuel);
    }
  }

  lemma AgreeBlockKeeps(pr: Program, k: set<LocalId>, g: Facts, b: Block, s: State, fuel: nat)
    requires Right(k, g, s.env) && BoundBlock(b) !! k && AgreeingBlock(b, k, g)
    ensures Right(k, g, EvalBlock(pr, b, s, fuel).s.env)
  {
    hide EvalBlock;
    forall x <- g | x in k
      ensures Holds(x, g[x], EvalBlock(pr, b, s, fuel).s.env)
    {
      KeptBlock(x, Some(g[x]), pr, b, s, fuel);
    }
  }

  lemma RightFewer(k: set<LocalId>, f: Facts, g: Facts, env: Env)
    requires Right(k, f, env) && Within(k, g, f)
    ensures Right(k, g, env)
  {
  }

  /** Each binding site has a local of its own: nothing in scope is bound again. */
  predicate Fresh(e: Expr, k: set<LocalId>)
    decreases e
  {
    && Bound(e) !! k
    && match e
       case Await(_, x) => Fresh(x, k)
       case Prim(_, args) => FreshArgs(args, k)
       case Logic(_, l, r) => Fresh(l, k) && Fresh(r, k)
       case Call(_, args) => FreshArgs(args, k)
       case Struct(_, fields) => FreshArgs(fields, k)
       case Field(recv, _) => Fresh(recv, k)
       case Append(l, i) => Fresh(l, k) && Fresh(i, k)
       case Adjust(_, inner) => Fresh(inner, k)
       case Cast(_, inner, _, _) => Fresh(inner, k)
       case BlockExpr(b) => FreshBlock(b, k)
       case For(_, iter, _, _, _) => Fresh(iter, k)
       case _ => true
  }

  predicate FreshArgs(es: Exprs, k: set<LocalId>)
    decreases es
  {
    es.ECons? ==> Fresh(es.head, k) && FreshArgs(es.tail, k)
  }

  predicate FreshStmt(st: Stmt, k: set<LocalId>)
    decreases st
  {
    match st
    case Let(pat, init) => PatSet(pat) !! k && Fresh(init, k)
    case Assign(t, v) => Fresh(v, k) && Fresh(t, k)
    case ExprStmt(e) => Fresh(e, k)
  }

  predicate FreshBlock(b: Block, k: set<LocalId>)
    decreases b
  {
    match b
    case Tail(e) => Fresh(e, k)
    case Then(st, rest) => FreshStmt(st, k) && FreshBlock(rest, ScopeAfter(st, k))
  }

  ghost predicate Entry(ifaces: set<LocalId>, e: Expr, k: set<LocalId>, f: Facts, s: State)
  {
    Calm(ifaces, e, k, f) && Fresh(e, k) && Right(k, f, s.env)
  }

  /** Whenever the facts are right on entry and `e` yields a value, the facts that code
      generation goes on with are right, for every local in scope. */
  lemma {:induction false} ExitFacts(ifaces: set<LocalId>, pr: Program, e: Expr, k: set<LocalId>, f: Facts, s: State,
                                     fuel: nat)
    requires Entry(ifaces, e, k, f, s) && Eval(pr, e, s, fuel).ctl.Normal?
    ensures Right(k, After(ifaces, e, f), Eval(pr, e, s, fuel).s.env)
    decreases e, 0
  {
    hide Right, EvalBlock, EvalFor, EvalArms, AfterBlock;
    match e
    case Await(_, x) => ExitFacts(ifaces, pr, x, k, f, s, fuel);
    case Prim(_, args) => ExitArgs(ifaces, pr, args, k, f, s, fuel);
    case Struct(_, fields) => ExitArgs(ifaces, pr, fields, k, f, s, fuel);
    case Call(_, args) => ExitCall(ifaces, pr, e, k, f, s, fuel);
    case Field(recv, _) => ExitFacts(ifaces, pr, recv, k, f, s, fuel);
    case Adjust(_, inner) => ExitFacts(ifaces, pr, inner, k, f, s, fuel);
    case Cast(_, inner, _, _) => ExitFacts(ifaces, pr, inner, k, f, s, fuel);
    case Append(l, i) =>
      ExitFacts(ifaces, pr, l, k, f, s, fuel);
      ExitFacts(ifaces, pr, i, k, After(ifaces, l, f), Eval(pr, l, s, fuel).s, fuel);
    case Logic(_, _, _) => ExitLogic(ifaces, pr, e, k, f, s, fuel);
    case BlockExpr(b) => ExitBlock(ifaces, pr, b, k, f, s, fuel);
    case For(_, _, _, _, _) => ExitFor(ifaces, pr, e, k, f, s, fuel);
    case Return(_) => ReturnLeaves(pr, e, s, fuel);
    case Break(_) => ReturnLeaves(pr, e, s, fuel);
    case _ => ExitRestored(ifaces, pr, e, k, f, s, fuel);
  }

  /** Leaves, and the constructs that restore the map, on every exit. */
  lemma ExitRestored(ifaces: set<LocalId>, pr: Program, e: Expr, k: set<LocalId>, f: Facts, s: State, fuel: nat)
    requires Entry(ifaces, e, k, f, s)
    requires e.If? || e.Match? || e.While? || e.Loop? || e.Int? || e.Null? || e.Local? || e.Closure? || e.Continue?
    ensures Right(k, After(ifaces, e, f), Eval(pr, e, s, fuel).s.env)
  {
    var g := After(ifaces, e, f);
    RightFewer(k, f, g, s.env);
    forall x <- g | x in k
      ensures OnlyAs(x, Some(g[x]), e)
    {
      match e
      case If(_, t, els) => UnassignedBlock(x, Some(g[x]), t); UnassignedOnly(x, Some(g[x]), els);
      case Match(_, arms) => UnassignedArms(x, Some(g[x]), arms);
      case While(_, b) => UnassignedBlock(x, Some(g[x]), b);
      case Loop(b) => UnassignedBlock(x, Some(g[x]), b);
      case _ =>
    }
    AgreeKeeps(pr, k, g, e, s, fuel);
  }

  /** Conditions and scrutinees that assign nothing are calm, whatever the facts. */
  lemma QuietIsCalm(ifaces: set<LocalId>, e: Expr, k: set<LocalId>, f: Facts)
    requires match e
             case If(c, _, _) => Assigned(c) == {}
             case Match(sc, _) => Assigned(sc) == {}
             case While(c, _) => Assigned(c) == {}
             case Loop(_) => true
             case _ => false
    ensures Calm(ifaces, e, k, f)
  {
    var g := After(ifaces, e, f);
    forall x <- g | x in k
      ensures match e
              case If(c, _, _) => OnlyAs(x, Some(g[x]), c)
              case Match(sc, _) => OnlyAs(x, Some(g[x]), sc)
              case While(c, _) => OnlyAs(x, Some(g[x]), c)
              case _ => true
    {
      match e
      case If(c, _, _) => UnassignedOnly(x, Some(g[x]), c);
      case Match(sc, _) => UnassignedOnly(x, Some(g[x]), sc);
      case While(c, _) => UnassignedOnly(x, Some(g[x]), c);
      case _ =>
    }
  }

  lemma ReturnLeaves(pr: Program, e: Expr, s: State, fuel: nat)
    requires e.Return? || e.Break?
    ensures !Eval(pr, e, s, fuel).ctl.Normal?
  {
  }

  lemma {:induction false} ExitCall(ifaces: set<LocalId>, pr: Program, e: Expr, k: set<LocalId>, f: Facts, s: State,
                                    fuel: nat)
    requires Entry(ifaces, e, k, f, s) && Eval(pr, e, s, fuel).ctl.Normal? && e.Call?
    ensures Right(k, After(ifaces, e, f), Eval(pr, e, s, fuel).s.env)
    decreases e, -1
  {
    ExitArgs(ifaces, pr, e.args, k, f, s, fuel);
    var r := EvalArgs(pr, e.args, s, fuel);
    var (d, vs) := Dispatch(pr, e.callee, r.vs).value;
    hide CallFn, Dispatch;
    forall x <- k
      ensures SameAt(x, r.s.env, CallFn(pr, d, vs, r.s, fuel - 1).s.env)
    {
      CallFrame(x, pr, d, vs, r.s, fuel - 1);
    }
  }

  lemma {:induction false} ExitLogic(ifaces: set<LocalId>, pr: Program, e: Expr, k: set<LocalId>, f: Facts, s: State,
                                     fuel: nat)
    requires Entry(ifaces, e, k, f, s) && Eval(pr, e, s, fuel).ctl.Normal? && e.Logic?
    ensures Right(k, After(ifaces, e, f), Eval(pr, e, s, fuel).s.env)
    decreases e, -1
  {
    ExitFacts(ifaces, pr, e.left, k, f, s, fuel);
    var r, f1 := Eval(pr, e.left, s, fuel), After(ifaces, e.left, f);
    if Truthy(r.ctl.v) == e.isAnd {
      ExitFacts(ifaces, pr, e.right, k, f1, r.s, fuel);
    } else {
      RightFewer(k, f1, After(ifaces, e.right, f1), r.s.env);
    }
  }

  lemma {:induction false} ExitFor(ifaces: set<LocalId>, pr: Program, e: Expr, k: set<LocalId>, f: Facts, s: State,
                                   fuel: nat)
    requires Entry(ifaces, e, k, f, s) && Eval(pr, e, s, fuel).ctl.Normal? && e.For?
    ensures Right(k, After(ifaces, e, f), Eval(pr, e, s, fuel).s.env)
    decreases e, -1
  {
    var f1 := After(ifaces, e.iter, f);
    var g := AfterBlock(ifaces, e.body, f1);
    if e.driver.AsyncIter? {
      assert f1 == f;
      RightFewer(k, f, g, s.env);
      hide Eval, After, AfterBlock;
      forall x <- g | x in k ensures OnlyAs(x, Some(g[x]), e) {}
      AgreeKeeps(pr, k, g, e, s, fuel);
    } else {
      ExitFacts(ifaces, pr, e.iter, k, f, s, fuel);
      var r := Eval(pr, e.iter, s, fuel);
      var (c, m) := ForInit(e.driver, r.ctl.v, r.s.mem).value;
      hide ForInit;
      var s1, q := r.s.(mem := m), EvalFor(pr, e.driver, e.pat, e.body, c, r.s.(mem := m), fuel);
      hide EvalFor, AfterBlock;
      RightFewer(k, f1, g, s1.env);
      forall x <- g | x in k
        ensures Holds(x, g[x], q.s.env)
      {
        KeptForLoop(x, Some(g[x]), pr, e.driver, e.pat, e.body, c, s1, fuel);
      }
    }
  }

  lemma {:induction false} ExitArgs(ifaces: set<LocalId>, pr: Program, es: Exprs, k: set<LocalId>, f: Facts, s: State,
                                    fuel: nat)
    requires CalmArgs(ifaces, es, k, f) && FreshArgs(es, k) && Right(k, f, s.env)
             && EvalArgs(pr, es, s, fuel).ctl.Normal?
    ensures Right(k, AfterArgs(ifaces, es, f), EvalArgs(pr, es, s, fuel).s.env)
    decreases es
  {
    if es.ECons? {
      ExitFacts(ifaces, pr, es.head, k, f, s, fuel);
      ExitArgs(ifaces, pr, es.tail, k, After(ifaces, es.head, f), Eval(pr, es.head, s, fuel).s, fuel);
    }
  }

  /** After a `let` or an assignment of a local, what is noted about it is right. */
  lemma NoteRight(ifaces: set<LocalId>, pr: Program, x: LocalId, value: Expr, k: set<LocalId>, f: Facts, v: Value,
                  env: Env)
    requires Right(k, f, env) && (Concrete(value).Some? ==> v.Object? && v.ty == Concrete(value).value)
    ensures Right(k + {x}, Note(ifaces, x, value, f), env[x := v])
  {
  }

  lemma {:induction false} ExitStmt(ifaces: set<LocalId>, pr: Program, st: Stmt, k: set<LocalId>, f: Facts, s: State,
                                    fuel: nat)
    requires CalmStmt(ifaces, st, k, f) && FreshStmt(st, k) && Right(k, f, s.env)
             && EvalStmt(pr, st, s, fuel).ctl.Normal?
    ensures Right(ScopeAfter(st, k), AfterStmt(ifaces, st, f), EvalStmt(pr, st, s, fuel).s.env)
    decreases st
  {
    match st
    case Let(pat, init) => ExitLet(ifaces, pr, pat, init, k, f, s, fuel);
    case Assign(t, v) =>
      ExitFacts(ifaces, pr, v, k, f, s, fuel);
      var r, f1 := Eval(pr, v, s, fuel), After(ifaces, v, f);
      if Concrete(v).Some? {
        ConcreteRight(pr, v, s, fuel);
      }
      if t.Local? {
        NoteRight(ifaces, pr, t.x, v, k, f1, r.ctl.v, r.s.env);
      } else if t.Field? {
        ExitFacts(ifaces, pr, t.recv, k, f1, r.s, fuel);
      }
    case ExprStmt(e) => ExitFacts(ifaces, pr, e, k, f, s, fuel);
  }

  lemma {:induction false} ExitLet(ifaces: set<LocalId>, pr: Program, pat: Pattern, init: Expr, k: set<LocalId>,
                                   f: Facts, s: State, fuel: nat)
    requires Calm(ifaces, init, k, f) && PatSet(pat) !! k && Fresh(init, k) && Right(k, f, s.env)
    requires EvalStmt(pr, Let(pat, init), s, fuel).ctl.Normal?
    ensures Right(k + PatSet(pat), AfterStmt(ifaces, Let(pat, init), f), EvalStmt(pr, Let(pat, init), s, fuel).s.env)
    decreases init, 2
  {
    ExitInit(ifaces, pr, pat, init, k, f, s, fuel);
    var r, f1 := EvalInit(pr, pat, init, s, fuel), After(ifaces, init, f);
    hide EvalInit, After;
    if pat.Bind? {
      NoteRight(ifaces, pr, pat.local, init, k, f1, r.ctl.v, r.s.env);
      assert PatSet(pat) == {pat.local};
    } else {
      PatRight(pat, k, f1, r.ctl.v, r.s);
    }
  }

  lemma {:induction false} ExitInit(ifaces: set<LocalId>, pr: Program, pat: Pattern, init: Expr, k: set<LocalId>,
                                    f: Facts, s: State, fuel: nat)
    requires Calm(ifaces, init, k, f) && Fresh(init, k) && Right(k, f, s.env)
             && EvalInit(pr, pat, init, s, fuel).ctl.Normal?
    ensures Right(k, After(ifaces, init, f), EvalInit(pr, pat, init, s, fuel).s.env)
    ensures var v := EvalInit(pr, pat, init, s, fuel).ctl.v;
            Concrete(init).Some? ==> v.Object? && v.ty == Concrete(init).value
    decreases init, 1
  {
    if pat.Bind? && init.Struct? && pat.local in s.stacked {
      var blank := seq(Length(init.fields), _ => Num(0));
      ExitArgs(ifaces, pr, init.fields, k, f, s.(mem := s.mem.(stack := s.mem.stack[pat.local := blank])), fuel);
    } else {
      ExitFacts(ifaces, pr, init, k, f, s, fuel);
      if Concrete(init).Some? {
        ConcreteRight(pr, init, s, fuel);
      }
    }
  }

  lemma PatRight(pat: Pattern, k: set<LocalId>, f: Facts, v: Value, s: State)
    requires Right(k, f, s.env) && BindPat(s.env, s.mem, pat, v).Some? && !pat.Bind?
    ensures Right(k + PatSet(pat), f - PatSet(pat), BindPat(s.env, s.mem, pat, v).value)
  {
    forall x <- f - PatSet(pat) | x in k + PatSet(pat)
      ensures SameAt(x, s.env, BindPat(s.env, s.mem, pat, v).value)
    {
      BindFrame(x, s.env, s.mem, pat, v);
    }
  }

  lemma {:induction false} ExitBlock(ifaces: set<LocalId>, pr: Program, b: Block, k: set<LocalId>, f: Facts, s: State,
                                     fuel: nat)
    requires CalmBlock(ifaces, b, k, f) && FreshBlock(b, k) && Right(k, f, s.env)
             && EvalBlock(pr, b, s, fuel).ctl.Normal?
    ensures Right(k, AfterBlock(ifaces, b, f), EvalBlock(pr, b, s, fuel).s.env)
    decreases b
  {
    match b
    case Tail(e) => ExitFacts(ifaces, pr, e, k, f, s, fuel);
    case Then(st, rest) =>
      ExitStmt(ifaces, pr, st, k, f, s, fuel);
      var r := EvalStmt(pr, st, s, fuel);
      if TermStmt(st) {
        TermStmtLeaves(pr, st, s, fuel);
      }
      ExitBlock(ifaces, pr, rest, ScopeAfter(st, k), AfterStmt(ifaces, st, f), r.s, fuel);
  }
}
