/**
 Devirtualisation as a transformation of whole programs: every interface call on a local
 with a noted type becomes a direct call. Where the facts are right at every call site, the
 program means the same.
 */
module DevirtRuns {
  import opened Hir
  import opened Scan
  import opened Semantics
  import opened FrameLocals
  import opened PollFacts
  import opened Devirt
  import opened DevirtCalls
  import V = Vtables
  import L = AsyncLayout

  /** What code generation looks up: the interface locals and the definitions. */
  datatype Gen = Gen(ifaces: set<LocalId>, ds: V.Defs, lk: Linking)

  // -- the transformation ------------------------------------------------------------------

  /** The facts that hold, as code generation believes, when it comes to the arms after
      this one. */
  function AfterArm(g: Gen, arms: Arms, f: Facts): Facts
    requires arms.Arm?
  {
    After(g.ifaces, arms.arm, After(g.ifaces, arms.guard, f))
  }

  /** The call chosen for an interface method on receiver expression `recv`. */
  function Chosen(g: Gen, m: DefId, recv: Expr, f: Facts): Callee
  {
    if recv.Local? && recv.x in f && Found(g.ds, g.lk, f[recv.x], m).Some?
    then Known(Found(g.ds, g.lk, f[recv.x], m).value)
    else Virtual(m)
  }

  /** `e` as generated from the facts `f`. Each part starts from the facts that generating
      the parts before it has left: the `else` branch from those after the `then` branch, an
      arm from those after the arms before it, a loop body from those before the loop. */
  function Gen1(g: Gen, e: Expr, f: Facts): Expr
    decreases e
  {
    match e
    case Await(sp, x) => Await(sp, Gen1(g, x, f))
    case Prim(op, args) => Prim(op, GenArgs1(g, args, f))
    case Logic(a, l, r) => Logic(a, Gen1(g, l, f), Gen1(g, r, After(g.ifaces, l, f)))
    case Call(c, args) =>
      Call(if c.Virtual? && args.ECons? then Chosen(g, c.name, args.head, f) else c, GenArgs1(g, args, f))
    case Struct(d, fields) => Struct(d, GenArgs1(g, fields, f))
    case Field(recv, i) => Field(Gen1(g, recv, f), i)
    case Append(l, i) => Append(Gen1(g, l, f), Gen1(g, i, After(g.ifaces, l, f)))
    case Adjust(a, inner) => Adjust(a, Gen1(g, inner, f))
    case Cast(op, inner, tids, u) => Cast(op, Gen1(g, inner, f), tids, u)
    case If(c, t, els) =>
      var f1 := After(g.ifaces, c, f);
      If(Gen1(g, c, f), GenBlock1(g, t, f1), Gen1(g, els, AfterBlock(g.ifaces, t, f1)))
    case Match(sc, arms) => Match(Gen1(g, sc, f), GenArms1(g, arms, After(g.ifaces, sc, f)))
    case BlockExpr(b) => BlockExpr(GenBlock1(g, b, f))
    case Loop(b) => Loop(GenBlock1(g, b, f))
    case While(c, b) => While(Gen1(g, c, f), GenBlock1(g, b, After(g.ifaces, c, f)))
    case For(p, iter, sp, b, d) => For(p, Gen1(g, iter, f), sp, GenBlock1(g, b, After(g.ifaces, iter, f)), d)
    case Return(v) => Return(Gen1(g, v, f))
    case Break(v) => Break(Gen1(g, v, f))
    case _ => e
  }

  function GenArgs1(g: Gen, es: Exprs, f: Facts): Exprs
    decreases es
  {
    if es.ENil? then ENil else ECons(Gen1(g, es.head, f), GenArgs1(g, es.tail, After(g.ifaces, es.head, f)))
  }

  function GenArms1(g: Gen, arms: Arms, f: Facts): Arms
    decreases arms
  {
    if arms.NoArms? then NoArms
    else
      Arm(arms.pat, Gen1(g, arms.guard, f), Gen1(g, arms.arm, After(g.ifaces, arms.guard, f)),
          GenArms1(g, arms.rest, AfterArm(g, arms, f)))
  }

  function GenStmt1(g: Gen, st: Stmt, f: Facts): Stmt
    decreases st
  {
    match st
    case Let(p, init) => Let(p, Gen1(g, init, f))
    case Assign(t, v) => Assign(Gen1(g, t, After(g.ifaces, v, f)), Gen1(g, v, f))
    case ExprStmt(e) => ExprStmt(Gen1(g, e, f))
  }

  /** Nothing is generated after a statement that terminates. */
  function GenBlock1(g: Gen, b: Block, f: Facts): Block
    decreases b
  {
    match b
    case Tail(e) => Tail(Gen1(g, e, f))
    case Then(st, rest) =>
      Then(GenStmt1(g, st, f), if TermStmt(st) then rest else GenBlock1(g, rest, AfterStmt(g.ifaces, st, f)))
  }

  /** Every function is generated from no facts. */
  function Devirtualised(g: Gen, pr: Program): Program
  {
    pr.(funcs := map d | d in pr.funcs :: pr.funcs[d].(body := GenBlock1(g, pr.funcs[d].body, map[])))
  }

  // -- where the facts are right --------------------------------------------------------------

  /** A call site: a fact used there speaks about a local in scope whose table was emitted,
      for a plain type. */
  ghost predicate SiteOk(g: Gen, m: DefId, recv: Expr, k: set<LocalId>, f: Facts)
  {
    recv.Local? && recv.x in f && Found(g.ds, g.lk, f[recv.x], m).Some? ==>
      recv.x in k && exists iface :: Tabled(g.ds, g.lk, f[recv.x], m, iface) && Plain(g.ds, g.lk, f[recv.x], iface)
  }

  /** The facts are right at every call site inside `e`, whatever branches run and however
      often: what a branch leaves behind for the code generated after it adds and changes
      nothing, and a loop keeps the facts it starts from. */
  ghost predicate Fine(g: Gen, e: Expr, k: set<LocalId>, f: Facts)
    decreases e
  {
    && Fresh(e, k)
    && match e
       case Await(_, x) => Fine(g, x, k, f)
       case Prim(_, args) => FineArgs(g, args, k, f)
       case Logic(_, l, r) => Passes(g, l, k, f) && Fine(g, l, k, f) && Fine(g, r, k, After(g.ifaces, l, f))
       case Call(c, args) =>
         (c.Virtual? && args.ECons? ==> SiteOk(g, c.name, args.head, k, f)) && FineArgs(g, args, k, f)
       case Struct(_, fields) => FineArgs(g, fields, k, f)
       case Field(recv, _) => Fine(g, recv, k, f)
       case Append(l, i) => Passes(g, l, k, f) && Fine(g, l, k, f) && Fine(g, i, k, After(g.ifaces, l, f))
       case Adjust(_, inner) => Fine(g, inner, k, f)
       case Cast(_, inner, _, _) => Fine(g, inner, k, f)
       case If(c, t, els) =>
         var f1 := After(g.ifaces, c, f);
         var f2 := AfterBlock(g.ifaces, t, f1);
         Passes(g, c, k, f) && Fine(g, c, k, f) && FineBlock(g, t, k, f1) && Within(k, f2, f1) && Fine(g, els, k, f2)
       case Match(sc, arms) => Passes(g, sc, k, f) && Fine(g, sc, k, f) && FineArms(g, arms, k, After(g.ifaces, sc, f))
       case BlockExpr(b) => FineBlock(g, b, k, f)
       case Loop(b) => FineBlock(g, b, k, f) && AgreeingBlock(b, k, f)
       case While(c, b) =>
         && Passes(g, c, k, f) && Fine(g, c, k, f) && Agreeing(c, k, f)
         && FineBlock(g, b, k, After(g.ifaces, c, f)) && AgreeingBlock(b, k, f)
       case For(p, iter, _, b, _) =>
         var f1 := After(g.ifaces, iter, f);
         Passes(g, iter, k, f) && Fine(g, iter, k, f) && FineBlock(g, b, k, f1) && AgreeingBlock(b, k, f1)
       case Return(v) => Fine(g, v, k, f)
       case Break(v) => Fine(g, v, k, f)
       case _ => true
  }

  /** What follows `e` starts from facts that are right. */
  predicate Passes(g: Gen, e: Expr, k: set<LocalId>, f: Facts)
  {
    Calm(g.ifaces, e, k, f)
  }

  ghost predicate FineArgs(g: Gen, es: Exprs, k: set<LocalId>, f: Facts)
    decreases es
  {
    es.ECons? ==>
      Passes(g, es.head, k, f) && Fine(g, es.head, k, f) && FineArgs(g, es.tail, k, After(g.ifaces, es.head, f))
  }

  ghost predicate FineArms(g: Gen, arms: Arms, k: set<LocalId>, f: Facts)
    decreases arms
  {
    arms.Arm? ==>
      && PatSet(arms.pat) !! k
      && Passes(g, arms.guard, k, f) && Fine(g, arms.guard, k, f)
      && Fine(g, arms.arm, k, After(g.ifaces, arms.guard, f))
      && Within(k, AfterArm(g, arms, f), f) && Agreeing(arms.guard, k, AfterArm(g, arms, f))
      && FineArms(g, arms.rest, k, AfterArm(g, arms, f))
  }

  ghost predicate FineStmt(g: Gen, st: Stmt, k: set<LocalId>, f: Facts)
    decreases st
  {
    && FreshStmt(st, k)
    && match st
       case Let(_, init) => Fine(g, init, k, f)
       case Assign(t, v) => Passes(g, v, k, f) && Fine(g, v, k, f) && Fine(g, t, k, After(g.ifaces, v, f))
       case ExprStmt(e) => Fine(g, e, k, f)
  }

  ghost predicate FineBlock(g: Gen, b: Block, k: set<LocalId>, f: Facts)
    decreases b
  {
    match b
    case Tail(e) => Fine(g, e, k, f)
    case Then(st, rest) =>
      && FineStmt(g, st, k, f)
      && (TermStmt(st) ||
          (CalmStmt(g.ifaces, st, k, f) && FineBlock(g, rest, ScopeAfter(st, k), AfterStmt(g.ifaces, st, f))))
  }

  ghost predicate FineProgram(g: Gen, pr: Program)
  {
    && Wired(pr, g.ds, g.lk)
    && forall d <- pr.funcs :: FineBlock(g, pr.funcs[d].body, L.Elems(pr.funcs[d].params), map[])
  }

  // -- the same meaning ------------------------------------------------------------------------

  lemma ExitRight(g: Gen, pr: Program, e: Expr, k: set<LocalId>, f: Facts, s: State, fuel: nat)
    requires Passes(g, e, k, f) && Fresh(e, k) && Right(k, f, s.env) && Eval(pr, e, s, fuel).ctl.Normal?
    ensures Right(k, After(g.ifaces, e, f), Eval(pr, e, s, fuel).s.env)
  {
    ExitFacts(g.ifaces, pr, e, k, f, s, fuel);
  }

  lemma DevirtualisedAt(g: Gen, pr: Program, d: DefId)
    ensures var q := Devirtualised(g, pr);
            && q.prim == pr.prim && q.impls == pr.impls && (d in q.funcs <==> d in pr.funcs)
            && (d in pr.funcs ==> q.funcs[d] == pr.funcs[d].(body := GenBlock1(g, pr.funcs[d].body, map[])))
  {
  }

  /** Running the generated code of `e` is running `e`. */
  lemma {:induction false} SameExpr(g: Gen, pr: Program, e: Expr, k: set<LocalId>, f: Facts, s: State, fuel: nat)
    requires FineProgram(g, pr) && Fine(g, e, k, f) && Right(k, f, s.env)
    ensures Eval(Devirtualised(g, pr), Gen1(g, e, f), s, fuel) == Eval(pr, e, s, fuel)
    decreases fuel, e, 1
  {
    hide FineProgram, Devirtualised, Right, After, Fresh;
    match e
    case Prim(_, args) => SamePrim(g, pr, e, k, f, s, fuel);
    case Call(_, _) => SameCall(g, pr, e, k, f, s, fuel);
    case Struct(_, _) => SameStruct(g, pr, e, k, f, s, fuel);
    case Await(_, _) => SameStruct(g, pr, e, k, f, s, fuel);
    case Field(_, _) => SameField(g, pr, e, k, f, s, fuel);
    case Adjust(_, _) => SameOne(g, pr, e, k, f, s, fuel);
    case Cast(_, _, _, _) => SameOne(g, pr, e, k, f, s, fuel);
    case Logic(_, _, _) => SameTwo(g, pr, e, k, f, s, fuel);
    case Append(_, _) => SameTwo(g, pr, e, k, f, s, fuel);
    case If(_, _, _) => SameIf(g, pr, e, k, f, s, fuel);
    case Match(_, _) => SameMatch(g, pr, e, k, f, s, fuel);
    case BlockExpr(b) => SameBlock(g, pr, b, k, f, s, fuel);
    case Loop(_) => SameLoop(g, pr, e, k, f, s, fuel);
    case While(_, _) => SameWhile(g, pr, e, k, f, s, fuel);
    case For(_, _, _, _, _) => SameFor(g, pr, e, k, f, s, fuel);
    case Return(_) => SameOne(g, pr, e, k, f, s, fuel);
    case Break(_) => SameOne(g, pr, e, k, f, s, fuel);
    case _ =>
  }

  lemma {:induction false} SameStruct(g: Gen, pr: Program, e: Expr, k: set<LocalId>, f: Facts, s: State, fuel: nat)
    requires FineProgram(g, pr) && Fine(g, e, k, f) && Right(k, f, s.env) && (e.Struct? || e.Await?)
    ensures Eval(Devirtualised(g, pr), Gen1(g, e, f), s, fuel) == Eval(pr, e, s, fuel)
    decreases fuel, e, 0
  {
    hide FineProgram, Devirtualised, Right, After, Fresh, DoAwait, Alloc;
    if e.Struct? {
      SameArgs(g, pr, e.fields, k, f, s, fuel);
    } else {
      SameExpr(g, pr, e.fut, k, f, s, fuel);
    }
  }

  /** The forms with one operand. */
  lemma {:induction false} SameOne(g: Gen, pr: Program, e: Expr, k: set<LocalId>, f: Facts, s: State, fuel: nat)
    requires FineProgram(g, pr) && Fine(g, e, k, f) && Right(k, f, s.env)
    requires e.Adjust? || e.Cast? || e.Return? || e.Break?
    ensures Eval(Devirtualised(g, pr), Gen1(g, e, f), s, fuel) == Eval(pr, e, s, fuel)
    decreases fuel, e, 0
  {
    hide FineProgram, Devirtualised, Right, After, Fresh, ApplyCast, ApplyAdjust, DoAwait, HasBlock, BlockAt, Alloc;
    hide EvalBlock, EvalFor, EvalArgs, EvalArms, GenBlock1, FineBlock;
    match e
    case Adjust(_, inner) => SameExpr(g, pr, inner, k, f, s, fuel);
    case Cast(_, inner, _, _) => SameExpr(g, pr, inner, k, f, s, fuel);
    case Return(v) => SameExpr(g, pr, v, k, f, s, fuel);
    case Break(v) => SameExpr(g, pr, v, k, f, s, fuel);
  }

  lemma {:induction false} SameField(g: Gen, pr: Program, e: Expr, k: set<LocalId>, f: Facts, s: State, fuel: nat)
    requires FineProgram(g, pr) && Fine(g, e, k, f) && Right(k, f, s.env) && e.Field?
    ensures Eval(Devirtualised(g, pr), Gen1(g, e, f), s, fuel) == Eval(pr, e, s, fuel)
    decreases fuel, e, 0
  {
    hide FineProgram, Devirtualised, Right, After, HasBlock, BlockAt;
    SameExpr(g, pr, e.recv, k, f, s, fuel);
  }

  lemma {:induction false} SamePrim(g: Gen, pr: Program, e: Expr, k: set<LocalId>, f: Facts, s: State, fuel: nat)
    requires FineProgram(g, pr) && Fine(g, e, k, f) && Right(k, f, s.env) && e.Prim?
    ensures Eval(Devirtualised(g, pr), Gen1(g, e, f), s, fuel) == Eval(pr, e, s, fuel)
    decreases fuel, e, 0
  {
    hide FineProgram, Right, After, Fresh;
    SameArgs(g, pr, e.args, k, f, s, fuel);
    DevirtualisedAt(g, pr, 0);
    hide Devirtualised;
  }

  lemma {:induction false} SameTwo(g: Gen, pr: Program, e: Expr, k: set<LocalId>, f: Facts, s: State, fuel: nat)
    requires FineProgram(g, pr) && Fine(g, e, k, f) && Right(k, f, s.env) && (e.Logic? || e.Append?)
    ensures Eval(Devirtualised(g, pr), Gen1(g, e, f), s, fuel) == Eval(pr, e, s, fuel)
    decreases fuel, e, 0
  {
    hide FineProgram, Devirtualised, Right, After;
    var first, second := if e.Logic? then e.left else e.list, if e.Logic? then e.right else e.item;
    SameExpr(g, pr, first, k, f, s, fuel);
    var r := Eval(pr, first, s, fuel);
    if r.ctl.Normal? {
      ExitRight(g, pr, first, k, f, s, fuel);
      SameExpr(g, pr, second, k, After(g.ifaces, first, f), r.s, fuel);
    }
  }

  lemma {:induction false} SameIf(g: Gen, pr: Program, e: Expr, k: set<LocalId>, f: Facts, s: State, fuel: nat)
    requires FineProgram(g, pr) && Fine(g, e, k, f) && Right(k, f, s.env) && e.If?
    ensures Eval(Devirtualised(g, pr), Gen1(g, e, f), s, fuel) == Eval(pr, e, s, fuel)
    decreases fuel, e, 0
  {
    hide FineProgram, Devirtualised, Right, After, AfterBlock;
    SameExpr(g, pr, e.cond, k, f, s, fuel);
    var r, f1 := Eval(pr, e.cond, s, fuel), After(g.ifaces, e.cond, f);
    if r.ctl.Normal? {
      ExitRight(g, pr, e.cond, k, f, s, fuel);
      if Truthy(r.ctl.v) {
        SameBlock(g, pr, e.thn, k, f1, r.s, fuel);
      } else {
        var f2 := AfterBlock(g.ifaces, e.thn, f1);
        RightFewer(k, f1, f2, r.s.env);
        SameExpr(g, pr, e.els, k, f2, r.s, fuel);
      }
    }
  }

  lemma {:induction false} SameMatch(g: Gen, pr: Program, e: Expr, k: set<LocalId>, f: Facts, s: State, fuel: nat)
    requires FineProgram(g, pr) && Fine(g, e, k, f) && Right(k, f, s.env) && e.Match?
    ensures Eval(Devirtualised(g, pr), Gen1(g, e, f), s, fuel) == Eval(pr, e, s, fuel)
    decreases fuel, e, 0
  {
    hide FineProgram, Devirtualised, Right, After;
    SameExpr(g, pr, e.scrut, k, f, s, fuel);
    var r := Eval(pr, e.scrut, s, fuel);
    if r.ctl.Normal? {
      ExitRight(g, pr, e.scrut, k, f, s, fuel);
      SameArms(g, pr, e.arms, k, After(g.ifaces, e.scrut, f), r.ctl.v, r.s, fuel);
    }
  }

  lemma PatKeeps(pat: Pattern, k: set<LocalId>, f: Facts, v: Value, s: State)
    requires Right(k, f, s.env) && PatSet(pat) !! k && BindPat(s.env, s.mem, pat, v).Some?
    ensures Right(k, f, BindPat(s.env, s.mem, pat, v).value)
  {
    forall x <- f | x in k
      ensures SameAt(x, s.env, BindPat(s.env, s.mem, pat, v).value)
    {
      BindFrame(x, s.env, s.mem, pat, v);
    }
  }

  lemma {:induction false} SameArms(g: Gen, pr: Program, arms: Arms, k: set<LocalId>, f: Facts, v: Value, s: State,
                                    fuel: nat)
    requires FineProgram(g, pr) && FineArms(g, arms, k, f) && Right(k, f, s.env)
    ensures EvalArms(Devirtualised(g, pr), GenArms1(g, arms, f), v, s, fuel) == EvalArms(pr, arms, v, s, fuel)
    decreases fuel, arms, 0
  {
    hide FineProgram, Devirtualised, Right, After;
    if arms.Arm? {
      var f2 := AfterArm(g, arms, f);
      if !Matches(arms.pat, v) {
        RightFewer(k, f, f2, s.env);
        SameArms(g, pr, arms.rest, k, f2, v, s, fuel);
      } else if BindPat(s.env, s.mem, arms.pat, v).Some? {
        PatKeeps(arms.pat, k, f, v, s);
        var s1 := s.(env := BindPat(s.env, s.mem, arms.pat, v).value);
        SameGuarded(g, pr, arms, k, f, v, s1, fuel);
        GuardedIs(pr, arms, v, s, fuel);
        GuardedIs(Devirtualised(g, pr), GenArms1(g, arms, f), v, s, fuel);
        hide BindPat, Matches, EvalArms, Guarded, GenArms1, FineArms;
      }
    }
  }

  /** What an arm comes to once its pattern is bound. */
  function Guarded(pr: Program, arms: Arms, v: Value, s: State, fuel: nat): Out
    requires arms.Arm?
  {
    var q := Eval(pr, arms.guard, s, fuel);
    if !q.ctl.Normal? then q
    else if Truthy(q.ctl.v) then Eval(pr, arms.arm, q.s, fuel)
    else EvalArms(pr, arms.rest, v, q.s, fuel)
  }

  lemma GuardedIs(pr: Program, arms: Arms, v: Value, s: State, fuel: nat)
    requires arms.Arm? && Matches(arms.pat, v) && BindPat(s.env, s.mem, arms.pat, v).Some?
    ensures EvalArms(pr, arms, v, s, fuel)
            == Guarded(pr, arms, v, s.(env := BindPat(s.env, s.mem, arms.pat, v).value), fuel)
  {
    hide Eval, BindPat;
  }

  lemma {:induction false} SameGuarded(g: Gen, pr: Program, arms: Arms, k: set<LocalId>, f: Facts, v: Value, s: State,
                                       fuel: nat)
    requires arms.Arm? && FineProgram(g, pr) && FineArms(g, arms, k, f) && Right(k, f, s.env)
    ensures Guarded(Devirtualised(g, pr), GenArms1(g, arms, f), v, s, fuel) == Guarded(pr, arms, v, s, fuel)
    decreases fuel, arms, -1
  {
    hide FineProgram, Devirtualised, Right, After;
    var f1, f2 := After(g.ifaces, arms.guard, f), AfterArm(g, arms, f);
    SameExpr(g, pr, arms.guard, k, f, s, fuel);
    var q := Eval(pr, arms.guard, s, fuel);
    if q.ctl.Normal? {
      if Truthy(q.ctl.v) {
        ExitRight(g, pr, arms.guard, k, f, s, fuel);
        SameExpr(g, pr, arms.arm, k, f1, q.s, fuel);
      } else {
        RightFewer(k, f, f2, s.env);
        AgreeKeeps(pr, k, f2, arms.guard, s, fuel);
        SameArms(g, pr, arms.rest, k, f2, v, q.s, fuel);
      }
    }
  }

  lemma {:induction false} SameLoop(g: Gen, pr: Program, e: Expr, k: set<LocalId>, f: Facts, s: State, fuel: nat)
    requires FineProgram(g, pr) && Fine(g, e, k, f) && Right(k, f, s.env) && e.Loop?
    ensures Eval(Devirtualised(g, pr), Gen1(g, e, f), s, fuel) == Eval(pr, e, s, fuel)
    decreases fuel, e, 0
  {
    hide FineProgram, Devirtualised, Right, After;
    SameBlock(g, pr, e.body, k, f, s, fuel);
    var r := EvalBlock(pr, e.body, s, fuel);
    AgreeBlockKeeps(pr, k, f, e.body, s, fuel);
    hide EvalBlock;
    if (r.ctl.Normal? || r.ctl.Cont?) && fuel > 0 {
      SameExpr(g, pr, e, k, f, r.s, fuel - 1);
    }
  }

  /** A `while` whose condition just held. */
  function WhileRest(pr: Program, e: Expr, s: State, fuel: nat): Out
    requires e.While?
  {
    var r := EvalBlock(pr, e.body, s, fuel);
    if r.ctl.Brk? then Out(Normal(Nil), r.s)
    else if !r.ctl.Normal? && !r.ctl.Cont? then r
    else if fuel == 0 then Out(Timeout, r.s)
    else Eval(pr, e, r.s, fuel - 1)
  }

  lemma WhileUnfold(pr: Program, e: Expr, s: State, fuel: nat)
    requires e.While?
    ensures var c := Eval(pr, e.cond, s, fuel);
            Eval(pr, e, s, fuel) ==
            if !c.ctl.Normal? then c
            else if !Truthy(c.ctl.v) then Out(Normal(Nil), c.s)
            else WhileRest(pr, e, c.s, fuel)
  {
    hide EvalBlock;
  }

  lemma {:induction false} SameWhile(g: Gen, pr: Program, e: Expr, k: set<LocalId>, f: Facts, s: State, fuel: nat)
    requires FineProgram(g, pr) && Fine(g, e, k, f) && Right(k, f, s.env) && e.While?
    ensures Eval(Devirtualised(g, pr), Gen1(g, e, f), s, fuel) == Eval(pr, e, s, fuel)
    decreases fuel, e, 0
  {
    hide FineProgram, Devirtualised, Right, After;
    WhileUnfold(pr, e, s, fuel);
    WhileUnfold(Devirtualised(g, pr), Gen1(g, e, f), s, fuel);
    assert Bound(e.cond) !! k;
    hide Eval, WhileRest;
    SameExpr(g, pr, e.cond, k, f, s, fuel);
    var c := Eval(pr, e.cond, s, fuel);
    if c.ctl.Normal? && Truthy(c.ctl.v) {
      AgreeKeeps(pr, k, f, e.cond, s, fuel);
      ExitRight(g, pr, e.cond, k, f, s, fuel);
      SameWhileRest(g, pr, e, k, f, c.s, fuel);
    }
  }

  lemma {:induction false} SameWhileRest(g: Gen, pr: Program, e: Expr, k: set<LocalId>, f: Facts, s: State, fuel: nat)
    requires FineProgram(g, pr) && Fine(g, e, k, f) && e.While? && Right(k, f, s.env)
             && Right(k, After(g.ifaces, e.cond, f), s.env)
    ensures WhileRest(Devirtualised(g, pr), Gen1(g, e, f), s, fuel) == WhileRest(pr, e, s, fuel)
    decreases fuel, e.body, 2
  {
    hide FineProgram, Devirtualised, Right, After;
    assert BoundBlock(e.body) !! k;
    SameBlock(g, pr, e.body, k, After(g.ifaces, e.cond, f), s, fuel);
    AgreeBlockKeeps(pr, k, f, e.body, s, fuel);
    var r := EvalBlock(pr, e.body, s, fuel);
    hide EvalBlock, Eval, Fresh;
    if (r.ctl.Normal? || r.ctl.Cont?) && fuel > 0 {
      SameExpr(g, pr, e, k, f, r.s, fuel - 1);
    }
  }

  lemma {:induction false} SameFor(g: Gen, pr: Program, e: Expr, k: set<LocalId>, f: Facts, s: State, fuel: nat)
    requires FineProgram(g, pr) && Fine(g, e, k, f) && Right(k, f, s.env) && e.For?
    ensures Eval(Devirtualised(g, pr), Gen1(g, e, f), s, fuel) == Eval(pr, e, s, fuel)
    decreases fuel, e, 0
  {
    assert PatSet(e.pat) !! k && BoundBlock(e.body) !! k && Fresh(e.iter, k);
    hide FineProgram, Devirtualised, Right, Fresh;
    if e.driver.AsyncIter? {
      if e.iter.Local? {
        assert After(g.ifaces, e.iter, f) == f;
        hide After, EvalForAwait;
        SameForAwait(g, pr, e.iter.x, e.driver, e.pat, e.body, k, f, s, fuel);
      }
    } else {
      hide After, EvalFor;
      SameExpr(g, pr, e.iter, k, f, s, fuel);
      var r := Eval(pr, e.iter, s, fuel);
      if r.ctl.Normal? && ForInit(e.driver, r.ctl.v, r.s.mem).Some? {
        ExitRight(g, pr, e.iter, k, f, s, fuel);
        var (c, m) := ForInit(e.driver, r.ctl.v, r.s.mem).value;
        hide ForInit;
        SameForLoop(g, pr, e.driver, e.pat, e.body, c, k, After(g.ifaces, e.iter, f), r.s.(mem := m), fuel);
      }
    }
  }

  /** One round: bind the item, run the body, and the facts are right for the next. */
  lemma {:induction false} SameRound(g: Gen, pr: Program, pat: Pattern, body: Block, v: Value, k: set<LocalId>,
                                     f: Facts, s: State, fuel: nat)
    requires FineProgram(g, pr) && FineBlock(g, body, k, f) && AgreeingBlock(body, k, f) && Right(k, f, s.env)
    requires PatSet(pat) !! k && BoundBlock(body) !! k && BindPat(s.env, s.mem, pat, v).Some?
    ensures var s1 := s.(env := BindPat(s.env, s.mem, pat, v).value);
            && EvalBlock(Devirtualised(g, pr), GenBlock1(g, body, f), s1, fuel) == EvalBlock(pr, body, s1, fuel)
            && Right(k, f, EvalBlock(pr, body, s1, fuel).s.env)
    decreases fuel, body, 1
  {
    hide FineProgram, Devirtualised, Right;
    PatKeeps(pat, k, f, v, s);
    hide BindPat;
    var s1 := s.(env := BindPat(s.env, s.mem, pat, v).value);
    SameBlock(g, pr, body, k, f, s1, fuel);
    AgreeBlockKeeps(pr, k, f, body, s1, fuel);
  }

  lemma StepRight(pr: Program, d: ForDriver, c: Cursor, k: set<LocalId>, f: Facts, s: State, fuel: nat)
    requires Right(k, f, s.env)
    ensures Right(k, f, ForStep(pr, d, c, s, fuel).s.env)
  {
    hide ForStep;
    forall x <- f | x in k
      ensures SameAt(x, s.env, ForStep(pr, d, c, s, fuel).s.env)
    {
      StepFrame(x, pr, d, c, s, fuel);
    }
  }

  /** What an ordinary `for` comes to once it has an item. */
  function WithItem(pr: Program, d: ForDriver, pat: Pattern, body: Block, c: Cursor, v: Value, s: State, fuel: nat): Out
  {
    match BindPat(s.env, s.mem, pat, v)
    case None => Out(Stuck, s)
    case Some(env') =>
      var r := EvalBlock(pr, body, s.(env := env'), fuel);
      if r.ctl.Brk? then Out(Normal(Nil), r.s)
      else if !r.ctl.Normal? && !r.ctl.Cont? then r
      else EvalFor(pr, d, pat, body, Advance(d, c), r.s, fuel)
  }

  lemma ForUnfold(pr: Program, d: ForDriver, pat: Pattern, body: Block, c: Cursor, s: State, fuel: nat)
    requires fuel > 0
    ensures EvalFor(pr, d, pat, body, c, s, fuel) ==
            match ForStep(pr, d, c, s, fuel - 1)
            case Fail(ctl, s') => Out(ctl, s')
            case Done(s') => Out(Normal(Nil), s')
            case Item(v, s') => WithItem(pr, d, pat, body, c, v, s', fuel - 1)
  {
    hide ForStep, EvalBlock;
  }

  lemma {:induction false} SameForLoop(g: Gen, pr: Program, d: ForDriver, pat: Pattern, body: Block, c: Cursor,
                                       k: set<LocalId>, f: Facts, s: State, fuel: nat)
    requires FineProgram(g, pr) && FineBlock(g, body, k, f) && AgreeingBlock(body, k, f) && Right(k, f, s.env)
    requires PatSet(pat) !! k && BoundBlock(body) !! k
    ensures EvalFor(Devirtualised(g, pr), d, pat, GenBlock1(g, body, f), c, s, fuel)
            == EvalFor(pr, d, pat, body, c, s, fuel)
    decreases fuel, body, 2
  {
    hide FineProgram, Devirtualised, Right, FineBlock, GenBlock1, AgreeingBlock, BoundBlock, PatSet;
    if fuel > 0 {
      ForUnfold(pr, d, pat, body, c, s, fuel);
      ForUnfold(Devirtualised(g, pr), d, pat, GenBlock1(g, body, f), c, s, fuel);
      SameStep(g, pr, d, c, s, fuel - 1);
      StepRight(pr, d, c, k, f, s, fuel - 1);
      var a := ForStep(pr, d, c, s, fuel - 1);
      hide ForStep, EvalFor, WithItem;
      if a.Item? {
        SameWithItem(g, pr, d, pat, body, c, a.v, k, f, a.s, fuel - 1);
      }
    }
  }

  lemma {:induction false} SameWithItem(g: Gen, pr: Program, d: ForDriver, pat: Pattern, body: Block, c: Cursor,
                                        v: Value, k: set<LocalId>, f: Facts, s: State, fuel: nat)
    requires FineProgram(g, pr) && FineBlock(g, body, k, f) && AgreeingBlock(body, k, f) && Right(k, f, s.env)
    requires PatSet(pat) !! k && BoundBlock(body) !! k
    ensures WithItem(Devirtualised(g, pr), d, pat, GenBlock1(g, body, f), c, v, s, fuel)
            == WithItem(pr, d, pat, body, c, v, s, fuel)
    decreases fuel, body, 3
  {
    hide FineProgram, Devirtualised, Right, FineBlock, GenBlock1, AgreeingBlock, BoundBlock, PatSet, EvalFor, Eval,
         Advance;
    hide BindPat, EvalBlock, EvalStmt, EvalArgs, EvalArms, Gen1, GenStmt1;
    if BindPat(s.env, s.mem, pat, v).Some? {
      SameRound(g, pr, pat, body, v, k, f, s, fuel);
      var r := EvalBlock(pr, body, s.(env := BindPat(s.env, s.mem, pat, v).value), fuel);
      if r.ctl.Normal? || r.ctl.Cont? {
        SameForLoop(g, pr, d, pat, body, Advance(d, c), k, f, r.s, fuel);
      }
    }
  }

  /** What a `for await` comes to once its stream has answered. */
  function WithAnswer(pr: Program, y: LocalId, d: ForDriver, pat: Pattern, body: Block, u: Value, s: State,
                      fuel: nat): Out
    requires d.AsyncIter?
  {
    match ItemOf(u, d.done, s.mem)
    case None => Out(Stuck, s)
    case Some(None) => Out(Normal(Nil), s)
    case Some(Some(v)) =>
      match BindPat(s.env, s.mem, pat, v)
      case None => Out(Stuck, s)
      case Some(env') =>
        var r := EvalBlock(pr, body, s.(env := env'), fuel);
        if r.ctl.Brk? then Out(Normal(Nil), r.s)
        else if !r.ctl.Normal? && !r.ctl.Cont? then r
        else EvalForAwait(pr, y, d, pat, body, r.s, fuel)
  }

  lemma AwaitUnfold(pr: Program, y: LocalId, d: ForDriver, pat: Pattern, body: Block, s: State, fuel: nat)
    requires fuel > 0 && d.AsyncIter?
    ensures var q := CallFn(pr, d.next, [Get(s.env, y)], s, fuel - 1);
            EvalForAwait(pr, y, d, pat, body, s, fuel) ==
            if !q.ctl.Normal? then q
            else
              var a := DoAwait(q.ctl.v, q.s);
              if !a.ctl.Normal? then a else WithAnswer(pr, y, d, pat, body, a.ctl.v, a.s, fuel - 1)
  {
    hide CallFn, EvalBlock;
  }

  lemma {:induction false} SameForAwait(g: Gen, pr: Program, y: LocalId, d: ForDriver, pat: Pattern, body: Block,
                                        k: set<LocalId>, f: Facts, s: State, fuel: nat)
    requires FineProgram(g, pr) && FineBlock(g, body, k, f) && AgreeingBlock(body, k, f) && Right(k, f, s.env)
    requires PatSet(pat) !! k && BoundBlock(body) !! k && d.AsyncIter?
    ensures EvalForAwait(Devirtualised(g, pr), y, d, pat, GenBlock1(g, body, f), s, fuel)
         == EvalForAwait(pr, y, d, pat, body, s, fuel)
    decreases fuel, body, 2
  {
    hide FineProgram, Devirtualised, FineBlock, GenBlock1, AgreeingBlock, BoundBlock, PatSet;
    if fuel > 0 {
      AwaitUnfold(pr, y, d, pat, body, s, fuel);
      AwaitUnfold(Devirtualised(g, pr), y, d, pat, GenBlock1(g, body, f), s, fuel);
      var vs := [Get(s.env, y)];
      SameFn(g, pr, d.next, vs, s, fuel - 1);
      var q := CallFn(pr, d.next, vs, s, fuel - 1);
      forall x <- f | x in k ensures SameAt(x, s.env, q.s.env) { CallFrame(x, pr, d.next, vs, s, fuel - 1); }
      assert Right(k, f, q.s.env);
      hide CallFn, Right, EvalForAwait, WithAnswer;
      if q.ctl.Normal? {
        var a := DoAwait(q.ctl.v, q.s);
        if a.ctl.Normal? {
          SameWithAnswer(g, pr, y, d, pat, body, a.ctl.v, k, f, a.s, fuel - 1);
        }
      }
    }
  }

  lemma {:induction false} SameWithAnswer(g: Gen, pr: Program, y: LocalId, d: ForDriver, pat: Pattern, body: Block,
                                          u: Value, k: set<LocalId>, f: Facts, s: State, fuel: nat)
    requires FineProgram(g, pr) && FineBlock(g, body, k, f) && AgreeingBlock(body, k, f) && Right(k, f, s.env)
    requires PatSet(pat) !! k && BoundBlock(body) !! k && d.AsyncIter?
    ensures WithAnswer(Devirtualised(g, pr), y, d, pat, GenBlock1(g, body, f), u, s, fuel)
            == WithAnswer(pr, y, d, pat, body, u, s, fuel)
    decreases fuel, body, 3
  {
    hide FineProgram, Devirtualised, Right, FineBlock, GenBlock1, AgreeingBlock, BoundBlock, PatSet, EvalForAwait;
    match ItemOf(u, d.done, s.mem)
    case Some(Some(v)) =>
      if BindPat(s.env, s.mem, pat, v).Some? {
        SameRound(g, pr, pat, body, v, k, f, s, fuel);
        var r := EvalBlock(pr, body, s.(env := BindPat(s.env, s.mem, pat, v).value), fuel);
        hide BindPat, EvalBlock;
        if r.ctl.Normal? || r.ctl.Cont? {
          SameForAwait(g, pr, y, d, pat, body, k, f, r.s, fuel);
        }
      }
    case _ =>
  }

  lemma {:induction false} SameStep(g: Gen, pr: Program, d: ForDriver, c: Cursor, s: State, fuel: nat)
    requires FineProgram(g, pr)
    ensures ForStep(Devirtualised(g, pr), d, c, s, fuel) == ForStep(pr, d, c, s, fuel)
    decreases fuel, ENil, 2
  {
    hide FineProgram, Devirtualised, CallFn;
    if d.Iterator? {
      SameFn(g, pr, d.next, [c.primary], s, fuel);
    }
  }

  lemma {:induction false} SameArgs(g: Gen, pr: Program, es: Exprs, k: set<LocalId>, f: Facts, s: State, fuel: nat)
    requires FineProgram(g, pr) && FineArgs(g, es, k, f) && Right(k, f, s.env)
    ensures EvalArgs(Devirtualised(g, pr), GenArgs1(g, es, f), s, fuel) == EvalArgs(pr, es, s, fuel)
    decreases fuel, es, 0
  {
    hide FineProgram, Devirtualised, Right, After;
    if es.ECons? {
      SameExpr(g, pr, es.head, k, f, s, fuel);
      var h := Eval(pr, es.head, s, fuel);
      if h.ctl.Normal? {
        ExitRight(g, pr, es.head, k, f, s, fuel);
        SameArgs(g, pr, es.tail, k, After(g.ifaces, es.head, f), h.s, fuel);
      }
    }
  }

  /** The chosen call is the virtual one, whatever the other arguments are. */
  lemma SameDispatch(g: Gen, pr: Program, m: DefId, recv: Expr, k: set<LocalId>, f: Facts, env: Env, vs: seq<Value>)
    requires Wired(pr, g.ds, g.lk) && SiteOk(g, m, recv, k, f) && Right(k, f, env)
    requires |vs| > 0 && (recv.Local? ==> vs[0] == Get(env, recv.x))
    ensures Dispatch(Devirtualised(g, pr), Chosen(g, m, recv, f), vs) == Dispatch(pr, Virtual(m), vs)
  {
    if Chosen(g, m, recv, f).Known? {
      var ty := f[recv.x];
      var iface :| Tabled(g.ds, g.lk, ty, m, iface) && Plain(g.ds, g.lk, ty, iface);
      LoadedIsFound(g.ds, g.lk, ty, m, iface);
    }
  }

  lemma {:induction false} SameCall(g: Gen, pr: Program, e: Expr, k: set<LocalId>, f: Facts, s: State, fuel: nat)
    requires FineProgram(g, pr) && Fine(g, e, k, f) && Right(k, f, s.env) && e.Call?
    ensures Eval(Devirtualised(g, pr), Gen1(g, e, f), s, fuel) == Eval(pr, e, s, fuel)
    decreases fuel, e, 0
  {
    assert Wired(pr, g.ds, g.lk);
    hide FineProgram, Wired, After, Fresh;
    var q, r := Devirtualised(g, pr), EvalArgs(pr, e.args, s, fuel);
    var callee := Gen1(g, e, f).callee;
    SameArgs(g, pr, e.args, k, f, s, fuel);
    if r.ctl.Normal? {
      assert Dispatch(q, callee, r.vs) == Dispatch(pr, e.callee, r.vs) by {
        if e.callee.Virtual? && e.args.ECons? {
          if e.args.head.Local? {
            FirstIs(pr, e.args, s, fuel);
          }
          ArgsNonEmpty(pr, e.args, s, fuel);
          SameDispatch(g, pr, e.callee.name, e.args.head, k, f, s.env, r.vs);
        }
      }
      hide Devirtualised, Dispatch, EvalArgs;
      if Dispatch(pr, e.callee, r.vs).Some? && fuel > 0 {
        var (d, vs) := Dispatch(pr, e.callee, r.vs).value;
        SameFn(g, pr, d, vs, r.s, fuel - 1);
      }
    }
  }

  lemma FirstIs(pr: Program, es: Exprs, s: State, fuel: nat)
    requires es.ECons? && es.head.Local? && EvalArgs(pr, es, s, fuel).ctl.Normal?
    ensures |EvalArgs(pr, es, s, fuel).vs| > 0 && EvalArgs(pr, es, s, fuel).vs[0] == Get(s.env, es.head.x)
  {
    assert Eval(pr, es.head, s, fuel) == Out(Normal(Get(s.env, es.head.x)), s);
  }

  lemma ArgsNonEmpty(pr: Program, es: Exprs, s: State, fuel: nat)
    requires es.ECons? && EvalArgs(pr, es, s, fuel).ctl.Normal?
    ensures |EvalArgs(pr, es, s, fuel).vs| > 0
  {
  }

  lemma {:induction false} SameFn(g: Gen, pr: Program, d: DefId, vs: seq<Value>, s: State, fuel: nat)
    requires FineProgram(g, pr)
    ensures CallFn(Devirtualised(g, pr), d, vs, s, fuel) == CallFn(pr, d, vs, s, fuel)
    decreases fuel, ENil, 1
  {
    DevirtualisedAt(g, pr, d);
    if d in pr.funcs && |pr.funcs[d].params| == |vs| && fuel > 0 {
      var f := pr.funcs[d];
      assert FineBlock(g, f.body, L.Elems(f.params), map[]);
      hide FineProgram, Devirtualised;
      var s1 := Enter(s, f, vs);
      assert Right(L.Elems(f.params), map[], s1.env);
      SameBlock(g, pr, f.body, L.Elems(f.params), map[], s1, fuel - 1);
      hide EvalBlock;
    }
  }

  lemma {:induction false} SameStore(g: Gen, pr: Program, target: Expr, v: Value, k: set<LocalId>, f: Facts, s: State,
                                     fuel: nat)
    requires FineProgram(g, pr) && Fine(g, target, k, f) && Right(k, f, s.env)
    ensures EvalStore(Devirtualised(g, pr), Gen1(g, target, f), v, s, fuel) == EvalStore(pr, target, v, s, fuel)
    decreases fuel, target, 2
  {
    hide FineProgram, Devirtualised, Right, Eval, EvalBlock, EvalArgs, GenBlock1, GenArgs1, FineBlock, FineArgs, After;
    if target.Field? {
      SameExpr(g, pr, target.recv, k, f, s, fuel);
    }
  }

  lemma {:induction false} GenLength(g: Gen, es: Exprs, f: Facts)
    ensures Length(GenArgs1(g, es, f)) == Length(es)
    decreases es
  {
    if es.ECons? {
      GenLength(g, es.tail, After(g.ifaces, es.head, f));
    }
  }

  /** The zeroed frame block of `x` for a literal of `n` fields. */
  function Blanked(s: State, x: LocalId, n: nat): State
  {
    s.(mem := s.mem.(stack := s.mem.stack[x := seq(n, _ => Num(0))]))
  }

  function SlotOut(x: LocalId, r: Outs): Out
  {
    if !r.ctl.Normal? then Out(r.ctl, r.s)
    else
      var (m', p) := AllocSlot(r.s.mem, x, r.vs);
      Out(Normal(p), r.s.(mem := m'))
  }

  lemma InitUnfold(pr: Program, pat: Pattern, init: Expr, s: State, fuel: nat)
    ensures EvalInit(pr, pat, init, s, fuel) ==
            if pat.Bind? && init.Struct? && pat.local in s.stacked
            then SlotOut(pat.local, EvalArgs(pr, init.fields, Blanked(s, pat.local, Length(init.fields)), fuel))
            else Eval(pr, init, s, fuel)
  {
    hide Eval, EvalArgs;
  }

  lemma {:induction false} SameInit(g: Gen, pr: Program, pat: Pattern, init: Expr, k: set<LocalId>, f: Facts, s: State,
                                    fuel: nat)
    requires FineProgram(g, pr) && Fine(g, init, k, f) && Right(k, f, s.env)
    ensures EvalInit(Devirtualised(g, pr), pat, Gen1(g, init, f), s, fuel) == EvalInit(pr, pat, init, s, fuel)
    decreases fuel, init, 2
  {
    hide FineProgram, Devirtualised, Right, After, Fresh;
    InitUnfold(pr, pat, init, s, fuel);
    InitUnfold(Devirtualised(g, pr), pat, Gen1(g, init, f), s, fuel);
    assert Gen1(g, init, f).Struct? <==> init.Struct?;
    hide EvalInit, Eval, EvalArgs, SlotOut;
    if pat.Bind? && init.Struct? && pat.local in s.stacked {
      assert FineArgs(g, init.fields, k, f) && Gen1(g, init, f).fields == GenArgs1(g, init.fields, f);
      hide Fine, FineArgs, Gen1, GenArgs1;
      GenLength(g, init.fields, f);
      SameArgs(g, pr, init.fields, k, f, Blanked(s, pat.local, Length(init.fields)), fuel);
    } else {
      hide Fine, Gen1;
      SameExpr(g, pr, init, k, f, s, fuel);
    }
  }

  lemma {:induction false} SameStmt(g: Gen, pr: Program, st: Stmt, k: set<LocalId>, f: Facts, s: State, fuel: nat)
    requires FineProgram(g, pr) && FineStmt(g, st, k, f) && Right(k, f, s.env)
    ensures EvalStmt(Devirtualised(g, pr), GenStmt1(g, st, f), s, fuel) == EvalStmt(pr, st, s, fuel)
    decreases fuel, st, 1
  {
    hide FineProgram, Devirtualised, Right, After, Fine;
    match st
    case Let(pat, init) =>
      SameInit(g, pr, pat, init, k, f, s, fuel);
      hide EvalInit;
    case Assign(t, v) =>
      SameExpr(g, pr, v, k, f, s, fuel);
      var r := Eval(pr, v, s, fuel);
      if r.ctl.Normal? {
        ExitRight(g, pr, v, k, f, s, fuel);
        SameStore(g, pr, t, r.ctl.v, k, After(g.ifaces, v, f), r.s, fuel);
      }
      hide EvalStore, Eval;
    case ExprStmt(e) => SameExpr(g, pr, e, k, f, s, fuel);
  }

  lemma {:induction false} SameBlock(g: Gen, pr: Program, b: Block, k: set<LocalId>, f: Facts, s: State, fuel: nat)
    requires FineProgram(g, pr) && FineBlock(g, b, k, f) && Right(k, f, s.env)
    ensures EvalBlock(Devirtualised(g, pr), GenBlock1(g, b, f), s, fuel) == EvalBlock(pr, b, s, fuel)
    decreases fuel, b, 0
  {
    hide FineProgram, Devirtualised, Right, After, AfterStmt;
    match b
    case Tail(e) => SameExpr(g, pr, e, k, f, s, fuel);
    case Then(st, rest) =>
      SameStmt(g, pr, st, k, f, s, fuel);
      var r := EvalStmt(pr, st, s, fuel);
      if TermStmt(st) {
        TermStmtLeaves(pr, st, s, fuel);
        hide EvalStmt;
      } else if r.ctl.Normal? {
        ExitStmt(g.ifaces, pr, st, k, f, s, fuel);
        hide EvalStmt;
        SameBlock(g, pr, rest, ScopeAfter(st, k), AfterStmt(g.ifaces, st, f), r.s, fuel);
      } else {
        hide EvalStmt;
      }
  }

  /** Whole runs: calling any function of a devirtualised program with any arguments, in any
      state, has the same outcome and effects as calling it in the plain program. */
  lemma DevirtPreserves(g: Gen, pr: Program, d: DefId, vs: seq<Value>, s: State, fuel: nat)
    requires FineProgram(g, pr)
    ensures CallFn(Devirtualised(g, pr), d, vs, s, fuel) == CallFn(pr, d, vs, s, fuel)
  {
    SameFn(g, pr, d, vs, s, fuel);
  }

  // -- a branch that spoils the next ---------------------------------------------------------------

  /** `if c { x = B {} } else { x.m() }` under the fact that `x` holds an `A`. */
  function SpoiledElse(c: Expr, m: DefId, b: DefId): Expr
  {
    If(c, Then(SetTo(b), Tail(Null)), Call(Virtual(m), ECons(Local(0), ENil)))
  }

  /** The `else` branch is generated from what the `then` branch noted: on an `A` it calls the
      method of `B`. That is the right function exactly if both types implement `m` by the
      same one, and the condition `Fine` fails exactly if `B` is not `A`. */
  lemma ElseBranchWrong(g: Gen, pr: Program, a: DefId, b: DefId, m: DefId, dA: DefId, dB: DefId, data: Value)
    requires Wired(pr, g.ds, g.lk) && 0 in g.ifaces
    requires Loaded(g.ds, g.lk, a, m) == Some(dA) && Found(g.ds, g.lk, b, m) == Some(dB)
    requires exists iface :: Tabled(g.ds, g.lk, b, m, iface) && Plain(g.ds, g.lk, b, iface)
    ensures var e := SpoiledElse(Int(0), m, b);
            var els := Gen1(g, e, map[0 := a]).els;
            && Right({0}, map[0 := a], map[0 := Object(a, data)])
            && els == Call(Known(dB), ECons(Local(0), ENil))
            && Dispatch(Devirtualised(g, pr), els.callee, [Object(a, data)]) == Some((dB, [data]))
            && Dispatch(pr, e.els.callee, [Object(a, data)]) == Some((dA, [data]))
            && (Fine(g, e, {0}, map[0 := a]) <==> a == b)
  {
    hide Found, Loaded, Tabled, Plain;
    ElseGenerated(g, a, b, m, dB);
    assert [data] + [Object(a, data)][1..] == [data];
    assert (a, m) in pr.impls && pr.impls[(a, m)] == dA;
    hide Wired, Gen1, Devirtualised;
    var f := map[0 := a];
    assert 0 in f && f[0] == a;
    if a == b {
      SpoiledFine(g, b, m);
    } else {
      SpoiledNotFine(g, a, b, m);
    }
    hide Fine;
  }

  lemma ElseGenerated(g: Gen, a: DefId, b: DefId, m: DefId, dB: DefId)
    requires 0 in g.ifaces && Found(g.ds, g.lk, b, m) == Some(dB)
    ensures Gen1(g, SpoiledElse(Int(0), m, b), map[0 := a]).els == Call(Known(dB), ECons(Local(0), ENil))
  {
    hide Found, AfterBlock;
    var f2 := map[0 := b];
    ThenNotes(g, a, b);
    assert After(g.ifaces, Int(0), map[0 := a]) == map[0 := a];
    assert 0 in f2 && f2[0] == b;
    assert GenArgs1(g, ENil, After(g.ifaces, Local(0), f2)) == ENil && Gen1(g, Local(0), f2) == Local(0);
    assert GenArgs1(g, ECons(Local(0), ENil), f2) == ECons(Local(0), ENil);
  }

  lemma SpoiledNotFine(g: Gen, a: DefId, b: DefId, m: DefId)
    requires 0 in g.ifaces && a != b
    ensures !Fine(g, SpoiledElse(Int(0), m, b), {0}, map[0 := a])
  {
    hide AfterBlock, SiteOk;
    ThenNotes(g, a, b);
    var f, f2 := map[0 := a], map[0 := b];
    assert After(g.ifaces, Int(0), f) == f;
    assert 0 in f2 && f2[0] == b && f[0] == a;
    assert !Within({0}, f2, f);
  }

  lemma ThenNotes(g: Gen, a: DefId, b: DefId)
    requires 0 in g.ifaces
    ensures AfterBlock(g.ifaces, Then(SetTo(b), Tail(Null)), map[0 := a]) == map[0 := b]
  {
    var st, f := SetTo(b), map[0 := a];
    assert After(g.ifaces, Null, f) == f;
    assert After(g.ifaces, st.value, f) == f && IfaceTypes.Concrete(st.value) == Some(b);
    assert Note(g.ifaces, 0, st.value, f) == f[0 := b];
    assert AfterStmt(g.ifaces, st, f) == f[0 := b];
    assert f[0 := b] == map[0 := b];
    assert AfterBlock(g.ifaces, Tail(Null), map[0 := b]) == map[0 := b];
    assert !Term(Null) && !Term(st.value);
  }

  lemma SpoiledFresh(m: DefId, b: DefId)
    ensures var e, k := SpoiledElse(Int(0), m, b), {0};
            && Fresh(e, k) && Fresh(e.els, k) && Fresh(Int(0), k) && Fresh(Null, k) && Fresh(Local(0), k)
            && FreshStmt(SetTo(b), k) && Fresh(SetTo(b).value, k)
  {
    var e := SpoiledElse(Int(0), m, b);
    assert Bound(Null) == {} && Bound(Local(0)) == {} && Bound(SetTo(b).value) == {};
    assert BoundStmt(SetTo(b)) == {} && BoundBlock(Tail(Null)) == {} && BoundBlock(e.thn) == {};
    assert BoundArgs(ENil) == {} && BoundArgs(e.els.args) == {} && Bound(e.els) == {};
    assert Bound(e) == {};
    assert FreshArgs(ENil, {0}) && FreshArgs(e.els.args, {0});
  }

  lemma SpoiledFine(g: Gen, b: DefId, m: DefId)
    requires 0 in g.ifaces
    requires exists iface :: Tabled(g.ds, g.lk, b, m, iface) && Plain(g.ds, g.lk, b, iface)
    ensures Fine(g, SpoiledElse(Int(0), m, b), {0}, map[0 := b])
  {
    var f, k, e := map[0 := b], {0}, SpoiledElse(Int(0), m, b);
    ThenNotes(g, b, b);
    SpoiledFresh(m, b);
    assert After(g.ifaces, Int(0), f) == f;
    assert AfterStmt(g.ifaces, SetTo(b), f) == f;
    assert FineBlock(g, Tail(Null), k, f);
    assert Fine(g, Null, k, f) && Fine(g, Local(0), k, f);
    assert Fine(g, SetTo(b).value, k, f);
    assert FineStmt(g, SetTo(b), k, f);
    assert FineBlock(g, e.thn, k, f);
    assert After(g.ifaces, Local(0), f) == f;
    assert FineArgs(g, ENil, k, f);
    assert FineArgs(g, e.els.args, k, f);
    assert Fine(g, e.els, k, f);
  }
}
