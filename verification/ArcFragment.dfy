/**
 The programs for which reference counting is proved safe, and the owned-locals list that
 code generation keeps for them.
 */
module ArcFragment {
  import opened Hir
  import opened Scan
  import opened AsyncLayout
  import opened Arc
  import opened ArcGuards
  import F = FrameLocals

  // -- which locals own ------------------------------------------------------------------

  /** `borrowed` are the locals of a function that never own what they hold: its parameters
      and the locals that match arms bind to a whole value. Of these, `held` can be read: some
      owner outside the function, or a local of `lent`, keeps what they hold. */
  datatype Keep = Keep(borrowed: set<LocalId>, held: set<LocalId>, lent: set<LocalId>)

  predicate KeepOk(k: Keep)
  {
    k.held <= k.borrowed && k.lent !! k.borrowed
  }

  predicate Readable(x: LocalId, k: Keep)
  {
    x !in k.borrowed || x in k.held
  }

  /** A local that may be bound and assigned: it owns, and has lent nothing. */
  predicate Free(x: LocalId, k: Keep)
  {
    x !in k.borrowed && x !in k.lent
  }

  /** `x` borrows from `y`. */
  function Lend(k: Keep, y: LocalId): Keep
  {
    if y in k.borrowed then k else k.(lent := k.lent + {y})
  }

  function Hold(k: Keep, x: LocalId): Keep
  {
    k.(held := k.held + {x})
  }

  /** The same locals own, and no more is readable or assignable in `k` than in `k'`. */
  predicate Tighter(k: Keep, k': Keep)
  {
    k.borrowed == k'.borrowed && k.held <= k'.held && k.lent <= k'.lent
  }

  // -- the fragment ----------------------------------------------------------------------

  /** Arguments that some frame owns for the whole call. */
  predicate AtomArgs(es: Exprs, k: Keep)
  {
    es.ECons? ==>
      && ((es.head.Local? && Readable(es.head.x, k)) || es.head.Int? || es.head.Null?)
      && AtomArgs(es.tail, k)
  }

  /** A value that a field store may evaluate before receiver `recv`: it has a reference of
      its own, is no reference, sits in a local that the receiver leaves alone, or the
      receiver releases nothing. What is left is a borrow that no local holds, before a
      receiver that can free it. */
  predicate Storable(v: Expr, recv: Expr)
  {
    || Owned(v)
    || Scalar(v)
    || (v.Local? && v.x !in F.Assigned(recv) && v.x !in Bound(recv))
    || Gentle(recv)
  }

  /** Destructuring binds locals of its own, each for the first time. */
  predicate FirstBind(xs: seq<LocalId>, k: Keep, o: seq<LocalId>)
  {
    NoDup(xs) && forall x <- xs :: Free(x, k) && x !in o
  }

  /** Call arguments are locals or parameters (or scalars), parameters are not assigned,
      field stores are `Storable`, and what an arm borrows is kept for it. `o` is the list of
      owned locals that code generation has when it comes to `e`. */
  predicate Safe(e: Expr, k: Keep, o: seq<LocalId>)
    decreases e, 2
  {
    match e
    case Int(_) => true
    case Null => true
    case Local(x) => Readable(x, k)
    case Continue => true
    case Prim(_, args) => SafeArgs(args, k, o)
    case Logic(_, l, r) => Safe(l, k, o) && Safe(r, k, Own(l, o))
    case Call(c, args) => c.Direct? && AtomArgs(args, k)
    case Struct(_, fields) => SafeArgs(fields, k, o)
    case Field(recv, _) => Safe(recv, k, o)
    case Append(l, i) => Safe(l, k, o) && Safe(i, k, Own(l, o))
    case If(c, t, f) => Safe(c, k, o) && SafeBlock(t, k, Own(c, o)) && Safe(f, k, OwnBlock(t, Own(c, o)))
    case Match(sc, arms) => Safe(sc, k, o) && SafeArms(arms, sc, k, Own(sc, o))
    case BlockExpr(b) => SafeBlock(b, k, o)
    case Loop(b) => SafeBlock(b, k, o)
    case While(c, b) => Safe(c, k, o) && SafeBlock(b, k, Own(c, o))
    case For(pat, iter, _, b, d) =>
      && d.ListFast? && Safe(iter, k, o) && SafePat(pat, k, Own(iter, o))
      && SafeBlock(b, k, PushAll(Own(iter, o), PatLocals(pat)))
    case Return(v) => Safe(v, k, o)
    case Break(v) => Safe(v, k, o)
    case _ => false
  }

  /** Patterns of `let` and `for`: the locals they bind own. */
  predicate SafePat(pat: Pattern, k: Keep, o: seq<LocalId>)
  {
    match pat
    case Wild => true
    case Bind(x) => Free(x, k)
    case Record(_) => FirstBind(PatLocals(pat), k, o)
    case _ => false
  }

  predicate SafeArgs(es: Exprs, k: Keep, o: seq<LocalId>)
    decreases es, 2
  {
    es.ECons? ==> Safe(es.head, k, o) && SafeArgs(es.tail, k, Own(es.head, o))
  }

  /** Some arm takes the value of the scrutinee apart or binds it. */
  predicate Uses(arms: Arms)
  {
    arms.Arm? && (arms.pat.Bind? || arms.pat.Record? || Uses(arms.rest))
  }

  /** The next arms are never tried: there is no guard, which is the literal 1. */
  predicate NoGuard(guard: Expr)
  {
    guard.Int? && guard.n != 0
  }

  /** The value of the scrutinee outlives an arm that is not taken: there is no guard, or the
      value has a reference of its own, sits in a local that the arm's pattern and guard
      leave alone, or pattern and guard release nothing. */
  predicate Outlives(arms: Arms, sc: Expr, k: Keep, o: seq<LocalId>)
    requires arms.Arm?
    decreases arms, 0
  {
    || NoGuard(arms.guard)
    || Owned(sc)
    || (sc.Local? && sc.x !in PatLocals(arms.pat) && Safe(arms.guard, Lend(k, sc.x), o))
    || (!arms.pat.Record? && Gentle(arms.guard))
  }

  /** Guard and body under `k`. */
  predicate SafeBoth(arms: Arms, k: Keep, o: seq<LocalId>)
    requires arms.Arm?
    decreases arms, 0
  {
    Safe(arms.guard, k, o) && Safe(arms.arm, k, Own(arms.guard, o))
  }

  /** What an arm that binds the scrutinee to `x` may do: anything that leaves `x` alone, if
      the scrutinee has a reference of its own or sits in a local that the arm leaves alone;
      otherwise nothing that releases. */
  predicate SafeBorrow(arms: Arms, sc: Expr, x: LocalId, k: Keep, o: seq<LocalId>)
    requires arms.Arm?
    decreases arms, 1
  {
    || (Owned(sc) && SafeBoth(arms, Hold(k, x), o))
    || (sc.Local? && SafeBoth(arms, Hold(Lend(k, sc.x), x), o))
    || (Gentle(arms.guard) && Gentle(arms.arm) && SafeBoth(arms, Hold(k, x), o))
  }

  predicate SafeArms(arms: Arms, sc: Expr, k: Keep, o: seq<LocalId>)
    decreases arms, 2
  {
    arms.Arm? ==>
      var o1 := ArmOwn(arms.pat, o);
      && (match arms.pat
          case Bind(x) => x in k.borrowed && x !in k.held && SafeBorrow(arms, sc, x, k, o1)
          case Record(_) => FirstBind(PatLocals(arms.pat), k, o) && SafeArm(arms, sc, k, o1)
          case Wild => SafeArm(arms, sc, k, o1)
          case Lit(_) => SafeArm(arms, sc, k, o1)
          case TypeTest(_, _) => false)
      && SafeArms(arms.rest, sc, k, Own(arms.arm, Own(arms.guard, o1)))
  }

  /** An arm that does not bind the scrutinee, before arms that may. */
  predicate SafeArm(arms: Arms, sc: Expr, k: Keep, o: seq<LocalId>)
    requires arms.Arm?
    decreases arms, 1
  {
    SafeBoth(arms, k, o) && (Uses(arms.rest) ==> Outlives(arms, sc, k, o))
  }

  predicate SafeStmt(st: Stmt, k: Keep, o: seq<LocalId>)
    decreases st, 2
  {
    match st
    case Let(pat, init) => Safe(init, k, o) && SafePat(pat, k, Own(init, o))
    case Assign(Local(x), v) => Safe(v, k, o) && Free(x, k)
    case Assign(Field(recv, _), v) => Safe(v, k, o) && Safe(recv, k, Own(v, o)) && Storable(v, recv)
    case Assign(Null, v) => Safe(v, k, o)
    case Assign(_, _) => false
    case ExprStmt(e) => Safe(e, k, o)
  }

  predicate SafeBlock(b: Block, k: Keep, o: seq<LocalId>)
    decreases b, 2
  {
    match b
    case Tail(e) => Safe(e, k, o)
    case Then(st, rest) => SafeStmt(st, k, o) && SafeBlock(rest, k, OwnStmt(st, o))
  }

  /** For some choice of the arm locals, with the parameters held by the caller. */
  ghost predicate SafeFunc(f: Func)
  {
    exists b: set<LocalId> :: Elems(f.params) <= b && SafeBlock(f.body, Keep(b, Elems(f.params), {}), [])
  }

  ghost predicate SafeProgram(pr: Program)
  {
    forall d <- pr.funcs :: SafeFunc(pr.funcs[d])
  }

  // -- the owned-locals list ------------------------------------------------------------------

  /** Owned locals are listed once, and borrowed ones not at all. */
  predicate ListOk(o: seq<LocalId>, borrowed: set<LocalId>)
  {
    NoDup(o) && forall x <- o :: x !in borrowed
  }

  lemma PushAllOk(o: seq<LocalId>, xs: seq<LocalId>, borrowed: set<LocalId>)
    requires ListOk(o, borrowed) && forall x <- xs :: x !in borrowed
    ensures ListOk(PushAll(o, xs), borrowed)
  {
    PushAllExtends(o, xs);
    forall x <- PushAll(o, xs)
      ensures x !in borrowed
    {
      assert x in Elems(o) + Elems(xs);
    }
  }

  lemma PatOk(pat: Pattern, k: Keep, o: seq<LocalId>)
    requires SafePat(pat, k, o) && ListOk(o, k.borrowed)
    ensures ListOk(PushAll(o, PatLocals(pat)), k.borrowed)
  {
    PushAllOk(o, PatLocals(pat), k.borrowed);
  }

  lemma {:induction false} OwnOk(e: Expr, k: Keep, o: seq<LocalId>)
    requires Safe(e, k, o) && ListOk(o, k.borrowed)
    ensures ListOk(Own(e, o), k.borrowed)
    decreases e, 2
  {
    hide ListOk;
    match e
    case Prim(_, args) => OwnArgsOk(args, k, o);
    case Logic(_, l, r) =>
      OwnOk(l, k, o);
      OwnOk(r, k, Own(l, o));
    case Call(_, args) => AtomArgsOwn(args, k, o);
    case Struct(_, fields) => OwnArgsOk(fields, k, o);
    case Field(recv, _) => OwnOk(recv, k, o);
    case Append(l, i) =>
      OwnOk(l, k, o);
      OwnOk(i, k, Own(l, o));
    case If(c, t, f) =>
      OwnOk(c, k, o);
      OwnBlockOk(t, k, Own(c, o));
      OwnOk(f, k, OwnBlock(t, Own(c, o)));
    case Match(sc, arms) =>
      OwnOk(sc, k, o);
      OwnArmsOk(arms, sc, k, Own(sc, o));
    case BlockExpr(b) => OwnBlockOk(b, k, o);
    case Loop(b) => OwnBlockOk(b, k, o);
    case While(c, b) =>
      OwnOk(c, k, o);
      OwnBlockOk(b, k, Own(c, o));
    case For(pat, iter, _, b, _) =>
      OwnOk(iter, k, o);
      PatOk(pat, k, Own(iter, o));
      OwnBlockOk(b, k, PushAll(Own(iter, o), PatLocals(pat)));
    case Return(v) => OwnOk(v, k, o);
    case Break(v) => OwnOk(v, k, o);
    case _ =>
  }

  lemma {:induction false} AtomArgsOwn(es: Exprs, k: Keep, o: seq<LocalId>)
    requires AtomArgs(es, k)
    ensures OwnArgs(es, o) == o
    decreases es, 0
  {
    if es.ECons? {
      AtomArgsOwn(es.tail, k, o);
    }
  }

  lemma {:induction false} OwnArgsOk(es: Exprs, k: Keep, o: seq<LocalId>)
    requires SafeArgs(es, k, o) && ListOk(o, k.borrowed)
    ensures ListOk(OwnArgs(es, o), k.borrowed)
    decreases es, 2
  {
    hide ListOk;
    if es.ECons? {
      OwnOk(es.head, k, o);
      OwnArgsOk(es.tail, k, Own(es.head, o));
    }
  }

  /** The keep under which an arm's guard and body are safe. */
  function ArmKeep(arms: Arms, sc: Expr, k: Keep, o: seq<LocalId>): Keep
    requires arms.Arm?
  {
    if !arms.pat.Bind? then k
    else if Owned(sc) && SafeBoth(arms, Hold(k, arms.pat.local), o) then Hold(k, arms.pat.local)
    else if sc.Local? && SafeBoth(arms, Hold(Lend(k, sc.x), arms.pat.local), o) then Hold(Lend(k, sc.x), arms.pat.local)
    else Hold(k, arms.pat.local)
  }

  lemma ArmKeepIs(arms: Arms, sc: Expr, k: Keep, o: seq<LocalId>)
    requires arms.Arm? && SafeArms(arms, sc, k, o)
    ensures var o1 := ArmOwn(arms.pat, o);
            var k1 := ArmKeep(arms, sc, k, o1);
            SafeBoth(arms, k1, o1) && Tighter(k, k1) && (KeepOk(k) ==> KeepOk(k1))
  {
    hide SafeBoth;
  }

  lemma {:induction false} OwnArmsOk(arms: Arms, sc: Expr, k: Keep, o: seq<LocalId>)
    requires SafeArms(arms, sc, k, o) && ListOk(o, k.borrowed)
    ensures ListOk(OwnArms(arms, o), k.borrowed)
    decreases arms, 2
  {
    if arms.Arm? {
      var o1 := ArmOwn(arms.pat, o);
      var k1 := ArmKeep(arms, sc, k, o1);
      ArmKeepIs(arms, sc, k, o);
      if arms.pat.Record? {
        PushAllOk(o, PatLocals(arms.pat), k.borrowed);
      }
      hide ListOk, SafeArms, ArmKeep;
      assert SafeArms(arms.rest, sc, k, Own(arms.arm, Own(arms.guard, o1))) by { ArmsRest(arms, sc, k, o); }
      OwnOk(arms.guard, k1, o1);
      OwnOk(arms.arm, k1, Own(arms.guard, o1));
      OwnArmsOk(arms.rest, sc, k, Own(arms.arm, Own(arms.guard, o1)));
    }
  }

  lemma ArmsRest(arms: Arms, sc: Expr, k: Keep, o: seq<LocalId>)
    requires arms.Arm? && SafeArms(arms, sc, k, o)
    ensures SafeArms(arms.rest, sc, k, Own(arms.arm, Own(arms.guard, ArmOwn(arms.pat, o))))
  {
  }

  lemma {:induction false} OwnStmtOk(st: Stmt, k: Keep, o: seq<LocalId>)
    requires SafeStmt(st, k, o) && ListOk(o, k.borrowed)
    ensures ListOk(OwnStmt(st, o), k.borrowed)
    decreases st, 2
  {
    match st
    case Let(pat, init) =>
      OwnOk(init, k, o);
      PatOk(pat, k, Own(init, o));
    case Assign(t, v) =>
      OwnOk(v, k, o);
      if t.Field? {
        OwnOk(t.recv, k, Own(v, o));
      }
    case ExprStmt(e) => OwnOk(e, k, o);
  }

  lemma {:induction false} OwnBlockOk(b: Block, k: Keep, o: seq<LocalId>)
    requires SafeBlock(b, k, o) && ListOk(o, k.borrowed)
    ensures ListOk(OwnBlock(b, o), k.borrowed)
    decreases b, 2
  {
    hide ListOk;
    match b
    case Tail(e) => OwnOk(e, k, o);
    case Then(st, rest) =>
      OwnStmtOk(st, k, o);
      OwnBlockOk(rest, k, OwnStmt(st, o));
  }

  /** Gentle code takes no reference for a local. */
  lemma {:induction false} GentleOwn(e: Expr, o: seq<LocalId>)
    requires Gentle(e)
    ensures Own(e, o) == o
    decreases e
  {
    match e
    case Prim(_, args) => GentleOwnArgs(args, o);
    case Struct(_, fields) => GentleOwnArgs(fields, o);
    case Field(recv, _) => GentleOwn(recv, o);
    case Logic(_, l, r) => GentleOwn(l, o); GentleOwn(r, o);
    case If(c, t, f) => GentleOwn(c, o); GentleOwnBlock(t, o); GentleOwn(f, o);
    case Match(sc, arms) => GentleOwn(sc, o); GentleOwnArms(arms, o);
    case BlockExpr(b) => GentleOwnBlock(b, o);
    case Loop(b) => GentleOwnBlock(b, o);
    case While(c, b) => GentleOwn(c, o); GentleOwnBlock(b, o);
    case Return(v) => GentleOwn(v, o);
    case Break(v) => GentleOwn(v, o);
    case _ =>
  }

  lemma {:induction false} GentleOwnArgs(es: Exprs, o: seq<LocalId>)
    requires GentleArgs(es)
    ensures OwnArgs(es, o) == o
    decreases es
  {
    if es.ECons? {
      GentleOwn(es.head, o);
      GentleOwnArgs(es.tail, o);
    }
  }

  lemma {:induction false} GentleOwnArms(arms: Arms, o: seq<LocalId>)
    requires GentleArms(arms)
    ensures OwnArms(arms, o) == o
    decreases arms
  {
    if arms.Arm? {
      GentleOwn(arms.guard, o);
      GentleOwn(arms.arm, o);
      GentleOwnArms(arms.rest, o);
    }
  }

  lemma {:induction false} GentleOwnBlock(b: Block, o: seq<LocalId>)
    requires GentleBlock(b)
    ensures OwnBlock(b, o) == o
    decreases b
  {
    match b
    case Tail(e) => GentleOwn(e, o);
    case Then(st, rest) =>
      GentleOwnStmt(st, o);
      GentleOwnBlock(rest, o);
  }

  lemma {:induction false} GentleOwnStmt(st: Stmt, o: seq<LocalId>)
    requires GentleStmt(st)
    ensures OwnStmt(st, o) == o
    decreases st
  {
    match st
    case Let(_, init) => GentleOwn(init, o);
    case Assign(_, v) => GentleOwn(v, o);
    case ExprStmt(e) => GentleOwn(e, o);
  }
}
