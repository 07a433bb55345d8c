/**
 Choosing the struct locals that live in their function's frame, and why the choice
 cannot be observed. The analysis collects the locals bound to a record literal and
 removes those used other than as the receiver of a field access or as the target
 of an assignment.
 */
module StackStructs {
  import opened Hir
  import opened Scan
  import opened Semantics

  /** The types whose literals may live in the frame, and the captured locals. */
  datatype Facts = Facts(eligible: set<DefId>, captured: set<LocalId>)

  // -- the analysis -----------------------------------------------------------------

  function Cands(fx: Facts, e: Expr): set<LocalId>
    decreases e
  {
    match e
    case Await(_, f) => Cands(fx, f)
    case Prim(_, args) => CandsArgs(fx, args)
    case Logic(_, l, r) => Cands(fx, l) + Cands(fx, r)
    case Call(_, args) => CandsArgs(fx, args)
    case Struct(_, fields) => CandsArgs(fx, fields)
    case Field(recv, _) => Cands(fx, recv)
    case Append(l, i) => Cands(fx, l) + Cands(fx, i)
    case Adjust(_, inner) => Cands(fx, inner)
    case Cast(_, inner, _, _) => Cands(fx, inner)
    case If(c, t, f) => Cands(fx, c) + CandsBlock(fx, t) + Cands(fx, f)
    case Match(sc, arms) => Cands(fx, sc) + CandsArms(fx, arms)
    case BlockExpr(b) => CandsBlock(fx, b)
    case Loop(b) => CandsBlock(fx, b)
    case While(c, b) => Cands(fx, c) + CandsBlock(fx, b)
    case For(_, iter, _, b, _) => Cands(fx, iter) + CandsBlock(fx, b)
    case Return(v) => Cands(fx, v)
    case Break(v) => Cands(fx, v)
    case _ => {}
  }

  function CandsArgs(fx: Facts, es: Exprs): set<LocalId>
    decreases es
  {
    if es.ENil? then {} else Cands(fx, es.head) + CandsArgs(fx, es.tail)
  }

  function CandsArms(fx: Facts, arms: Arms): set<LocalId>
    decreases arms
  {
    if arms.NoArms? then {} else Cands(fx, arms.guard) + Cands(fx, arms.arm) + CandsArms(fx, arms.rest)
  }

  function CandsBlock(fx: Facts, b: Block): set<LocalId>
    decreases b
  {
    match b
    case Tail(e) => Cands(fx, e)
    case Then(Let(pat, init), rest) =>
      (if pat.Bind? && init.Struct? && pat.local !in fx.captured && init.def in fx.eligible then {pat.local} else {})
      + Cands(fx, init) + CandsBlock(fx, rest)
    case Then(Assign(t, v), rest) => Cands(fx, t) + Cands(fx, v) + CandsBlock(fx, rest)
    case Then(ExprStmt(e), rest) => Cands(fx, e) + CandsBlock(fx, rest)
  }

  /** The candidates of `cs` that `e` uses as a value; `ok` is set for the receiver of
      a field access. */
  function Escapes(cs: set<LocalId>, e: Expr, ok: bool): set<LocalId>
    decreases e, 0
  {
    match e
    case Local(x) => if x in cs && !ok then {x} else {}
    case Field(recv, _) => Escapes(cs, recv, true)
    case BlockExpr(b) => EscapesBlock(cs, b)
    case Loop(b) => EscapesBlock(cs, b)
    case If(c, t, f) => Escapes(cs, c, false) + EscapesBlock(cs, t) + Escapes(cs, f, false)
    case While(c, b) => Escapes(cs, c, false) + EscapesBlock(cs, b)
    case Match(sc, arms) => Escapes(cs, sc, false) + EscapesArms(cs, arms)
    case For(_, iter, _, b, _) => Escapes(cs, iter, false) + EscapesBlock(cs, b)
    case Await(_, f) => Escapes(cs, f, false)
    case Prim(_, args) => EscapesArgs(cs, args)
    case Logic(_, l, r) => Escapes(cs, l, false) + Escapes(cs, r, false)
    case Call(_, args) => EscapesArgs(cs, args)
    case Struct(_, fields) => EscapesArgs(cs, fields)
    case Append(l, i) => Escapes(cs, l, false) + Escapes(cs, i, false)
    case Adjust(_, inner) => Escapes(cs, inner, false)
    case Cast(_, inner, _, _) => Escapes(cs, inner, false)
    case Return(v) => Escapes(cs, v, false)
    case Break(v) => Escapes(cs, v, false)
    case _ => {}
  }

  function EscapesArgs(cs: set<LocalId>, es: Exprs): set<LocalId>
    decreases es
  {
    if es.ENil? then {} else Escapes(cs, es.head, false) + EscapesArgs(cs, es.tail)
  }

  function EscapesArms(cs: set<LocalId>, arms: Arms): set<LocalId>
    decreases arms
  {
    if arms.NoArms? then {}
    else Escapes(cs, arms.guard, false) + Escapes(cs, arms.arm, false) + EscapesArms(cs, arms.rest)
  }

  function EscapesTarget(cs: set<LocalId>, target: Expr): set<LocalId>
    decreases target, 1
  {
    match target
    case Local(x) => {}
    case Field(recv, _) => Escapes(cs, recv, true)
    case _ => Escapes(cs, target, false)
  }

  function EscapesStmt(cs: set<LocalId>, st: Stmt): set<LocalId>
    decreases st
  {
    match st
    case Let(_, init) => Escapes(cs, init, false)
    case Assign(target, v) => EscapesTarget(cs, target) + Escapes(cs, v, false)
    case ExprStmt(e) => Escapes(cs, e, false)
  }

  function EscapesBlock(cs: set<LocalId>, b: Block): set<LocalId>
    decreases b
  {
    match b
    case Tail(e) => Escapes(cs, e, false)
    case Then(st, rest) => EscapesStmt(cs, st) + EscapesBlock(cs, rest)
  }

  function Chosen(fx: Facts, body: Block): set<LocalId>
  {
    CandsBlock(fx, body) - EscapesBlock(CandsBlock(fx, body), body)
  }

  /** The locals captured anywhere in the program. */
  function CapturedIn(pr: Program): set<LocalId>
  {
    set d, x | d in pr.funcs && x in CapturesBlock(pr.funcs[d].body) :: x
  }

  /** The program whose functions keep the chosen structs in their frames. */
  function Stackify(fx: Facts, pr: Program): Program
  {
    pr.(funcs := map d | d in pr.funcs :: pr.funcs[d].(stacked := Chosen(fx, pr.funcs[d].body)))
  }

  // -- what is chosen, from the syntax alone ---------------------------------------------------

  /** How often `x` is written inside `e`, closures apart. */
  function Uses(x: LocalId, e: Expr): nat
  {
    match e
    case Local(y) => if x == y then 1 else 0
    case Await(_, f) => Uses(x, f)
    case Prim(_, args) => UsesArgs(x, args)
    case Logic(_, l, r) => Uses(x, l) + Uses(x, r)
    case Call(_, args) => UsesArgs(x, args)
    case Struct(_, fields) => UsesArgs(x, fields)
    case Field(recv, _) => Uses(x, recv)
    case Append(l, i) => Uses(x, l) + Uses(x, i)
    case Adjust(_, inner) => Uses(x, inner)
    case Cast(_, inner, _, _) => Uses(x, inner)
    case If(c, t, f) => Uses(x, c) + UsesBlock(x, t) + Uses(x, f)
    case Match(sc, arms) => Uses(x, sc) + UsesArms(x, arms)
    case BlockExpr(b) => UsesBlock(x, b)
    case Loop(b) => UsesBlock(x, b)
    case While(c, b) => Uses(x, c) + UsesBlock(x, b)
    case For(_, iter, _, b, _) => Uses(x, iter) + UsesBlock(x, b)
    case Return(v) => Uses(x, v)
    case Break(v) => Uses(x, v)
    case _ => 0
  }

  function UsesArgs(x: LocalId, es: Exprs): nat
  {
    if es.ENil? then 0 else Uses(x, es.head) + UsesArgs(x, es.tail)
  }

  function UsesArms(x: LocalId, arms: Arms): nat
  {
    if arms.NoArms? then 0 else Uses(x, arms.guard) + Uses(x, arms.arm) + UsesArms(x, arms.rest)
  }

  function UsesStmt(x: LocalId, st: Stmt): nat
  {
    match st
    case Let(_, init) => Uses(x, init)
    case Assign(t, v) => Uses(x, t) + Uses(x, v)
    case ExprStmt(e) => Uses(x, e)
  }

  function UsesBlock(x: LocalId, b: Block): nat
  {
    match b
    case Tail(e) => Uses(x, e)
    case Then(st, rest) => UsesStmt(x, st) + UsesBlock(x, rest)
  }

  /** How often it is written as the receiver of a field access or the target of an assignment. */
  function Accesses(x: LocalId, e: Expr): nat
  {
    match e
    case Await(_, f) => Accesses(x, f)
    case Prim(_, args) => AccessesArgs(x, args)
    case Logic(_, l, r) => Accesses(x, l) + Accesses(x, r)
    case Call(_, args) => AccessesArgs(x, args)
    case Struct(_, fields) => AccessesArgs(x, fields)
    case Field(recv, _) => if recv == Local(x) then 1 else Accesses(x, recv)
    case Append(l, i) => Accesses(x, l) + Accesses(x, i)
    case Adjust(_, inner) => Accesses(x, inner)
    case Cast(_, inner, _, _) => Accesses(x, inner)
    case If(c, t, f) => Accesses(x, c) + AccessesBlock(x, t) + Accesses(x, f)
    case Match(sc, arms) => Accesses(x, sc) + AccessesArms(x, arms)
    case BlockExpr(b) => AccessesBlock(x, b)
    case Loop(b) => AccessesBlock(x, b)
    case While(c, b) => Accesses(x, c) + AccessesBlock(x, b)
    case For(_, iter, _, b, _) => Accesses(x, iter) + AccessesBlock(x, b)
    case Return(v) => Accesses(x, v)
    case Break(v) => Accesses(x, v)
    case _ => 0
  }

  function AccessesArgs(x: LocalId, es: Exprs): nat
  {
    if es.ENil? then 0 else Accesses(x, es.head) + AccessesArgs(x, es.tail)
  }

  function AccessesArms(x: LocalId, arms: Arms): nat
  {
    if arms.NoArms? then 0 else Accesses(x, arms.guard) + Accesses(x, arms.arm) + AccessesArms(x, arms.rest)
  }

  function AccessesStmt(x: LocalId, st: Stmt): nat
  {
    match st
    case Let(_, init) => Accesses(x, init)
    case Assign(t, v) => (if t == Local(x) then 1 else Accesses(x, t)) + Accesses(x, v)
    case ExprStmt(e) => Accesses(x, e)
  }

  function AccessesBlock(x: LocalId, b: Block): nat
  {
    match b
    case Tail(e) => Accesses(x, e)
    case Then(st, rest) => AccessesStmt(x, st) + AccessesBlock(x, rest)
  }

  /** The statements inside `e`, closures apart. */
  function StmtsIn(e: Expr): set<Stmt>
  {
    match e
    case Await(_, f) => StmtsIn(f)
    case Prim(_, args) => StmtsInArgs(args)
    case Logic(_, l, r) => StmtsIn(l) + StmtsIn(r)
    case Call(_, args) => StmtsInArgs(args)
    case Struct(_, fields) => StmtsInArgs(fields)
    case Field(recv, _) => StmtsIn(recv)
    case Append(l, i) => StmtsIn(l) + StmtsIn(i)
    case Adjust(_, inner) => StmtsIn(inner)
    case Cast(_, inner, _, _) => StmtsIn(inner)
    case If(c, t, f) => StmtsIn(c) + StmtsOf(t) + StmtsIn(f)
    case Match(sc, arms) => StmtsIn(sc) + StmtsInArms(arms)
    case BlockExpr(b) => StmtsOf(b)
    case Loop(b) => StmtsOf(b)
    case While(c, b) => StmtsIn(c) + StmtsOf(b)
    case For(_, iter, _, b, _) => StmtsIn(iter) + StmtsOf(b)
    case Return(v) => StmtsIn(v)
    case Break(v) => StmtsIn(v)
    case _ => {}
  }

  function StmtsInArgs(es: Exprs): set<Stmt>
  {
    if es.ENil? then {} else StmtsIn(es.head) + StmtsInArgs(es.tail)
  }

  function StmtsInArms(arms: Arms): set<Stmt>
  {
    if arms.NoArms? then {} else StmtsIn(arms.guard) + StmtsIn(arms.arm) + StmtsInArms(arms.rest)
  }

  function StmtsOf(b: Block): set<Stmt>
  {
    match b
    case Tail(e) => StmtsIn(e)
    case Then(st, rest) =>
      {st} + StmtsOf(rest)
      + (match st
         case Let(_, init) => StmtsIn(init)
         case Assign(t, v) => StmtsIn(t) + StmtsIn(v)
         case ExprStmt(e) => StmtsIn(e))
  }

  /** `let x = S { .. }` with an eligible type, for a local that no closure captures. */
  predicate Candidate(fx: Facts, x: LocalId, st: Stmt)
  {
    && st.Let? && st.pat == Bind(x) && st.init.Struct?
    && st.init.def in fx.eligible && x !in fx.captured
  }

  lemma {:induction false} CandsExactly(fx: Facts, e: Expr, x: LocalId)
    ensures x in Cands(fx, e) <==> exists st <- StmtsIn(e) :: Candidate(fx, x, st)
    decreases e
  {
    hide CandsArgs, CandsArms, CandsBlock, StmtsInArgs, StmtsInArms, StmtsOf, Candidate;
    match e
    case Await(_, f) => CandsExactly(fx, f, x);
    case Prim(_, args) => CandsArgsExactly(fx, args, x);
    case Logic(_, l, r) => CandsExactly(fx, l, x); CandsExactly(fx, r, x);
    case Call(_, args) => CandsArgsExactly(fx, args, x);
    case Struct(_, fields) => CandsArgsExactly(fx, fields, x);
    case Field(recv, _) => CandsExactly(fx, recv, x);
    case Append(l, i) => CandsExactly(fx, l, x); CandsExactly(fx, i, x);
    case Adjust(_, inner) => CandsExactly(fx, inner, x);
    case Cast(_, inner, _, _) => CandsExactly(fx, inner, x);
    case If(c, t, f) => CandsExactly(fx, c, x); CandsBlockExactly(fx, t, x); CandsExactly(fx, f, x);
    case Match(sc, arms) => CandsExactly(fx, sc, x); CandsArmsExactly(fx, arms, x);
    case BlockExpr(b) => CandsBlockExactly(fx, b, x);
    case Loop(b) => CandsBlockExactly(fx, b, x);
    case While(c, b) => CandsExactly(fx, c, x); CandsBlockExactly(fx, b, x);
    case For(_, iter, _, b, _) => CandsExactly(fx, iter, x); CandsBlockExactly(fx, b, x);
    case Return(v) => CandsExactly(fx, v, x);
    case Break(v) => CandsExactly(fx, v, x);
    case _ =>
  }

  lemma {:induction false} CandsArgsExactly(fx: Facts, es: Exprs, x: LocalId)
    ensures x in CandsArgs(fx, es) <==> exists st <- StmtsInArgs(es) :: Candidate(fx, x, st)
    decreases es
  {
    if es.ECons? {
      CandsExactly(fx, es.head, x);
      CandsArgsExactly(fx, es.tail, x);
    }
  }

  lemma {:induction false} CandsArmsExactly(fx: Facts, arms: Arms, x: LocalId)
    ensures x in CandsArms(fx, arms) <==> exists st <- StmtsInArms(arms) :: Candidate(fx, x, st)
    decreases arms
  {
    if arms.Arm? {
      CandsExactly(fx, arms.guard, x);
      CandsExactly(fx, arms.arm, x);
      CandsArmsExactly(fx, arms.rest, x);
    }
  }

  lemma {:induction false} CandsBlockExactly(fx: Facts, b: Block, x: LocalId)
    ensures x in CandsBlock(fx, b) <==> exists st <- StmtsOf(b) :: Candidate(fx, x, st)
    decreases b
  {
    match b
    case Tail(e) => CandsExactly(fx, e, x);
    case Then(st, rest) =>
      CandsBlockExactly(fx, rest, x);
      assert st in StmtsOf(b) && forall st' <- StmtsOf(rest) :: st' in StmtsOf(b);
      match st {
        case Let(_, init) => CandsExactly(fx, init, x);
        case Assign(t, v) => CandsExactly(fx, t, x); CandsExactly(fx, v, x);
        case ExprStmt(e) => CandsExactly(fx, e, x);
      }
  }

  lemma {:induction false} EscapesExactly(cs: set<LocalId>, e: Expr, x: LocalId)
    requires x in cs
    ensures Accesses(x, e) <= Uses(x, e)
    ensures x in Escapes(cs, e, false) <==> Accesses(x, e) < Uses(x, e)
    ensures x in Escapes(cs, e, true) <==> e != Local(x) && Accesses(x, e) < Uses(x, e)
    decreases e, 1
  {
    OkSame(cs, e);
    hide *;
    if e.Logic? || e.Append? || e.Match? || e.While? || e.For? {
      EscapesSums(cs, e, x);
    } else if e.If? {
      EscapesIf(cs, e, x);
    } else {
      EscapesOnce(cs, e, x);
    }
  }

  /** Only a local is treated differently as a receiver. */
  lemma OkSame(cs: set<LocalId>, e: Expr)
    ensures !e.Local? ==> Escapes(cs, e, true) == Escapes(cs, e, false)
    ensures e.Local? ==> Escapes(cs, e, true) == {} && Uses(e.x, e) == 1 && Accesses(e.x, e) == 0
    ensures forall x | e.Local? && x != e.x :: Uses(x, e) == 0
  {
  }

  lemma {:induction false} EscapesOnce(cs: set<LocalId>, e: Expr, x: LocalId)
    requires x in cs && !e.If? && !(e.Logic? || e.Append? || e.Match? || e.While? || e.For?)
    ensures Accesses(x, e) <= Uses(x, e)
    ensures x in Escapes(cs, e, false) <==> Accesses(x, e) < Uses(x, e)
    decreases e, 0
  {
    hide EscapesArgs, UsesArgs, AccessesArgs, EscapesBlock, UsesBlock, AccessesBlock;
    match e
    case Await(_, f) => EscapesExactly(cs, f, x);
    case Prim(_, args) => EscapesArgsExactly(cs, args, x);
    case Call(_, args) => EscapesArgsExactly(cs, args, x);
    case Struct(_, fields) => EscapesArgsExactly(cs, fields, x);
    case Field(recv, _) => EscapesExactly(cs, recv, x);
    case Adjust(_, inner) => EscapesExactly(cs, inner, x);
    case Cast(_, inner, _, _) => EscapesExactly(cs, inner, x);
    case BlockExpr(b) => EscapesBlockExactly(cs, b, x);
    case Loop(b) => EscapesBlockExactly(cs, b, x);
    case Return(v) => EscapesExactly(cs, v, x);
    case Break(v) => EscapesExactly(cs, v, x);
    case _ =>
  }

  lemma {:induction false} EscapesSums(cs: set<LocalId>, e: Expr, x: LocalId)
    requires x in cs && (e.Logic? || e.Append? || e.Match? || e.While? || e.For?)
    ensures Accesses(x, e) <= Uses(x, e)
    ensures x in Escapes(cs, e, false) <==> Accesses(x, e) < Uses(x, e)
    decreases e, 0
  {
    hide EscapesArms, UsesArms, AccessesArms, EscapesBlock, UsesBlock, AccessesBlock;
    match e
    case Logic(_, l, r) => EscapesExactly(cs, l, x); EscapesExactly(cs, r, x);
    case Append(l, i) => EscapesExactly(cs, l, x); EscapesExactly(cs, i, x);
    case Match(sc, arms) => EscapesExactly(cs, sc, x); EscapesArmsExactly(cs, arms, x);
    case While(c, b) => EscapesExactly(cs, c, x); EscapesBlockExactly(cs, b, x);
    case For(_, iter, _, b, _) => EscapesExactly(cs, iter, x); EscapesBlockExactly(cs, b, x);
  }

  lemma {:induction false} EscapesIf(cs: set<LocalId>, e: Expr, x: LocalId)
    requires x in cs && e.If?
    ensures Accesses(x, e) <= Uses(x, e)
    ensures x in Escapes(cs, e, false) <==> Accesses(x, e) < Uses(x, e)
    decreases e, 0
  {
    hide EscapesBlock, UsesBlock, AccessesBlock;
    EscapesExactly(cs, e.cond, x);
    EscapesBlockExactly(cs, e.thn, x);
    EscapesExactly(cs, e.els, x);
  }

  lemma {:induction false} EscapesArgsExactly(cs: set<LocalId>, es: Exprs, x: LocalId)
    requires x in cs
    ensures AccessesArgs(x, es) <= UsesArgs(x, es)
    ensures x in EscapesArgs(cs, es) <==> AccessesArgs(x, es) < UsesArgs(x, es)
    decreases es
  {
    if es.ECons? {
      EscapesExactly(cs, es.head, x);
      EscapesArgsExactly(cs, es.tail, x);
    }
  }

  lemma {:induction false} EscapesArmsExactly(cs: set<LocalId>, arms: Arms, x: LocalId)
    requires x in cs
    ensures AccessesArms(x, arms) <= UsesArms(x, arms)
    ensures x in EscapesArms(cs, arms) <==> AccessesArms(x, arms) < UsesArms(x, arms)
    decreases arms
  {
    if arms.Arm? {
      EscapesExactly(cs, arms.guard, x);
      EscapesExactly(cs, arms.arm, x);
      EscapesArmsExactly(cs, arms.rest, x);
    }
  }

  lemma {:induction false} EscapesBlockExactly(cs: set<LocalId>, b: Block, x: LocalId)
    requires x in cs
    ensures AccessesBlock(x, b) <= UsesBlock(x, b)
    ensures x in EscapesBlock(cs, b) <==> AccessesBlock(x, b) < UsesBlock(x, b)
    decreases b
  {
    match b
    case Tail(e) => EscapesExactly(cs, e, x);
    case Then(st, rest) =>
      EscapesBlockExactly(cs, rest, x);
      hide Escapes, Uses, Accesses;
      match st {
        case Let(_, init) => EscapesExactly(cs, init, x);
        case Assign(t, v) => TargetExactly(cs, t, x); EscapesExactly(cs, v, x);
        case ExprStmt(e) => EscapesExactly(cs, e, x);
      }
  }

  lemma {:induction false} TargetExactly(cs: set<LocalId>, t: Expr, x: LocalId)
    requires x in cs
    ensures var n := if t == Local(x) then 1 else Accesses(x, t);
            n <= Uses(x, t) && (x in EscapesTarget(cs, t) <==> n < Uses(x, t))
    decreases t, 2
  {
    EscapesExactly(cs, t, x);
  }

  /** A local is kept in the frame if and only if some `let` binds it to a literal of an
      eligible type, no closure captures it, and wherever else it is written it is the
      receiver of a field access or the target of an assignment. */
  lemma ChosenExactly(fx: Facts, body: Block, x: LocalId)
    ensures x in Chosen(fx, body) <==>
              && x !in fx.captured && AccessesBlock(x, body) == UsesBlock(x, body)
              && exists st <- StmtsOf(body) ::
                   st.Let? && st.pat == Bind(x) && st.init.Struct? && st.init.def in fx.eligible
  {
    CandsBlockExactly(fx, body, x);
    var cs := CandsBlock(fx, body);
    if x in cs {
      EscapesBlockExactly(cs, body, x);
      var st :| st in StmtsOf(body) && Candidate(fx, x, st);
    }
    if st :| st in StmtsOf(body) && st.Let? && st.pat == Bind(x) && st.init.Struct? && st.init.def in fx.eligible {
      assert x !in fx.captured ==> Candidate(fx, x, st);
    }
  }

  // -- relating the all-heap run to the run with frames ----------------------------------

  /** `own` gives the heap block that each chosen local owns in the all-heap run, and
      `dead` all blocks that exist in that run only. */
  datatype Link = Link(own: map<LocalId, nat>, dead: set<nat>)

  /** `v` leads to no frame block and to no block of the all-heap run only. */
  predicate Clean(v: Value, dead: set<nat>, next: nat)
  {
    match v
    case Ptr(a) => a < next && a !in dead
    case Slot(_) => false
    case Boxed(_, p) => Clean(p, dead, next)
    case Object(_, d) => Clean(d, dead, next)
    case _ => true
  }

  predicate CleanAll(vs: seq<Value>, dead: set<nat>, next: nat)
  {
    forall i :: 0 <= i < |vs| ==> Clean(vs[i], dead, next)
  }

  /** Same heap but for the dead blocks. */
  predicate HeapLinked(dead: set<nat>, sm: Mem, tm: Mem)
  {
    && sm.next == tm.next
    && (forall d <- dead :: d < sm.next)
    && (forall a <- tm.heap ::
        a in sm.heap && sm.heap[a] == tm.heap[a] && a < sm.next && a !in dead && CleanAll(tm.heap[a], dead, sm.next))
    && (forall a <- sm.heap :: a in tm.heap || a in dead)
  }

  /** A chosen local that was bound: its frame block holds what its heap block does. */
  predicate Owned(k: Link, x: LocalId, s: State, t: State)
    requires x in k.own
  {
    && x in t.stacked && Get(s.env, x) == Ptr(k.own[x]) && Get(t.env, x) == Slot(x)
    && k.own[x] in k.dead && k.own[x] in s.mem.heap && x in t.mem.stack
    && t.mem.stack[x] == s.mem.heap[k.own[x]] && CleanAll(t.mem.stack[x], k.dead, s.mem.next)
  }

  predicate Linked(k: Link, g: set<LocalId>, s: State, t: State)
  {
    && HeapLinked(k.dead, s.mem, t.mem) && s.trace == t.trace && s.stacked == {}
    && (forall x <- k.own :: Owned(k, x, s, t))
    && (forall x, y | x in k.own && y in k.own && x != y :: k.own[x] != k.own[y])
    && (forall x <- g | x !in k.own :: Get(s.env, x) == Get(t.env, x) && Clean(Get(s.env, x), k.dead, s.mem.next))
  }

  /** From one link to a later one: dead blocks stay dead, new ones are new, and those
      nobody owns are not written. */
  predicate Kept(k: Link, k': Link, m: Mem, m': Mem)
  {
    && k.dead <= k'.dead && m.next <= m'.next
    && (forall d <- k'.dead :: d in k.dead || d >= m.next)
    && (forall x <- k'.own :: k'.own[x] >= m.next || (x in k.own && k.own[x] == k'.own[x]))
    && (forall d <- k.dead :: d !in k.own.Values && d in m.heap ==> d in m'.heap && m'.heap[d] == m.heap[d])
  }

  predicate CtlClean(c: Ctl, dead: set<nat>, next: nat)
  {
    (c.Normal? || c.Brk? || c.Ret?) ==> Clean(c.v, dead, next)
  }

  /** The two runs from `s` and `t` end alike. */
  predicate Agree(k: Link, g: set<LocalId>, s: State, t: State, r: Out, q: Out, k': Link)
  {
    && r.ctl == q.ctl && CtlClean(r.ctl, k'.dead, r.s.mem.next)
    && Linked(k', g, r.s, q.s) && Kept(k, k', s.mem, r.s.mem) && q.s.stacked == t.stacked
  }

  predicate AgreeArgs(k: Link, g: set<LocalId>, s: State, t: State, r: Outs, q: Outs, k': Link)
  {
    && r.vs == q.vs && CleanAll(r.vs, k'.dead, r.s.mem.next)
    && Agree(k, g, s, t, Out(r.ctl, r.s), Out(q.ctl, q.s), k')
  }

  // -- what each kind of step keeps ---------------------------------------------------------

  lemma {:induction false} CleanMono(v: Value, k: Link, k': Link, m: Mem, m': Mem)
    requires Clean(v, k.dead, m.next) && Kept(k, k', m, m')
    ensures Clean(v, k'.dead, m'.next)
  {
    match v
    case Boxed(_, p) => CleanMono(p, k, k', m, m');
    case Object(_, d) => CleanMono(d, k, k', m, m');
    case _ =>
  }

  lemma CleanAllMono(vs: seq<Value>, k: Link, k': Link, m: Mem, m': Mem)
    requires CleanAll(vs, k.dead, m.next) && Kept(k, k', m, m')
    ensures CleanAll(vs, k'.dead, m'.next)
  {
    forall i | 0 <= i < |vs| ensures Clean(vs[i], k'.dead, m'.next) { CleanMono(vs[i], k, k', m, m'); }
  }

  lemma KeptTrans(k: Link, k1: Link, k2: Link, m: Mem, m1: Mem, m2: Mem)
    requires Kept(k, k1, m, m1) && Kept(k1, k2, m1, m2) && (forall d <- k.dead :: d < m.next)
    ensures Kept(k, k2, m, m2)
  {
    forall d <- k.dead | d !in k.own.Values && d in m.heap
      ensures d in m2.heap && m2.heap[d] == m.heap[d]
    {
      assert d !in k1.own.Values;
    }
  }

  lemma AgreeSeq(k: Link, g: set<LocalId>, s: State, t: State, r: Out, q: Out, k1: Link, r2: Out, q2: Out, k2: Link)
    requires Linked(k, g, s, t)
    requires Agree(k, g, s, t, r, q, k1) && Agree(k1, g, r.s, q.s, r2, q2, k2)
    ensures Agree(k, g, s, t, r2, q2, k2)
  {
    KeptTrans(k, k1, k2, s.mem, r.s.mem, r2.s.mem);
  }

  /** The same state with another outcome. */
  lemma AgreeCtl(k: Link, g: set<LocalId>, s: State, t: State, c: Ctl)
    requires Linked(k, g, s, t) && CtlClean(c, k.dead, s.mem.next)
    ensures Agree(k, g, s, t, Out(c, s), Out(c, t), k)
  {
  }

  lemma Narrow(k: Link, g: set<LocalId>, g': set<LocalId>, s: State, t: State, r: Out, q: Out, k': Link)
    requires Agree(k, g', s, t, r, q, k') && g <= g'
    ensures Agree(k, g, s, t, r, q, k')
  {
  }

  lemma ReadAgree(k: Link, g: set<LocalId>, s: State, t: State, v: Value)
    requires Linked(k, g, s, t) && Clean(v, k.dead, s.mem.next)
    ensures HasBlock(s.mem, v) == HasBlock(t.mem, v)
    ensures HasBlock(s.mem, v) ==>
              BlockAt(s.mem, v) == BlockAt(t.mem, v) && CleanAll(BlockAt(s.mem, v), k.dead, s.mem.next)
  {
  }

  lemma WriteAgree(k: Link, g: set<LocalId>, s: State, t: State, v: Value, vs: seq<Value>)
    requires Linked(k, g, s, t) && Clean(v, k.dead, s.mem.next) && HasBlock(s.mem, v) && HasBlock(t.mem, v)
    requires CleanAll(vs, k.dead, s.mem.next)
    ensures Agree(k, g, s, t, Out(Normal(Nil), s.(mem := PutBlock(s.mem, v, vs))),
                  Out(Normal(Nil), t.(mem := PutBlock(t.mem, v, vs))), k)
  {
  }

  lemma OwnWrite(k: Link, g: set<LocalId>, s: State, t: State, x: LocalId, vs: seq<Value>)
    requires Linked(k, g, s, t) && x in k.own && CleanAll(vs, k.dead, s.mem.next)
    ensures HasBlock(s.mem, Ptr(k.own[x])) && HasBlock(t.mem, Slot(x))
    ensures Agree(k, g, s, t, Out(Normal(Nil), s.(mem := PutBlock(s.mem, Ptr(k.own[x]), vs))),
                  Out(Normal(Nil), t.(mem := PutBlock(t.mem, Slot(x), vs))), k)
  {
    var s', t' := s.(mem := PutBlock(s.mem, Ptr(k.own[x]), vs)), t.(mem := PutBlock(t.mem, Slot(x), vs));
    forall y <- k.own
      ensures Owned(k, y, s', t')
    {
      assert Owned(k, y, s, t);
    }
  }

  lemma AllocAgree(k: Link, g: set<LocalId>, s: State, t: State, vs: seq<Value>)
    requires Linked(k, g, s, t) && CleanAll(vs, k.dead, s.mem.next)
    ensures var (sm, p) := Alloc(s.mem, vs); var (tm, p') := Alloc(t.mem, vs);
            p == p' && Agree(k, g, s, t, Out(Normal(p), s.(mem := sm)), Out(Normal(p), t.(mem := tm)), k)
  {
    var (sm, p) := Alloc(s.mem, vs);
    var (tm, _) := Alloc(t.mem, vs);
    assert Kept(k, k, s.mem, sm);
    CleanAllMono(vs, k, k, s.mem, sm);
    forall a <- tm.heap
      ensures a in sm.heap && sm.heap[a] == tm.heap[a] && CleanAll(tm.heap[a], k.dead, sm.next)
    {
      if a in t.mem.heap {
        CleanAllMono(t.mem.heap[a], k, k, s.mem, sm);
      }
    }
    forall y <- k.own
      ensures Owned(k, y, s.(mem := sm), t.(mem := tm))
    {
      assert Owned(k, y, s, t);
      CleanAllMono(t.mem.stack[y], k, k, s.mem, sm);
    }
    forall x <- g | x !in k.own
      ensures Clean(Get(s.env, x), k.dead, sm.next)
    {
      CleanMono(Get(s.env, x), k, k, s.mem, sm);
    }
  }

  /** A local that takes an ordinary value owns no frame block any more. */
  lemma SetAgree(k: Link, g: set<LocalId>, s: State, t: State, x: LocalId, v: Value)
    requires Linked(k, g, s, t) && Clean(v, k.dead, s.mem.next)
    ensures Agree(k, g + {x}, s, t, Out(Normal(Nil), s.(env := s.env[x := v])),
                  Out(Normal(Nil), t.(env := t.env[x := v])), Link(k.own - {x}, k.dead))
  {
    var k' := Link(k.own - {x}, k.dead);
    forall y <- k'.own
      ensures Owned(k', y, s.(env := s.env[x := v]), t.(env := t.env[x := v]))
    {
      assert Owned(k, y, s, t);
    }
  }

  lemma {:induction false} FieldsAgree(k: Link, g: set<LocalId>, s: State, t: State, fs: seq<Option<LocalId>>,
                                       vs: seq<Value>)
    returns (k': Link)
    requires Linked(k, g, s, t) && |fs| <= |vs| && CleanAll(vs, k.dead, s.mem.next)
    ensures Agree(k, g + (set x | x in FieldLocals(fs)), s, t, Out(Normal(Nil), s.(env := BindFields(s.env, fs, vs))),
                  Out(Normal(Nil), t.(env := BindFields(t.env, fs, vs))), k')
    decreases fs
  {
    if fs == [] {
      k' := k;
      AgreeCtl(k, g, s, t, Normal(Nil));
      assert g + (set x | x in FieldLocals(fs)) == g;
    } else if fs[0].Some? {
      var x := fs[0].value;
      SetAgree(k, g, s, t, x, vs[0]);
      var k1 := Link(k.own - {x}, k.dead);
      var s1, t1 := s.(env := s.env[x := vs[0]]), t.(env := t.env[x := vs[0]]);
      k' := FieldsAgree(k1, g + {x}, s1, t1, fs[1..], vs[1..]);
      KeptTrans(k, k1, k', s.mem, s.mem, s.mem);
      assert g + (set x | x in FieldLocals(fs)) == g + {x} + (set x | x in FieldLocals(fs[1..]));
    } else {
      k' := FieldsAgree(k, g, s, t, fs[1..], vs[1..]);
      assert FieldLocals(fs) == FieldLocals(fs[1..]);
    }
  }

  lemma BindPatAgree(k: Link, g: set<LocalId>, s: State, t: State, p: Pattern, v: Value) returns (k': Link)
    requires Linked(k, g, s, t) && Clean(v, k.dead, s.mem.next)
    ensures BindPat(s.env, s.mem, p, v).Some? == BindPat(t.env, t.mem, p, v).Some?
    ensures BindPat(s.env, s.mem, p, v).Some? ==>
              Agree(k, g + PatSet(p), s, t, Out(Normal(Nil), s.(env := BindPat(s.env, s.mem, p, v).value)),
                    Out(Normal(Nil), t.(env := BindPat(t.env, t.mem, p, v).value)), k')
  {
    k' := k;
    match p
    case Bind(x) =>
      SetAgree(k, g, s, t, x, v);
      k' := Link(k.own - {x}, k.dead);
      assert PatSet(p) == {x};
    case TypeTest(_, Some(x)) =>
      if v.Boxed? {
        SetAgree(k, g, s, t, x, v.payload);
        k' := Link(k.own - {x}, k.dead);
        assert PatSet(p) == {x};
      }
    case Record(fs) =>
      ReadAgree(k, g, s, t, v);
      if HasBlock(s.mem, v) && |fs| <= |BlockAt(s.mem, v)| {
        k' := FieldsAgree(k, g, s, t, fs, BlockAt(s.mem, v));
      }
    case _ =>
      AgreeCtl(k, g, s, t, Normal(Nil));
      assert g + PatSet(p) == g;
  }

  /** Zeroing the frame block of a local that is out of scope. */
  lemma BlankAgree(k: Link, g: set<LocalId>, s: State, t: State, x: LocalId, vs: seq<Value>)
    requires Linked(k, g, s, t) && x !in g
    ensures Linked(Link(k.own - {x}, k.dead), g, s, t.(mem := t.mem.(stack := t.mem.stack[x := vs])))
    ensures Kept(k, Link(k.own - {x}, k.dead), s.mem, s.mem)
  {
    var k' := Link(k.own - {x}, k.dead);
    forall y <- k'.own
      ensures Owned(k', y, s, t.(mem := t.mem.(stack := t.mem.stack[x := vs])))
    {
      assert Owned(k, y, s, t);
    }
  }

  /** `let x = S { vs }` with a heap block and with the frame's block. */
  function HeapLet(s: State, x: LocalId, vs: seq<Value>): State
  {
    s.(mem := Alloc(s.mem, vs).0, env := s.env[x := Ptr(s.mem.next)])
  }

  function SlotLet(t: State, x: LocalId, vs: seq<Value>): State
  {
    t.(mem := AllocSlot(t.mem, x, vs).0, env := t.env[x := Slot(x)])
  }

  function Extend(k: Link, x: LocalId, a: nat): Link
  {
    Link(k.own[x := a], k.dead + {a})
  }

  lemma SlotHeap(k: Link, s: State, t: State, x: LocalId, vs: seq<Value>)
    requires HeapLinked(k.dead, s.mem, t.mem)
    ensures var k', s' := Extend(k, x, s.mem.next), HeapLet(s, x, vs);
            HeapLinked(k'.dead, s'.mem, SlotLet(t, x, vs).mem) && Kept(k, k', s.mem, s'.mem)
  {
    var k', sm := Extend(k, x, s.mem.next), HeapLet(s, x, vs).mem;
    assert Kept(k, k', s.mem, sm);
    forall a <- t.mem.heap
      ensures CleanAll(t.mem.heap[a], k'.dead, sm.next)
    {
      CleanAllMono(t.mem.heap[a], k, k', s.mem, sm);
    }
  }

  lemma OwnedAfterSlot(k: Link, s: State, t: State, y: LocalId, x: LocalId, vs: seq<Value>)
    requires y in k.own && y != x && Owned(k, y, s, t) && HeapLinked(k.dead, s.mem, t.mem)
    ensures Owned(Extend(k, x, s.mem.next), y, HeapLet(s, x, vs), SlotLet(t, x, vs))
  {
    SlotHeap(k, s, t, x, vs);
    CleanAllMono(t.mem.stack[y], k, Extend(k, x, s.mem.next), s.mem, HeapLet(s, x, vs).mem);
  }

  lemma OwnedBySlot(k: Link, s: State, t: State, x: LocalId, vs: seq<Value>)
    requires HeapLinked(k.dead, s.mem, t.mem) && x in t.stacked && CleanAll(vs, k.dead, s.mem.next)
    ensures Owned(Extend(k, x, s.mem.next), x, HeapLet(s, x, vs), SlotLet(t, x, vs))
  {
    SlotHeap(k, s, t, x, vs);
    CleanAllMono(vs, k, Extend(k, x, s.mem.next), s.mem, HeapLet(s, x, vs).mem);
  }

  /** Filling the frame block of `x` on one side and a new heap block on the other. */
  lemma SlotAgree(k: Link, g: set<LocalId>, s: State, t: State, x: LocalId, vs: seq<Value>)
    requires Linked(k, g, s, t) && x in t.stacked && CleanAll(vs, k.dead, s.mem.next)
    ensures Agree(k, g + {x}, s, t, Out(Normal(Nil), HeapLet(s, x, vs)), Out(Normal(Nil), SlotLet(t, x, vs)),
                  Extend(k, x, s.mem.next))
  {
    var k', s', t' := Extend(k, x, s.mem.next), HeapLet(s, x, vs), SlotLet(t, x, vs);
    SlotHeap(k, s, t, x, vs);
    OwnedBySlot(k, s, t, x, vs);
    forall y <- k.own | y != x
      ensures Owned(k', y, s', t') && k.own[y] < s.mem.next
    {
      assert Owned(k, y, s, t);
      OwnedAfterSlot(k, s, t, y, x, vs);
    }
    forall y <- g | y !in k'.own
      ensures Clean(Get(s.env, y), k'.dead, s'.mem.next)
    {
      CleanMono(Get(s.env, y), k, k', s.mem, s'.mem);
    }
    hide HeapLinked, CleanAll, Kept, Owned;
  }

  // -- calls ----------------------------------------------------------------------------------

  lemma {:induction false} ArgsIn(env: Env, xs: seq<LocalId>, vs: seq<Value>, x: LocalId)
    requires |xs| == |vs|
    ensures var v := Get(SetAll(env, xs, vs), x); v in vs || v == Get(env, x)
    decreases xs
  {
    if xs != [] {
      ArgsIn(env[xs[0] := vs[0]], xs[1..], vs[1..], x);
    }
  }

  /** A callee starts with nothing of its own; the caller's blocks are dead to it. */
  lemma EnterAgree(k: Link, g: set<LocalId>, s: State, t: State, f: Func, chosen: set<LocalId>, vs: seq<Value>,
                   h: set<LocalId>)
    requires Linked(k, g, s, t) && |f.params| == |vs| && CleanAll(vs, k.dead, s.mem.next) && f.stacked == {}
    ensures Linked(Link(map[], k.dead), h, Enter(s, f, vs), Enter(t, f.(stacked := chosen), vs))
  {
    forall x <- h
      ensures Clean(Get(SetAll(map[], f.params, vs), x), k.dead, s.mem.next)
    {
      ArgsIn(map[], f.params, vs, x);
    }
  }

  lemma LeaveAgree(k: Link, g: set<LocalId>, s: State, t: State, s': State, t': State, k1: Link, h: set<LocalId>)
    requires Linked(k, g, s, t) && Linked(k1, h, s', t')
             && Kept(Link(map[], k.dead), k1, s.mem.(stack := map[]), s'.mem)
    ensures Linked(Link(k.own, k1.dead), g, Leave(s, s'), Leave(t, t')) && Leave(t, t').stacked == t.stacked
    ensures Kept(k, Link(k.own, k1.dead), s.mem, Leave(s, s').mem)
  {
    var k2 := Link(k.own, k1.dead);
    var a, b := Leave(s, s'), Leave(t, t');
    assert Kept(k, k2, s.mem, a.mem);
    forall y <- k.own
      ensures Owned(k2, y, a, b)
    {
      assert Owned(k, y, s, t);
      CleanAllMono(t.mem.stack[y], k, k2, s.mem, a.mem);
    }
    forall x <- g | x !in k.own
      ensures Clean(Get(s.env, x), k1.dead, s'.mem.next)
    {
      CleanMono(Get(s.env, x), k, k2, s.mem, a.mem);
    }
  }

  // -- nobody else refers to a chosen block ------------------------------------------------------

  predicate Mentions(v: Value, w: Value)
  {
    || v == w
    || (v.Boxed? && Mentions(v.payload, w))
    || (v.Object? && Mentions(v.data, w))
  }

  lemma {:induction false} CleanMentions(v: Value, w: Value, dead: set<nat>, next: nat)
    requires Clean(v, dead, next) && (w.Slot? || (w.Ptr? && w.addr in dead))
    ensures !Mentions(v, w)
  {
    match v
    case Boxed(_, p) => CleanMentions(p, w, dead, next);
    case Object(_, d) => CleanMentions(d, w, dead, next);
    case _ =>
  }

  /** While a chosen local is bound, no other local in scope, no field of a heap block
      and no field of a frame block leads to its block, in either run. */
  lemma OnlyOwnerRefers(k: Link, g: set<LocalId>, s: State, t: State, x: LocalId)
    requires Linked(k, g, s, t) && x in k.own
    ensures forall y <- g | y != x :: !Mentions(Get(t.env, y), Slot(x)) && !Mentions(Get(s.env, y), Ptr(k.own[x]))
    ensures forall a <- t.mem.heap, i | 0 <= i < |t.mem.heap[a]| ::
              !Mentions(t.mem.heap[a][i], Slot(x)) && !Mentions(t.mem.heap[a][i], Ptr(k.own[x]))
    ensures forall y <- k.own, i | 0 <= i < |t.mem.stack[y]| ::
              !Mentions(t.mem.stack[y][i], Slot(x)) && !Mentions(t.mem.stack[y][i], Ptr(k.own[x]))
  {
    assert Owned(k, x, s, t);
    var a, b := Slot(x), Ptr(k.own[x]);
    forall y <- g | y != x
      ensures !Mentions(Get(t.env, y), a) && !Mentions(Get(s.env, y), b)
    {
      if y in k.own {
        assert Owned(k, y, s, t);
      } else {
        CleanMentions(Get(t.env, y), a, k.dead, s.mem.next);
        CleanMentions(Get(s.env, y), b, k.dead, s.mem.next);
      }
    }
    forall c <- t.mem.heap, i | 0 <= i < |t.mem.heap[c]|
      ensures !Mentions(t.mem.heap[c][i], a) && !Mentions(t.mem.heap[c][i], b)
    {
      CleanMentions(t.mem.heap[c][i], a, k.dead, s.mem.next);
      CleanMentions(t.mem.heap[c][i], b, k.dead, s.mem.next);
    }
    forall y <- k.own, i | 0 <= i < |t.mem.stack[y]|
      ensures !Mentions(t.mem.stack[y][i], a) && !Mentions(t.mem.stack[y][i], b)
    {
      assert Owned(k, y, s, t);
      CleanMentions(t.mem.stack[y][i], a, k.dead, s.mem.next);
      CleanMentions(t.mem.stack[y][i], b, k.dead, s.mem.next);
    }
  }
}
