/**
 The inliner for small scalar functions: which calls it accepts, and that evaluating an
 accepted callee in the caller's frame is the call.
 */
module Inline {
  import opened Hir
  import opened Semantics
  import opened AsyncLayout

  /** What the inliner reads about the callee besides its body: whether it is a plain,
      non-generic, synchronous function with a scalar result, which locals are scalars,
      which primitive operations are unary or binary operators or numeric intrinsics, and
      how many direct calls of it the program has. */
  datatype Info = Info(plain: bool, scalars: set<LocalId>, numeric: set<nat>, calls: nat)

  /** `inline_expr_cost_inner`: `None` where the expression may not be inlined. */
  function Cost(i: Info, e: Expr, allowed: set<LocalId>): Option<nat>
    decreases e
  {
    match e
    case Int(_) => Some(1)
    case Null => Some(1)
    case Local(x) => if x in allowed then Some(1) else None
    case Prim(op, args) => if op in i.numeric then CostArgs(i, args, allowed, 1) else None
    case Cast(As, inner, _, _) =>
      (match Cost(i, inner, allowed) case None => None case Some(c) => Some(c + 1))
    case _ => None
  }

  function CostArgs(i: Info, es: Exprs, allowed: set<LocalId>, acc: nat): Option<nat>
    decreases es
  {
    match es
    case ENil => Some(acc)
    case ECons(head, tail) =>
      match Cost(i, head, allowed)
      case None => None
      case Some(c) => CostArgs(i, tail, allowed, acc + c)
  }

  /** The cost of a body of `let`s and a tail expression. */
  function CostBlock(i: Info, b: Block, allowed: set<LocalId>, acc: nat): Option<nat>
    decreases b
  {
    match b
    case Tail(e) => (match Cost(i, e, allowed) case None => None case Some(c) => Some(acc + c))
    case Then(Let(Bind(x), init), rest) =>
      if x !in i.scalars then None
      else
        (match Cost(i, init, allowed)
         case None => None
         case Some(c) => CostBlock(i, rest, allowed + {x}, acc + c + 1))
    case _ => None
  }

  predicate Accepts(i: Info, f: Func)
  {
    && i.plain && Elems(f.params) <= i.scalars
    && match CostBlock(i, f.body, Elems(f.params), 0)
       case None => false
       case Some(c) => (i.calls == 1 && c <= 20) || c <= 3
  }

  /** The decision as `try_inline_direct_call` makes it, statement by statement. */
  method Decide(i: Info, f: Func) returns (ok: bool)
    ensures ok == Accepts(i, f)
  {
    if !i.plain || !(Elems(f.params) <= i.scalars) {
      return false;
    }
    var allowed, cost, rest := Elems(f.params), 0, f.body;
    while rest.Then?
      invariant CostBlock(i, rest, allowed, cost) == CostBlock(i, f.body, Elems(f.params), 0)
      decreases rest
    {
      match rest.s
      case Let(Bind(x), init) =>
        var c := Cost(i, init, allowed);
        if x !in i.scalars || c.None? {
          return false;
        }
        cost := cost + c.value + 1;
        allowed := allowed + {x};
        rest := rest.rest;
      case _ => return false;
    }
    var c := Cost(i, rest.e, allowed);
    return c.Some? && ((i.calls == 1 && cost + c.value <= 20) || cost + c.value <= 3);
  }

  /** Evaluating the callee's lets and tail in place: parameters and lets are bound over
      the caller's locals, which are put back afterwards. */
  function InPlace(pr: Program, f: Func, vs: seq<Value>, s: State, fuel: nat): Out
    requires |f.params| == |vs|
  {
    var r := EvalBlock(pr, f.body, s.(env := SetAll(s.env, f.params, vs)), fuel);
    Out(r.ctl, r.s.(env := s.env))
  }

  // -- accepted code ------------------------------------------------------------------------

  /** Same values for the allowed locals, same effects so far. */
  predicate Level(allowed: set<LocalId>, s: State, t: State)
  {
    s.trace == t.trace && forall x <- allowed :: Get(s.env, x) == Get(t.env, x)
  }

  /** From level states, the same outcome and effects; nothing else changes. */
  predicate Twin(s: State, t: State, r: Out, q: Out)
  {
    && r.ctl == q.ctl && (r.ctl.Normal? || r.ctl.Panic? || r.ctl.Stuck?)
    && r.s.trace == q.s.trace && r.s == s.(trace := r.s.trace) && q.s == t.(trace := q.s.trace)
  }

  /** An accepted expression reads only allowed locals, calls nothing and stores nothing. */
  lemma {:induction false} CostPure(i: Info, pr: Program, e: Expr, allowed: set<LocalId>, s: State, t: State, fuel: nat,
                                    other: nat)
    requires Cost(i, e, allowed).Some? && Level(allowed, s, t)
    ensures Twin(s, t, Eval(pr, e, s, fuel), Eval(pr, e, t, other))
    decreases e
  {
    match e
    case Prim(op, args) => ArgsPure(i, pr, args, allowed, 1, s, t, fuel, other);
    case Cast(_, inner, _, _) => CostPure(i, pr, inner, allowed, s, t, fuel, other);
    case _ =>
  }

  lemma {:induction false} ArgsPure(i: Info, pr: Program, es: Exprs, allowed: set<LocalId>, acc: nat, s: State,
                                    t: State, fuel: nat, other: nat)
    requires CostArgs(i, es, allowed, acc).Some? && Level(allowed, s, t)
    ensures var r, q := EvalArgs(pr, es, s, fuel), EvalArgs(pr, es, t, other);
            r.vs == q.vs && Twin(s, t, Out(r.ctl, r.s), Out(q.ctl, q.s))
    decreases es
  {
    if es.ECons? {
      CostPure(i, pr, es.head, allowed, s, t, fuel, other);
      var r, q := Eval(pr, es.head, s, fuel), Eval(pr, es.head, t, other);
      if r.ctl.Normal? {
        var c := Cost(i, es.head, allowed).value;
        ArgsPure(i, pr, es.tail, allowed, acc + c, r.s, q.s, fuel, other);
      }
    }
  }

  /** The same for a body of lets, whose own locals may differ afterwards. */
  lemma {:induction false} BlockPure(i: Info, pr: Program, b: Block, allowed: set<LocalId>, acc: nat, s: State,
                                     t: State, fuel: nat, other: nat)
    requires CostBlock(i, b, allowed, acc).Some? && Level(allowed, s, t)
    ensures var r, q := EvalBlock(pr, b, s, fuel), EvalBlock(pr, b, t, other);
            && r.ctl == q.ctl && (r.ctl.Normal? || r.ctl.Panic? || r.ctl.Stuck?) && r.s.trace == q.s.trace
            && r.s == s.(trace := r.s.trace, env := r.s.env) && q.s == t.(trace := q.s.trace, env := q.s.env)
    decreases b
  {
    match b
    case Tail(e) => CostPure(i, pr, e, allowed, s, t, fuel, other);
    case Then(Let(Bind(x), init), rest) =>
      CostPure(i, pr, init, allowed, s, t, fuel, other);
      var r, q := Eval(pr, init, s, fuel), Eval(pr, init, t, other);
      assert EvalInit(pr, Bind(x), init, s, fuel) == r && EvalInit(pr, Bind(x), init, t, other) == q;
      hide EvalInit, Eval;
      if r.ctl.Normal? {
        var s1, t1 := r.s.(env := r.s.env[x := r.ctl.v]), q.s.(env := q.s.env[x := r.ctl.v]);
        assert EvalStmt(pr, b.s, s, fuel) == Out(Normal(Nil), s1)
               && EvalStmt(pr, b.s, t, other) == Out(Normal(Nil), t1);
        BlockPure(i, pr, rest, allowed + {x}, acc + Cost(i, init, allowed).value + 1, s1, t1, fuel, other);
      }
  }

  lemma {:induction false} SetAllLevel(a: Env, b: Env, xs: seq<LocalId>, vs: seq<Value>, done: set<LocalId>)
    requires |xs| == |vs| && forall x <- done :: Get(a, x) == Get(b, x)
    ensures forall x <- done + (set x | x in xs) :: Get(SetAll(a, xs, vs), x) == Get(SetAll(b, xs, vs), x)
    decreases xs
  {
    if xs != [] {
      SetAllLevel(a[xs[0] := vs[0]], b[xs[0] := vs[0]], xs[1..], vs[1..], done + {xs[0]});
      assert done + (set x | x in xs) == done + {xs[0]} + (set x | x in xs[1..]);
    }
  }

  /** Whenever the inliner accepts, evaluating in place is the call: the same value or
      panic, the same effects, and the caller's locals and memory as the call leaves them. */
  lemma InPlaceIsCall(i: Info, pr: Program, d: DefId, vs: seq<Value>, s: State, fuel: nat, other: nat)
    requires d in pr.funcs && |pr.funcs[d].params| == |vs| && Accepts(i, pr.funcs[d]) && fuel > 0
    ensures InPlace(pr, pr.funcs[d], vs, s, other) == CallFn(pr, d, vs, s, fuel)
    ensures InPlace(pr, pr.funcs[d], vs, s, other).s == s.(trace := InPlace(pr, pr.funcs[d], vs, s, other).s.trace)
  {
    var f := pr.funcs[d];
    var a, b := Enter(s, f, vs), s.(env := SetAll(s.env, f.params, vs));
    SetAllLevel(map[], s.env, f.params, vs, {});
    assert {} + Elems(f.params) == Elems(f.params);
    BlockPure(i, pr, f.body, Elems(f.params), 0, a, b, fuel - 1, other);
  }

  // -- no further expansion -------------------------------------------------------------------

  predicate HasCall(e: Expr)
    decreases e
  {
    match e
    case Call(_, _) => true
    case Await(_, f) => HasCall(f)
    case Prim(_, args) => HasCallArgs(args)
    case Logic(_, l, r) => HasCall(l) || HasCall(r)
    case Struct(_, fields) => HasCallArgs(fields)
    case Field(recv, _) => HasCall(recv)
    case Append(l, i) => HasCall(l) || HasCall(i)
    case Adjust(_, inner) => HasCall(inner)
    case Cast(_, inner, _, _) => HasCall(inner)
    case If(c, t, f) => HasCall(c) || HasCallBlock(t) || HasCall(f)
    case Match(sc, arms) => HasCall(sc) || HasCallArms(arms)
    case BlockExpr(b) => HasCallBlock(b)
    case Loop(b) => HasCallBlock(b)
    case While(c, b) => HasCall(c) || HasCallBlock(b)
    case For(_, iter, _, b, d) => d.Iterator? || d.AsyncIter? || HasCall(iter) || HasCallBlock(b)
    case Return(v) => HasCall(v)
    case Break(v) => HasCall(v)
    case _ => false
  }

  predicate HasCallArgs(es: Exprs)
    decreases es
  {
    es.ECons? && (HasCall(es.head) || HasCallArgs(es.tail))
  }

  predicate HasCallArms(arms: Arms)
    decreases arms
  {
    arms.Arm? && (HasCall(arms.guard) || HasCall(arms.arm) || HasCallArms(arms.rest))
  }

  predicate HasCallBlock(b: Block)
    decreases b
  {
    match b
    case Tail(e) => HasCall(e)
    case Then(Let(_, init), rest) => HasCall(init) || HasCallBlock(rest)
    case Then(Assign(t, v), rest) => HasCall(t) || HasCall(v) || HasCallBlock(rest)
    case Then(ExprStmt(e), rest) => HasCall(e) || HasCallBlock(rest)
  }

  /** Accepted bodies hold no call, so accepting one never leads to another. */
  lemma {:induction false} AcceptedHasNoCall(i: Info, b: Block, allowed: set<LocalId>, acc: nat)
    requires CostBlock(i, b, allowed, acc).Some?
    ensures !HasCallBlock(b)
    decreases b
  {
    match b
    case Tail(e) => CostNoCall(i, e, allowed);
    case Then(Let(Bind(x), init), rest) =>
      CostNoCall(i, init, allowed);
      AcceptedHasNoCall(i, rest, allowed + {x}, acc + Cost(i, init, allowed).value + 1);
  }

  lemma {:induction false} CostNoCall(i: Info, e: Expr, allowed: set<LocalId>)
    requires Cost(i, e, allowed).Some?
    ensures !HasCall(e)
    decreases e
  {
    match e
    case Prim(_, args) => ArgsNoCall(i, args, allowed, 1);
    case Cast(_, inner, _, _) => CostNoCall(i, inner, allowed);
    case _ =>
  }

  lemma {:induction false} ArgsNoCall(i: Info, es: Exprs, allowed: set<LocalId>, acc: nat)
    requires CostArgs(i, es, allowed, acc).Some?
    ensures !HasCallArgs(es)
    decreases es
  {
    if es.ECons? {
      CostNoCall(i, es.head, allowed);
      ArgsNoCall(i, es.tail, allowed, acc + Cost(i, es.head, allowed).value);
    }
  }

  // -- what is accepted, from the syntax ---------------------------------------------------------

  /** The number of nodes of an expression built from operators. */
  function Nodes(e: Expr): nat
  {
    match e
    case Prim(_, args) => 1 + NodesArgs(args)
    case Cast(_, inner, _, _) => 1 + Nodes(inner)
    case _ => 1
  }

  function NodesArgs(es: Exprs): nat
  {
    if es.ENil? then 0 else Nodes(es.head) + NodesArgs(es.tail)
  }

  /** The expression and what it is built from. */
  function Parts(e: Expr): set<Expr>
  {
    match e
    case Prim(_, args) => {e} + PartsArgs(args)
    case Cast(_, inner, _, _) => {e} + Parts(inner)
    case _ => {e}
  }

  function PartsArgs(es: Exprs): set<Expr>
  {
    if es.ENil? then {} else Parts(es.head) + PartsArgs(es.tail)
  }

  /** Constants, allowed locals, numeric operations and `as`. */
  predicate Simple(i: Info, e: Expr, allowed: set<LocalId>)
  {
    || e.Int? || e.Null? || (e.Local? && e.x in allowed)
    || (e.Prim? && e.op in i.numeric) || (e.Cast? && e.cast == As)
  }

  /** An expression has a cost if and only if all its parts are simple, and then it is the
      number of its nodes. */
  lemma {:induction false} CostExactly(i: Info, e: Expr, allowed: set<LocalId>)
    ensures Cost(i, e, allowed)
            == if forall p <- Parts(e) :: Simple(i, p, allowed) then Some(Nodes(e)) else None
    decreases e
  {
    match e
    case Prim(op, args) =>
      CostArgsExactly(i, args, allowed, 1);
      assert e in Parts(e) && forall p <- PartsArgs(args) :: p in Parts(e);
    case Cast(op, inner, _, _) =>
      CostExactly(i, inner, allowed);
      assert e in Parts(e) && forall p <- Parts(inner) :: p in Parts(e);
    case _ => assert Parts(e) == {e};
  }

  lemma {:induction false} CostArgsExactly(i: Info, es: Exprs, allowed: set<LocalId>, acc: nat)
    ensures CostArgs(i, es, allowed, acc)
            == if forall p <- PartsArgs(es) :: Simple(i, p, allowed) then Some(acc + NodesArgs(es)) else None
    decreases es
  {
    if es.ECons? {
      CostExactly(i, es.head, allowed);
      CostArgsExactly(i, es.tail, allowed, acc + Nodes(es.head));
      assert forall p :: p in PartsArgs(es) <==> p in Parts(es.head) || p in PartsArgs(es.tail);
    }
  }

  /** A body of `let`s: how many, the local and the initialiser of each, and the tail. */
  predicate Lets(b: Block)
  {
    b.Tail? || (b.s.Let? && b.s.pat.Bind? && Lets(b.rest))
  }

  function LetCount(b: Block): nat
  {
    if b.Tail? then 0 else 1 + LetCount(b.rest)
  }

  function LetName(b: Block, k: nat): LocalId
    requires Lets(b) && k < LetCount(b)
  {
    if k == 0 then b.s.pat.local else LetName(b.rest, k - 1)
  }

  /** The initialiser of the `k`-th `let`, or the tail after the last. */
  function LetValue(b: Block, k: nat): Expr
    requires Lets(b) && k <= LetCount(b)
  {
    if b.Tail? then b.e else if k == 0 then b.s.init else LetValue(b.rest, k - 1)
  }

  function NodesFrom(b: Block): nat
    requires Lets(b)
  {
    if b.Tail? then Nodes(b.e) else Nodes(b.s.init) + 1 + NodesFrom(b.rest)
  }

  /** The allowed locals and those of the `let`s before the `k`-th. */
  function NamesBefore(b: Block, k: nat, allowed: set<LocalId>): set<LocalId>
    requires Lets(b) && k <= LetCount(b)
  {
    allowed + set j | 0 <= j < k :: LetName(b, j)
  }

  ghost predicate LetsSimple(i: Info, b: Block, allowed: set<LocalId>)
    requires Lets(b)
  {
    && (forall k | 0 <= k < LetCount(b) :: LetName(b, k) in i.scalars)
    && (forall k, p | 0 <= k <= LetCount(b) && p in Parts(LetValue(b, k)) :: Simple(i, p, NamesBefore(b, k, allowed)))
  }

  lemma {:induction false} CostBlockExactly(i: Info, b: Block, allowed: set<LocalId>, acc: nat)
    ensures CostBlock(i, b, allowed, acc)
            == if Lets(b) && LetsSimple(i, b, allowed) then Some(acc + NodesFrom(b)) else None
    decreases b
  {
    match b
    case Tail(e) =>
      CostExactly(i, e, allowed);
      assert NamesBefore(b, 0, allowed) == allowed && LetValue(b, 0) == e;
    case Then(Let(Bind(x), init), rest) =>
      CostExactly(i, init, allowed);
      CostBlockExactly(i, rest, allowed + {x}, acc + Nodes(init) + 1);
      if Lets(rest) {
        LetsSimpleStep(i, b, allowed);
      }
    case _ =>
  }

  lemma LetsSimpleStep(i: Info, b: Block, allowed: set<LocalId>)
    requires b.Then? && Lets(b)
    ensures LetsSimple(i, b, allowed) <==>
              && b.s.pat.local in i.scalars && (forall p <- Parts(b.s.init) :: Simple(i, p, allowed))
              && LetsSimple(i, b.rest, allowed + {b.s.pat.local})
  {
    hide Simple, Parts;
    var x, rest := b.s.pat.local, b.rest;
    assert LetName(b, 0) == x && LetValue(b, 0) == b.s.init && NamesBefore(b, 0, allowed) == allowed;
    forall k | 0 <= k <= LetCount(rest)
      ensures LetValue(b, k + 1) == LetValue(rest, k)
      ensures k < LetCount(rest) ==> LetName(b, k + 1) == LetName(rest, k)
      ensures NamesBefore(b, k + 1, allowed) == NamesBefore(rest, k, allowed + {x})
    {
      NamesStep(b, k, allowed);
    }
    if LetsSimple(i, rest, allowed + {x}) && x in i.scalars && forall p <- Parts(b.s.init) :: Simple(i, p, allowed) {
      forall k | 0 <= k < LetCount(b) ensures LetName(b, k) in i.scalars {
        assert k > 0 ==> LetName(b, k) == LetName(rest, k - 1);
      }
      forall k, p | 0 <= k <= LetCount(b) && p in Parts(LetValue(b, k))
        ensures Simple(i, p, NamesBefore(b, k, allowed))
      {
        if k > 0 {
          assert p in Parts(LetValue(rest, k - 1)) && Simple(i, p, NamesBefore(rest, k - 1, allowed + {x}));
        }
      }
    }
    if LetsSimple(i, b, allowed) {
      forall k | 0 <= k < LetCount(rest) ensures LetName(rest, k) in i.scalars {
        assert LetName(b, k + 1) in i.scalars;
      }
      forall k, p | 0 <= k <= LetCount(rest) && p in Parts(LetValue(rest, k))
        ensures Simple(i, p, NamesBefore(rest, k, allowed + {x}))
      {
        assert p in Parts(LetValue(b, k + 1));
      }
    }
  }

  lemma NamesStep(b: Block, k: nat, allowed: set<LocalId>)
    requires b.Then? && Lets(b) && k <= LetCount(b.rest)
    ensures NamesBefore(b, k + 1, allowed) == NamesBefore(b.rest, k, allowed + {b.s.pat.local})
  {
    var x := b.s.pat.local;
    forall y
      ensures y in NamesBefore(b, k + 1, allowed) <==> y in NamesBefore(b.rest, k, allowed + {x})
    {
      if j :| 0 <= j < k + 1 && y == LetName(b, j) {
        if j > 0 {
          assert y == LetName(b.rest, j - 1);
        }
      }
      if j :| 0 <= j < k && y == LetName(b.rest, j) {
        assert y == LetName(b, j + 1);
      }
      assert LetName(b, 0) == x;
    }
  }

  /** A call is accepted if and only if the callee is plain, its parameters and `let`s are
      scalars, each initialiser and the tail are built from constants, numeric operations,
      `as`, parameters and earlier `let`s, and there are at most three nodes and `let`s
      together, or at most twenty if it is the only call. */
  lemma AcceptedExactly(i: Info, f: Func)
    ensures Accepts(i, f) <==>
              && i.plain && (forall x <- f.params :: x in i.scalars)
              && Lets(f.body) && LetsSimple(i, f.body, set x | x in f.params)
              && (NodesFrom(f.body) <= 3 || (i.calls == 1 && NodesFrom(f.body) <= 20))
  {
    CostBlockExactly(i, f.body, Elems(f.params), 0);
    hide CostBlock, LetsSimple;
    assert Elems(f.params) == set x | x in f.params;
    assert Elems(f.params) <= i.scalars <==> forall x <- f.params :: x in i.scalars by {
      if forall x <- f.params :: x in i.scalars {
      } else {
        var x :| x in f.params && x !in i.scalars;
        assert x in Elems(f.params);
      }
    }
  }
}
