/**
 The syntactic walks over a body: which nodes hold an `await`, which suspend
 sites the poll function registers, which `for` loops need state slots, which
 locals a body binds, and the normal form and scoping rules a body obeys once
 await-hoisting and name resolution are done.
 */
module Scan {
  import opened Hir

  // -- has-await -------------------------------------------------------------

  predicate HasAwait(e: Expr)
  {
    match e
    case Await(_, _) => true
    case Prim(_, args) => HasAwaitArgs(args)
    case Logic(_, l, r) => HasAwait(l) || HasAwait(r)
    case Call(_, args) => HasAwaitArgs(args)
    case Struct(_, fields) => HasAwaitArgs(fields)
    case Field(recv, _) => HasAwait(recv)
    case Append(l, i) => HasAwait(l) || HasAwait(i)
    case Adjust(_, inner) => HasAwait(inner)
    case Cast(_, inner, _, _) => HasAwait(inner)
    case If(c, t, f) => HasAwait(c) || HasAwaitBlock(t) || HasAwait(f)
    case Match(sc, arms) => HasAwait(sc) || HasAwaitArms(arms)
    case BlockExpr(b) => HasAwaitBlock(b)
    case Loop(b) => HasAwaitBlock(b)
    case While(c, b) => HasAwait(c) || HasAwaitBlock(b)
    case For(_, iter, _, b, d) => d.AsyncIter? || HasAwait(iter) || HasAwaitBlock(b)
    case Return(v) => HasAwait(v)
    case Break(v) => HasAwait(v)
    case _ => false
  }

  predicate HasAwaitArgs(es: Exprs)
  {
    es.ECons? && (HasAwait(es.head) || HasAwaitArgs(es.tail))
  }

  predicate HasAwaitArms(arms: Arms)
  {
    arms.Arm? && (HasAwait(arms.guard) || HasAwait(arms.arm) || HasAwaitArms(arms.rest))
  }

  predicate HasAwaitStmt(s: Stmt)
  {
    match s
    case Let(_, init) => HasAwait(init)
    case Assign(t, v) => HasAwait(t) || HasAwait(v)
    case ExprStmt(e) => HasAwait(e)
  }

  predicate HasAwaitBlock(b: Block)
  {
    match b
    case Tail(e) => HasAwait(e)
    case Then(s, rest) => HasAwaitStmt(s) || HasAwaitBlock(rest)
  }

  // -- suspend sites -----------------------------------------------------------

  /** The spans that key the suspend sites of a value position, in scan order. */
  function ScanValue(e: Expr): (out: seq<Span>)
  {
    match e
    case Await(sp, _) => [sp]
    case Adjust(_, inner) => ScanValue(inner)
    case Return(v) => ScanValue(v)
    case Break(v) => ScanValue(v)
    case Logic(_, _, r) => ScanValue(r)
    case BlockExpr(b) => ScanBlock(b)
    case Loop(b) => ScanBlock(b)
    case While(c, b) => ScanValue(c) + ScanBlock(b)
    case For(_, _, sp, b, d) => (if d.AsyncIter? then [sp] else []) + ScanBlock(b)
    case If(_, t, f) => ScanBlock(t) + ScanValue(f)
    case Match(_, arms) => ScanArms(arms)
    case _ => []
  }

  function ScanArms(arms: Arms): (out: seq<Span>)
  {
    if arms.NoArms? then [] else ScanValue(arms.arm) + ScanArms(arms.rest)
  }

  function ScanStmt(s: Stmt): (out: seq<Span>)
  {
    match s
    case Let(_, init) => ScanValue(init)
    case Assign(_, v) => ScanValue(v)
    case ExprStmt(e) => ScanValue(e)
  }

  function ScanBlock(b: Block): (out: seq<Span>)
  {
    match b
    case Tail(e) => ScanValue(e)
    case Then(s, rest) => ScanStmt(s) + ScanBlock(rest)
  }

  /** The iterable spans of the ordinary `for` loops whose body awaits: the loops
      that get state slots. */
  function ScanFor(e: Expr): (out: seq<Span>)
  {
    match e
    case For(_, _, sp, b, d) => (if !d.AsyncIter? && HasAwaitBlock(b) then [sp] else []) + ScanForBlock(b)
    case BlockExpr(b) => ScanForBlock(b)
    case Loop(b) => ScanForBlock(b)
    case While(c, b) => ScanFor(c) + ScanForBlock(b)
    case Logic(_, _, r) => ScanFor(r)
    case Adjust(_, inner) => ScanFor(inner)
    case Return(v) => ScanFor(v)
    case Break(v) => ScanFor(v)
    case If(_, t, f) => ScanForBlock(t) + ScanFor(f)
    case Match(_, arms) => ScanForArms(arms)
    case _ => []
  }

  function ScanForArms(arms: Arms): (out: seq<Span>)
  {
    if arms.NoArms? then [] else ScanFor(arms.arm) + ScanForArms(arms.rest)
  }

  function ScanForStmt(s: Stmt): (out: seq<Span>)
  {
    match s
    case Let(_, init) => ScanFor(init)
    case Assign(_, v) => ScanFor(v)
    case ExprStmt(e) => ScanFor(e)
  }

  function ScanForBlock(b: Block): (out: seq<Span>)
  {
    match b
    case Tail(e) => ScanFor(e)
    case Then(s, rest) => ScanForStmt(s) + ScanForBlock(rest)
  }

  // -- normal form -------------------------------------------------------------

  /** Awaits stand only where the scan descends: await-hoisting has moved the
      others into a preceding `let`. */
  predicate Nf(e: Expr)
  {
    !HasAwait(e) ||
    match e
    case Await(_, f) => !HasAwait(f)
    case Adjust(_, inner) => Nf(inner)
    case Return(v) => Nf(v)
    case Break(v) => Nf(v)
    case Logic(_, l, r) => !HasAwait(l) && Nf(r)
    case BlockExpr(b) => NfBlock(b)
    case Loop(b) => NfBlock(b)
    case While(c, b) => Nf(c) && NfBlock(b)
    case For(_, iter, _, b, d) => !HasAwait(iter) && (d.AsyncIter? ==> iter.Local?) && NfBlock(b)
    case If(c, t, f) => !HasAwait(c) && NfBlock(t) && Nf(f)
    case Match(sc, arms) => !HasAwait(sc) && NfArms(arms)
    case _ => false
  }

  predicate NfArms(arms: Arms)
  {
    arms.Arm? ==> !HasAwait(arms.guard) && Nf(arms.arm) && NfArms(arms.rest)
  }

  predicate NfStmt(s: Stmt)
  {
    match s
    case Let(_, init) => Nf(init)
    case Assign(t, v) => !HasAwait(t) && Nf(v)
    case ExprStmt(e) => Nf(e)
  }

  predicate NfBlock(b: Block)
  {
    match b
    case Tail(e) => Nf(e)
    case Then(s, rest) => NfStmt(s) && NfBlock(rest)
  }

  // -- termination of straight-line code ----------------------------------------

  /** Code generation after `e` stands in a terminated block. */
  predicate Term(e: Expr)
  {
    match e
    case Return(_) => true
    case Break(_) => true
    case Continue => true
    case BlockExpr(b) => TermBlock(b)
    case Adjust(_, inner) => Term(inner)
    case _ => false
  }

  predicate TermStmt(s: Stmt)
  {
    match s
    case Let(_, init) => Term(init)
    case Assign(_, v) => Term(v)
    case ExprStmt(e) => Term(e)
  }

  predicate TermBlock(b: Block)
  {
    match b
    case Tail(e) => Term(e)
    case Then(s, rest) => TermStmt(s) || TermBlock(rest)
  }

  // -- the suspend sites code generation reaches --------------------------------

  /** Every await that `h_expr` lowers, in emission order; a block stops at the
      first statement that terminates. */
  function Reach(e: Expr): (out: seq<Span>)
  {
    match e
    case Await(sp, f) => Reach(f) + [sp]
    case Prim(_, args) => ReachArgs(args)
    case Logic(_, l, r) => Reach(l) + Reach(r)
    case Call(_, args) => ReachArgs(args)
    case Struct(_, fields) => ReachArgs(fields)
    case Field(recv, _) => Reach(recv)
    case Append(l, i) => Reach(l) + Reach(i)
    case Adjust(_, inner) => Reach(inner)
    case Cast(_, inner, _, _) => Reach(inner)
    case If(c, t, f) => Reach(c) + ReachBlock(t) + Reach(f)
    case Match(sc, arms) => Reach(sc) + ReachArms(arms)
    case BlockExpr(b) => ReachBlock(b)
    case Loop(b) => ReachBlock(b)
    case While(c, b) => Reach(c) + ReachBlock(b)
    case For(_, iter, sp, b, d) => Reach(iter) + (if d.AsyncIter? then [sp] else []) + ReachBlock(b)
    case Return(v) => Reach(v)
    case Break(v) => Reach(v)
    case _ => []
  }

  function ReachArgs(es: Exprs): (out: seq<Span>)
  {
    if es.ENil? then [] else Reach(es.head) + ReachArgs(es.tail)
  }

  function ReachArms(arms: Arms): (out: seq<Span>)
  {
    if arms.NoArms? then [] else Reach(arms.guard) + Reach(arms.arm) + ReachArms(arms.rest)
  }

  function ReachStmt(s: Stmt): (out: seq<Span>)
  {
    match s
    case Let(_, init) => Reach(init)
    case Assign(t, v) => Reach(v) + Reach(t)
    case ExprStmt(e) => Reach(e)
  }

  function ReachBlock(b: Block): (out: seq<Span>)
  {
    match b
    case Tail(e) => Reach(e)
    case Then(s, rest) => ReachStmt(s) + (if TermStmt(s) then [] else ReachBlock(rest))
  }

  // -- locals --------------------------------------------------------------------

  /** `push_local_id`: first occurrence wins. */
  function Push(acc: seq<LocalId>, x: LocalId): (r: seq<LocalId>)
  {
    if x in acc then acc else acc + [x]
  }

  function PushAll(acc: seq<LocalId>, xs: seq<LocalId>): (r: seq<LocalId>)
    decreases xs
  {
    if xs == [] then acc else PushAll(Push(acc, xs[0]), xs[1..])
  }

  function Collect(e: Expr, acc: seq<LocalId>): (r: seq<LocalId>)
    decreases e
  {
    match e
    case Await(_, f) => Collect(f, acc)
    case Prim(_, args) => CollectArgs(args, acc)
    case Logic(_, l, rt) => Collect(rt, Collect(l, acc))
    case Call(_, args) => CollectArgs(args, acc)
    case Struct(_, fields) => CollectArgs(fields, acc)
    case Field(recv, _) => Collect(recv, acc)
    case Append(l, i) => Collect(i, Collect(l, acc))
    case Adjust(_, inner) => Collect(inner, acc)
    case Cast(_, inner, _, _) => Collect(inner, acc)
    case If(c, t, f) => Collect(f, CollectBlock(t, Collect(c, acc)))
    case Match(sc, arms) => CollectArms(arms, Collect(sc, acc))
    case BlockExpr(b) => CollectBlock(b, acc)
    case Loop(b) => CollectBlock(b, acc)
    case While(c, b) => CollectBlock(b, Collect(c, acc))
    case For(p, iter, _, b, _) => CollectBlock(b, Collect(iter, PushAll(acc, PatLocals(p))))
    case Return(v) => Collect(v, acc)
    case Break(v) => Collect(v, acc)
    case _ => acc
  }

  function CollectArgs(es: Exprs, acc: seq<LocalId>): (r: seq<LocalId>)
    decreases es
  {
    if es.ENil? then acc else CollectArgs(es.tail, Collect(es.head, acc))
  }

  function CollectArms(arms: Arms, acc: seq<LocalId>): (r: seq<LocalId>)
    decreases arms
  {
    if arms.NoArms? then acc
    else CollectArms(arms.rest, Collect(arms.arm, Collect(arms.guard, PushAll(acc, PatLocals(arms.pat)))))
  }

  function CollectStmt(s: Stmt, acc: seq<LocalId>): (r: seq<LocalId>)
    decreases s
  {
    match s
    case Let(p, init) => Collect(init, PushAll(acc, PatLocals(p)))
    case Assign(t, v) => Collect(v, Collect(t, acc))
    case ExprStmt(e) => Collect(e, acc)
  }

  function CollectBlock(b: Block, acc: seq<LocalId>): (r: seq<LocalId>)
    decreases b
  {
    match b
    case Tail(e) => Collect(e, acc)
    case Then(s, rest) => CollectBlock(rest, CollectStmt(s, acc))
  }

  /** The locals some pattern inside `e` binds. */
  function Bound(e: Expr): set<LocalId>
  {
    match e
    case Await(_, f) => Bound(f)
    case Prim(_, args) => BoundArgs(args)
    case Logic(_, l, r) => Bound(l) + Bound(r)
    case Call(_, args) => BoundArgs(args)
    case Struct(_, fields) => BoundArgs(fields)
    case Field(recv, _) => Bound(recv)
    case Append(l, i) => Bound(l) + Bound(i)
    case Adjust(_, inner) => Bound(inner)
    case Cast(_, inner, _, _) => Bound(inner)
    case If(c, t, f) => Bound(c) + BoundBlock(t) + Bound(f)
    case Match(sc, arms) => Bound(sc) + BoundArms(arms)
    case BlockExpr(b) => BoundBlock(b)
    case Loop(b) => BoundBlock(b)
    case While(c, b) => Bound(c) + BoundBlock(b)
    case For(p, iter, _, b, _) => PatSet(p) + Bound(iter) + BoundBlock(b)
    case Return(v) => Bound(v)
    case Break(v) => Bound(v)
    case _ => {}
  }

  function BoundArgs(es: Exprs): set<LocalId>
  {
    if es.ENil? then {} else Bound(es.head) + BoundArgs(es.tail)
  }

  function BoundArms(arms: Arms): set<LocalId>
  {
    if arms.NoArms? then {} else PatSet(arms.pat) + Bound(arms.guard) + Bound(arms.arm) + BoundArms(arms.rest)
  }

  function BoundStmt(s: Stmt): set<LocalId>
  {
    match s
    case Let(p, init) => PatSet(p) + Bound(init)
    case Assign(t, v) => Bound(t) + Bound(v)
    case ExprStmt(e) => Bound(e)
  }

  function BoundBlock(b: Block): set<LocalId>
  {
    match b
    case Tail(e) => Bound(e)
    case Then(s, rest) => BoundStmt(s) + BoundBlock(rest)
  }

  /** `captured_locals`: the locals that some closure inside `e` captures. */
  function Captures(e: Expr): set<LocalId>
  {
    match e
    case Closure(caps) => set x | x in caps
    case Await(_, f) => Captures(f)
    case Prim(_, args) => CapturesArgs(args)
    case Logic(_, l, r) => Captures(l) + Captures(r)
    case Call(_, args) => CapturesArgs(args)
    case Struct(_, fields) => CapturesArgs(fields)
    case Field(recv, _) => Captures(recv)
    case Append(l, i) => Captures(l) + Captures(i)
    case Adjust(_, inner) => Captures(inner)
    case Cast(_, inner, _, _) => Captures(inner)
    case If(c, t, f) => Captures(c) + CapturesBlock(t) + Captures(f)
    case Match(sc, arms) => Captures(sc) + CapturesArms(arms)
    case BlockExpr(b) => CapturesBlock(b)
    case Loop(b) => CapturesBlock(b)
    case While(c, b) => Captures(c) + CapturesBlock(b)
    case For(_, iter, _, b, _) => Captures(iter) + CapturesBlock(b)
    case Return(v) => Captures(v)
    case Break(v) => Captures(v)
    case _ => {}
  }

  function CapturesArgs(es: Exprs): set<LocalId>
  {
    if es.ENil? then {} else Captures(es.head) + CapturesArgs(es.tail)
  }

  function CapturesArms(arms: Arms): set<LocalId>
  {
    if arms.NoArms? then {} else Captures(arms.guard) + Captures(arms.arm) + CapturesArms(arms.rest)
  }

  function CapturesStmt(s: Stmt): set<LocalId>
  {
    match s
    case Let(_, init) => Captures(init)
    case Assign(t, v) => Captures(t) + Captures(v)
    case ExprStmt(e) => Captures(e)
  }

  function CapturesBlock(b: Block): set<LocalId>
  {
    match b
    case Tail(e) => Captures(e)
    case Then(s, rest) => CapturesStmt(s) + CapturesBlock(rest)
  }

  // -- scoping ---------------------------------------------------------------------

  /** Every local is used only where a parameter or an enclosing, earlier pattern
      binds it, and a `let` binds locals of its own: what name resolution guarantees. */
  predicate Scoped(e: Expr, g: set<LocalId>)
    decreases e
  {
    match e
    case Local(x) => x in g
    case Await(_, f) => Scoped(f, g)
    case Prim(_, args) => ScopedArgs(args, g)
    case Logic(_, l, r) => Scoped(l, g) && Scoped(r, g)
    case Call(_, args) => ScopedArgs(args, g)
    case Struct(_, fields) => ScopedArgs(fields, g)
    case Field(recv, _) => Scoped(recv, g)
    case Append(l, i) => Scoped(l, g) && Scoped(i, g)
    case Adjust(_, inner) => Scoped(inner, g)
    case Cast(_, inner, _, _) => Scoped(inner, g)
    case If(c, t, f) => Scoped(c, g) && ScopedBlock(t, g) && Scoped(f, g)
    case Match(sc, arms) => Scoped(sc, g) && ScopedArms(arms, g)
    case BlockExpr(b) => ScopedBlock(b, g)
    case Loop(b) => ScopedBlock(b, g)
    case While(c, b) => Scoped(c, g) && ScopedBlock(b, g)
    case For(p, iter, _, b, _) => Scoped(iter, g) && ScopedBlock(b, g + PatSet(p))
    case Return(v) => Scoped(v, g)
    case Break(v) => Scoped(v, g)
    case Closure(caps) => forall x <- caps :: x in g
    case _ => true
  }

  predicate ScopedArgs(es: Exprs, g: set<LocalId>)
    decreases es
  {
    es.ECons? ==> Scoped(es.head, g) && ScopedArgs(es.tail, g)
  }

  predicate ScopedArms(arms: Arms, g: set<LocalId>)
    decreases arms
  {
    arms.Arm? ==>
      && Scoped(arms.guard, g + PatSet(arms.pat))
      && Scoped(arms.arm, g + PatSet(arms.pat))
      && ScopedArms(arms.rest, g)
  }

  predicate ScopedStmt(s: Stmt, g: set<LocalId>)
    decreases s
  {
    match s
    case Let(pat, init) => PatSet(pat) !! g && Scoped(init, g)
    case Assign(t, v) => Scoped(v, g) && Scoped(t, g)
    case ExprStmt(e) => Scoped(e, g)
  }

  /** The locals in scope after a statement. */
  function ScopeAfter(s: Stmt, g: set<LocalId>): set<LocalId>
  {
    if s.Let? then g + PatSet(s.pat) else g
  }

  predicate ScopedBlock(b: Block, g: set<LocalId>)
    decreases b
  {
    match b
    case Tail(e) => Scoped(e, g)
    case Then(s, rest) => ScopedStmt(s, g) && ScopedBlock(rest, ScopeAfter(s, g))
  }
}
