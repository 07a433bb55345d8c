/**
 What running a piece of code can change about its function's locals: only those the
 assigned-locals walk lists, and those bound inside.
 */
module FrameLocals {
  import opened Hir
  import opened Scan
  import opened Semantics
  import opened IfaceTypes

  /** The assigned-locals walk. A `let` is not an assignment; closures are skipped. */
  function Assigned(e: Expr): set<LocalId>
    decreases e
  {
    match e
    case Await(_, f) => Assigned(f)
    case Prim(_, args) => AssignedArgs(args)
    case Logic(_, l, r) => Assigned(l) + Assigned(r)
    case Call(_, args) => AssignedArgs(args)
    case Struct(_, fields) => AssignedArgs(fields)
    case Field(recv, _) => Assigned(recv)
    case Append(l, i) => Assigned(l) + Assigned(i)
    case Adjust(_, inner) => Assigned(inner)
    case Cast(_, inner, _, _) => Assigned(inner)
    case If(c, t, f) => Assigned(c) + AssignedBlock(t) + Assigned(f)
    case Match(sc, arms) => Assigned(sc) + AssignedArms(arms)
    case BlockExpr(b) => AssignedBlock(b)
    case Loop(b) => AssignedBlock(b)
    case While(c, b) => Assigned(c) + AssignedBlock(b)
    case For(_, iter, _, b, _) => Assigned(iter) + AssignedBlock(b)
    case Return(v) => Assigned(v)
    case Break(v) => Assigned(v)
    case _ => {}
  }

  function AssignedArgs(es: Exprs): set<LocalId>
    decreases es
  {
    if es.ENil? then {} else Assigned(es.head) + AssignedArgs(es.tail)
  }

  function AssignedArms(arms: Arms): set<LocalId>
    decreases arms
  {
    if arms.NoArms? then {} else Assigned(arms.guard) + Assigned(arms.arm) + AssignedArms(arms.rest)
  }

  function AssignedStmt(st: Stmt): set<LocalId>
    decreases st
  {
    match st
    case Let(_, init) => Assigned(init)
    case Assign(t, v) => (if t.Local? then {t.x} else {}) + Assigned(t) + Assigned(v)
    case ExprStmt(e) => Assigned(e)
  }

  function AssignedBlock(b: Block): set<LocalId>
    decreases b
  {
    match b
    case Tail(e) => Assigned(e)
    case Then(st, rest) => AssignedStmt(st) + AssignedBlock(rest)
  }

  /** Both environments give `x` the same value. */
  predicate SameAt(x: LocalId, a: Env, b: Env)
  {
    Get(a, x) == Get(b, x)
  }

  lemma {:induction false} BindFieldsFrame(x: LocalId, env: Env, fs: seq<Option<LocalId>>, vs: seq<Value>)
    requires |fs| <= |vs| && x !in FieldLocals(fs)
    ensures SameAt(x, env, BindFields(env, fs, vs))
    decreases fs
  {
    if fs != [] {
      BindFieldsFrame(x, if fs[0].Some? then env[fs[0].value := vs[0]] else env, fs[1..], vs[1..]);
    }
  }

  lemma BindFrame(x: LocalId, env: Env, m: Mem, p: Pattern, v: Value)
    requires x !in PatSet(p) && BindPat(env, m, p, v).Some?
    ensures SameAt(x, env, BindPat(env, m, p, v).value)
  {
    assert x !in PatLocals(p);
    match p
    case Record(fs) => BindFieldsFrame(x, env, fs, BlockAt(m, v));
    case TypeTest(_, Some(y)) => assert y in PatLocals(p);
    case Bind(y) => assert y in PatLocals(p);
    case _ =>
  }

  /** A call gives the caller its locals back. */
  lemma CallFrame(x: LocalId, pr: Program, d: DefId, vs: seq<Value>, s: State, fuel: nat)
    ensures SameAt(x, s.env, CallFn(pr, d, vs, s, fuel).s.env)
  {
    hide EvalBlock;
  }

  lemma StepFrame(x: LocalId, pr: Program, d: ForDriver, c: Cursor, s: State, fuel: nat)
    ensures SameAt(x, s.env, ForStep(pr, d, c, s, fuel).s.env)
  {
    hide CallFn;
    if d.Iterator? {
      CallFrame(x, pr, d.next, [c.primary], s, fuel);
    }
  }

  // -- assignments that keep a type ------------------------------------------------------

  /** Every assignment to `x` in `e` stores a value shown to be of type `want`; with no
      type wanted, there is none. */
  predicate OnlyAs(x: LocalId, want: Option<DefId>, e: Expr)
    decreases e
  {
    match e
    case Await(_, f) => OnlyAs(x, want, f)
    case Prim(_, args) => OnlyAsArgs(x, want, args)
    case Logic(_, l, r) => OnlyAs(x, want, l) && OnlyAs(x, want, r)
    case Call(_, args) => OnlyAsArgs(x, want, args)
    case Struct(_, fields) => OnlyAsArgs(x, want, fields)
    case Field(recv, _) => OnlyAs(x, want, recv)
    case Append(l, i) => OnlyAs(x, want, l) && OnlyAs(x, want, i)
    case Adjust(_, inner) => OnlyAs(x, want, inner)
    case Cast(_, inner, _, _) => OnlyAs(x, want, inner)
    case If(c, t, f) => OnlyAs(x, want, c) && OnlyAsBlock(x, want, t) && OnlyAs(x, want, f)
    case Match(sc, arms) => OnlyAs(x, want, sc) && OnlyAsArms(x, want, arms)
    case BlockExpr(b) => OnlyAsBlock(x, want, b)
    case Loop(b) => OnlyAsBlock(x, want, b)
    case While(c, b) => OnlyAs(x, want, c) && OnlyAsBlock(x, want, b)
    case For(_, iter, _, b, _) => OnlyAs(x, want, iter) && OnlyAsBlock(x, want, b)
    case Return(v) => OnlyAs(x, want, v)
    case Break(v) => OnlyAs(x, want, v)
    case _ => true
  }

  predicate OnlyAsArgs(x: LocalId, want: Option<DefId>, es: Exprs)
    decreases es
  {
    es.ECons? ==> OnlyAs(x, want, es.head) && OnlyAsArgs(x, want, es.tail)
  }

  predicate OnlyAsArms(x: LocalId, want: Option<DefId>, arms: Arms)
    decreases arms
  {
    arms.Arm? ==> OnlyAs(x, want, arms.guard) && OnlyAs(x, want, arms.arm) && OnlyAsArms(x, want, arms.rest)
  }

  predicate OnlyAsStmt(x: LocalId, want: Option<DefId>, st: Stmt)
    decreases st
  {
    match st
    case Let(_, init) => OnlyAs(x, want, init)
    case Assign(t, v) =>
      (t == Local(x) ==> want.Some? && Concrete(v) == want) && OnlyAs(x, want, t) && OnlyAs(x, want, v)
    case ExprStmt(e) => OnlyAs(x, want, e)
  }

  predicate OnlyAsBlock(x: LocalId, want: Option<DefId>, b: Block)
    decreases b
  {
    match b
    case Tail(e) => OnlyAs(x, want, e)
    case Then(st, rest) => OnlyAsStmt(x, want, st) && OnlyAsBlock(x, want, rest)
  }

  lemma {:induction false} UnassignedOnly(x: LocalId, want: Option<DefId>, e: Expr)
    requires x !in Assigned(e)
    ensures OnlyAs(x, want, e)
    decreases e
  {
    match e
    case Await(_, f) => UnassignedOnly(x, want, f);
    case Prim(_, args) => UnassignedArgs(x, want, args);
    case Logic(_, l, r) => UnassignedOnly(x, want, l); UnassignedOnly(x, want, r);
    case Call(_, args) => UnassignedArgs(x, want, args);
    case Struct(_, fields) => UnassignedArgs(x, want, fields);
    case Field(recv, _) => UnassignedOnly(x, want, recv);
    case Append(l, i) => UnassignedOnly(x, want, l); UnassignedOnly(x, want, i);
    case Adjust(_, inner) => UnassignedOnly(x, want, inner);
    case Cast(_, inner, _, _) => UnassignedOnly(x, want, inner);
    case If(c, t, f) => UnassignedOnly(x, want, c); UnassignedBlock(x, want, t); UnassignedOnly(x, want, f);
    case Match(sc, arms) => UnassignedOnly(x, want, sc); UnassignedArms(x, want, arms);
    case BlockExpr(b) => UnassignedBlock(x, want, b);
    case Loop(b) => UnassignedBlock(x, want, b);
    case While(c, b) => UnassignedOnly(x, want, c); UnassignedBlock(x, want, b);
    case For(_, iter, _, b, _) => UnassignedOnly(x, want, iter); UnassignedBlock(x, want, b);
    case Return(v) => UnassignedOnly(x, want, v);
    case Break(v) => UnassignedOnly(x, want, v);
    case _ =>
  }

  lemma {:induction false} UnassignedArgs(x: LocalId, want: Option<DefId>, es: Exprs)
    requires x !in AssignedArgs(es)
    ensures OnlyAsArgs(x, want, es)
    decreases es
  {
    if es.ECons? {
      UnassignedOnly(x, want, es.head);
      UnassignedArgs(x, want, es.tail);
    }
  }

  lemma {:induction false} UnassignedArms(x: LocalId, want: Option<DefId>, arms: Arms)
    requires x !in AssignedArms(arms)
    ensures OnlyAsArms(x, want, arms)
    decreases arms
  {
    if arms.Arm? {
      UnassignedOnly(x, want, arms.guard);
      UnassignedOnly(x, want, arms.arm);
      UnassignedArms(x, want, arms.rest);
    }
  }

  lemma {:induction false} UnassignedBlock(x: LocalId, want: Option<DefId>, b: Block)
    requires x !in AssignedBlock(b)
    ensures OnlyAsBlock(x, want, b)
    decreases b
  {
    match b
    case Tail(e) => UnassignedOnly(x, want, e);
    case Then(st, rest) =>
      match st {
        case Let(_, init) => UnassignedOnly(x, want, init);
        case Assign(t, v) => UnassignedOnly(x, want, t); UnassignedOnly(x, want, v);
        case ExprStmt(e) => UnassignedOnly(x, want, e);
      }
      UnassignedBlock(x, want, rest);
  }

  predicate Holds(x: LocalId, ty: DefId, env: Env)
  {
    Get(env, x).Object? && Get(env, x).ty == ty
  }

  /** With no type wanted, `x` keeps its value; otherwise it still holds such an object if
      it did. */
  predicate Kept(x: LocalId, want: Option<DefId>, a: Env, b: Env)
  {
    match want
    case None => SameAt(x, a, b)
    case Some(ty) => Holds(x, ty, a) ==> Holds(x, ty, b)
  }

  /** A local that is neither assigned nor bound in `e` keeps its value, however `e` ends. */
  lemma FrameExpr(x: LocalId, pr: Program, e: Expr, s: State, fuel: nat)
    requires x !in Assigned(e) && x !in Bound(e)
    ensures SameAt(x, s.env, Eval(pr, e, s, fuel).s.env)
  {
    UnassignedOnly(x, None, e);
    KeptExpr(x, None, pr, e, s, fuel);
  }

  lemma FrameBlock(x: LocalId, pr: Program, b: Block, s: State, fuel: nat)
    requires x !in AssignedBlock(b) && x !in BoundBlock(b)
    ensures SameAt(x, s.env, EvalBlock(pr, b, s, fuel).s.env)
  {
    UnassignedBlock(x, None, b);
    KeptBlock(x, None, pr, b, s, fuel);
  }

  /** A local that `e` does not bind and assigns only objects of one type keeps holding
      such an object, however `e` ends. */
  lemma {:induction false} KeptExpr(x: LocalId, want: Option<DefId>, pr: Program, e: Expr, s: State, fuel: nat)
    requires OnlyAs(x, want, e) && x !in Bound(e)
    ensures Kept(x, want, s.env, Eval(pr, e, s, fuel).s.env)
    decreases fuel, e, 1
  {
    match e
    case Await(_, f) => KeptExpr(x, want, pr, f, s, fuel);
    case Prim(_, args) => KeptArgs(x, want, pr, args, s, fuel);
    case Call(_, _) => KeptCall(x, want, pr, e, s, fuel);
    case Struct(_, fields) => KeptArgs(x, want, pr, fields, s, fuel);
    case Field(recv, _) => KeptExpr(x, want, pr, recv, s, fuel);
    case Adjust(_, inner) => KeptExpr(x, want, pr, inner, s, fuel);
    case Cast(_, inner, _, _) => KeptExpr(x, want, pr, inner, s, fuel);
    case Return(v) => KeptExpr(x, want, pr, v, s, fuel);
    case Break(v) => KeptExpr(x, want, pr, v, s, fuel);
    case BlockExpr(b) => KeptBlock(x, want, pr, b, s, fuel);
    case Logic(_, _, _) => KeptTwo(x, want, pr, e, s, fuel);
    case Append(_, _) => KeptTwo(x, want, pr, e, s, fuel);
    case If(_, _, _) => KeptTwo(x, want, pr, e, s, fuel);
    case Match(_, _) => KeptTwo(x, want, pr, e, s, fuel);
    case Loop(_) => KeptLoop(x, want, pr, e, s, fuel);
    case While(_, _) => KeptWhile(x, want, pr, e, s, fuel);
    case For(_, _, _, _, _) => KeptFor(x, want, pr, e, s, fuel);
    case _ =>
  }

  lemma {:induction false} KeptCall(x: LocalId, want: Option<DefId>, pr: Program, e: Expr, s: State, fuel: nat)
    requires OnlyAs(x, want, e) && x !in Bound(e) && e.Call?
    ensures Kept(x, want, s.env, Eval(pr, e, s, fuel).s.env)
    decreases fuel, e, 0
  {
    KeptArgs(x, want, pr, e.args, s, fuel);
    var r := EvalArgs(pr, e.args, s, fuel);
    if r.ctl.Normal? && Dispatch(pr, e.callee, r.vs).Some? && fuel > 0 {
      var (d, vs) := Dispatch(pr, e.callee, r.vs).value;
      CallFrame(x, pr, d, vs, r.s, fuel - 1);
    }
  }

  /** A first operand, then at most one more piece. */
  lemma {:induction false} KeptTwo(x: LocalId, want: Option<DefId>, pr: Program, e: Expr, s: State, fuel: nat)
    requires OnlyAs(x, want, e) && x !in Bound(e) && (e.Logic? || e.Append? || e.If? || e.Match?)
    ensures Kept(x, want, s.env, Eval(pr, e, s, fuel).s.env)
    decreases fuel, e, 0
  {
    var first := if e.Logic? then e.left else if e.Append? then e.list else if e.If? then e.cond else e.scrut;
    KeptExpr(x, want, pr, first, s, fuel);
    var r := Eval(pr, first, s, fuel);
    if r.ctl.Normal? {
      match e
      case Logic(_, _, right) => KeptExpr(x, want, pr, right, r.s, fuel);
      case Append(_, item) => KeptExpr(x, want, pr, item, r.s, fuel);
      case If(_, t, f) =>
        KeptBlock(x, want, pr, t, r.s, fuel);
        KeptExpr(x, want, pr, f, r.s, fuel);
      case Match(_, arms) => KeptArms(x, want, pr, arms, r.ctl.v, r.s, fuel);
    }
  }

  lemma {:induction false} KeptLoop(x: LocalId, want: Option<DefId>, pr: Program, e: Expr, s: State, fuel: nat)
    requires OnlyAs(x, want, e) && x !in Bound(e) && e.Loop?
    ensures Kept(x, want, s.env, Eval(pr, e, s, fuel).s.env)
    decreases fuel, e, 0
  {
    KeptBlock(x, want, pr, e.body, s, fuel);
    var r := EvalBlock(pr, e.body, s, fuel);
    if (r.ctl.Normal? || r.ctl.Cont?) && fuel > 0 {
      KeptExpr(x, want, pr, e, r.s, fuel - 1);
    }
  }

  lemma {:induction false} KeptWhile(x: LocalId, want: Option<DefId>, pr: Program, e: Expr, s: State, fuel: nat)
    requires OnlyAs(x, want, e) && x !in Bound(e) && e.While?
    ensures Kept(x, want, s.env, Eval(pr, e, s, fuel).s.env)
    decreases fuel, e, 0
  {
    KeptExpr(x, want, pr, e.cond, s, fuel);
    var c := Eval(pr, e.cond, s, fuel);
    if c.ctl.Normal? && Truthy(c.ctl.v) {
      KeptBlock(x, want, pr, e.body, c.s, fuel);
      var r := EvalBlock(pr, e.body, c.s, fuel);
      if (r.ctl.Normal? || r.ctl.Cont?) && fuel > 0 {
        KeptExpr(x, want, pr, e, r.s, fuel - 1);
      }
    }
  }

  lemma {:induction false} KeptFor(x: LocalId, want: Option<DefId>, pr: Program, e: Expr, s: State, fuel: nat)
    requires OnlyAs(x, want, e) && x !in Bound(e) && e.For?
    ensures Kept(x, want, s.env, Eval(pr, e, s, fuel).s.env)
    decreases fuel, e, 0
  {
    if e.driver.AsyncIter? {
      if e.iter.Local? {
        KeptForAwait(x, want, pr, e.iter.x, e.driver, e.pat, e.body, s, fuel);
      }
    } else {
      KeptExpr(x, want, pr, e.iter, s, fuel);
      var r := Eval(pr, e.iter, s, fuel);
      if r.ctl.Normal? && ForInit(e.driver, r.ctl.v, r.s.mem).Some? {
        var (c, m) := ForInit(e.driver, r.ctl.v, r.s.mem).value;
        KeptForLoop(x, want, pr, e.driver, e.pat, e.body, c, r.s.(mem := m), fuel);
      }
    }
  }

  lemma {:induction false} KeptArgs(x: LocalId, want: Option<DefId>, pr: Program, es: Exprs, s: State, fuel: nat)
    requires OnlyAsArgs(x, want, es) && x !in BoundArgs(es)
    ensures Kept(x, want, s.env, EvalArgs(pr, es, s, fuel).s.env)
    decreases fuel, es, 0
  {
    if es.ECons? {
      KeptExpr(x, want, pr, es.head, s, fuel);
      var h := Eval(pr, es.head, s, fuel);
      if h.ctl.Normal? {
        KeptArgs(x, want, pr, es.tail, h.s, fuel);
      }
    }
  }

  lemma {:induction false} KeptArms(x: LocalId, want: Option<DefId>, pr: Program, arms: Arms, v: Value, s: State,
                                    fuel: nat)
    requires OnlyAsArms(x, want, arms) && x !in BoundArms(arms)
    ensures Kept(x, want, s.env, EvalArms(pr, arms, v, s, fuel).s.env)
    decreases fuel, arms, 0
  {
    if arms.Arm? {
      if !Matches(arms.pat, v) {
        KeptArms(x, want, pr, arms.rest, v, s, fuel);
      } else if BindPat(s.env, s.mem, arms.pat, v).Some? {
        BindFrame(x, s.env, s.mem, arms.pat, v);
        var s1 := s.(env := BindPat(s.env, s.mem, arms.pat, v).value);
        hide BindPat;
        KeptExpr(x, want, pr, arms.guard, s1, fuel);
        var g := Eval(pr, arms.guard, s1, fuel);
        if g.ctl.Normal? {
          KeptExpr(x, want, pr, arms.arm, g.s, fuel);
          KeptArms(x, want, pr, arms.rest, v, g.s, fuel);
        }
      }
    }
  }

  lemma {:induction false} KeptStore(x: LocalId, want: Option<DefId>, pr: Program, target: Expr, v: Value, s: State,
                                     fuel: nat)
    requires OnlyAs(x, want, target) && x !in Bound(target) && target != Local(x)
    ensures Kept(x, want, s.env, EvalStore(pr, target, v, s, fuel).s.env)
    decreases fuel, target, 2
  {
    if target.Field? {
      KeptExpr(x, want, pr, target.recv, s, fuel);
    }
  }

  lemma {:induction false} KeptStmt(x: LocalId, want: Option<DefId>, pr: Program, st: Stmt, s: State, fuel: nat)
    requires OnlyAsStmt(x, want, st) && x !in BoundStmt(st)
    ensures Kept(x, want, s.env, EvalStmt(pr, st, s, fuel).s.env)
    decreases fuel, st, 1
  {
    match st
    case Let(pat, init) =>
      KeptInit(x, want, pr, pat, init, s, fuel);
      var r := EvalInit(pr, pat, init, s, fuel);
      hide EvalInit;
      if r.ctl.Normal? && BindPat(r.s.env, r.s.mem, pat, r.ctl.v).Some? {
        BindFrame(x, r.s.env, r.s.mem, pat, r.ctl.v);
      }
    case Assign(target, value) =>
      KeptExpr(x, want, pr, value, s, fuel);
      var r := Eval(pr, value, s, fuel);
      if r.ctl.Normal? && target == Local(x) {
        ConcreteRight(pr, value, s, fuel);
      } else if r.ctl.Normal? {
        KeptStore(x, want, pr, target, r.ctl.v, r.s, fuel);
      }
    case ExprStmt(e) => KeptExpr(x, want, pr, e, s, fuel);
  }

  lemma {:induction false} KeptInit(x: LocalId, want: Option<DefId>, pr: Program, pat: Pattern, init: Expr, s: State,
                                    fuel: nat)
    requires OnlyAs(x, want, init) && x !in Bound(init)
    ensures Kept(x, want, s.env, EvalInit(pr, pat, init, s, fuel).s.env)
    decreases fuel, init, 2
  {
    if pat.Bind? && init.Struct? && pat.local in s.stacked {
      var blank := seq(Length(init.fields), _ => Num(0));
      KeptArgs(x, want, pr, init.fields, s.(mem := s.mem.(stack := s.mem.stack[pat.local := blank])), fuel);
    } else {
      KeptExpr(x, want, pr, init, s, fuel);
    }
  }

  lemma {:induction false} KeptBlock(x: LocalId, want: Option<DefId>, pr: Program, b: Block, s: State, fuel: nat)
    requires OnlyAsBlock(x, want, b) && x !in BoundBlock(b)
    ensures Kept(x, want, s.env, EvalBlock(pr, b, s, fuel).s.env)
    decreases fuel, b, 0
  {
    match b
    case Tail(e) => KeptExpr(x, want, pr, e, s, fuel);
    case Then(st, rest) =>
      KeptStmt(x, want, pr, st, s, fuel);
      var r := EvalStmt(pr, st, s, fuel);
      hide EvalStmt;
      if r.ctl.Normal? {
        KeptBlock(x, want, pr, rest, r.s, fuel);
      }
  }

  /** One round of a `for`: bind the item and run the body. */
  lemma {:induction false} KeptRound(x: LocalId, want: Option<DefId>, pr: Program, pat: Pattern, body: Block, v: Value,
                                     s: State, fuel: nat)
    requires OnlyAsBlock(x, want, body) && x !in BoundBlock(body) && x !in PatSet(pat)
             && BindPat(s.env, s.mem, pat, v).Some?
    ensures Kept(x, want, s.env, EvalBlock(pr, body, s.(env := BindPat(s.env, s.mem, pat, v).value), fuel).s.env)
    decreases fuel, body, 1
  {
    BindFrame(x, s.env, s.mem, pat, v);
    hide BindPat;
    KeptBlock(x, want, pr, body, s.(env := BindPat(s.env, s.mem, pat, v).value), fuel);
  }

  lemma {:induction false} KeptForLoop(x: LocalId, want: Option<DefId>, pr: Program, d: ForDriver, pat: Pattern,
                                       body: Block, c: Cursor, s: State, fuel: nat)
    requires OnlyAsBlock(x, want, body) && x !in BoundBlock(body) && x !in PatSet(pat)
    ensures Kept(x, want, s.env, EvalFor(pr, d, pat, body, c, s, fuel).s.env)
    decreases fuel, body, 1
  {
    hide OnlyAsBlock, BoundBlock, PatSet, Eval;
    if fuel > 0 {
      StepFrame(x, pr, d, c, s, fuel - 1);
      var a := ForStep(pr, d, c, s, fuel - 1);
      hide ForStep;
      if a.Item? && BindPat(a.s.env, a.s.mem, pat, a.v).Some? {
        KeptRound(x, want, pr, pat, body, a.v, a.s, fuel - 1);
        var r := EvalBlock(pr, body, a.s.(env := BindPat(a.s.env, a.s.mem, pat, a.v).value), fuel - 1);
        hide BindPat, EvalBlock;
        if r.ctl.Normal? || r.ctl.Cont? {
          KeptForLoop(x, want, pr, d, pat, body, Advance(d, c), r.s, fuel - 1);
        }
      }
    }
  }

  lemma {:induction false} KeptForAwait(x: LocalId, want: Option<DefId>, pr: Program, y: LocalId, d: ForDriver,
                                        pat: Pattern, body: Block, s: State, fuel: nat)
    requires d.AsyncIter? && OnlyAsBlock(x, want, body) && x !in BoundBlock(body) && x !in PatSet(pat)
    ensures Kept(x, want, s.env, EvalForAwait(pr, y, d, pat, body, s, fuel).s.env)
    decreases fuel, body, 1
  {
    hide OnlyAsBlock, BoundBlock, PatSet, Eval;
    if fuel > 0 {
      CallFrame(x, pr, d.next, [Get(s.env, y)], s, fuel - 1);
      var f := CallFn(pr, d.next, [Get(s.env, y)], s, fuel - 1);
      hide CallFn;
      if f.ctl.Normal? {
        var a := DoAwait(f.ctl.v, f.s);
        if a.ctl.Normal? {
          match ItemOf(a.ctl.v, d.done, a.s.mem)
          case Some(Some(v)) =>
            if BindPat(a.s.env, a.s.mem, pat, v).Some? {
              KeptRound(x, want, pr, pat, body, v, a.s, fuel - 1);
              var r := EvalBlock(pr, body, a.s.(env := BindPat(a.s.env, a.s.mem, pat, v).value), fuel - 1);
              hide BindPat, EvalBlock;
              if r.ctl.Normal? || r.ctl.Cont? {
                KeptForAwait(x, want, pr, y, d, pat, body, r.s, fuel - 1);
              }
            }
          case _ =>
        }
      }
    }
  }
}
