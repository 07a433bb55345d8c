/**
 What evaluating an expression cannot do to a value borrowed before it: yield a counted
 one, change the local that holds it, or free it.
 */
module ArcGuards {
  import opened Hir
  import opened Scan
  import opened Arc
  import opened ArcLedger
  import F = FrameLocals

  // -- scalars -----------------------------------------------------------------------

  /** Expressions whose value is not a counted reference, by their form. */
  predicate Scalar(e: Expr)
    decreases e
  {
    match e
    case Int(_) => true
    case Null => true
    case Prim(_, _) => true
    case While(_, _) => true
    case Return(_) => true
    case Break(_) => true
    case Continue => true
    case Logic(_, l, r) => Scalar(l) && Scalar(r)
    case If(_, t, f) => ScalarBlock(t) && Scalar(f)
    case Match(_, arms) => ScalarArms(arms)
    case BlockExpr(b) => ScalarBlock(b)
    case _ => false
  }

  predicate ScalarBlock(b: Block)
    decreases b
  {
    if b.Tail? then Scalar(b.e) else ScalarBlock(b.rest)
  }

  predicate ScalarArms(arms: Arms)
    decreases arms
  {
    arms.Arm? ==> Scalar(arms.arm) && ScalarArms(arms.rest)
  }

  lemma {:induction false} ScalarYields(pr: Program, e: Expr, o: seq<LocalId>, st: State, fuel: nat)
    requires Scalar(e)
    ensures var r := Eval(pr, e, o, st, fuel); r.ctl.Normal? ==> !r.ctl.v.Ref?
    decreases fuel, e
  {
    match e
    case Logic(_, l, rt) =>
      ScalarYields(pr, l, o, st, fuel);
      ScalarYields(pr, rt, Own(l, o), Eval(pr, l, o, st, fuel).st, fuel);
    case If(c, t, f) =>
      var q := Eval(pr, c, o, st, fuel);
      ScalarBlockYields(pr, t, Own(c, o), q.st, fuel);
      ScalarYields(pr, f, OwnBlock(t, Own(c, o)), q.st, fuel);
    case Match(sc, arms) =>
      var q := Eval(pr, sc, o, st, fuel);
      if q.ctl.Normal? {
        ScalarArmsYield(pr, arms, q.ctl.v, Own(sc, o), q.st, fuel);
      }
    case BlockExpr(b) => ScalarBlockYields(pr, b, o, st, fuel);
    case While(c, b) =>
      if fuel > 0 {
        var r := EvalBlock(pr, b, Own(c, o), Eval(pr, c, o, st, fuel).st, fuel);
        ScalarYields(pr, e, o, r.st, fuel - 1);
      }
    case Return(v) => LeaveLeaves(Owned(v), Eval(pr, v, o, st, fuel), Own(v, o));
    case _ =>
  }

  lemma LeaveLeaves(owned: bool, r: Out, o: seq<LocalId>)
    ensures r.ctl.Normal? ==> !Leave(owned, r.ctl.v, o, r.st).ctl.Normal?
  {
  }

  lemma {:induction false} ScalarBlockYields(pr: Program, b: Block, o: seq<LocalId>, st: State, fuel: nat)
    requires ScalarBlock(b)
    ensures var r := EvalBlock(pr, b, o, st, fuel); r.ctl.Normal? ==> !r.ctl.v.Ref?
    decreases fuel, b
  {
    match b
    case Tail(e) => ScalarYields(pr, e, o, st, fuel);
    case Then(s, rest) => ScalarBlockYields(pr, rest, OwnStmt(s, o), EvalStmt(pr, s, o, st, fuel).st, fuel);
  }

  lemma {:induction false} ScalarArmsYield(pr: Program, arms: Arms, v: Value, o: seq<LocalId>, st: State, fuel: nat)
    requires ScalarArms(arms)
    ensures var r := EvalArms(pr, arms, v, o, st, fuel); r.ctl.Normal? ==> !r.ctl.v.Ref?
    decreases fuel, arms
  {
    if arms.Arm? {
      var o1 := ArmOwn(arms.pat, o);
      var o2 := Own(arms.arm, Own(arms.guard, o1));
      var g := Eval(pr, arms.guard, o1, ArmBind(arms.pat, v, o, st).st, fuel);
      ScalarYields(pr, arms.arm, Own(arms.guard, o1), g.st, fuel);
      ScalarArmsYield(pr, arms.rest, v, o2, g.st, fuel);
      ScalarArmsYield(pr, arms.rest, v, o2, st, fuel);
    }
  }

  // -- locals ------------------------------------------------------------------------

  /** The run goes on in the same frame. */
  predicate Stays(c: Ctl)
  {
    c.Normal? || c.Brk? || c.Cont?
  }

  predicate Untouched(x: LocalId, st: State, c: Ctl, st': State)
  {
    Stays(c) ==> Get(st'.env, x) == Get(st.env, x)
  }

  /** A local that is neither assigned nor bound keeps its reference. */
  lemma {:induction false} LocalStays(x: LocalId, pr: Program, e: Expr, o: seq<LocalId>, st: State, fuel: nat)
    requires x !in F.Assigned(e) && x !in Bound(e)
    ensures var r := Eval(pr, e, o, st, fuel); Untouched(x, st, r.ctl, r.st)
    decreases fuel, e, 1
  {
    hide *;
    match e
    case Prim(_, _) => ListStays(x, pr, e, o, st, fuel);
    case Call(_, _) => ListStays(x, pr, e, o, st, fuel);
    case Struct(_, _) => ListStays(x, pr, e, o, st, fuel);
    case Field(_, _) => FieldStays(x, pr, e, o, st, fuel);
    case Logic(_, _, _) => LogicStays(x, pr, e, o, st, fuel);
    case If(_, _, _) => IfStays(x, pr, e, o, st, fuel);
    case Match(_, _) => MatchStays(x, pr, e, o, st, fuel);
    case BlockExpr(_) => LoopStays(x, pr, e, o, st, fuel);
    case Loop(_) => LoopStays(x, pr, e, o, st, fuel);
    case While(_, _) => WhileStays(x, pr, e, o, st, fuel);
    case Append(_, _) => AppendStays(x, pr, e, o, st, fuel);
    case For(_, _, _, _, _) => ForStays(x, pr, e, o, st, fuel);
    case Return(_) => FieldStays(x, pr, e, o, st, fuel);
    case Break(_) => FieldStays(x, pr, e, o, st, fuel);
    case _ => LeafStays(x, pr, e, o, st, fuel);
  }

  predicate Leaf(e: Expr)
  {
    !(e.Prim? || e.Call? || e.Struct? || e.Field? || e.Logic? || e.Append? || e.If? || e.Match? || e.BlockExpr?
      || e.Loop? || e.While? || e.For? || e.Return? || e.Break?)
  }

  lemma LeafStays(x: LocalId, pr: Program, e: Expr, o: seq<LocalId>, st: State, fuel: nat)
    requires Leaf(e)
    ensures var r := Eval(pr, e, o, st, fuel); Untouched(x, st, r.ctl, r.st)
  {
  }

  lemma {:induction false} ListStays(x: LocalId, pr: Program, e: Expr, o: seq<LocalId>, st: State, fuel: nat)
    requires x !in F.Assigned(e) && x !in Bound(e) && (e.Prim? || e.Call? || e.Struct?)
    ensures var r := Eval(pr, e, o, st, fuel); Untouched(x, st, r.ctl, r.st)
    decreases fuel, e, 0
  {
    match e
    case Prim(_, args) => ArgsStay(x, pr, args, o, st, fuel);
    case Call(_, args) => ArgsStay(x, pr, args, o, st, fuel);
    case Struct(_, fields) => FieldsStay(x, pr, fields, o, st, fuel);
  }

  lemma {:induction false} FieldStays(x: LocalId, pr: Program, e: Expr, o: seq<LocalId>, st: State, fuel: nat)
    requires x !in F.Assigned(e) && x !in Bound(e) && (e.Field? || e.Return? || e.Break?)
    ensures var r := Eval(pr, e, o, st, fuel); Untouched(x, st, r.ctl, r.st)
    decreases fuel, e, 0
  {
    match e
    case Field(recv, _) => LocalStays(x, pr, recv, o, st, fuel);
    case Return(v) =>
      LocalStays(x, pr, v, o, st, fuel);
      LeaveLeaves(Owned(v), Eval(pr, v, o, st, fuel), Own(v, o));
    case Break(v) => LocalStays(x, pr, v, o, st, fuel);
  }

  lemma {:induction false} LoopStays(x: LocalId, pr: Program, e: Expr, o: seq<LocalId>, st: State, fuel: nat)
    requires x !in F.Assigned(e) && x !in Bound(e) && (e.BlockExpr? || e.Loop?)
    ensures var r := Eval(pr, e, o, st, fuel); Untouched(x, st, r.ctl, r.st)
    decreases fuel, e, 0
  {
    match e
    case BlockExpr(b) => BlockStays(x, pr, b, o, st, fuel);
    case Loop(b) =>
      BlockStays(x, pr, b, o, st, fuel);
      if fuel > 0 {
        LocalStays(x, pr, e, o, EvalBlock(pr, b, o, st, fuel).st, fuel - 1);
      }
  }

  lemma {:induction false} IfStays(x: LocalId, pr: Program, e: Expr, o: seq<LocalId>, st: State, fuel: nat)
    requires x !in F.Assigned(e) && x !in Bound(e) && e.If?
    ensures var r := Eval(pr, e, o, st, fuel); Untouched(x, st, r.ctl, r.st)
    decreases fuel, e, 0
  {
    LocalStays(x, pr, e.cond, o, st, fuel);
    var q := Eval(pr, e.cond, o, st, fuel);
    BlockStays(x, pr, e.thn, Own(e.cond, o), q.st, fuel);
    LocalStays(x, pr, e.els, OwnBlock(e.thn, Own(e.cond, o)), q.st, fuel);
  }

  lemma {:induction false} AppendStays(x: LocalId, pr: Program, e: Expr, o: seq<LocalId>, st: State, fuel: nat)
    requires x !in F.Assigned(e) && x !in Bound(e) && e.Append?
    ensures var r := Eval(pr, e, o, st, fuel); Untouched(x, st, r.ctl, r.st)
    decreases fuel, e, 0
  {
    LocalStays(x, pr, e.list, o, st, fuel);
    LocalStays(x, pr, e.item, Own(e.list, o), Eval(pr, e.list, o, st, fuel).st, fuel);
  }

  lemma {:induction false} ForStays(x: LocalId, pr: Program, e: Expr, o: seq<LocalId>, st: State, fuel: nat)
    requires x !in F.Assigned(e) && x !in Bound(e) && e.For?
    ensures var r := Eval(pr, e, o, st, fuel); Untouched(x, st, r.ctl, r.st)
    decreases fuel, e, 0
  {
    hide EvalFor;
    LocalStays(x, pr, e.iter, o, st, fuel);
    var r := Eval(pr, e.iter, o, st, fuel);
    if r.ctl.Normal? {
      RoundsStay(x, pr, e.pat, e.body, r.ctl.v, 0, Own(e.iter, o), r.st, fuel);
    }
  }

  lemma {:induction false} RoundsStay(x: LocalId, pr: Program, pat: Pattern, body: Block, p: Value, i: nat,
                                      o: seq<LocalId>, st: State, fuel: nat)
    requires x !in F.AssignedBlock(body) && x !in BoundBlock(body) && x !in PatSet(pat)
    ensures var r := EvalFor(pr, pat, body, p, i, o, st, fuel); Untouched(x, st, r.ctl, r.st)
    decreases fuel, body, 1
  {
    if ListAt(st.objs, p).Some? && i < |ListAt(st.objs, p).value| {
      var v := ListAt(st.objs, p).value[i];
      BindPatStays(x, pat, v, false, o, st);
      var b := BindPat(pat, v, false, o, st);
      hide BindPat, EvalBlock;
      if b.ctl.Normal? {
        var o1 := PushAll(o, PatLocals(pat));
        BlockStays(x, pr, body, o1, b.st, fuel);
        if fuel > 0 {
          RoundsStay(x, pr, pat, body, p, i + 1, o, EvalBlock(pr, body, o1, b.st, fuel).st, fuel - 1);
        }
      }
    }
  }

  lemma {:induction false} LogicStays(x: LocalId, pr: Program, e: Expr, o: seq<LocalId>, st: State, fuel: nat)
    requires x !in F.Assigned(e) && x !in Bound(e) && e.Logic?
    ensures var r := Eval(pr, e, o, st, fuel); Untouched(x, st, r.ctl, r.st)
    decreases fuel, e, 0
  {
    LocalStays(x, pr, e.left, o, st, fuel);
    LocalStays(x, pr, e.right, Own(e.left, o), Eval(pr, e.left, o, st, fuel).st, fuel);
  }

  lemma {:induction false} MatchStays(x: LocalId, pr: Program, e: Expr, o: seq<LocalId>, st: State, fuel: nat)
    requires x !in F.Assigned(e) && x !in Bound(e) && e.Match?
    ensures var r := Eval(pr, e, o, st, fuel); Untouched(x, st, r.ctl, r.st)
    decreases fuel, e, 0
  {
    LocalStays(x, pr, e.scrut, o, st, fuel);
    var q := Eval(pr, e.scrut, o, st, fuel);
    if q.ctl.Normal? {
      ArmsStay(x, pr, e.arms, q.ctl.v, Own(e.scrut, o), q.st, fuel);
    }
  }

  lemma {:induction false} WhileStays(x: LocalId, pr: Program, e: Expr, o: seq<LocalId>, st: State, fuel: nat)
    requires x !in F.Assigned(e) && x !in Bound(e) && e.While?
    ensures var r := Eval(pr, e, o, st, fuel); Untouched(x, st, r.ctl, r.st)
    decreases fuel, e, 0
  {
    LocalStays(x, pr, e.cond, o, st, fuel);
    var q := Eval(pr, e.cond, o, st, fuel);
    BlockStays(x, pr, e.body, Own(e.cond, o), q.st, fuel);
    if fuel > 0 {
      LocalStays(x, pr, e, o, EvalBlock(pr, e.body, Own(e.cond, o), q.st, fuel).st, fuel - 1);
    }
  }

  lemma {:induction false} ArgsStay(x: LocalId, pr: Program, es: Exprs, o: seq<LocalId>, st: State, fuel: nat)
    requires x !in F.AssignedArgs(es) && x !in BoundArgs(es)
    ensures var r := EvalArgs(pr, es, o, st, fuel); Untouched(x, st, r.ctl, r.st)
    decreases fuel, es, 0
  {
    if es.ECons? {
      LocalStays(x, pr, es.head, o, st, fuel);
      ArgsStay(x, pr, es.tail, Own(es.head, o), Eval(pr, es.head, o, st, fuel).st, fuel);
    }
  }

  lemma {:induction false} FieldsStay(x: LocalId, pr: Program, es: Exprs, o: seq<LocalId>, st: State, fuel: nat)
    requires x !in F.AssignedArgs(es) && x !in BoundArgs(es)
    ensures var r := EvalFields(pr, es, o, st, fuel); Untouched(x, st, r.ctl, r.st)
    decreases fuel, es, 0
  {
    if es.ECons? {
      LocalStays(x, pr, es.head, o, st, fuel);
      var h := Eval(pr, es.head, o, st, fuel);
      if h.ctl.Normal? {
        FieldsStay(x, pr, es.tail, Own(es.head, o), Take(Owned(es.head), h.ctl.v, h.st).st, fuel);
      }
    }
  }

  lemma {:induction false} RecordStays(x: LocalId, fs: seq<Option<LocalId>>, i: nat, p: Value, o: seq<LocalId>,
                                       st: State)
    requires i <= |fs| && x !in FieldLocals(fs[i..])
    ensures var r := BindRecord(fs, i, p, o, st); Untouched(x, st, r.ctl, r.st)
    decreases |fs| - i
  {
    if i < |fs| && Deref(st.objs, p).Fields? && i < |Deref(st.objs, p).vs| {
      assert fs[i..][1..] == fs[i + 1..];
      if fs[i].None? {
        RecordStays(x, fs, i + 1, p, o, st);
      } else {
        var r := BindLocal(fs[i].value, Deref(st.objs, p).vs[i], false, o, st);
        assert x != fs[i].value;
        RecordStays(x, fs, i + 1, p, Push(o, fs[i].value), r.st);
      }
    }
  }

  lemma BindPatStays(x: LocalId, pat: Pattern, v: Value, owned: bool, o: seq<LocalId>, st: State)
    requires x !in PatSet(pat)
    ensures var r := BindPat(pat, v, owned, o, st); Untouched(x, st, r.ctl, r.st)
  {
    match pat
    case Bind(y) => assert y in PatLocals(pat);
    case Record(fs) =>
      assert fs[0..] == fs && x !in PatLocals(pat);
      RecordStays(x, fs, 0, v, o, st);
    case _ =>
  }

  lemma ArmBindStays(x: LocalId, pat: Pattern, v: Value, o: seq<LocalId>, st: State)
    requires x !in PatSet(pat)
    ensures var r := ArmBind(pat, v, o, st); Untouched(x, st, r.ctl, r.st)
  {
    if pat.Bind? {
      assert pat.local in PatLocals(pat);
    }
    BindPatStays(x, pat, v, false, o, st);
  }

  lemma {:induction false} ArmsStay(x: LocalId, pr: Program, arms: Arms, v: Value, o: seq<LocalId>, st: State,
                                    fuel: nat)
    requires x !in F.AssignedArms(arms) && x !in BoundArms(arms)
    ensures var r := EvalArms(pr, arms, v, o, st, fuel); Untouched(x, st, r.ctl, r.st)
    decreases fuel, arms, 0
  {
    if arms.Arm? {
      var o1 := ArmOwn(arms.pat, o);
      var o2 := Own(arms.arm, Own(arms.guard, o1));
      ArmsStay(x, pr, arms.rest, v, o2, st, fuel);
      ArmBindStays(x, arms.pat, v, o, st);
      var b := ArmBind(arms.pat, v, o, st);
      hide ArmBind;
      LocalStays(x, pr, arms.guard, o1, b.st, fuel);
      var g := Eval(pr, arms.guard, o1, b.st, fuel);
      LocalStays(x, pr, arms.arm, Own(arms.guard, o1), g.st, fuel);
      ArmsStay(x, pr, arms.rest, v, o2, g.st, fuel);
    }
  }

  lemma {:induction false} StmtStays(x: LocalId, pr: Program, s: Stmt, o: seq<LocalId>, st: State, fuel: nat)
    requires x !in F.AssignedStmt(s) && x !in BoundStmt(s)
    ensures var r := EvalStmt(pr, s, o, st, fuel); Untouched(x, st, r.ctl, r.st)
    decreases fuel, s, 0
  {
    match s
    case Let(pat, init) =>
      LocalStays(x, pr, init, o, st, fuel);
      var r := Eval(pr, init, o, st, fuel);
      if r.ctl.Normal? {
        BindPatStays(x, pat, r.ctl.v, Owned(init), Own(init, o), r.st);
      }
      hide BindPat;
    case Assign(target, value) =>
      LocalStays(x, pr, value, o, st, fuel);
      if target.Field? {
        LocalStays(x, pr, target.recv, Own(value, o), Eval(pr, value, o, st, fuel).st, fuel);
      }
    case ExprStmt(e) => LocalStays(x, pr, e, o, st, fuel);
  }

  lemma {:induction false} BlockStays(x: LocalId, pr: Program, b: Block, o: seq<LocalId>, st: State, fuel: nat)
    requires x !in F.AssignedBlock(b) && x !in BoundBlock(b)
    ensures var r := EvalBlock(pr, b, o, st, fuel); Untouched(x, st, r.ctl, r.st)
    decreases fuel, b, 0
  {
    match b
    case Tail(e) => LocalStays(x, pr, e, o, st, fuel);
    case Then(s, rest) =>
      StmtStays(x, pr, s, o, st, fuel);
      BlockStays(x, pr, rest, OwnStmt(s, o), EvalStmt(pr, s, o, st, fuel).st, fuel);
  }

  // -- code that releases nothing ----------------------------------------------------

  /** No call, no assignment, no `let` of a local, no destructuring, no discarded temporary:
      nothing in here can lower a count. */
  predicate Gentle(e: Expr)
    decreases e
  {
    match e
    case Call(_, _) => false
    case Append(_, _) => false
    case For(_, _, _, _, _) => false
    case Prim(_, args) => GentleArgs(args)
    case Struct(_, fields) => GentleArgs(fields)
    case Field(recv, _) => Gentle(recv)
    case Logic(_, l, r) => Gentle(l) && Gentle(r)
    case If(c, t, f) => Gentle(c) && GentleBlock(t) && Gentle(f)
    case Match(sc, arms) => Gentle(sc) && GentleArms(arms)
    case BlockExpr(b) => GentleBlock(b)
    case Loop(b) => GentleBlock(b)
    case While(c, b) => Gentle(c) && GentleBlock(b)
    case Return(v) => Gentle(v)
    case Break(v) => Gentle(v)
    case _ => true
  }

  predicate GentleArgs(es: Exprs)
    decreases es
  {
    es.ECons? ==> Gentle(es.head) && GentleArgs(es.tail)
  }

  predicate GentleArms(arms: Arms)
    decreases arms
  {
    arms.Arm? ==> !arms.pat.Record? && Gentle(arms.guard) && Gentle(arms.arm) && GentleArms(arms.rest)
  }

  predicate GentleBlock(b: Block)
    decreases b
  {
    match b
    case Tail(e) => Gentle(e)
    case Then(s, rest) => GentleStmt(s) && GentleBlock(rest)
  }

  predicate GentleStmt(s: Stmt)
    decreases s
  {
    match s
    case Let(pat, init) => pat.Wild? && Gentle(init)
    case Assign(t, v) => t.Null? && Gentle(v)
    case ExprStmt(e) => !Owned(e) && Gentle(e)
  }

  ghost predicate Spares(st: State, c: Ctl, st': State)
  {
    Stays(c) ==> forall a: nat | Live(st.objs, a) :: Live(st'.objs, a)
  }

  lemma {:induction false} GentleSpares(pr: Program, e: Expr, o: seq<LocalId>, st: State, fuel: nat)
    requires Gentle(e)
    ensures var r := Eval(pr, e, o, st, fuel); Spares(st, r.ctl, r.st)
    decreases fuel, e, 1
  {
    match e
    case Prim(_, args) => ArgsSpare(pr, args, o, st, fuel);
    case Struct(_, fields) => FieldsSpare(pr, fields, o, st, fuel);
    case Field(recv, _) => GentleSpares(pr, recv, o, st, fuel);
    case Logic(_, l, rt) =>
      GentleSpares(pr, l, o, st, fuel);
      GentleSpares(pr, rt, Own(l, o), Eval(pr, l, o, st, fuel).st, fuel);
    case If(_, _, _) => IfSpares(pr, e, o, st, fuel);
    case Match(sc, arms) =>
      GentleSpares(pr, sc, o, st, fuel);
      var q := Eval(pr, sc, o, st, fuel);
      if q.ctl.Normal? {
        ArmsSpare(pr, arms, q.ctl.v, Own(sc, o), q.st, fuel);
      }
    case BlockExpr(b) => BlockSpares(pr, b, o, st, fuel);
    case Loop(b) =>
      BlockSpares(pr, b, o, st, fuel);
      if fuel > 0 {
        GentleSpares(pr, e, o, EvalBlock(pr, b, o, st, fuel).st, fuel - 1);
      }
    case While(_, _) => WhileSpares(pr, e, o, st, fuel);
    case Return(v) =>
      GentleSpares(pr, v, o, st, fuel);
      LeaveLeaves(Owned(v), Eval(pr, v, o, st, fuel), Own(v, o));
    case Break(v) => GentleSpares(pr, v, o, st, fuel);
    case _ =>
  }

  lemma {:induction false} IfSpares(pr: Program, e: Expr, o: seq<LocalId>, st: State, fuel: nat)
    requires Gentle(e) && e.If?
    ensures var r := Eval(pr, e, o, st, fuel); Spares(st, r.ctl, r.st)
    decreases fuel, e, 0
  {
    GentleSpares(pr, e.cond, o, st, fuel);
    var q := Eval(pr, e.cond, o, st, fuel);
    BlockSpares(pr, e.thn, Own(e.cond, o), q.st, fuel);
    GentleSpares(pr, e.els, OwnBlock(e.thn, Own(e.cond, o)), q.st, fuel);
  }

  lemma {:induction false} WhileSpares(pr: Program, e: Expr, o: seq<LocalId>, st: State, fuel: nat)
    requires Gentle(e) && e.While?
    ensures var r := Eval(pr, e, o, st, fuel); Spares(st, r.ctl, r.st)
    decreases fuel, e, 0
  {
    GentleSpares(pr, e.cond, o, st, fuel);
    var q := Eval(pr, e.cond, o, st, fuel);
    BlockSpares(pr, e.body, Own(e.cond, o), q.st, fuel);
    if fuel > 0 {
      GentleSpares(pr, e, o, EvalBlock(pr, e.body, Own(e.cond, o), q.st, fuel).st, fuel - 1);
    }
  }

  lemma {:induction false} ArgsSpare(pr: Program, es: Exprs, o: seq<LocalId>, st: State, fuel: nat)
    requires GentleArgs(es)
    ensures var r := EvalArgs(pr, es, o, st, fuel); Spares(st, r.ctl, r.st)
    decreases fuel, es, 0
  {
    if es.ECons? {
      GentleSpares(pr, es.head, o, st, fuel);
      ArgsSpare(pr, es.tail, Own(es.head, o), Eval(pr, es.head, o, st, fuel).st, fuel);
    }
  }

  lemma TakeSpares(owned: bool, v: Value, st: State)
    ensures Spares(st, Take(owned, v, st).ctl, Take(owned, v, st).st)
  {
  }

  lemma {:induction false} FieldsSpare(pr: Program, es: Exprs, o: seq<LocalId>, st: State, fuel: nat)
    requires GentleArgs(es)
    ensures var r := EvalFields(pr, es, o, st, fuel); Spares(st, r.ctl, r.st)
    decreases fuel, es, 0
  {
    if es.ECons? {
      GentleSpares(pr, es.head, o, st, fuel);
      var h := Eval(pr, es.head, o, st, fuel);
      if h.ctl.Normal? {
        TakeSpares(Owned(es.head), h.ctl.v, h.st);
        FieldsSpare(pr, es.tail, Own(es.head, o), Take(Owned(es.head), h.ctl.v, h.st).st, fuel);
      }
    }
  }

  lemma {:induction false} ArmsSpare(pr: Program, arms: Arms, v: Value, o: seq<LocalId>, st: State, fuel: nat)
    requires GentleArms(arms)
    ensures var r := EvalArms(pr, arms, v, o, st, fuel); Spares(st, r.ctl, r.st)
    decreases fuel, arms, 0
  {
    if arms.Arm? {
      var b := ArmBind(arms.pat, v, o, st);
      var o2 := Own(arms.arm, Own(arms.guard, o));
      GentleSpares(pr, arms.guard, o, b.st, fuel);
      var g := Eval(pr, arms.guard, o, b.st, fuel);
      GentleSpares(pr, arms.arm, Own(arms.guard, o), g.st, fuel);
      ArmsSpare(pr, arms.rest, v, o2, g.st, fuel);
      ArmsSpare(pr, arms.rest, v, o2, st, fuel);
    }
  }

  lemma {:induction false} BlockSpares(pr: Program, b: Block, o: seq<LocalId>, st: State, fuel: nat)
    requires GentleBlock(b)
    ensures var r := EvalBlock(pr, b, o, st, fuel); Spares(st, r.ctl, r.st)
    decreases fuel, b, 0
  {
    match b
    case Tail(e) => GentleSpares(pr, e, o, st, fuel);
    case Then(s, rest) =>
      StmtSpares(pr, s, o, st, fuel);
      BlockSpares(pr, rest, OwnStmt(s, o), EvalStmt(pr, s, o, st, fuel).st, fuel);
  }

  lemma {:induction false} StmtSpares(pr: Program, s: Stmt, o: seq<LocalId>, st: State, fuel: nat)
    requires GentleStmt(s)
    ensures var r := EvalStmt(pr, s, o, st, fuel); Spares(st, r.ctl, r.st)
    decreases fuel, s, 0
  {
    match s
    case Let(_, init) => GentleSpares(pr, init, o, st, fuel);
    case Assign(_, v) => GentleSpares(pr, v, o, st, fuel);
    case ExprStmt(e) => GentleSpares(pr, e, o, st, fuel);
  }
}
