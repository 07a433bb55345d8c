/**
 Which code leaves the expression it stands in, and which always does.
 */
module ArcExits {
  import opened Hir
  import opened Scan
  import opened Arc

  /** Code that does not leave the expression it stands in. */
  predicate Completes(e: Expr)
    decreases e
  {
    match e
    case Return(_) => false
    case Break(_) => false
    case Continue => false
    case Prim(_, args) => CompletesArgs(args)
    case Logic(_, l, r) => Completes(l) && Completes(r)
    case Call(_, args) => CompletesArgs(args)
    case Struct(_, fields) => CompletesArgs(fields)
    case Field(recv, _) => Completes(recv)
    case Append(l, i) => Completes(l) && Completes(i)
    case If(c, t, f) => Completes(c) && CompletesBlock(t) && Completes(f)
    case Match(sc, arms) => Completes(sc) && CompletesArms(arms)
    case BlockExpr(blk) => CompletesBlock(blk)
    case Loop(blk) => CompletesBlock(blk)
    case While(c, blk) => Completes(c) && CompletesBlock(blk)
    case For(_, iter, _, blk, _) => Completes(iter) && CompletesBlock(blk)
    case _ => true
  }

  predicate CompletesArgs(es: Exprs)
    decreases es
  {
    es.ECons? ==> Completes(es.head) && CompletesArgs(es.tail)
  }

  predicate CompletesArms(arms: Arms)
    decreases arms
  {
    arms.Arm? ==> Completes(arms.guard) && Completes(arms.arm) && CompletesArms(arms.rest)
  }

  predicate CompletesStmt(st: Stmt)
    decreases st
  {
    match st
    case Let(_, init) => Completes(init)
    case Assign(t, v) => Completes(v) && (t.Field? ==> Completes(t.recv))
    case ExprStmt(e) => Completes(e)
  }

  predicate CompletesBlock(blk: Block)
    decreases blk
  {
    match blk
    case Tail(e) => Completes(e)
    case Then(st, rest) => CompletesStmt(st) && CompletesBlock(rest)
  }

  /** The outcomes after which the expression around goes on, or nothing does. */
  predicate Ends(c: Ctl)
  {
    c.Normal? || c.Panic? || c.Stuck? || c.Timeout? || c.Bad?
  }

  lemma {:induction false} ExprCompletes(pr: Program, e: Expr, o: seq<LocalId>, st: State, fuel: nat)
    requires Completes(e)
    ensures Ends(Eval(pr, e, o, st, fuel).ctl)
    decreases fuel, e, 1
  {
    hide EvalBlock, EvalArms, EvalFor, EvalArgs, EvalFields, CallFn, Leave;
    match e
    case Prim(_, args) => ValuesComplete(pr, args, o, st, fuel);
    case Logic(_, l, r) =>
      ExprCompletes(pr, l, o, st, fuel);
      ExprCompletes(pr, r, Own(l, o), Eval(pr, l, o, st, fuel).st, fuel);
    case Call(c, args) =>
      ValuesComplete(pr, args, o, st, fuel);
      if fuel > 0 && c.Direct? {
        CallCompletes(pr, c.def, EvalArgs(pr, args, o, st, fuel).vs, EvalArgs(pr, args, o, st, fuel).st, fuel - 1);
      }
    case Struct(_, fields) => ArgsComplete(pr, fields, o, st, fuel);
    case Field(recv, _) => ExprCompletes(pr, recv, o, st, fuel);
    case Append(l, i) =>
      ExprCompletes(pr, l, o, st, fuel);
      ExprCompletes(pr, i, Own(l, o), Eval(pr, l, o, st, fuel).st, fuel);
    case If(_, _, _) => IfCompletes(pr, e, o, st, fuel);
    case Match(sc, arms) =>
      ExprCompletes(pr, sc, o, st, fuel);
      var q := Eval(pr, sc, o, st, fuel);
      if q.ctl.Normal? {
        ArmsComplete(pr, arms, q.ctl.v, Own(sc, o), q.st, fuel);
      }
    case BlockExpr(blk) => BlockCompletes(pr, blk, o, st, fuel);
    case Loop(blk) =>
      BlockCompletes(pr, blk, o, st, fuel);
      if fuel > 0 {
        ExprCompletes(pr, e, o, EvalBlock(pr, blk, o, st, fuel).st, fuel - 1);
      }
    case While(_, _) => WhileCompletes(pr, e, o, st, fuel);
    case For(pat, iter, _, blk, _) =>
      ExprCompletes(pr, iter, o, st, fuel);
      var r := Eval(pr, iter, o, st, fuel);
      if r.ctl.Normal? {
        RoundsComplete(pr, pat, blk, r.ctl.v, 0, Own(iter, o), r.st, fuel);
      }
    case _ =>
  }

  lemma CallCompletes(pr: Program, d: DefId, vs: seq<Value>, st: State, fuel: nat)
    ensures Ends(CallFn(pr, d, vs, st, fuel).ctl)
  {
    hide EvalBlock, Leave;
  }

  lemma {:induction false} IfCompletes(pr: Program, e: Expr, o: seq<LocalId>, st: State, fuel: nat)
    requires Completes(e) && e.If?
    ensures Ends(Eval(pr, e, o, st, fuel).ctl)
    decreases fuel, e, 0
  {
    hide EvalBlock;
    ExprCompletes(pr, e.cond, o, st, fuel);
    var q := Eval(pr, e.cond, o, st, fuel);
    BlockCompletes(pr, e.thn, Own(e.cond, o), q.st, fuel);
    ExprCompletes(pr, e.els, OwnBlock(e.thn, Own(e.cond, o)), q.st, fuel);
  }

  lemma {:induction false} WhileCompletes(pr: Program, e: Expr, o: seq<LocalId>, st: State, fuel: nat)
    requires Completes(e) && e.While?
    ensures Ends(Eval(pr, e, o, st, fuel).ctl)
    decreases fuel, e, 0
  {
    hide EvalBlock;
    ExprCompletes(pr, e.cond, o, st, fuel);
    var q := Eval(pr, e.cond, o, st, fuel);
    BlockCompletes(pr, e.body, Own(e.cond, o), q.st, fuel);
    if fuel > 0 {
      ExprCompletes(pr, e, o, EvalBlock(pr, e.body, Own(e.cond, o), q.st, fuel).st, fuel - 1);
    }
  }

  lemma {:induction false} RoundsComplete(pr: Program, pat: Pattern, body: Block, p: Value, i: nat, o: seq<LocalId>,
                                          st: State, fuel: nat)
    requires CompletesBlock(body)
    ensures Ends(EvalFor(pr, pat, body, p, i, o, st, fuel).ctl)
    decreases fuel, body, 1
  {
    hide EvalBlock, BindPat;
    if ListAt(st.objs, p).Some? && i < |ListAt(st.objs, p).value| {
      var b := BindPat(pat, ListAt(st.objs, p).value[i], false, o, st);
      PatCompletes(pat, ListAt(st.objs, p).value[i], false, o, st);
      var o1 := PushAll(o, PatLocals(pat));
      BlockCompletes(pr, body, o1, b.st, fuel);
      if fuel > 0 {
        RoundsComplete(pr, pat, body, p, i + 1, o, EvalBlock(pr, body, o1, b.st, fuel).st, fuel - 1);
      }
    }
  }

  lemma {:induction false} RecordCompletes(fs: seq<Option<LocalId>>, i: nat, p: Value, o: seq<LocalId>, st: State)
    requires i <= |fs|
    ensures Ends(BindRecord(fs, i, p, o, st).ctl)
    decreases |fs| - i
  {
    if i < |fs| {
      RecordCompletes(fs, i + 1, p, o, st);
      if fs[i].Some? && Deref(st.objs, p).Fields? && i < |Deref(st.objs, p).vs| {
        var r := BindLocal(fs[i].value, Deref(st.objs, p).vs[i], false, o, st);
        RecordCompletes(fs, i + 1, p, Push(o, fs[i].value), r.st);
      }
    }
  }

  lemma PatCompletes(pat: Pattern, v: Value, owned: bool, o: seq<LocalId>, st: State)
    ensures Ends(BindPat(pat, v, owned, o, st).ctl)
  {
    if pat.Record? {
      RecordCompletes(pat.fields, 0, v, o, st);
    }
  }

  lemma {:induction false} ValuesComplete(pr: Program, es: Exprs, o: seq<LocalId>, st: State, fuel: nat)
    requires CompletesArgs(es)
    ensures Ends(EvalArgs(pr, es, o, st, fuel).ctl)
    decreases fuel, es, 0
  {
    if es.ECons? {
      ExprCompletes(pr, es.head, o, st, fuel);
      ValuesComplete(pr, es.tail, Own(es.head, o), Eval(pr, es.head, o, st, fuel).st, fuel);
    }
  }

  lemma {:induction false} ArgsComplete(pr: Program, es: Exprs, o: seq<LocalId>, st: State, fuel: nat)
    requires CompletesArgs(es)
    ensures Ends(EvalFields(pr, es, o, st, fuel).ctl)
    decreases fuel, es, 0
  {
    if es.ECons? {
      ExprCompletes(pr, es.head, o, st, fuel);
      var h := Eval(pr, es.head, o, st, fuel);
      if h.ctl.Normal? {
        ArgsComplete(pr, es.tail, Own(es.head, o), Take(Owned(es.head), h.ctl.v, h.st).st, fuel);
      }
    }
  }

  lemma {:induction false} ArmsComplete(pr: Program, arms: Arms, v: Value, o: seq<LocalId>, st: State, fuel: nat)
    requires CompletesArms(arms)
    ensures Ends(EvalArms(pr, arms, v, o, st, fuel).ctl)
    decreases fuel, arms, 0
  {
    hide Eval, BindPat;
    if arms.Arm? {
      var o1 := ArmOwn(arms.pat, o);
      var o2 := Own(arms.guard, o1);
      ArmsComplete(pr, arms.rest, v, Own(arms.arm, o2), st, fuel);
      PatCompletes(arms.pat, v, false, o, st);
      var b := ArmBind(arms.pat, v, o, st);
      ExprCompletes(pr, arms.guard, o1, b.st, fuel);
      var g := Eval(pr, arms.guard, o1, b.st, fuel);
      ExprCompletes(pr, arms.arm, o2, g.st, fuel);
      ArmsComplete(pr, arms.rest, v, Own(arms.arm, o2), g.st, fuel);
    }
  }

  lemma {:induction false} StmtCompletes(pr: Program, s: Stmt, o: seq<LocalId>, st: State, fuel: nat)
    requires CompletesStmt(s)
    ensures Ends(EvalStmt(pr, s, o, st, fuel).ctl)
    decreases fuel, s, 0
  {
    hide Eval, BindPat, Release;
    match s
    case Let(pat, init) =>
      ExprCompletes(pr, init, o, st, fuel);
      var r := Eval(pr, init, o, st, fuel);
      if r.ctl.Normal? {
        PatCompletes(pat, r.ctl.v, Owned(init), Own(init, o), r.st);
      }
    case Assign(t, v) =>
      ExprCompletes(pr, v, o, st, fuel);
      if t.Field? {
        ExprCompletes(pr, t.recv, Own(v, o), Eval(pr, v, o, st, fuel).st, fuel);
      }
    case ExprStmt(e) => ExprCompletes(pr, e, o, st, fuel);
  }

  lemma {:induction false} BlockCompletes(pr: Program, blk: Block, o: seq<LocalId>, st: State, fuel: nat)
    requires CompletesBlock(blk)
    ensures Ends(EvalBlock(pr, blk, o, st, fuel).ctl)
    decreases fuel, blk, 0
  {
    hide Eval, EvalStmt;
    match blk
    case Tail(e) => ExprCompletes(pr, e, o, st, fuel);
    case Then(s, rest) =>
      StmtCompletes(pr, s, o, st, fuel);
      BlockCompletes(pr, rest, OwnStmt(s, o), EvalStmt(pr, s, o, st, fuel).st, fuel);
  }

  // -- code that always leaves --------------------------------------------------------------------

  lemma {:induction false} ExprStops(pr: Program, e: Expr, o: seq<LocalId>, st: State, fuel: nat)
    requires Term(e)
    ensures !Eval(pr, e, o, st, fuel).ctl.Normal?
    decreases e
  {
    match e
    case BlockExpr(blk) => BlockStops(pr, blk, o, st, fuel);
    case _ =>
  }

  lemma {:induction false} StmtStops(pr: Program, s: Stmt, o: seq<LocalId>, st: State, fuel: nat)
    requires TermStmt(s)
    ensures !EvalStmt(pr, s, o, st, fuel).ctl.Normal?
    decreases s
  {
    match s
    case Let(_, init) => ExprStops(pr, init, o, st, fuel);
    case Assign(_, v) => ExprStops(pr, v, o, st, fuel);
    case ExprStmt(e) => ExprStops(pr, e, o, st, fuel);
  }

  lemma {:induction false} BlockStops(pr: Program, blk: Block, o: seq<LocalId>, st: State, fuel: nat)
    requires TermBlock(blk)
    ensures !EvalBlock(pr, blk, o, st, fuel).ctl.Normal?
    decreases blk
  {
    hide Eval, EvalStmt;
    match blk
    case Tail(e) => ExprStops(pr, e, o, st, fuel);
    case Then(s, rest) =>
      if TermStmt(s) {
        StmtStops(pr, s, o, st, fuel);
      } else {
        BlockStops(pr, rest, OwnStmt(s, o), EvalStmt(pr, s, o, st, fuel).st, fuel);
      }
  }
}
