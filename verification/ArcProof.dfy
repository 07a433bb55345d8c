/**
 No run of a program in the safe fragment touches a freed object: at every point the
 strong count of every object covers its owners.
 */
module ArcProof {
  import opened Hir
  import opened Scan
  import opened AsyncLayout
  import opened Arc
  import opened ArcLedger
  import opened ArcGuards
  import opened ArcFragment
  import opened ArcInv
  import opened ArcSoft
  import F = FrameLocals

  ghost predicate Ok(pr: Program, o: seq<LocalId>, fs: seq<Frame>, k: Keep, pend: multiset<nat>, st: State)
  {
    SafeProgram(pr) && ListOk(o, k.borrowed) && Inv(fs, k, pend, st)
  }

  /** Evaluating a safe expression. */
  lemma {:induction false} EvalSafe(pr: Program, e: Expr, o: seq<LocalId>, fs: seq<Frame>, k: Keep, pend: multiset<nat>,
                                    st: State, fuel: nat)
    requires Ok(pr, o, fs, k, pend, st) && Safe(e, k, o)
    ensures Post(fs, k, pend, st, Owned(e), Eval(pr, e, o, st, fuel))
    decreases fuel, e, 1
  {
    hide Inv, Covered, Held, SameParams, Alive, Grounded, ListOk, SafeProgram;
    match e
    case Local(x) =>
      LocalAlive(fs, k, pend, st, x);
      PostValue(fs, k, pend, st, Get(st.env, x));
    case Int(n) => PostScalar(fs, k, pend, st, Num(n));
    case Null => PostScalar(fs, k, pend, st, Nil);
    case Continue => ContinueSafe(fs, k, pend, st);
    case Prim(_, _) => PrimSafe(pr, e, o, fs, k, pend, st, fuel);
    case Logic(_, _, _) => LogicSafe(pr, e, o, fs, k, pend, st, fuel);
    case Call(_, _) => CallExprSafe(pr, e, o, fs, k, pend, st, fuel);
    case Struct(_, _) => StructSafe(pr, e, o, fs, k, pend, st, fuel);
    case Field(_, _) => FieldSafe(pr, e, o, fs, k, pend, st, fuel);
    case Append(_, _) => PushSafe(pr, e, o, fs, k, pend, st, fuel);
    case For(_, _, _, _, _) => ForSafe(pr, e, o, fs, k, pend, st, fuel);
    case If(_, _, _) => IfSafe(pr, e, o, fs, k, pend, st, fuel);
    case Match(_, _) => MatchSafe(pr, e, o, fs, k, pend, st, fuel);
    case Loop(_) => LoopSafe(pr, e, o, fs, k, pend, st, fuel);
    case While(_, _) => WhileSafe(pr, e, o, fs, k, pend, st, fuel);
    case BlockExpr(b) =>
      BlockSafe(pr, b, o, fs, k, pend, st, fuel);
      Borrowed(fs, k, pend, st, Owned(LastOf(b)), EvalBlock(pr, b, o, st, fuel));
    case Return(_) => ReturnSafe(pr, e, o, fs, k, pend, st, fuel);
    case Break(_) => BreakSafe(pr, e, o, fs, k, pend, st, fuel);
  }

  lemma {:induction false} PrimSafe(pr: Program, e: Expr, o: seq<LocalId>, fs: seq<Frame>, k: Keep, pend: multiset<nat>,
                                    st: State, fuel: nat)
    requires Ok(pr, o, fs, k, pend, st) && Safe(e, k, o) && e.Prim?
    ensures Post(fs, k, pend, st, Owned(e), Eval(pr, e, o, st, fuel))
    decreases fuel, e, 0
  {
    hide Inv, Covered, Held, SameParams, Alive, Grounded, ListOk, SafeProgram;
    ArgsSafe(pr, e.args, o, fs, k, pend, st, fuel);
    var r := EvalArgs(pr, e.args, o, st, fuel);
    if r.ctl.Normal? && pr.prim(e.op, r.vs).Some? {
      var v := Num(pr.prim(e.op, r.vs).value);
      PostScalar(fs, k, pend, r.st, v);
      Chain(fs, k, pend, st, r.st, false, Out(Normal(v), r.st));
    }
  }

  lemma {:induction false} LogicSafe(pr: Program, e: Expr, o: seq<LocalId>, fs: seq<Frame>, k: Keep,
                                     pend: multiset<nat>, st: State, fuel: nat)
    requires Ok(pr, o, fs, k, pend, st) && Safe(e, k, o) && e.Logic?
    ensures Post(fs, k, pend, st, Owned(e), Eval(pr, e, o, st, fuel))
    decreases fuel, e, 0
  {
    hide Inv, Covered, Held, SameParams, Alive, Grounded, ListOk, SafeProgram;
    EvalSafe(pr, e.left, o, fs, k, pend, st, fuel);
    var r := Eval(pr, e.left, o, st, fuel);
    Borrowed(fs, k, pend, st, Owned(e.left), r);
    if r.ctl.Normal? && Truthy(r.ctl.v) == e.isAnd {
      Settled(fs, k, pend, st, Owned(e.left), r);
      OwnOk(e.left, k, o);
      EvalSafe(pr, e.right, Own(e.left, o), fs, k, pend, r.st, fuel);
      var q := Eval(pr, e.right, Own(e.left, o), r.st, fuel);
      Chain(fs, k, pend, st, r.st, Owned(e.right), q);
      Borrowed(fs, k, pend, st, Owned(e.right), q);
    }
  }

  lemma {:induction false} CallExprSafe(pr: Program, e: Expr, o: seq<LocalId>, fs: seq<Frame>, k: Keep,
                                        pend: multiset<nat>, st: State, fuel: nat)
    requires Ok(pr, o, fs, k, pend, st) && Safe(e, k, o) && e.Call?
    ensures Post(fs, k, pend, st, Owned(e), Eval(pr, e, o, st, fuel))
    decreases fuel, e, 0
  {
    hide Inv, Covered, Held, SameParams, Alive, Grounded, ListOk, SafeProgram;
    AtomsHeld(pr, e.args, o, fs, k, pend, st, fuel);
    var r := EvalArgs(pr, e.args, o, st, fuel);
    if fuel > 0 {
      CallSafe(pr, e.callee.def, r.vs, fs, k, pend, st, fuel - 1);
    }
  }

  lemma {:induction false} StructSafe(pr: Program, e: Expr, o: seq<LocalId>, fs: seq<Frame>, k: Keep,
                                      pend: multiset<nat>, st: State, fuel: nat)
    requires Ok(pr, o, fs, k, pend, st) && Safe(e, k, o) && e.Struct?
    ensures Post(fs, k, pend, st, Owned(e), Eval(pr, e, o, st, fuel))
    decreases fuel, e, 0
  {
    hide Inv, Covered, Held, SameParams, Alive, Grounded, ListOk, SafeProgram;
    FieldsSafe(pr, e.fields, o, fs, k, pend, st, fuel);
    var r := EvalFields(pr, e.fields, o, st, fuel);
    if r.ctl.Normal? {
      NewSafe(fs, k, pend, st, r.st, r.vs, e.def in pr.counted);
    }
  }

  lemma {:induction false} FieldSafe(pr: Program, e: Expr, o: seq<LocalId>, fs: seq<Frame>, k: Keep,
                                     pend: multiset<nat>, st: State, fuel: nat)
    requires Ok(pr, o, fs, k, pend, st) && Safe(e, k, o) && e.Field?
    ensures Post(fs, k, pend, st, Owned(e), Eval(pr, e, o, st, fuel))
    decreases fuel, e, 0
  {
    hide Inv, Covered, Held, SameParams, Alive, Grounded, ListOk, SafeProgram;
    EvalSafe(pr, e.recv, o, fs, k, pend, st, fuel);
    var r := Eval(pr, e.recv, o, st, fuel);
    if r.ctl.Normal? {
      Settled(fs, k, pend, st, Owned(e.recv), r);
      ReadSafe(fs, k, pend, st, r.st, r.ctl.v, e.idx);
    }
  }

  lemma {:induction false} PushSafe(pr: Program, e: Expr, o: seq<LocalId>, fs: seq<Frame>, k: Keep,
                                    pend: multiset<nat>, st: State, fuel: nat)
    requires Ok(pr, o, fs, k, pend, st) && Safe(e, k, o) && e.Append?
    ensures Post(fs, k, pend, st, Owned(e), Eval(pr, e, o, st, fuel))
    decreases fuel, e, 0
  {
    hide Inv, Covered, Held, SameParams, Alive, Grounded, ListOk, SafeProgram, AppendTo;
    EvalSafe(pr, e.list, o, fs, k, pend, st, fuel);
    var r := Eval(pr, e.list, o, st, fuel);
    if r.ctl.Normal? {
      Settled(fs, k, pend, st, Owned(e.list), r);
      OwnOk(e.list, k, o);
      EvalSafe(pr, e.item, Own(e.list, o), fs, k, pend, r.st, fuel);
      var q := Eval(pr, e.item, Own(e.list, o), r.st, fuel);
      Chain(fs, k, pend, st, r.st, Owned(e.item), q);
      Borrowed(fs, k, pend, st, Owned(e.item), q);
      if q.ctl.Normal? {
        Settled(fs, k, pend, st, Owned(e.item), q);
        AppendSafe(fs, k, pend, r.ctl.v, q.ctl.v, q.st);
        Chain(fs, k, pend, st, q.st, false, AppendTo(r.ctl.v, q.ctl.v, q.st));
      }
    } else {
      Borrowed(fs, k, pend, st, Owned(e.list), r);
    }
  }

  lemma {:induction false} ForSafe(pr: Program, e: Expr, o: seq<LocalId>, fs: seq<Frame>, k: Keep, pend: multiset<nat>,
                                   st: State, fuel: nat)
    requires Ok(pr, o, fs, k, pend, st) && Safe(e, k, o) && e.For?
    ensures Post(fs, k, pend, st, Owned(e), Eval(pr, e, o, st, fuel))
    decreases fuel, e, 0
  {
    hide Inv, Covered, Held, SameParams, Alive, Grounded, ListOk, SafeProgram, EvalFor, SafeBlock, SafePat;
    EvalSafe(pr, e.iter, o, fs, k, pend, st, fuel);
    var r := Eval(pr, e.iter, o, st, fuel);
    if r.ctl.Normal? {
      var o1 := Own(e.iter, o);
      Settled(fs, k, pend, st, Owned(e.iter), r);
      OwnOk(e.iter, k, o);
      PatOk(e.pat, k, o1);
      RoundsSafe(pr, e.pat, e.body, r.ctl.v, 0, o1, fs, k, pend, r.st, fuel);
      Chain(fs, k, pend, st, r.st, false, EvalFor(pr, e.pat, e.body, r.ctl.v, 0, o1, r.st, fuel));
    } else {
      Borrowed(fs, k, pend, st, Owned(e.iter), r);
    }
  }

  /** The rounds of a list loop from item `i` on, whatever the body pushes meanwhile. */
  lemma {:induction false} RoundsSafe(pr: Program, pat: Pattern, body: Block, p: Value, i: nat, o: seq<LocalId>,
                                      fs: seq<Frame>, k: Keep, pend: multiset<nat>, st: State, fuel: nat)
    requires Ok(pr, o, fs, k, pend, st) && SafePat(pat, k, o)
    requires SafeBlock(body, k, PushAll(o, PatLocals(pat))) && ListOk(PushAll(o, PatLocals(pat)), k.borrowed)
    ensures Post(fs, k, pend, st, false, EvalFor(pr, pat, body, p, i, o, st, fuel))
    decreases fuel, body, 2
  {
    hide Inv, Covered, Held, SameParams, Alive, Grounded, ListOk, SafeProgram, EvalBlock, SafeBlock, SafePat, BindPat;
    SameRefl(k, st.env);
    if ListAt(st.objs, p).Some? {
      var vs, o1 := ListAt(st.objs, p).value, PushAll(o, PatLocals(pat));
      if i < |vs| {
        ItemAlive(fs, k, pend, st, p, i);
        assert pend + Pending(false, vs[i]) == pend;
        BindPatSafe(fs, k, pend, pat, vs[i], false, o, st);
        var b := BindPat(pat, vs[i], false, o, st);
        if b.ctl.Normal? {
          Settled(fs, k, pend, st, false, b);
          RoundSafe(pr, pat, body, p, i, o, fs, k, pend, b.st, fuel);
          Chain(fs, k, pend, st, b.st, false, RoundOut(pr, pat, body, p, i, o, b.st, fuel));
        }
      } else {
        NilPost(fs, k, pend, st, st);
      }
    }
  }

  lemma ItemAlive(fs: seq<Frame>, k: Keep, pend: multiset<nat>, st: State, p: Value, i: nat)
    requires Inv(fs, k, pend, st) && ListAt(st.objs, p).Some? && i < |ListAt(st.objs, p).value|
    ensures Alive(st.objs, ListAt(st.objs, p).value[i])
  {
    FieldAlive(fs, Frame(st.env, k.borrowed), pend, st.objs, p, i);
  }

  /** A list loop whose item was just bound. */
  function RoundOut(pr: Program, pat: Pattern, body: Block, p: Value, i: nat, o: seq<LocalId>, st: State,
                    fuel: nat): Out
  {
    var r := EvalBlock(pr, body, PushAll(o, PatLocals(pat)), st, fuel);
    if r.ctl.Brk? then Out(Normal(Nil), r.st)
    else if !r.ctl.Normal? && !r.ctl.Cont? then r
    else if fuel == 0 then Out(Timeout, r.st)
    else EvalFor(pr, pat, body, p, i + 1, o, r.st, fuel - 1)
  }

  lemma {:induction false} RoundSafe(pr: Program, pat: Pattern, body: Block, p: Value, i: nat, o: seq<LocalId>,
                                     fs: seq<Frame>, k: Keep, pend: multiset<nat>, st: State, fuel: nat)
    requires Ok(pr, o, fs, k, pend, st) && SafePat(pat, k, o)
    requires SafeBlock(body, k, PushAll(o, PatLocals(pat))) && ListOk(PushAll(o, PatLocals(pat)), k.borrowed)
    ensures Post(fs, k, pend, st, false, RoundOut(pr, pat, body, p, i, o, st, fuel))
    decreases fuel, body, 1
  {
    hide Inv, Covered, Held, SameParams, Alive, Grounded, ListOk, SafeProgram, SafeBlock, SafePat, EvalFor;
    var o1 := PushAll(o, PatLocals(pat));
    BlockSafe(pr, body, o1, fs, k, pend, st, fuel);
    var r := EvalBlock(pr, body, o1, st, fuel);
    hide EvalBlock;
    if r.ctl.Brk? {
      BreakValue(fs, k, pend, st, r, Nil);
    } else if r.ctl.Normal? || r.ctl.Cont? {
      Settled(fs, k, pend, st, Owned(LastOf(body)), r);
      if fuel > 0 {
        RoundsSafe(pr, pat, body, p, i + 1, o, fs, k, pend, r.st, fuel - 1);
        Chain(fs, k, pend, st, r.st, false, EvalFor(pr, pat, body, p, i + 1, o, r.st, fuel - 1));
      }
    }
  }

  lemma {:induction false} IfSafe(pr: Program, e: Expr, o: seq<LocalId>, fs: seq<Frame>, k: Keep, pend: multiset<nat>,
                                  st: State, fuel: nat)
    requires Ok(pr, o, fs, k, pend, st) && Safe(e, k, o) && e.If?
    ensures Post(fs, k, pend, st, Owned(e), Eval(pr, e, o, st, fuel))
    decreases fuel, e, 0
  {
    hide Inv, Covered, Held, SameParams, Alive, Grounded, ListOk, SafeProgram;
    EvalSafe(pr, e.cond, o, fs, k, pend, st, fuel);
    var r := Eval(pr, e.cond, o, st, fuel);
    if r.ctl.Normal? {
      Settled(fs, k, pend, st, Owned(e.cond), r);
      OwnOk(e.cond, k, o);
      var o1 := Own(e.cond, o);
      if Truthy(r.ctl.v) {
        BlockSafe(pr, e.thn, o1, fs, k, pend, r.st, fuel);
        Chain(fs, k, pend, st, r.st, Owned(LastOf(e.thn)), EvalBlock(pr, e.thn, o1, r.st, fuel));
        Borrowed(fs, k, pend, st, Owned(LastOf(e.thn)), EvalBlock(pr, e.thn, o1, r.st, fuel));
      } else {
        OwnBlockOk(e.thn, k, o1);
        var o2 := OwnBlock(e.thn, o1);
        EvalSafe(pr, e.els, o2, fs, k, pend, r.st, fuel);
        Chain(fs, k, pend, st, r.st, Owned(e.els), Eval(pr, e.els, o2, r.st, fuel));
        Borrowed(fs, k, pend, st, Owned(e.els), Eval(pr, e.els, o2, r.st, fuel));
      }
    }
  }

  lemma {:induction false} MatchSafe(pr: Program, e: Expr, o: seq<LocalId>, fs: seq<Frame>, k: Keep,
                                     pend: multiset<nat>, st: State, fuel: nat)
    requires Ok(pr, o, fs, k, pend, st) && Safe(e, k, o) && e.Match?
    ensures Post(fs, k, pend, st, Owned(e), Eval(pr, e, o, st, fuel))
    decreases fuel, e, 0
  {
    hide Inv, Covered, Held, SameParams, Alive, Grounded, ListOk, SafeProgram;
    EvalSafe(pr, e.scrut, o, fs, k, pend, st, fuel);
    var r := Eval(pr, e.scrut, o, st, fuel);
    if r.ctl.Normal? {
      var v, o1 := r.ctl.v, Own(e.scrut, o);
      var more := pend + Pending(Owned(e.scrut), v);
      Settled(fs, k, pend, st, Owned(e.scrut), r);
      OwnOk(e.scrut, k, o);
      ScrutAtHand(fs, k, pend, st, e.scrut, r, more);
      ArmsSafe(pr, e.arms, e.scrut, v, o1, fs, k, more, r.st, fuel);
      PostFrom(fs, k, pend, more, st, r.st, false, EvalArms(pr, e.arms, v, o1, r.st, fuel), false);
    } else {
      Borrowed(fs, k, pend, st, Owned(e.scrut), r);
    }
  }

  /** The value of the scrutinee can be bound: it is reached from an owner, sits in the local
      it was read from, or has a reference of its own. */
  ghost predicate AtHand(fs: seq<Frame>, k: Keep, pend: multiset<nat>, st: State, sc: Expr, v: Value)
  {
    && Alive(st.objs, v) && Grounded(fs, k, pend, st, v)
    && (sc.Local? ==> Readable(sc.x, k) && Get(st.env, sc.x) == v)
    && (Owned(sc) ==> One(v) <= pend)
  }

  lemma ScrutAtHand(fs: seq<Frame>, k: Keep, pend: multiset<nat>, st: State, sc: Expr, r: Out, more: multiset<nat>)
    requires Post(fs, k, pend, st, Owned(sc), r) && r.ctl.Normal? && more == pend + Pending(Owned(sc), r.ctl.v)
    requires sc.Local? ==> Readable(sc.x, k) && Get(r.st.env, sc.x) == r.ctl.v
    ensures AtHand(fs, k, more, r.st, sc, r.ctl.v)
  {
    if Owned(sc) {
      OwnedAtHand(fs, k, more, r.st, sc, r.ctl.v);
    } else {
      assert more == pend;
    }
  }

  lemma OwnedAtHand(fs: seq<Frame>, k: Keep, pend: multiset<nat>, st: State, sc: Expr, v: Value)
    requires Inv(fs, k, pend, st) && One(v) <= pend && Owned(sc)
    ensures AtHand(fs, k, pend, st, sc, v)
  {
    PendAlive(fs, Frame(st.env, k.borrowed), pend, st.objs, v);
    if v.Ref? {
      assert v.a in multiset{v.a};
    }
    GroundedNow(fs, k, pend, st, v);
  }

  lemma LocalAtHand(fs: seq<Frame>, k: Keep, pend: multiset<nat>, st: State, sc: Expr, v: Value)
    requires Inv(fs, k, pend, st) && sc.Local? && Readable(sc.x, k) && Get(st.env, sc.x) == v
    ensures AtHand(fs, k, pend, st, sc, v)
  {
    LocalAlive(fs, k, pend, st, sc.x);
  }

  lemma {:induction false} LoopSafe(pr: Program, e: Expr, o: seq<LocalId>, fs: seq<Frame>, k: Keep, pend: multiset<nat>,
                                    st: State, fuel: nat)
    requires Ok(pr, o, fs, k, pend, st) && Safe(e, k, o) && e.Loop?
    ensures Post(fs, k, pend, st, Owned(e), Eval(pr, e, o, st, fuel))
    decreases fuel, e, 0
  {
    hide Inv, Covered, Held, SameParams, Alive, Grounded, ListOk, SafeProgram;
    BlockSafe(pr, e.body, o, fs, k, pend, st, fuel);
    var r := EvalBlock(pr, e.body, o, st, fuel);
    if r.ctl.Brk? {
      BreakValue(fs, k, pend, st, r, r.ctl.v);
    } else if r.ctl.Normal? || r.ctl.Cont? {
      Settled(fs, k, pend, st, Owned(LastOf(e.body)), r);
      if fuel > 0 {
        EvalSafe(pr, e, o, fs, k, pend, r.st, fuel - 1);
        Chain(fs, k, pend, st, r.st, false, Eval(pr, e, o, r.st, fuel - 1));
      }
    }
  }

  lemma {:induction false} WhileSafe(pr: Program, e: Expr, o: seq<LocalId>, fs: seq<Frame>, k: Keep,
                                     pend: multiset<nat>, st: State, fuel: nat)
    requires Ok(pr, o, fs, k, pend, st) && Safe(e, k, o) && e.While?
    ensures Post(fs, k, pend, st, Owned(e), Eval(pr, e, o, st, fuel))
    decreases fuel, e, 0
  {
    hide Inv, Covered, Held, SameParams, Alive, Grounded, ListOk, SafeProgram;
    EvalSafe(pr, e.cond, o, fs, k, pend, st, fuel);
    var q := Eval(pr, e.cond, o, st, fuel);
    if q.ctl.Normal? {
      Settled(fs, k, pend, st, Owned(e.cond), q);
      if !Truthy(q.ctl.v) {
        NilPost(fs, k, pend, st, q.st);
      } else {
        OwnOk(e.cond, k, o);
        WhileBodySafe(pr, e, o, fs, k, pend, q.st, fuel);
        Chain(fs, k, pend, st, q.st, false, BodyOut(pr, e, o, q.st, fuel));
      }
    }
  }

  /** A `while` whose condition just held. */
  function BodyOut(pr: Program, e: Expr, o: seq<LocalId>, st: State, fuel: nat): Out
    requires e.While?
  {
    var r := EvalBlock(pr, e.body, Own(e.cond, o), st, fuel);
    if r.ctl.Brk? then Out(Normal(Nil), r.st)
    else if !r.ctl.Normal? && !r.ctl.Cont? then r
    else if fuel == 0 then Out(Timeout, r.st)
    else Eval(pr, e, o, r.st, fuel - 1)
  }

  lemma {:induction false} WhileBodySafe(pr: Program, e: Expr, o: seq<LocalId>, fs: seq<Frame>, k: Keep,
                                         pend: multiset<nat>, st: State, fuel: nat)
    requires Ok(pr, o, fs, k, pend, st) && Safe(e, k, o) && e.While? && ListOk(Own(e.cond, o), k.borrowed)
    ensures Post(fs, k, pend, st, false, BodyOut(pr, e, o, st, fuel))
    decreases fuel, e.body, 1
  {
    hide Inv, Covered, Held, SameParams, Alive, Grounded, ListOk, SafeProgram;
    BlockSafe(pr, e.body, Own(e.cond, o), fs, k, pend, st, fuel);
    var r := EvalBlock(pr, e.body, Own(e.cond, o), st, fuel);
    if r.ctl.Brk? {
      BreakValue(fs, k, pend, st, r, Nil);
    } else if r.ctl.Normal? || r.ctl.Cont? {
      Settled(fs, k, pend, st, Owned(LastOf(e.body)), r);
      if fuel > 0 {
        EvalSafe(pr, e, o, fs, k, pend, r.st, fuel - 1);
        Chain(fs, k, pend, st, r.st, false, Eval(pr, e, o, r.st, fuel - 1));
      }
    }
  }

  lemma {:induction false} ReturnSafe(pr: Program, e: Expr, o: seq<LocalId>, fs: seq<Frame>, k: Keep,
                                      pend: multiset<nat>, st: State, fuel: nat)
    requires Ok(pr, o, fs, k, pend, st) && Safe(e, k, o) && e.Return?
    ensures Post(fs, k, pend, st, Owned(e), Eval(pr, e, o, st, fuel))
    decreases fuel, e, 0
  {
    hide Inv, Covered, Held, SameParams, Alive, Grounded, ListOk, SafeProgram;
    EvalSafe(pr, e.value, o, fs, k, pend, st, fuel);
    var r := Eval(pr, e.value, o, st, fuel);
    if r.ctl.Normal? {
      Settled(fs, k, pend, st, Owned(e.value), r);
      OwnOk(e.value, k, o);
      LeaveSafe(fs, k, pend, st, Owned(e.value), r.ctl.v, Own(e.value, o), r.st);
    }
  }

  lemma {:induction false} BreakSafe(pr: Program, e: Expr, o: seq<LocalId>, fs: seq<Frame>, k: Keep,
                                     pend: multiset<nat>, st: State, fuel: nat)
    requires Ok(pr, o, fs, k, pend, st) && Safe(e, k, o) && e.Break?
    ensures Post(fs, k, pend, st, Owned(e), Eval(pr, e, o, st, fuel))
    decreases fuel, e, 0
  {
    hide Inv, Covered, Held, SameParams, Alive, Grounded, ListOk, SafeProgram;
    EvalSafe(pr, e.value, o, fs, k, pend, st, fuel);
    var r := Eval(pr, e.value, o, st, fuel);
    if r.ctl.Normal? {
      Settled(fs, k, pend, st, Owned(e.value), r);
    }
  }

  ghost predicate ArgsPost(fs: seq<Frame>, k: Keep, pend: multiset<nat>, st: State, taken: bool, r: Outs)
  {
    if r.ctl.Normal?
      then Inv(fs, k, pend + (if taken then Refs(r.vs) else multiset{}), r.st) && SameParams(k, st.env, r.st.env)
    else Post(fs, k, pend, st, false, Out(r.ctl, r.st))
  }

  lemma {:induction false} ArgsSafe(pr: Program, es: Exprs, o: seq<LocalId>, fs: seq<Frame>, k: Keep,
                                    pend: multiset<nat>, st: State, fuel: nat)
    requires Ok(pr, o, fs, k, pend, st) && SafeArgs(es, k, o)
    ensures var r := EvalArgs(pr, es, o, st, fuel);
            ArgsPost(fs, k, pend, st, false, r) && (r.ctl.Normal? ==> Inv(fs, k, pend, r.st))
    decreases fuel, es, 0
  {
    hide Inv, Covered, Held, SameParams, Alive, Grounded, ListOk, SafeProgram;
    match es
    case ENil =>
      assert pend + multiset{} == pend;
      SameRefl(k, st.env);
    case ECons(head, tail) =>
      EvalSafe(pr, head, o, fs, k, pend, st, fuel);
      var r := Eval(pr, head, o, st, fuel);
      if r.ctl.Normal? {
        Settled(fs, k, pend, st, Owned(head), r);
        OwnOk(head, k, o);
        ArgsSafe(pr, tail, Own(head, o), fs, k, pend, r.st, fuel);
        var t := EvalArgs(pr, tail, Own(head, o), r.st, fuel);
        if t.ctl.Normal? {
          SameTrans(k, st.env, r.st.env, t.st.env);
        } else {
          Chain(fs, k, pend, st, r.st, false, Out(t.ctl, t.st));
        }
      }
  }

  /** Every field of a literal holds a reference of its own when the object is built. */
  lemma {:induction false} FieldsSafe(pr: Program, es: Exprs, o: seq<LocalId>, fs: seq<Frame>, k: Keep,
                                      pend: multiset<nat>, st: State, fuel: nat)
    requires Ok(pr, o, fs, k, pend, st) && SafeArgs(es, k, o)
    ensures ArgsPost(fs, k, pend, st, true, EvalFields(pr, es, o, st, fuel))
    decreases fuel, es, 0
  {
    hide Inv, Covered, Held, SameParams, Alive, Grounded, ListOk, SafeProgram;
    match es
    case ENil =>
      assert pend + Refs([]) == pend;
      SameRefl(k, st.env);
    case ECons(head, tail) =>
      EvalSafe(pr, head, o, fs, k, pend, st, fuel);
      var r := Eval(pr, head, o, st, fuel);
      if r.ctl.Normal? {
        Settled(fs, k, pend, st, Owned(head), r);
        OwnOk(head, k, o);
        var v := r.ctl.v;
        TakeSafe(fs, k, pend, Owned(head), v, r.st);
        var kept := Take(Owned(head), v, r.st);
        FieldsSafe(pr, tail, Own(head, o), fs, k, pend + One(v), kept.st, fuel);
        var t := EvalFields(pr, tail, Own(head, o), kept.st, fuel);
        if t.ctl.Normal? {
          assert pend + One(v) + Refs(t.vs) == pend + Refs([v] + t.vs) by { RefsPrepend(v, t.vs); }
          SameTrans(k, st.env, kept.st.env, t.st.env);
        } else {
          PostFrom(fs, k, pend, pend + One(v), st, kept.st, false, Out(t.ctl, t.st), false);
        }
      }
  }

  /** Atomic arguments run no code, and each object among them has an owner outside the callee. */
  lemma {:induction false} AtomsHeld(pr: Program, es: Exprs, o: seq<LocalId>, fs: seq<Frame>, k: Keep,
                                     pend: multiset<nat>, st: State, fuel: nat)
    requires AtomArgs(es, k) && Inv(fs, k, pend, st)
    ensures var r := EvalArgs(pr, es, o, st, fuel);
            r.ctl.Normal? && r.st == st && ArgsHeld([Frame(st.env, k.borrowed)] + fs, pend, r.vs)
    decreases es
  {
    hide Inv;
    if es.ECons? {
      AtomsHeld(pr, es.tail, o, fs, k, pend, st, fuel);
      assert Own(es.head, o) == o;
      if es.head.Local? {
        LocalOwned(fs, k, pend, st, es.head.x);
      }
    }
  }

  /** A choice of the locals that never own. */
  lemma BorrowedOf(pr: Program, d: DefId) returns (borrowed: set<LocalId>)
    requires SafeProgram(pr) && d in pr.funcs
    ensures Elems(pr.funcs[d].params) <= borrowed && SafeBlock(pr.funcs[d].body, Entry(pr.funcs[d], borrowed), [])
    ensures ListOk([], borrowed)
  {
    hide SafeBlock;
    var f := pr.funcs[d];
    assert SafeFunc(f);
    borrowed :| Elems(f.params) <= borrowed && SafeBlock(f.body, Keep(borrowed, Elems(f.params), {}), []);
  }

  /** A call returns a reference of its own and leaves the caller's as they were. */
  lemma {:induction false} CallSafe(pr: Program, d: DefId, vs: seq<Value>, fs: seq<Frame>, k: Keep, pend: multiset<nat>,
                                    st: State, fuel: nat)
    requires SafeProgram(pr) && Inv(fs, k, pend, st) && ArgsHeld([Frame(st.env, k.borrowed)] + fs, pend, vs)
    ensures Post(fs, k, pend, st, true, CallFn(pr, d, vs, st, fuel))
    decreases fuel, ENil, 1
  {
    hide Inv, Covered, Held, SameParams, Alive, Grounded, ListOk, SafeProgram, ArgsHeld, SafeFunc, SafeBlock;
    if d in pr.funcs && |pr.funcs[d].params| == |vs| && fuel > 0 {
      var f := pr.funcs[d];
      var borrowed := BorrowedOf(pr, d);
      var fs', k' := [Frame(st.env, k.borrowed)] + fs, Entry(f, borrowed);
      var st' := st.(env := Bindings(map[], f.params, vs));
      EnterSafe(fs, k, pend, st, f, borrowed, vs);
      BlockSafe(pr, f.body, [], fs', k', pend, st', fuel - 1);
      var b := EvalBlock(pr, f.body, [], st', fuel - 1);
      if b.ctl.Normal? {
        Settled(fs', k', pend, st', Owned(LastOf(f.body)), b);
        OwnBlockOk(f.body, k', []);
        LeaveSafe(fs', k', pend, st', Owned(LastOf(f.body)), b.ctl.v, OwnBlock(f.body, []), b.st);
        var r := Leave(Owned(LastOf(f.body)), b.ctl.v, OwnBlock(f.body, []), b.st);
        BackSafe(fs, k, pend, st, Frame(map[], borrowed), b.ctl.v, r.st.objs);
      } else if b.ctl.Ret? {
        BackSafe(fs, k, pend, st, Frame(map[], borrowed), b.ctl.v, b.st.objs);
      }
    }
  }

  /** What binds nothing to the whole value leaves the invariant alone. */
  lemma PlainBindSafe(fs: seq<Frame>, k: Keep, pend: multiset<nat>, arms: Arms, sc: Expr, v: Value, o: seq<LocalId>,
                      st: State)
    requires arms.Arm? && !arms.pat.Bind? && SafeArms(arms, sc, k, o) && Inv(fs, k, pend, st)
    requires Uses(arms) ==> AtHand(fs, k, pend, st, sc, v)
    ensures Post(fs, k, pend, st, false, ArmBind(arms.pat, v, o, st))
    ensures var b := ArmBind(arms.pat, v, o, st);
            b.ctl.Normal? ==>
              && (!arms.pat.Record? ==> b.st == st)
              && (forall x: LocalId | x !in PatLocals(arms.pat) :: Get(b.st.env, x) == Get(st.env, x))
  {
    forall x: LocalId | x !in PatLocals(arms.pat)
      ensures var b := ArmBind(arms.pat, v, o, st); Untouched(x, st, b.ctl, b.st)
    {
      ArmBindStays(x, arms.pat, v, o, st);
    }
    if arms.pat.Record? {
      var rs := arms.pat.fields;
      assert rs[0..] == rs;
      hide Inv, Grounded, Post;
      RecordSafe(fs, k, pend, rs, 0, v, o, st);
    } else {
      SameRefl(k, st.env);
      NilPost(fs, k, pend, st, st);
    }
  }

  lemma {:induction false} ArmsSafe(pr: Program, arms: Arms, sc: Expr, v: Value, o: seq<LocalId>, fs: seq<Frame>,
                                    k: Keep, pend: multiset<nat>, st: State, fuel: nat)
    requires Ok(pr, o, fs, k, pend, st) && SafeArms(arms, sc, k, o) && (Uses(arms) ==> AtHand(fs, k, pend, st, sc, v))
    ensures Post(fs, k, pend, st, false, EvalArms(pr, arms, v, o, st, fuel))
    decreases fuel, arms, 4
  {
    hide Inv, Covered, Held, SameParams, Alive, Grounded, ListOk, SafeProgram, AtHand, Post;
    if arms.Arm? {
      ArmsRest(arms, sc, k, o);
      ArmListOk(arms, sc, k, o);
      if !Matches(arms.pat, v) {
        hide SafeArms;
        ArmsSafe(pr, arms.rest, sc, v, Own(arms.arm, Own(arms.guard, ArmOwn(arms.pat, o))), fs, k, pend, st, fuel);
      } else {
        ArmsAre(pr, arms, v, o, st, fuel);
        hide EvalArms, Guarded, Eval, SafeArms;
        if arms.pat.Bind? {
          BoundArmSafe(pr, arms, sc, v, o, fs, k, pend, st, fuel);
        } else {
          OtherArmSafe(pr, arms, sc, v, o, fs, k, pend, st, fuel);
        }
      }
    } else {
      StuckSafe(fs, k, pend, st);
    }
  }

  lemma StuckSafe(fs: seq<Frame>, k: Keep, pend: multiset<nat>, st: State)
    ensures Post(fs, k, pend, st, false, Out(Stuck, st))
  {
  }

  lemma {:induction false} OtherArmSafe(pr: Program, arms: Arms, sc: Expr, v: Value, o: seq<LocalId>, fs: seq<Frame>,
                                        k: Keep, pend: multiset<nat>, st: State, fuel: nat)
    requires arms.Arm? && !arms.pat.Bind? && Ok(pr, o, fs, k, pend, st) && SafeArms(arms, sc, k, o)
    requires Uses(arms) ==> AtHand(fs, k, pend, st, sc, v)
    requires var o1 := ArmOwn(arms.pat, o);
             && ListOk(o1, k.borrowed) && ListOk(Own(arms.guard, o1), k.borrowed)
                && ListOk(Own(arms.arm, Own(arms.guard, o1)), k.borrowed)
             && SafeArms(arms.rest, sc, k, Own(arms.arm, Own(arms.guard, o1)))
    ensures var b := ArmBind(arms.pat, v, o, st);
            Post(fs, k, pend, st, false,
                 if b.ctl.Normal? then Guarded(pr, arms, v, ArmOwn(arms.pat, o), b.st, fuel) else b)
    decreases fuel, arms, 3
  {
    hide Inv, Covered, Held, SameParams, Alive, Grounded, ListOk, SafeProgram, AtHand;
    PlainBindSafe(fs, k, pend, arms, sc, v, o, st);
    var b := ArmBind(arms.pat, v, o, st);
    assert SafeArm(arms, sc, k, ArmOwn(arms.pat, o));
    hide ArmBind, SafeArms, SafeArm, EvalArms, Guarded, Uses, ArmOwn, Eval;
    if b.ctl.Normal? {
      Settled(fs, k, pend, st, false, b);
      PlainArmSafe(pr, arms, sc, v, ArmOwn(arms.pat, o), fs, k, pend, st, b.st, fuel);
      Chain(fs, k, pend, st, b.st, false, Guarded(pr, arms, v, ArmOwn(arms.pat, o), b.st, fuel));
    }
  }

  lemma ArmsAre(pr: Program, arms: Arms, v: Value, o: seq<LocalId>, st: State, fuel: nat)
    requires arms.Arm? && Matches(arms.pat, v)
    ensures var b := ArmBind(arms.pat, v, o, st);
            EvalArms(pr, arms, v, o, st, fuel)
            == if b.ctl.Normal? then Guarded(pr, arms, v, ArmOwn(arms.pat, o), b.st, fuel) else b
  {
    hide Eval, ArmBind;
  }

  lemma ArmListOk(arms: Arms, sc: Expr, k: Keep, o: seq<LocalId>)
    requires arms.Arm? && SafeArms(arms, sc, k, o) && ListOk(o, k.borrowed)
    ensures var o1 := ArmOwn(arms.pat, o);
            ListOk(o1, k.borrowed) && ListOk(Own(arms.guard, o1), k.borrowed)
              && ListOk(Own(arms.arm, Own(arms.guard, o1)), k.borrowed)
  {
    var o1 := ArmOwn(arms.pat, o);
    if arms.pat.Record? {
      PushAllOk(o, PatLocals(arms.pat), k.borrowed);
    }
    ArmKeepIs(arms, sc, k, o);
    var k1 := ArmKeep(arms, sc, k, o1);
    hide ListOk, ArmKeep, SafeArms;
    OwnOk(arms.guard, k1, o1);
    OwnOk(arms.arm, k1, Own(arms.guard, o1));
  }

  /** Guard and body of an arm that does not bind the scrutinee, `st` being the state before
      its pattern and `mid` the one after. */
  lemma {:induction false} PlainArmSafe(pr: Program, arms: Arms, sc: Expr, v: Value, o: seq<LocalId>, fs: seq<Frame>,
                                        k: Keep, pend: multiset<nat>, st: State, mid: State, fuel: nat)
    requires arms.Arm? && Ok(pr, o, fs, k, pend, mid) && SafeArm(arms, sc, k, o)
    requires SafeArms(arms.rest, sc, k, Own(arms.arm, Own(arms.guard, o))) && ListOk(Own(arms.guard, o), k.borrowed)
    requires ListOk(Own(arms.arm, Own(arms.guard, o)), k.borrowed)
    requires Uses(arms) ==> AtHand(fs, k, pend, st, sc, v)
    requires !arms.pat.Record? ==> mid == st
    requires forall x: LocalId | x !in PatLocals(arms.pat) :: Get(mid.env, x) == Get(st.env, x)
    ensures Post(fs, k, pend, mid, false, Guarded(pr, arms, v, o, mid, fuel))
    decreases fuel, arms, 2
  {
    hide Inv, Covered, Held, SameParams, Alive, Grounded, ListOk, SafeProgram, AtHand;
    var o1 := Own(arms.guard, o);
    EvalSafe(pr, arms.guard, o, fs, k, pend, mid, fuel);
    var g := Eval(pr, arms.guard, o, mid, fuel);
    if g.ctl.Normal? {
      Settled(fs, k, pend, mid, Owned(arms.guard), g);
      if Truthy(g.ctl.v) {
        EvalSafe(pr, arms.arm, o1, fs, k, pend, g.st, fuel);
        Chain(fs, k, pend, mid, g.st, Owned(arms.arm), Eval(pr, arms.arm, o1, g.st, fuel));
        Borrowed(fs, k, pend, mid, Owned(arms.arm), Eval(pr, arms.arm, o1, g.st, fuel));
      } else {
        if Uses(arms.rest) {
          StillAtHand(pr, arms, sc, v, o, fs, k, pend, st, mid, fuel);
        }
        ArmsSafe(pr, arms.rest, sc, v, Own(arms.arm, o1), fs, k, pend, g.st, fuel);
        Chain(fs, k, pend, mid, g.st, false, EvalArms(pr, arms.rest, v, Own(arms.arm, o1), g.st, fuel));
      }
    } else {
      Borrowed(fs, k, pend, mid, Owned(arms.guard), g);
    }
  }

  /** The scrutinee outlives the guard of an arm that is not taken. */
  lemma {:induction false} StillAtHand(pr: Program, arms: Arms, sc: Expr, v: Value, o: seq<LocalId>, fs: seq<Frame>,
                                       k: Keep, pend: multiset<nat>, st: State, mid: State, fuel: nat)
    requires arms.Arm? && Ok(pr, o, fs, k, pend, mid) && SafeArm(arms, sc, k, o) && Uses(arms.rest)
             && AtHand(fs, k, pend, st, sc, v)
    requires !arms.pat.Record? ==> mid == st
    requires forall x: LocalId | x !in PatLocals(arms.pat) :: Get(mid.env, x) == Get(st.env, x)
    requires var g := Eval(pr, arms.guard, o, mid, fuel); g.ctl.Normal? && !Truthy(g.ctl.v) && Inv(fs, k, pend, g.st)
    ensures AtHand(fs, k, pend, Eval(pr, arms.guard, o, mid, fuel).st, sc, v)
    decreases fuel, arms, 1
  {
    assert !NoGuard(arms.guard);
    var g := Eval(pr, arms.guard, o, mid, fuel);
    if Owned(sc) {
      hide Eval;
      OwnedAtHand(fs, k, pend, g.st, sc, v);
    } else if sc.Local? && sc.x !in PatLocals(arms.pat) && Safe(arms.guard, Lend(k, sc.x), o) {
      LendInv(fs, k, pend, mid, sc.x);
      EvalSafe(pr, arms.guard, o, fs, Lend(k, sc.x), pend, mid, fuel);
      hide Eval;
      assert Get(g.st.env, sc.x) == v;
      LocalAtHand(fs, k, pend, g.st, sc, v);
    } else {
      hide Eval;
      GentleAtHand(pr, arms.guard, sc, v, o, fs, k, pend, st, fuel);
    }
  }

  lemma LendInv(fs: seq<Frame>, k: Keep, pend: multiset<nat>, st: State, y: LocalId)
    requires Inv(fs, k, pend, st)
    ensures Inv(fs, Lend(k, y), pend, st)
  {
  }

  lemma HeldReady(fs: seq<Frame>, k: Keep, pend: multiset<nat>, st: State)
    requires Inv(fs, k, pend, st)
    ensures Ready(fs, k, pend, st)
  {
    var f := Frame(st.env, k.borrowed);
    forall x <- k.held
      ensures ReachedNow(fs, k, pend, st, Get(st.env, x))
    {
      LocalOwned(fs, k, pend, st, x);
      assert Reached(0, fs, f, pend, st.objs, Get(st.env, x));
    }
  }

  /** Gentle code keeps a reached value at hand. */
  lemma GentleAtHand(pr: Program, e: Expr, sc: Expr, v: Value, o: seq<LocalId>, fs: seq<Frame>, k: Keep,
                     pend: multiset<nat>, st: State, fuel: nat)
    requires ListOk(o, k.borrowed) && Inv(fs, k, pend, st) && AtHand(fs, k, pend, st, sc, v) && Gentle(e)
             && Safe(e, k, o)
    requires Eval(pr, e, o, st, fuel).ctl.Normal?
    ensures AtHand(fs, k, pend, Eval(pr, e, o, st, fuel).st, sc, v)
  {
    var leak: multiset<nat>, n: nat :|
      Covered(fs, Frame(st.env, k.borrowed), pend + leak, st.objs)
        && Reached(n, fs, Frame(st.env, k.borrowed), pend + leak, st.objs, v);
    hide Eval, Covered, Reached, Safe, Gentle, ListOk;
    var r := Eval(pr, e, o, st, fuel);
    HeldReady(fs, k, pend, st);
    hide Inv;
    LeakReady(fs, k, pend, leak, st, n, v);
    SoftEval(pr, e, k, o, fs, pend + leak, st, fuel);
    SoftSettled(fs, k, pend + leak, st, Owned(e), r);
    GrownReached(fs, k, pend + leak, st, r.st, n, v);
    hide Soft, SoftPost, Ready, ReachedNow;
    SoftAtHand(fs, k, pend, leak, st, r.st, sc, v);
  }

  lemma GrownReached(fs: seq<Frame>, k: Keep, pend: multiset<nat>, st: State, st': State, n: nat, v: Value)
    requires Soft(fs, k, pend, st, st') && Reached(n, fs, Frame(st.env, k.borrowed), pend, st.objs, v)
    ensures ReachedNow(fs, k, pend, st', v)
  {
    ReachedGrown(n, fs, k, pend, st, st', v);
  }

  /** An arm that binds the scrutinee. */
  lemma {:induction false} BoundArmSafe(pr: Program, arms: Arms, sc: Expr, v: Value, o: seq<LocalId>, fs: seq<Frame>,
                                        k: Keep, pend: multiset<nat>, st: State, fuel: nat)
    requires arms.Arm? && arms.pat.Bind? && Ok(pr, o, fs, k, pend, st) && SafeArms(arms, sc, k, o)
             && AtHand(fs, k, pend, st, sc, v)
    requires SafeArms(arms.rest, sc, k, Own(arms.arm, Own(arms.guard, o)))
    requires ListOk(Own(arms.guard, o), k.borrowed) && ListOk(Own(arms.arm, Own(arms.guard, o)), k.borrowed)
    ensures Post(fs, k, pend, st, false, Guarded(pr, arms, v, o, st.(env := st.env[arms.pat.local := v]), fuel))
    decreases fuel, arms, 2
  {
    hide Inv, Post, Guarded, ListOk, SafeProgram, SafeBoth, Gentle;
    var x := arms.pat.local;
    var st1 := st.(env := st.env[x := v]);
    if Owned(sc) && SafeBoth(arms, Hold(k, x), o) {
      HoldInv(fs, k, Hold(k, x), pend, st, sc, x, v);
      HeldArmSafe(pr, arms, sc, v, o, fs, k, Hold(k, x), pend, st, st1, fuel);
    } else if sc.Local? && SafeBoth(arms, Hold(Lend(k, sc.x), x), o) {
      LendInv(fs, k, pend, st, sc.x);
      HoldInv(fs, k, Hold(Lend(k, sc.x), x), pend, st, sc, x, v);
      HeldArmSafe(pr, arms, sc, v, o, fs, k, Hold(Lend(k, sc.x), x), pend, st, st1, fuel);
    } else {
      SoftArmSafe(pr, arms, sc, v, o, fs, k, pend, st, st1, fuel);
    }
  }

  /** The arm's local is held: by the pending reference, or by the local it was read from. */
  lemma HoldInv(fs: seq<Frame>, k: Keep, k1: Keep, pend: multiset<nat>, st: State, sc: Expr, x: LocalId, v: Value)
    requires Inv(fs, k, pend, st) && AtHand(fs, k, pend, st, sc, v) && x in k.borrowed && x !in k.held
    requires (Owned(sc) && k1 == Hold(k, x)) || (sc.Local? && k1 == Hold(Lend(k, sc.x), x))
    ensures Inv(fs, k1, pend, st.(env := st.env[x := v])) && SameParams(k, st.env, st.env[x := v])
  {
    var env := st.env[x := v];
    BorrowCovers(fs, k.borrowed, pend, x, v, st);
    hide Covered, Grounded;
    forall y <- k1.held
      ensures HeldOne(fs, pend, k1, env, y)
    {
      if y != x {
        HeldElse(fs, k, k1, pend, st.env, env, y, y);
      } else if Owned(sc) {
        assert v.Ref? ==> v.a in multiset{v.a} && pend[v.a] > 0;
      } else if sc.x in k.borrowed {
        HeldElse(fs, k, k1, pend, st.env, env, sc.x, x);
      } else {
        assert sc.x in k1.lent && Get(env, sc.x) == Get(env, x);
      }
    }
    assert Held(fs, pend, k1, env);
  }

  ghost predicate HeldOne(fs: seq<Frame>, pend: multiset<nat>, k: Keep, env: Env, y: LocalId)
  {
    Get(env, y).Ref? ==>
      FrameOwners(fs, Get(env, y).a) + pend[Get(env, y).a] > 0 || exists z <- k.lent :: Get(env, z) == Get(env, y)
  }

  /** What holds `y` also holds `x`, which has its value. */
  lemma HeldElse(fs: seq<Frame>, k: Keep, k1: Keep, pend: multiset<nat>, env: Env, env': Env, y: LocalId, x: LocalId)
    requires Held(fs, pend, k, env) && y in k.held && k.lent <= k1.lent && Get(env', x) == Get(env, y)
    requires forall z <- k.lent :: Get(env', z) == Get(env, z)
    ensures HeldOne(fs, pend, k1, env', x)
  {
    if Get(env, y).Ref? && FrameOwners(fs, Get(env, y).a) + pend[Get(env, y).a] == 0 {
      var z :| z in k.lent && Get(env, z) == Get(env, y);
      assert z in k1.lent && Get(env', z) == Get(env', x);
    }
  }

  lemma {:induction false} HeldArmSafe(pr: Program, arms: Arms, sc: Expr, v: Value, o: seq<LocalId>, fs: seq<Frame>,
                                       k: Keep, k1: Keep, pend: multiset<nat>, st: State, mid: State, fuel: nat)
    requires arms.Arm? && Ok(pr, o, fs, k, pend, st) && Inv(fs, k1, pend, mid) && SafeBoth(arms, k1, o)
             && AtHand(fs, k, pend, st, sc, v)
    requires SafeArms(arms.rest, sc, k, Own(arms.arm, Own(arms.guard, o)))
    requires ListOk(Own(arms.guard, o), k.borrowed) && ListOk(Own(arms.arm, Own(arms.guard, o)), k.borrowed)
    requires Tighter(k, k1) && SameParams(k, st.env, mid.env)
    requires Owned(sc) || (sc.Local? && (sc.x in k1.lent || sc.x in k1.held) && Get(mid.env, sc.x) == v)
    ensures Post(fs, k, pend, st, false, Guarded(pr, arms, v, o, mid, fuel))
    decreases fuel, arms, 1
  {
    var o1 := Own(arms.guard, o);
    var g := Eval(pr, arms.guard, o, mid, fuel);
    hide Inv, Covered, Held, Alive, Grounded, ListOk, SafeProgram;
    EvalSafe(pr, arms.guard, o, fs, k1, pend, mid, fuel);
    if g.ctl.Normal? {
      Settled(fs, k1, pend, mid, Owned(arms.guard), g);
      if Truthy(g.ctl.v) {
        EvalSafe(pr, arms.arm, o1, fs, k1, pend, g.st, fuel);
        var r := Eval(pr, arms.arm, o1, g.st, fuel);
        hide Eval, AtHand, SameParams;
        Chain(fs, k1, pend, mid, g.st, Owned(arms.arm), r);
        PostLooser(fs, k, k1, pend, st, mid, Owned(arms.arm), r);
      } else {
        PostLooser(fs, k, k1, pend, st, mid, Owned(arms.guard), g);
        Settled(fs, k, pend, st, false, g);
        if Owned(sc) {
          OwnedAtHand(fs, k, pend, g.st, sc, v);
        } else {
          assert Get(g.st.env, sc.x) == v;
          LocalAtHand(fs, k, pend, g.st, sc, v);
        }
        hide Eval, AtHand, SameParams;
        ArmsSafe(pr, arms.rest, sc, v, Own(arms.arm, o1), fs, k, pend, g.st, fuel);
        Chain(fs, k, pend, st, g.st, false, EvalArms(pr, arms.rest, v, Own(arms.arm, o1), g.st, fuel));
      }
    } else {
      PostLooser(fs, k, k1, pend, st, mid, Owned(arms.guard), g);
    }
  }

  /** A gentle run, seen as an ordinary one. */
  lemma SoftToPost(fs: seq<Frame>, k: Keep, pend: multiset<nat>, more: multiset<nat>, st: State, r: Out)
    requires Inv(fs, k, pend, st) && pend <= more && SoftPost(fs, k, more, st, false, r)
    ensures Post(fs, k, pend, st, false, r)
  {
    hide Grounded;
    match r.ctl
    case Normal(v) =>
      assert more + Pending(false, v) == more && pend + Pending(false, v) == pend;
      SoftInv(fs, k, pend, more, st, r.st);
      GroundedLess(fs, k, pend, more, r.st, v);
    case Brk(v) =>
      SoftInv(fs, k, pend, more, st, r.st);
      GroundedLess(fs, k, pend, more, r.st, v);
    case Cont => SoftInv(fs, k, pend, more, st, r.st);
    case Ret(v) => Forget(fs, Frame(map[], k.borrowed), more + One(v), pend + One(v), r.st.objs);
    case _ =>
  }

  lemma SoftInv(fs: seq<Frame>, k: Keep, pend: multiset<nat>, more: multiset<nat>, st: State, st': State)
    requires Inv(fs, k, pend, st) && pend <= more && Soft(fs, k, more, st, st')
    ensures Inv(fs, k, pend, st') && SameParams(k, st.env, st'.env)
  {
    assert SameParams(k, st.env, st'.env);
    InvForget(fs, k, more, pend, st', st);
  }

  /** Guard and body release nothing, so the borrow needs no holder. */
  lemma {:induction false} SoftArmSafe(pr: Program, arms: Arms, sc: Expr, v: Value, o: seq<LocalId>, fs: seq<Frame>,
                                       k: Keep, pend: multiset<nat>, st: State, mid: State, fuel: nat)
    requires arms.Arm? && arms.pat.Bind? && Ok(pr, o, fs, k, pend, st) && AtHand(fs, k, pend, st, sc, v)
    requires arms.pat.local in k.borrowed && arms.pat.local !in k.held && SafeBoth(arms, Hold(k, arms.pat.local), o)
    requires Gentle(arms.guard) && Gentle(arms.arm)
    requires SafeArms(arms.rest, sc, k, Own(arms.arm, Own(arms.guard, o)))
    requires mid == st.(env := st.env[arms.pat.local := v])
    ensures Post(fs, k, pend, st, false, Guarded(pr, arms, v, o, mid, fuel))
    decreases fuel, arms, 1
  {
    var k1 := Hold(k, arms.pat.local);
    var leak: multiset<nat>, n: nat :|
      Covered(fs, Frame(st.env, k.borrowed), pend + leak, st.objs)
        && Reached(n, fs, Frame(st.env, k.borrowed), pend + leak, st.objs, v);
    var more := pend + leak;
    HeldReady(fs, k, pend, st);
    LeakReady(fs, k, pend, leak, st, n, v);
    SoftArmBind(fs, k, k1, more, arms.pat, v, o, st);
    GentleOwn(arms.guard, o);
    GentleOwn(arms.arm, o);
    hide Inv, Covered, Held, SameParams, Grounded, Ready, Soft, ReachedNow, Reached, SafeProgram;
    SoftEval(pr, arms.guard, k1, o, fs, more, mid, fuel);
    var g := Eval(pr, arms.guard, o, mid, fuel);
    if g.ctl.Normal? {
      SoftSettled(fs, k1, more, mid, Owned(arms.guard), g);
      if Truthy(g.ctl.v) {
        SoftEval(pr, arms.arm, k1, o, fs, more, g.st, fuel);
        var r := Eval(pr, arms.arm, o, g.st, fuel);
        SoftChain(fs, k1, more, mid, g.st, Owned(arms.arm), r);
        SoftLooser(fs, k, k1, more, st, mid, Owned(arms.arm), r);
        SoftToPost(fs, k, pend, more, st, r);
      } else {
        LooseAgain(fs, k, k1, more, st, mid, g.st, v);
        SoftInv(fs, k, pend, more, st, g.st);
        SoftAtHand(fs, k, pend, leak, st, g.st, sc, v);
        ArmsSafe(pr, arms.rest, sc, v, o, fs, k, pend, g.st, fuel);
        Chain(fs, k, pend, st, g.st, false, EvalArms(pr, arms.rest, v, o, g.st, fuel));
      }
    } else {
      SoftLooser(fs, k, k1, more, st, mid, Owned(arms.guard), g);
      SoftToPost(fs, k, pend, more, st, g);
    }
  }

  lemma SoftAtHand(fs: seq<Frame>, k: Keep, pend: multiset<nat>, leak: multiset<nat>, st: State, st': State, sc: Expr,
                   v: Value)
    requires AtHand(fs, k, pend, st, sc, v) && Soft(fs, k, pend + leak, st, st')
             && ReachedNow(fs, k, pend + leak, st', v)
    ensures AtHand(fs, k, pend, st', sc, v)
  {
    var n: nat :| Reached(n, fs, Frame(st'.env, k.borrowed), pend + leak, st'.objs, v);
    ReachedAlive(n, fs, Frame(st'.env, k.borrowed), pend + leak, st'.objs, v);
    assert Grounded(fs, k, pend, st', v);
  }

  lemma {:induction false} StmtSafe(pr: Program, s: Stmt, o: seq<LocalId>, fs: seq<Frame>, k: Keep, pend: multiset<nat>,
                                    st: State, fuel: nat)
    requires Ok(pr, o, fs, k, pend, st) && SafeStmt(s, k, o)
    ensures Post(fs, k, pend, st, false, EvalStmt(pr, s, o, st, fuel))
    decreases fuel, s, 1
  {
    hide Inv, Covered, Held, SameParams, Alive, Grounded, ListOk, SafeProgram;
    match s
    case Let(pat, init) =>
      EvalSafe(pr, init, o, fs, k, pend, st, fuel);
      var r := Eval(pr, init, o, st, fuel);
      if r.ctl.Normal? {
        Settled(fs, k, pend, st, Owned(init), r);
        BindPatSafe(fs, k, pend, pat, r.ctl.v, Owned(init), Own(init, o), r.st);
        Chain(fs, k, pend, st, r.st, false, BindPat(pat, r.ctl.v, Owned(init), Own(init, o), r.st));
      }
    case Assign(target, value) => AssignSafe(pr, s, o, fs, k, pend, st, fuel);
    case ExprStmt(e) =>
      EvalSafe(pr, e, o, fs, k, pend, st, fuel);
      var r := Eval(pr, e, o, st, fuel);
      if r.ctl.Normal? && Owned(e) {
        Settled(fs, k, pend, st, true, r);
        DropSafe(fs, k, pend, st, r.ctl.v, r.st);
      }
  }

  lemma {:induction false} AssignSafe(pr: Program, s: Stmt, o: seq<LocalId>, fs: seq<Frame>, k: Keep,
                                      pend: multiset<nat>, st: State, fuel: nat)
    requires Ok(pr, o, fs, k, pend, st) && SafeStmt(s, k, o) && s.Assign?
    ensures Post(fs, k, pend, st, false, EvalStmt(pr, s, o, st, fuel))
    decreases fuel, s, 0
  {
    hide Inv, Covered, Held, SameParams, Alive, Grounded, ListOk, SafeProgram;
    EvalSafe(pr, s.value, o, fs, k, pend, st, fuel);
    var r := Eval(pr, s.value, o, st, fuel);
    if r.ctl.Normal? {
      var owned, v, o1 := Owned(s.value), r.ctl.v, Own(s.value, o);
      Settled(fs, k, pend, st, owned, r);
      OwnOk(s.value, k, o);
      if Scalar(s.value) {
        ScalarYields(pr, s.value, o, st, fuel);
      }
      match s.target
      case Local(x) =>
        StoreLocalSafe(pr, x, v, owned, o1, fs, k, pend, r.st, fuel);
        Chain(fs, k, pend, st, r.st, false, EvalStore(pr, s.target, v, owned, o1, r.st, fuel));
      case Field(recv, idx) =>
        FieldStoreSafe(pr, s, o1, fs, k, pend, r, fuel);
        Chain(fs, k, pend, st, r.st, false, EvalStore(pr, s.target, v, owned, o1, r.st, fuel));
      case Null => NilPost(fs, k, pend, st, r.st);
    }
  }

  /** The receiver of a field store, evaluated after the value `r`, and the store. */
  lemma {:induction false} FieldStoreSafe(pr: Program, s: Stmt, o: seq<LocalId>, fs: seq<Frame>, k: Keep,
                                          pend: multiset<nat>, r: Out, fuel: nat)
    requires SafeProgram(pr) && ListOk(o, k.borrowed) && s.Assign? && s.target.Field?
    requires Safe(s.target.recv, k, o) && Storable(s.value, s.target.recv)
    requires r.ctl.Normal? && Inv(fs, k, pend, r.st) && Inv(fs, k, pend + Pending(Owned(s.value), r.ctl.v), r.st)
             && Alive(r.st.objs, r.ctl.v)
    requires Scalar(s.value) ==> !r.ctl.v.Ref?
    requires s.value.Local? ==> Readable(s.value.x, k) && r.ctl.v == Get(r.st.env, s.value.x)
    ensures Post(fs, k, pend, r.st, false, EvalStore(pr, s.target, r.ctl.v, Owned(s.value), o, r.st, fuel))
    decreases fuel, s.target, 2
  {
    hide Inv, Covered, Held, SameParams, Grounded, ListOk, SafeProgram;
    var recv, v, owned := s.target.recv, r.ctl.v, Owned(s.value);
    var more := pend + Pending(owned, v);
    EvalSafe(pr, recv, o, fs, k, more, r.st, fuel);
    var q := Eval(pr, recv, o, r.st, fuel);
    if q.ctl.Normal? {
      Settled(fs, k, more, r.st, Owned(recv), q);
      StillAlive(pr, s, o, fs, k, pend, r, fuel);
      hide Eval, StoreField;
      StoreFieldSafe(q.ctl.v, s.target.idx, v, owned, fs, k, pend, r.st, q.st);
    } else {
      SameRefl(k, r.st.env);
      PostFrom(fs, k, pend, more, r.st, r.st, Owned(recv), q, false);
    }
  }

  /** A storable value outlives the evaluation of the receiver. */
  lemma StillAlive(pr: Program, s: Stmt, o: seq<LocalId>, fs: seq<Frame>, k: Keep, pend: multiset<nat>, r: Out,
                   fuel: nat)
    requires s.Assign? && s.target.Field? && Storable(s.value, s.target.recv) && r.ctl.Normal?
             && Alive(r.st.objs, r.ctl.v)
    requires Scalar(s.value) ==> !r.ctl.v.Ref?
    requires s.value.Local? ==> Readable(s.value.x, k) && r.ctl.v == Get(r.st.env, s.value.x)
    requires var q := Eval(pr, s.target.recv, o, r.st, fuel);
             q.ctl.Normal? && Inv(fs, k, pend + Pending(Owned(s.value), r.ctl.v), q.st)
    ensures Alive(Eval(pr, s.target.recv, o, r.st, fuel).st.objs, r.ctl.v)
  {
    hide Eval;
    var recv, v := s.target.recv, r.ctl.v;
    var q := Eval(pr, recv, o, r.st, fuel);
    if Owned(s.value) {
      PendAlive(fs, Frame(q.st.env, k.borrowed), pend + Pending(true, v), q.st.objs, v);
    } else if s.value.Local? && s.value.x !in F.Assigned(recv) && s.value.x !in Bound(recv) {
      LocalStays(s.value.x, pr, recv, o, r.st, fuel);
      LocalAlive(fs, k, pend + Pending(false, v), q.st, s.value.x);
    } else if Gentle(recv) {
      GentleSpares(pr, recv, o, r.st, fuel);
    }
  }

  lemma {:induction false} BlockSafe(pr: Program, b: Block, o: seq<LocalId>, fs: seq<Frame>, k: Keep,
                                     pend: multiset<nat>, st: State, fuel: nat)
    requires Ok(pr, o, fs, k, pend, st) && SafeBlock(b, k, o)
    ensures Post(fs, k, pend, st, Owned(LastOf(b)), EvalBlock(pr, b, o, st, fuel))
    decreases fuel, b, 0
  {
    hide Inv, Covered, Held, SameParams, Alive, Grounded, ListOk, SafeProgram;
    match b
    case Tail(e) => EvalSafe(pr, e, o, fs, k, pend, st, fuel);
    case Then(s, rest) =>
      StmtSafe(pr, s, o, fs, k, pend, st, fuel);
      var r := EvalStmt(pr, s, o, st, fuel);
      if r.ctl.Normal? {
        Settled(fs, k, pend, st, false, r);
        OwnStmtOk(s, k, o);
        BlockSafe(pr, rest, OwnStmt(s, o), fs, k, pend, r.st, fuel);
        Chain(fs, k, pend, st, r.st, Owned(LastOf(b)), EvalBlock(pr, rest, OwnStmt(s, o), r.st, fuel));
      }
  }

  /** Whole runs: from an empty heap, calling any function of a safe program with
      scalars, through any depth of recursion, touches no freed object, and at the end
      every object somebody owns is live with a count that covers its owners. */
  lemma CountsCoverOwners(pr: Program, d: DefId, vs: seq<Value>, fuel: nat)
    requires SafeProgram(pr) && forall i | 0 <= i < |vs| :: !vs[i].Ref?
    ensures var r := CallFn(pr, d, vs, State(map[], []), fuel);
            && !r.ctl.Bad?
            && (r.ctl.Normal? ==> Covered([], Frame(map[], {}), One(r.ctl.v), r.st.objs))
  {
    var st := State(map[], []);
    CallSafe(pr, d, vs, [], Keep({}, {}, {}), multiset{}, st, fuel);
    var r := CallFn(pr, d, vs, st, fuel);
    assert r.st.env == map[];
    if r.ctl.Normal? {
      assert multiset{} + Pending(true, r.ctl.v) == One(r.ctl.v);
    }
  }
}
