/**
 Runs of gentle code, in which nothing is released: a borrow that is reached from an owner
 when the code starts is reached all the way through.
 */
module ArcSoft {
  import opened Hir
  import opened Arc
  import opened ArcLedger
  import opened ArcGuards
  import opened ArcFragment
  import opened ArcInv

  // -- the invariant --------------------------------------------------------------------------

  /** Objects are only added and counts only raised. */
  predicate Grown(objs: seq<Obj>, objs': seq<Obj>)
  {
    && |objs| <= |objs'|
    && forall i | 0 <= i < |objs| ::
         || objs'[i] == objs[i]
         || (objs[i].Counted? && objs'[i].Counted? && objs'[i].fields == objs[i].fields)
  }

  /** Only locals that cannot be read were written. */
  ghost predicate SameFrame(k: Keep, env: Env, env': Env)
  {
    forall x: LocalId | Readable(x, k) :: Get(env', x) == Get(env, x)
  }

  ghost predicate ReachedNow(fs: seq<Frame>, k: Keep, pend: multiset<nat>, st: State, v: Value)
  {
    exists n: nat :: Reached(n, fs, Frame(st.env, k.borrowed), pend, st.objs, v)
  }

  /** Counts cover owners, and what held locals hold is reached from one. */
  ghost predicate Ready(fs: seq<Frame>, k: Keep, pend: multiset<nat>, st: State)
  {
    && KeepOk(k) && Covered(fs, Frame(st.env, k.borrowed), pend, st.objs)
    && forall x <- k.held :: ReachedNow(fs, k, pend, st, Get(st.env, x))
  }

  ghost predicate Soft(fs: seq<Frame>, k: Keep, pend: multiset<nat>, st: State, st': State)
  {
    Covered(fs, Frame(st'.env, k.borrowed), pend, st'.objs) && Grown(st.objs, st'.objs) && SameFrame(k, st.env, st'.env)
  }

  ghost predicate SoftPost(fs: seq<Frame>, k: Keep, pend: multiset<nat>, st: State, owned: bool, r: Out)
  {
    match r.ctl
    case Normal(v) =>
      Soft(fs, k, pend + Pending(owned, v), st, r.st) && Alive(r.st.objs, v) && Grounded(fs, k, pend, r.st, v)
    case Brk(v) => Soft(fs, k, pend, st, r.st) && Alive(r.st.objs, v) && Grounded(fs, k, pend, r.st, v)
    case Cont => Soft(fs, k, pend, st, r.st)
    case Ret(v) => Covered(fs, Frame(map[], k.borrowed), pend + One(v), r.st.objs)
    case Bad => false
    case _ => true
  }

  lemma ReachedAlive(n: nat, fs: seq<Frame>, f: Frame, pend: multiset<nat>, objs: seq<Obj>, v: Value)
    requires Covered(fs, f, pend, objs) && Reached(n, fs, f, pend, objs, v)
    ensures Alive(objs, v)
  {
    if v.Ref? {
      if FrameOwners([f] + fs, v.a) + pend[v.a] > 0 {
        assert ([f] + fs)[1..] == fs;
        assert Owners(fs, f, pend, objs, v.a) > 0;
      } else {
        var w: Value, i: nat :| FieldIs(objs, w, i, v) && Reached(n - 1, fs, f, pend, objs, w);
        FieldAlive(fs, f, pend, objs, w, i);
      }
    }
  }

  lemma {:induction false} ReachedGrown(n: nat, fs: seq<Frame>, k: Keep, pend: multiset<nat>, st: State, st': State,
                                        v: Value)
    requires Reached(n, fs, Frame(st.env, k.borrowed), pend, st.objs, v) && Grown(st.objs, st'.objs)
             && SameFrame(k, st.env, st'.env)
    ensures Reached(n, fs, Frame(st'.env, k.borrowed), pend, st'.objs, v)
    decreases n
  {
    var f, f' := Frame(st.env, k.borrowed), Frame(st'.env, k.borrowed);
    if v.Ref? {
      SitesSame(k, st.env, st'.env, v.a);
      assert ([f] + fs)[1..] == fs && ([f'] + fs)[1..] == fs;
      if !(FrameOwners([f] + fs, v.a) + pend[v.a] > 0) {
        var w: Value, i: nat :| FieldIs(st.objs, w, i, v) && Reached(n - 1, fs, f, pend, st.objs, w);
        ReachedGrown(n - 1, fs, k, pend, st, st', w);
        assert FieldIs(st'.objs, w, i, v);
      }
    }
  }

  lemma SitesSame(k: Keep, env: Env, env': Env, a: nat)
    requires SameFrame(k, env, env')
    ensures LocalSites(Frame(env', k.borrowed), a) == LocalSites(Frame(env, k.borrowed), a)
  {
    forall x: LocalId
      ensures x in LocalSites(Frame(env', k.borrowed), a) <==> x in LocalSites(Frame(env, k.borrowed), a)
    {
      assert x !in k.borrowed ==> Get(env', x) == Get(env, x);
    }
  }

  lemma ReadyStays(fs: seq<Frame>, k: Keep, pend: multiset<nat>, more: multiset<nat>, st: State, st': State)
    requires Ready(fs, k, pend, st) && Soft(fs, k, more, st, st') && pend <= more
    ensures Ready(fs, k, pend, st') && Ready(fs, k, more, st')
  {
    Forget(fs, Frame(st'.env, k.borrowed), more, pend, st'.objs);
    hide Covered, Grown;
    forall x <- k.held
      ensures ReachedNow(fs, k, pend, st', Get(st'.env, x)) && ReachedNow(fs, k, more, st', Get(st'.env, x))
    {
      var n: nat :| Reached(n, fs, Frame(st.env, k.borrowed), pend, st.objs, Get(st.env, x));
      ReachedGrown(n, fs, k, pend, st, st', Get(st.env, x));
      ReachedMore(n, fs, Frame(st'.env, k.borrowed), pend, more, st'.objs, Get(st.env, x));
    }
  }

  lemma SoftRefl(fs: seq<Frame>, k: Keep, pend: multiset<nat>, st: State)
    requires Ready(fs, k, pend, st)
    ensures Soft(fs, k, pend, st, st)
  {
  }

  lemma SoftTrans(fs: seq<Frame>, k: Keep, pend: multiset<nat>, more: multiset<nat>, st: State, mid: State, end: State)
    requires Soft(fs, k, pend, st, mid) && Soft(fs, k, more, mid, end)
    ensures Soft(fs, k, more, st, end)
  {
    hide Covered;
  }

  /** A result counted against more pending references, from a state reached earlier. */
  lemma SoftFrom(fs: seq<Frame>, k: Keep, pend: multiset<nat>, more: multiset<nat>, st: State, mid: State, owned: bool,
                 r: Out, owned': bool)
    requires Soft(fs, k, pend, st, mid) && pend <= more && SoftPost(fs, k, more, mid, owned, r) && (owned' ==> owned)
    ensures SoftPost(fs, k, pend, st, owned', r)
  {
    hide Grounded;
    match r.ctl
    case Normal(v) =>
      assert pend + Pending(owned', v) <= more + Pending(owned, v);
      Forget(fs, Frame(r.st.env, k.borrowed), more + Pending(owned, v), pend + Pending(owned', v), r.st.objs);
      GroundedLess(fs, k, pend, more, r.st, v);
    case Brk(v) =>
      Forget(fs, Frame(r.st.env, k.borrowed), more, pend, r.st.objs);
      GroundedLess(fs, k, pend, more, r.st, v);
    case Cont => Forget(fs, Frame(r.st.env, k.borrowed), more, pend, r.st.objs);
    case Ret(v) => Forget(fs, Frame(map[], k.borrowed), more + One(v), pend + One(v), r.st.objs);
    case _ =>
  }

  /** After a step that yielded a value. */
  lemma SoftSettled(fs: seq<Frame>, k: Keep, pend: multiset<nat>, st: State, owned: bool, r: Out)
    requires Ready(fs, k, pend, st) && SoftPost(fs, k, pend, st, owned, r) && (r.ctl.Normal? || r.ctl.Cont?)
    ensures Soft(fs, k, pend, st, r.st) && Ready(fs, k, pend, r.st) && SoftPost(fs, k, pend, st, false, r)
  {
    hide Grounded, Reached;
    if r.ctl.Normal? {
      var more := pend + Pending(owned, r.ctl.v);
      Forget(fs, Frame(r.st.env, k.borrowed), more, pend, r.st.objs);
      assert pend + Pending(false, r.ctl.v) == pend;
      ReadyStays(fs, k, pend, more, st, r.st);
    } else {
      ReadyStays(fs, k, pend, pend, st, r.st);
    }
  }

  lemma SoftChain(fs: seq<Frame>, k: Keep, pend: multiset<nat>, st: State, mid: State, owned: bool, r: Out)
    requires Soft(fs, k, pend, st, mid) && SoftPost(fs, k, pend, mid, owned, r)
    ensures SoftPost(fs, k, pend, st, owned, r) && SoftPost(fs, k, pend, st, false, r)
  {
    hide Soft, SoftPost;
    SoftFrom(fs, k, pend, pend, st, mid, owned, r, owned);
    SoftFrom(fs, k, pend, pend, st, mid, owned, r, false);
  }

  lemma SoftBorrowed(fs: seq<Frame>, k: Keep, pend: multiset<nat>, st: State, owned: bool, r: Out)
    requires Ready(fs, k, pend, st) && SoftPost(fs, k, pend, st, owned, r)
    ensures SoftPost(fs, k, pend, st, false, r)
  {
    SoftRefl(fs, k, pend, st);
    hide Soft, SoftPost, Ready;
    SoftFrom(fs, k, pend, pend, st, st, owned, r, false);
  }

  lemma SoftValue(fs: seq<Frame>, k: Keep, pend: multiset<nat>, st: State, v: Value)
    requires Ready(fs, k, pend, st) && ReachedNow(fs, k, pend, st, v)
    ensures SoftPost(fs, k, pend, st, false, Out(Normal(v), st))
  {
    var n: nat :| Reached(n, fs, Frame(st.env, k.borrowed), pend, st.objs, v);
    ReachedAlive(n, fs, Frame(st.env, k.borrowed), pend, st.objs, v);
    assert pend + Pending(false, v) == pend && pend + multiset{} == pend;
    assert Reached(n, fs, Frame(st.env, k.borrowed), pend + multiset{}, st.objs, v);
  }

  lemma SoftScalar(fs: seq<Frame>, k: Keep, pend: multiset<nat>, st: State, v: Value)
    requires Ready(fs, k, pend, st) && !v.Ref?
    ensures SoftPost(fs, k, pend, st, false, Out(Normal(v), st))
  {
    assert Reached(0, fs, Frame(st.env, k.borrowed), pend, st.objs, v);
    SoftValue(fs, k, pend, st, v);
  }

  lemma SoftLocal(fs: seq<Frame>, k: Keep, pend: multiset<nat>, st: State, x: LocalId)
    requires Ready(fs, k, pend, st) && Readable(x, k)
    ensures ReachedNow(fs, k, pend, st, Get(st.env, x))
  {
    var v, f := Get(st.env, x), Frame(st.env, k.borrowed);
    if x !in k.borrowed {
      if v.Ref? {
        assert x in LocalSites(f, v.a) && ([f] + fs)[1..] == fs;
      }
      assert Reached(0, fs, f, pend, st.objs, v);
    }
  }

  /** Reading a field. */
  lemma SoftRead(fs: seq<Frame>, k: Keep, pend: multiset<nat>, st0: State, st: State, p: Value, idx: nat)
    requires Soft(fs, k, pend, st0, st) && Alive(st.objs, p) && Grounded(fs, k, pend, st, p)
    ensures var d := Deref(st.objs, p);
            !d.Dangling? && (d.Fields? && idx < |d.vs| ==>
                             SoftPost(fs, k, pend, st0, false, Out(Normal(d.vs[idx]), st)))
  {
    var d := Deref(st.objs, p);
    if d.Fields? && idx < |d.vs| {
      FieldAlive(fs, Frame(st.env, k.borrowed), pend, st.objs, p, idx);
      GroundedField(fs, k, pend, st, p, idx, d.vs[idx]);
      assert pend + Pending(false, d.vs[idx]) == pend;
    }
  }

  // -- runs ---------------------------------------------------------------------------------------

  ghost predicate SoftOk(k: Keep, o: seq<LocalId>, fs: seq<Frame>, pend: multiset<nat>, st: State)
  {
    ListOk(o, k.borrowed) && Ready(fs, k, pend, st)
  }

  lemma {:induction false} SoftEval(pr: Program, e: Expr, k: Keep, o: seq<LocalId>, fs: seq<Frame>, pend: multiset<nat>,
                                    st: State, fuel: nat)
    requires SoftOk(k, o, fs, pend, st) && Gentle(e) && Safe(e, k, o)
    ensures SoftPost(fs, k, pend, st, Owned(e), Eval(pr, e, o, st, fuel))
    decreases fuel, e, 1
  {
    hide Ready, Soft, ListOk, Grounded, ReachedNow;
    match e
    case Local(x) =>
      SoftLocal(fs, k, pend, st, x);
      SoftValue(fs, k, pend, st, Get(st.env, x));
    case Int(n) => SoftScalar(fs, k, pend, st, Num(n));
    case Null => SoftScalar(fs, k, pend, st, Nil);
    case Continue => SoftRefl(fs, k, pend, st);
    case Prim(_, _) => SoftPrim(pr, e, k, o, fs, pend, st, fuel);
    case Logic(_, _, _) => SoftLogic(pr, e, k, o, fs, pend, st, fuel);
    case Struct(_, _) => SoftStruct(pr, e, k, o, fs, pend, st, fuel);
    case Field(_, _) => SoftField(pr, e, k, o, fs, pend, st, fuel);
    case If(_, _, _) => SoftIf(pr, e, k, o, fs, pend, st, fuel);
    case Match(_, _) => SoftMatch(pr, e, k, o, fs, pend, st, fuel);
    case BlockExpr(b) =>
      SoftBlock(pr, b, k, o, fs, pend, st, fuel);
      SoftBorrowed(fs, k, pend, st, Owned(LastOf(b)), EvalBlock(pr, b, o, st, fuel));
    case Loop(_) => SoftLoop(pr, e, k, o, fs, pend, st, fuel);
    case While(_, _) => SoftWhile(pr, e, k, o, fs, pend, st, fuel);
    case Return(_) => SoftReturn(pr, e, k, o, fs, pend, st, fuel);
    case Break(_) => SoftBreak(pr, e, k, o, fs, pend, st, fuel);
  }

  lemma {:induction false} SoftPrim(pr: Program, e: Expr, k: Keep, o: seq<LocalId>, fs: seq<Frame>, pend: multiset<nat>,
                                    st: State, fuel: nat)
    requires SoftOk(k, o, fs, pend, st) && Gentle(e) && Safe(e, k, o) && e.Prim?
    ensures SoftPost(fs, k, pend, st, Owned(e), Eval(pr, e, o, st, fuel))
    decreases fuel, e, 0
  {
    hide Ready, Soft, ListOk, Grounded, ReachedNow;
    SoftArgs(pr, e.args, k, o, fs, pend, st, fuel);
    var r := EvalArgs(pr, e.args, o, st, fuel);
    if r.ctl.Normal? && pr.prim(e.op, r.vs).Some? {
      var v := Num(pr.prim(e.op, r.vs).value);
      SoftScalar(fs, k, pend, r.st, v);
      SoftChain(fs, k, pend, st, r.st, false, Out(Normal(v), r.st));
    }
  }

  lemma {:induction false} SoftLogic(pr: Program, e: Expr, k: Keep, o: seq<LocalId>, fs: seq<Frame>,
                                     pend: multiset<nat>, st: State, fuel: nat)
    requires SoftOk(k, o, fs, pend, st) && Gentle(e) && Safe(e, k, o) && e.Logic?
    ensures SoftPost(fs, k, pend, st, Owned(e), Eval(pr, e, o, st, fuel))
    decreases fuel, e, 0
  {
    hide Ready, Soft, ListOk, Grounded, ReachedNow;
    GentleOwn(e.left, o);
    SoftEval(pr, e.left, k, o, fs, pend, st, fuel);
    var r := Eval(pr, e.left, o, st, fuel);
    SoftBorrowed(fs, k, pend, st, Owned(e.left), r);
    if r.ctl.Normal? && Truthy(r.ctl.v) == e.isAnd {
      SoftSettled(fs, k, pend, st, Owned(e.left), r);
      SoftEval(pr, e.right, k, o, fs, pend, r.st, fuel);
      SoftChain(fs, k, pend, st, r.st, Owned(e.right), Eval(pr, e.right, o, r.st, fuel));
    }
  }

  lemma {:induction false} SoftStruct(pr: Program, e: Expr, k: Keep, o: seq<LocalId>, fs: seq<Frame>,
                                      pend: multiset<nat>, st: State, fuel: nat)
    requires SoftOk(k, o, fs, pend, st) && Gentle(e) && Safe(e, k, o) && e.Struct?
    ensures SoftPost(fs, k, pend, st, Owned(e), Eval(pr, e, o, st, fuel))
    decreases fuel, e, 0
  {
    hide Ready, Soft, ListOk, Grounded, ReachedNow;
    SoftFields(pr, e.fields, k, o, fs, pend, st, fuel);
    var r := EvalFields(pr, e.fields, o, st, fuel);
    if r.ctl.Normal? {
      SoftNew(fs, k, pend, st, r.st, r.vs, e.def in pr.counted);
    }
  }

  lemma SoftNew(fs: seq<Frame>, k: Keep, pend: multiset<nat>, st0: State, st: State, vs: seq<Value>, counted: bool)
    requires Soft(fs, k, pend + Refs(vs), st0, st)
    ensures var n, o := |st.objs|, if counted then Counted(1, vs) else Obj.Plain(vs);
            SoftPost(fs, k, pend, st0, true, Out(Normal(if counted then Ref(n) else Gc(n)), st.(objs := st.objs + [o])))
  {
    var n := |st.objs|;
    AllocCovers(fs, Frame(st.env, k.borrowed), pend, st.objs, vs, counted);
    var v := if counted then Ref(n) else Gc(n);
    assert pend + Pending(true, v) == pend + (if counted then multiset{n} else multiset{});
    GroundedOwned(fs, k, pend, st.(objs := st.objs + [if counted then Counted(1, vs) else Obj.Plain(vs)]), v);
  }

  lemma {:induction false} SoftField(pr: Program, e: Expr, k: Keep, o: seq<LocalId>, fs: seq<Frame>,
                                     pend: multiset<nat>, st: State, fuel: nat)
    requires SoftOk(k, o, fs, pend, st) && Gentle(e) && Safe(e, k, o) && e.Field?
    ensures SoftPost(fs, k, pend, st, Owned(e), Eval(pr, e, o, st, fuel))
    decreases fuel, e, 0
  {
    hide Ready, Soft, ListOk, Grounded, ReachedNow;
    SoftEval(pr, e.recv, k, o, fs, pend, st, fuel);
    var r := Eval(pr, e.recv, o, st, fuel);
    if r.ctl.Normal? {
      SoftSettled(fs, k, pend, st, Owned(e.recv), r);
      SoftRead(fs, k, pend, st, r.st, r.ctl.v, e.idx);
    }
  }

  lemma {:induction false} SoftIf(pr: Program, e: Expr, k: Keep, o: seq<LocalId>, fs: seq<Frame>, pend: multiset<nat>,
                                  st: State, fuel: nat)
    requires SoftOk(k, o, fs, pend, st) && Gentle(e) && Safe(e, k, o) && e.If?
    ensures SoftPost(fs, k, pend, st, Owned(e), Eval(pr, e, o, st, fuel))
    decreases fuel, e, 0
  {
    hide Ready, Soft, ListOk, Grounded, ReachedNow;
    GentleOwn(e.cond, o);
    GentleOwnBlock(e.thn, o);
    SoftEval(pr, e.cond, k, o, fs, pend, st, fuel);
    var r := Eval(pr, e.cond, o, st, fuel);
    if r.ctl.Normal? {
      SoftSettled(fs, k, pend, st, Owned(e.cond), r);
      if Truthy(r.ctl.v) {
        SoftBlock(pr, e.thn, k, o, fs, pend, r.st, fuel);
        SoftChain(fs, k, pend, st, r.st, Owned(LastOf(e.thn)), EvalBlock(pr, e.thn, o, r.st, fuel));
      } else {
        SoftEval(pr, e.els, k, o, fs, pend, r.st, fuel);
        SoftChain(fs, k, pend, st, r.st, Owned(e.els), Eval(pr, e.els, o, r.st, fuel));
      }
    }
  }

  lemma {:induction false} SoftMatch(pr: Program, e: Expr, k: Keep, o: seq<LocalId>, fs: seq<Frame>,
                                     pend: multiset<nat>, st: State, fuel: nat)
    requires SoftOk(k, o, fs, pend, st) && Gentle(e) && Safe(e, k, o) && e.Match?
    ensures SoftPost(fs, k, pend, st, Owned(e), Eval(pr, e, o, st, fuel))
    decreases fuel, e, 0
  {
    hide Ready, Soft, ListOk, ReachedNow, Covered, Reached;
    GentleOwn(e.scrut, o);
    SoftEval(pr, e.scrut, k, o, fs, pend, st, fuel);
    var r := Eval(pr, e.scrut, o, st, fuel);
    if r.ctl.Normal? {
      SoftSettled(fs, k, pend, st, Owned(e.scrut), r);
      var v := r.ctl.v;
      var leak: multiset<nat>, n: nat :|
        Covered(fs, Frame(r.st.env, k.borrowed), pend + leak, r.st.objs)
        && Reached(n, fs, Frame(r.st.env, k.borrowed), pend + leak, r.st.objs, v);
      LeakReady(fs, k, pend, leak, r.st, n, v);
      hide Grounded;
      SoftArms(pr, e.arms, e.scrut, v, k, o, fs, pend + leak, r.st, fuel);
      SoftFrom(fs, k, pend, pend + leak, st, r.st, false, EvalArms(pr, e.arms, v, o, r.st, fuel), false);
    }
  }

  /** References that nobody will release may be counted as pending. */
  lemma LeakReady(fs: seq<Frame>, k: Keep, pend: multiset<nat>, leak: multiset<nat>, st: State, n: nat, v: Value)
    requires Ready(fs, k, pend, st) && Covered(fs, Frame(st.env, k.borrowed), pend + leak, st.objs)
    requires Reached(n, fs, Frame(st.env, k.borrowed), pend + leak, st.objs, v)
    ensures Ready(fs, k, pend + leak, st) && ReachedNow(fs, k, pend + leak, st, v)
  {
    hide Covered;
    forall x <- k.held
      ensures ReachedNow(fs, k, pend + leak, st, Get(st.env, x))
    {
      var m: nat :| Reached(m, fs, Frame(st.env, k.borrowed), pend, st.objs, Get(st.env, x));
      ReachedMore(m, fs, Frame(st.env, k.borrowed), pend, pend + leak, st.objs, Get(st.env, x));
    }
  }

  /** Binding the scrutinee in an arm. */
  lemma SoftArmBind(fs: seq<Frame>, k: Keep, k1: Keep, pend: multiset<nat>, pat: Pattern, v: Value, o: seq<LocalId>,
                    st: State)
    requires Ready(fs, k, pend, st) && ReachedNow(fs, k, pend, st, v) && Tighter(k, k1) && KeepOk(k1) && !pat.Record?
    requires if pat.Bind? then pat.local in k.borrowed && pat.local !in k.held && k1.held == k.held + {pat.local}
             else k1 == k
    ensures var b := ArmBind(pat, v, o, st);
            b.ctl.Normal? ==>
              Ready(fs, k1, pend, b.st) && Soft(fs, k, pend, st, b.st) && ReachedNow(fs, k1, pend, b.st, v)
  {
    var b := ArmBind(pat, v, o, st);
    if pat.Bind? {
      BorrowCovers(fs, k.borrowed, pend, pat.local, v, st);
      hide Covered;
      forall x <- k1.held
        ensures ReachedNow(fs, k1, pend, b.st, Get(b.st.env, x))
      {
        var u := Get(b.st.env, x);
        var n: nat :| Reached(n, fs, Frame(st.env, k.borrowed), pend, st.objs, u);
        BorrowReached(n, fs, k.borrowed, pend, pat.local, v, st, u);
      }
      var n: nat :| Reached(n, fs, Frame(st.env, k.borrowed), pend, st.objs, v);
      BorrowReached(n, fs, k.borrowed, pend, pat.local, v, st, v);
    }
  }

  /** A run under a tighter keep, seen from the looser one. */
  lemma SoftLooser(fs: seq<Frame>, k: Keep, k1: Keep, pend: multiset<nat>, st: State, mid: State, owned: bool, r: Out)
    requires Tighter(k, k1) && Soft(fs, k, pend, st, mid) && SoftPost(fs, k1, pend, mid, owned, r)
    ensures SoftPost(fs, k, pend, st, false, r)
  {
    hide Covered, Reached;
    assert forall env, env' | SameFrame(k1, env, env') :: SameFrame(k, env, env');
    assert SoftPost(fs, k, pend, mid, owned, r);
    hide SoftPost, Soft, SameFrame;
    SoftFrom(fs, k, pend, pend, st, mid, owned, r, false);
  }

  lemma {:induction false} SoftArms(pr: Program, arms: Arms, sc: Expr, v: Value, k: Keep, o: seq<LocalId>,
                                    fs: seq<Frame>, pend: multiset<nat>, st: State, fuel: nat)
    requires SoftOk(k, o, fs, pend, st) && GentleArms(arms) && SafeArms(arms, sc, k, o)
             && ReachedNow(fs, k, pend, st, v)
    ensures SoftPost(fs, k, pend, st, false, EvalArms(pr, arms, v, o, st, fuel))
    decreases fuel, arms, 0
  {
    hide Ready, Soft, ListOk, Grounded, ReachedNow, Eval, EvalBlock;
    if arms.Arm? {
      GentleOwn(arms.guard, o);
      GentleOwn(arms.arm, o);
      ArmsRest(arms, sc, k, o);
      if !Matches(arms.pat, v) {
        SoftArms(pr, arms.rest, sc, v, k, o, fs, pend, st, fuel);
      } else {
        var k1, b := ArmKeep(arms, sc, k, o), ArmBind(arms.pat, v, o, st);
        ReadyKeep(fs, k, pend, st);
        ArmKeepIs(arms, sc, k, o);
        assert SafeBoth(arms, k1, o);
        SoftArmBind(fs, k, k1, pend, arms.pat, v, o, st);
        hide SafeArms, ArmKeep, ArmBind, SafeBoth;
        if b.ctl.Normal? {
          SoftGuarded(pr, arms, sc, v, k, k1, o, fs, pend, st, b.st, fuel);
        }
      }
    }
  }

  lemma ReadyKeep(fs: seq<Frame>, k: Keep, pend: multiset<nat>, st: State)
    requires Ready(fs, k, pend, st)
    ensures KeepOk(k)
  {
  }

  /** What an arm comes to once its pattern is bound. */
  function Guarded(pr: Program, arms: Arms, v: Value, o: seq<LocalId>, st: State, fuel: nat): Out
    requires arms.Arm?
  {
    var g := Eval(pr, arms.guard, o, st, fuel);
    if !g.ctl.Normal? then g
    else if Truthy(g.ctl.v) then Eval(pr, arms.arm, Own(arms.guard, o), g.st, fuel)
    else EvalArms(pr, arms.rest, v, Own(arms.arm, Own(arms.guard, o)), g.st, fuel)
  }

  lemma {:induction false} SoftGuarded(pr: Program, arms: Arms, sc: Expr, v: Value, k: Keep, k1: Keep, o: seq<LocalId>,
                                       fs: seq<Frame>, pend: multiset<nat>, st: State, mid: State, fuel: nat)
    requires SoftOk(k, o, fs, pend, st) && arms.Arm? && GentleArms(arms) && SafeArms(arms.rest, sc, k, o)
    requires Own(arms.guard, o) == o && Own(arms.arm, o) == o
    requires Tighter(k, k1) && Safe(arms.guard, k1, o) && Safe(arms.arm, k1, o)
    requires Ready(fs, k1, pend, mid) && Soft(fs, k, pend, st, mid) && ReachedNow(fs, k1, pend, mid, v)
    ensures SoftPost(fs, k, pend, st, false, Guarded(pr, arms, v, o, mid, fuel))
    decreases fuel, arms, -1
  {
    hide Ready, Soft, ListOk, Grounded, ReachedNow;
    SoftEval(pr, arms.guard, k1, o, fs, pend, mid, fuel);
    var g := Eval(pr, arms.guard, o, mid, fuel);
    if g.ctl.Normal? {
      SoftSettled(fs, k1, pend, mid, Owned(arms.guard), g);
      if Truthy(g.ctl.v) {
        SoftEval(pr, arms.arm, k1, o, fs, pend, g.st, fuel);
        var r := Eval(pr, arms.arm, o, g.st, fuel);
        SoftChain(fs, k1, pend, mid, g.st, Owned(arms.arm), r);
        SoftLooser(fs, k, k1, pend, st, mid, Owned(arms.arm), r);
      } else {
        LooseAgain(fs, k, k1, pend, st, mid, g.st, v);
        SoftArms(pr, arms.rest, sc, v, k, o, fs, pend, g.st, fuel);
        SoftChain(fs, k, pend, st, g.st, false, EvalArms(pr, arms.rest, v, o, g.st, fuel));
      }
    } else {
      SoftLooser(fs, k, k1, pend, st, mid, Owned(arms.guard), g);
    }
  }

  lemma LooseAgain(fs: seq<Frame>, k: Keep, k1: Keep, pend: multiset<nat>, st: State, mid: State, end: State, v: Value)
    requires Ready(fs, k, pend, st) && Tighter(k, k1) && Soft(fs, k, pend, st, mid) && Soft(fs, k1, pend, mid, end)
    requires ReachedNow(fs, k1, pend, mid, v)
    ensures Soft(fs, k, pend, st, end) && Ready(fs, k, pend, end) && ReachedNow(fs, k, pend, end, v)
  {
    hide Covered, Reached, Grown;
    assert SameFrame(k, mid.env, end.env);
    assert Soft(fs, k, pend, mid, end);
    SoftTrans(fs, k, pend, pend, st, mid, end);
    ReadyStays(fs, k, pend, pend, st, end);
    var n: nat :| Reached(n, fs, Frame(mid.env, k.borrowed), pend, mid.objs, v);
    ReachedGrown(n, fs, k, pend, mid, end, v);
  }

  lemma {:induction false} SoftLoop(pr: Program, e: Expr, k: Keep, o: seq<LocalId>, fs: seq<Frame>, pend: multiset<nat>,
                                    st: State, fuel: nat)
    requires SoftOk(k, o, fs, pend, st) && Gentle(e) && Safe(e, k, o) && e.Loop?
    ensures SoftPost(fs, k, pend, st, Owned(e), Eval(pr, e, o, st, fuel))
    decreases fuel, e, 0
  {
    hide Ready, Soft, ListOk, Grounded, ReachedNow;
    SoftBlock(pr, e.body, k, o, fs, pend, st, fuel);
    var r := EvalBlock(pr, e.body, o, st, fuel);
    if r.ctl.Brk? {
      assert pend + Pending(false, r.ctl.v) == pend;
    } else if r.ctl.Normal? || r.ctl.Cont? {
      SoftSettled(fs, k, pend, st, Owned(LastOf(e.body)), r);
      if fuel > 0 {
        SoftEval(pr, e, k, o, fs, pend, r.st, fuel - 1);
        SoftChain(fs, k, pend, st, r.st, false, Eval(pr, e, o, r.st, fuel - 1));
      }
    }
  }

  lemma SoftNil(fs: seq<Frame>, k: Keep, pend: multiset<nat>, st0: State, st: State)
    requires Soft(fs, k, pend, st0, st)
    ensures SoftPost(fs, k, pend, st0, false, Out(Normal(Nil), st))
  {
    assert pend + Pending(false, Nil) == pend;
    GroundedNow(fs, k, pend, st, Nil);
  }

  lemma {:induction false} SoftWhile(pr: Program, e: Expr, k: Keep, o: seq<LocalId>, fs: seq<Frame>,
                                     pend: multiset<nat>, st: State, fuel: nat)
    requires SoftOk(k, o, fs, pend, st) && Gentle(e) && Safe(e, k, o) && e.While?
    ensures SoftPost(fs, k, pend, st, Owned(e), Eval(pr, e, o, st, fuel))
    decreases fuel, e, 0
  {
    hide Ready, Soft, ListOk, Grounded, ReachedNow;
    GentleOwn(e.cond, o);
    SoftEval(pr, e.cond, k, o, fs, pend, st, fuel);
    var q := Eval(pr, e.cond, o, st, fuel);
    if q.ctl.Normal? {
      SoftSettled(fs, k, pend, st, Owned(e.cond), q);
      if !Truthy(q.ctl.v) {
        SoftNil(fs, k, pend, st, q.st);
      } else {
        SoftBlock(pr, e.body, k, o, fs, pend, q.st, fuel);
        var r := EvalBlock(pr, e.body, o, q.st, fuel);
        SoftChain(fs, k, pend, st, q.st, Owned(LastOf(e.body)), r);
        if r.ctl.Brk? {
          SoftNil(fs, k, pend, st, r.st);
        } else if r.ctl.Normal? || r.ctl.Cont? {
          SoftSettled(fs, k, pend, st, Owned(LastOf(e.body)), r);
          if fuel > 0 {
            SoftEval(pr, e, k, o, fs, pend, r.st, fuel - 1);
            SoftChain(fs, k, pend, st, r.st, false, Eval(pr, e, o, r.st, fuel - 1));
          }
        }
      }
    }
  }

  lemma {:induction false} SoftReturn(pr: Program, e: Expr, k: Keep, o: seq<LocalId>, fs: seq<Frame>,
                                      pend: multiset<nat>, st: State, fuel: nat)
    requires SoftOk(k, o, fs, pend, st) && Gentle(e) && Safe(e, k, o) && e.Return?
    ensures SoftPost(fs, k, pend, st, Owned(e), Eval(pr, e, o, st, fuel))
    decreases fuel, e, 0
  {
    hide Ready, Grounded, ReachedNow;
    GentleOwn(e.value, o);
    SoftEval(pr, e.value, k, o, fs, pend, st, fuel);
    var r := Eval(pr, e.value, o, st, fuel);
    if r.ctl.Normal? {
      LeaveCovers(fs, k, pend, Owned(e.value), r.ctl.v, o, r.st);
    }
  }

  lemma {:induction false} SoftBreak(pr: Program, e: Expr, k: Keep, o: seq<LocalId>, fs: seq<Frame>,
                                     pend: multiset<nat>, st: State, fuel: nat)
    requires SoftOk(k, o, fs, pend, st) && Gentle(e) && Safe(e, k, o) && e.Break?
    ensures SoftPost(fs, k, pend, st, Owned(e), Eval(pr, e, o, st, fuel))
    decreases fuel, e, 0
  {
    hide Ready, Soft, ListOk, Grounded, ReachedNow;
    SoftEval(pr, e.value, k, o, fs, pend, st, fuel);
    var r := Eval(pr, e.value, o, st, fuel);
    if r.ctl.Normal? {
      SoftSettled(fs, k, pend, st, Owned(e.value), r);
    }
  }

  lemma {:induction false} SoftArgs(pr: Program, es: Exprs, k: Keep, o: seq<LocalId>, fs: seq<Frame>,
                                    pend: multiset<nat>, st: State, fuel: nat)
    requires SoftOk(k, o, fs, pend, st) && GentleArgs(es) && SafeArgs(es, k, o)
    ensures var r := EvalArgs(pr, es, o, st, fuel);
            if r.ctl.Normal? then Soft(fs, k, pend, st, r.st) && Ready(fs, k, pend, r.st)
            else SoftPost(fs, k, pend, st, false, Out(r.ctl, r.st))
    decreases fuel, es, 0
  {
    hide Ready, Soft, ListOk, Grounded, ReachedNow;
    match es
    case ENil => SoftRefl(fs, k, pend, st);
    case ECons(head, tail) =>
      GentleOwn(head, o);
      SoftEval(pr, head, k, o, fs, pend, st, fuel);
      var r := Eval(pr, head, o, st, fuel);
      if r.ctl.Normal? {
        SoftSettled(fs, k, pend, st, Owned(head), r);
        SoftArgs(pr, tail, k, o, fs, pend, r.st, fuel);
        var t := EvalArgs(pr, tail, o, r.st, fuel);
        if t.ctl.Normal? {
          SoftTrans(fs, k, pend, pend, st, r.st, t.st);
        } else {
          SoftChain(fs, k, pend, st, r.st, false, Out(t.ctl, t.st));
        }
      } else {
        SoftBorrowed(fs, k, pend, st, Owned(head), r);
      }
  }

  /** Taking a value that is about to be stored. */
  lemma SoftTake(fs: seq<Frame>, k: Keep, pend: multiset<nat>, st: State, owned: bool, r: Out)
    requires Ready(fs, k, pend, st) && SoftPost(fs, k, pend, st, owned, r) && r.ctl.Normal?
    ensures var t := Take(owned, r.ctl.v, r.st);
            t.ctl == Normal(r.ctl.v) && Soft(fs, k, pend + One(r.ctl.v), st, t.st)
              && Ready(fs, k, pend + One(r.ctl.v), t.st)
  {
    TakeCovers(fs, Frame(r.st.env, k.borrowed), pend, owned, r.ctl.v, r.st);
    var t := Take(owned, r.ctl.v, r.st);
    TakeGrown(owned, r.ctl.v, r.st);
    hide Covered, Grounded, Take;
    assert Soft(fs, k, pend + One(r.ctl.v), st, t.st);
    ReadyStays(fs, k, pend, pend + One(r.ctl.v), st, t.st);
  }

  lemma TakeGrown(owned: bool, v: Value, st: State)
    ensures Grown(st.objs, Take(owned, v, st).st.objs)
  {
  }

  lemma {:induction false} SoftFields(pr: Program, es: Exprs, k: Keep, o: seq<LocalId>, fs: seq<Frame>,
                                      pend: multiset<nat>, st: State, fuel: nat)
    requires SoftOk(k, o, fs, pend, st) && GentleArgs(es) && SafeArgs(es, k, o)
    ensures var r := EvalFields(pr, es, o, st, fuel);
            if r.ctl.Normal? then Soft(fs, k, pend + Refs(r.vs), st, r.st)
            else SoftPost(fs, k, pend, st, false, Out(r.ctl, r.st))
    decreases fuel, es, 0
  {
    hide Ready, Soft, ListOk, Grounded, ReachedNow;
    match es
    case ENil =>
      assert pend + Refs([]) == pend;
      SoftRefl(fs, k, pend, st);
    case ECons(head, tail) =>
      GentleOwn(head, o);
      SoftEval(pr, head, k, o, fs, pend, st, fuel);
      var r := Eval(pr, head, o, st, fuel);
      if r.ctl.Normal? {
        var v := r.ctl.v;
        SoftTake(fs, k, pend, st, Owned(head), r);
        var t := Take(Owned(head), v, r.st);
        SoftFields(pr, tail, k, o, fs, pend + One(v), t.st, fuel);
        var q := EvalFields(pr, tail, o, t.st, fuel);
        if q.ctl.Normal? {
          assert pend + One(v) + Refs(q.vs) == pend + Refs([v] + q.vs) by { RefsPrepend(v, q.vs); }
          SoftTrans(fs, k, pend + One(v), pend + One(v) + Refs(q.vs), st, t.st, q.st);
        } else {
          SoftDrop(fs, k, pend, One(v), st, t.st, Out(q.ctl, q.st));
        }
      } else {
        SoftBorrowed(fs, k, pend, st, Owned(head), r);
      }
  }

  /** A literal given up half-way leaves its references behind. */
  lemma SoftDrop(fs: seq<Frame>, k: Keep, pend: multiset<nat>, more: multiset<nat>, st: State, mid: State, r: Out)
    requires Soft(fs, k, pend + more, st, mid) && SoftPost(fs, k, pend + more, mid, false, r)
    ensures SoftPost(fs, k, pend, st, false, r)
  {
    Forget(fs, Frame(mid.env, k.borrowed), pend + more, pend, mid.objs);
    hide Covered, SoftPost;
    SoftFrom(fs, k, pend, pend + more, st, mid, false, r, false);
  }

  lemma {:induction false} SoftStmt(pr: Program, s: Stmt, k: Keep, o: seq<LocalId>, fs: seq<Frame>, pend: multiset<nat>,
                                    st: State, fuel: nat)
    requires SoftOk(k, o, fs, pend, st) && GentleStmt(s) && SafeStmt(s, k, o)
    ensures SoftPost(fs, k, pend, st, false, EvalStmt(pr, s, o, st, fuel))
    decreases fuel, s, 1
  {
    hide Ready, Soft, ListOk, Grounded, ReachedNow;
    var e := match s case Let(_, init) => init case Assign(_, v) => v case ExprStmt(e) => e;
    SoftEval(pr, e, k, o, fs, pend, st, fuel);
    var r := Eval(pr, e, o, st, fuel);
    SoftBorrowed(fs, k, pend, st, Owned(e), r);
    if r.ctl.Normal? {
      SoftSettled(fs, k, pend, st, Owned(e), r);
      SoftNil(fs, k, pend, st, r.st);
    }
  }

  lemma {:induction false} SoftBlock(pr: Program, b: Block, k: Keep, o: seq<LocalId>, fs: seq<Frame>,
                                     pend: multiset<nat>, st: State, fuel: nat)
    requires SoftOk(k, o, fs, pend, st) && GentleBlock(b) && SafeBlock(b, k, o)
    ensures SoftPost(fs, k, pend, st, Owned(LastOf(b)), EvalBlock(pr, b, o, st, fuel))
    decreases fuel, b, 0
  {
    hide Ready, Soft, ListOk, Grounded, ReachedNow;
    match b
    case Tail(e) => SoftEval(pr, e, k, o, fs, pend, st, fuel);
    case Then(s, rest) =>
      GentleOwnStmt(s, o);
      SoftStmt(pr, s, k, o, fs, pend, st, fuel);
      var r := EvalStmt(pr, s, o, st, fuel);
      if r.ctl.Normal? {
        SoftSettled(fs, k, pend, st, false, r);
        SoftBlock(pr, rest, k, o, fs, pend, r.st, fuel);
        SoftChain(fs, k, pend, st, r.st, Owned(LastOf(b)), EvalBlock(pr, rest, o, r.st, fuel));
      }
  }
}
