/**
 What every point of a run keeps: counts cover owners, borrowed locals are kept by somebody,
 and every value at hand is reached from an owner; and what the single steps do to it.
 */
module ArcInv {
  import opened Hir
  import opened Scan
  import opened AsyncLayout
  import opened Arc
  import opened ArcLedger
  import opened ArcFragment

  // -- the invariant ------------------------------------------------------------------------------

  /** What a held local holds is owned further out, or by a local that has lent it. */
  predicate Held(fs: seq<Frame>, pend: multiset<nat>, k: Keep, env: Env)
  {
    forall x <- k.held :: Get(env, x).Ref? ==>
      FrameOwners(fs, Get(env, x).a) + pend[Get(env, x).a] > 0 || exists y <- k.lent :: Get(env, y) == Get(env, x)
  }

  /** Held locals and lenders are left alone. */
  predicate SameParams(k: Keep, env: Env, env': Env)
  {
    forall x <- k.held + k.lent :: Get(env', x) == Get(env, x)
  }

  ghost predicate Inv(fs: seq<Frame>, k: Keep, pend: multiset<nat>, st: State)
  {
    KeepOk(k) && Covered(fs, Frame(st.env, k.borrowed), pend, st.objs) && Held(fs, pend, k, st.env)
  }

  function Pending(owned: bool, v: Value): multiset<nat>
  {
    if owned then One(v) else multiset{}
  }

  /** `v` is no reference, has an owner outside the heap, or is a field of such an object
      or of one so reached in `n` steps. */
  ghost predicate Reached(n: nat, fs: seq<Frame>, f: Frame, pend: multiset<nat>, objs: seq<Obj>, v: Value)
  {
    v.Ref? ==>
      || FrameOwners([f] + fs, v.a) + pend[v.a] > 0
      || (n > 0 && exists w: Value, i: nat :: FieldIs(objs, w, i, v) && Reached(n - 1, fs, f, pend, objs, w))
  }

  predicate FieldIs(objs: seq<Obj>, w: Value, i: nat, v: Value)
  {
    Deref(objs, w).Fields? && i < |Deref(objs, w).vs| && Deref(objs, w).vs[i] == v
  }

  /** `v` is reached from an owner that counts cover; `leak` are references that code
      generation has lost sight of and that nobody will release. */
  ghost predicate Grounded(fs: seq<Frame>, k: Keep, pend: multiset<nat>, st: State, v: Value)
  {
    exists leak: multiset<nat>, n: nat ::
      Covered(fs, Frame(st.env, k.borrowed), pend + leak, st.objs)
        && Reached(n, fs, Frame(st.env, k.borrowed), pend + leak, st.objs, v)
  }

  /** What a run leaves behind; `Bad` never happens. */
  ghost predicate Post(fs: seq<Frame>, k: Keep, pend: multiset<nat>, st: State, owned: bool, r: Out)
  {
    match r.ctl
    case Normal(v) =>
      && Inv(fs, k, pend + Pending(owned, v), r.st) && Alive(r.st.objs, v) && SameParams(k, st.env, r.st.env)
      && Grounded(fs, k, pend, r.st, v)
    case Brk(v) =>
      && Inv(fs, k, pend, r.st) && Alive(r.st.objs, v) && SameParams(k, st.env, r.st.env)
      && Grounded(fs, k, pend, r.st, v)
    case Cont => Inv(fs, k, pend, r.st) && SameParams(k, st.env, r.st.env)
    case Ret(v) => Covered(fs, Frame(map[], k.borrowed), pend + One(v), r.st.objs)
    case Bad => false
    case _ => true
  }

  lemma HeldStays(fs: seq<Frame>, pend: multiset<nat>, more: multiset<nat>, k: Keep, env: Env, env': Env)
    requires Held(fs, pend, k, env) && SameParams(k, env, env') && pend <= more
    ensures Held(fs, more, k, env')
  {
    forall x <- k.held | Get(env', x).Ref?
      ensures || FrameOwners(fs, Get(env', x).a) + more[Get(env', x).a] > 0
              || exists y <- k.lent :: Get(env', y) == Get(env', x)
    {
      assert pend[Get(env, x).a] <= more[Get(env, x).a];
      if FrameOwners(fs, Get(env, x).a) + pend[Get(env, x).a] == 0 {
        var y :| y in k.lent && Get(env, y) == Get(env, x);
        assert Get(env', y) == Get(env', x);
      }
    }
  }

  lemma InvForget(fs: seq<Frame>, k: Keep, pend: multiset<nat>, less: multiset<nat>, st: State, st0: State)
    requires Covered(fs, Frame(st.env, k.borrowed), pend, st.objs) && less <= pend
    requires KeepOk(k) && Held(fs, less, k, st0.env) && SameParams(k, st0.env, st.env)
    ensures Inv(fs, k, less, st)
  {
    Forget(fs, Frame(st.env, k.borrowed), pend, less, st.objs);
    HeldStays(fs, less, less, k, st0.env, st.env);
  }

  lemma GroundedLess(fs: seq<Frame>, k: Keep, pend: multiset<nat>, more: multiset<nat>, st: State, v: Value)
    requires Grounded(fs, k, more, st, v) && pend <= more
    ensures Grounded(fs, k, pend, st, v)
  {
    hide Covered, Reached;
    var leak: multiset<nat>, n: nat :|
      Covered(fs, Frame(st.env, k.borrowed), more + leak, st.objs)
        && Reached(n, fs, Frame(st.env, k.borrowed), more + leak, st.objs, v);
    assert pend + (more - pend + leak) == more + leak;
  }

  /** A value with an owner outside the heap, or none at all. */
  lemma GroundedNow(fs: seq<Frame>, k: Keep, pend: multiset<nat>, st: State, v: Value)
    requires Covered(fs, Frame(st.env, k.borrowed), pend, st.objs)
    requires v.Ref? ==> FrameOwners([Frame(st.env, k.borrowed)] + fs, v.a) + pend[v.a] > 0
    ensures Grounded(fs, k, pend, st, v)
  {
    hide Covered;
    assert pend + multiset{} == pend;
    assert Reached(0, fs, Frame(st.env, k.borrowed), pend + multiset{}, st.objs, v);
  }

  /** A value with a reference of its own. */
  lemma GroundedOwned(fs: seq<Frame>, k: Keep, pend: multiset<nat>, st: State, v: Value)
    requires Covered(fs, Frame(st.env, k.borrowed), pend + One(v), st.objs)
    ensures Grounded(fs, k, pend, st, v)
  {
    hide Covered;
    assert v.Ref? ==> One(v)[v.a] == 1;
    GroundedNow(fs, k, pend + One(v), st, v);
    GroundedLess(fs, k, pend, pend + One(v), st, v);
  }

  lemma GroundedField(fs: seq<Frame>, k: Keep, pend: multiset<nat>, st: State, w: Value, i: nat, v: Value)
    requires Grounded(fs, k, pend, st, w) && FieldIs(st.objs, w, i, v)
    ensures Grounded(fs, k, pend, st, v)
  {
    hide Covered;
    var leak: multiset<nat>, n: nat :|
      Covered(fs, Frame(st.env, k.borrowed), pend + leak, st.objs)
        && Reached(n, fs, Frame(st.env, k.borrowed), pend + leak, st.objs, w);
    assert Reached(n + 1, fs, Frame(st.env, k.borrowed), pend + leak, st.objs, v);
  }

  /** A result counted against more pending references, from a state reached earlier. */
  lemma PostFrom(fs: seq<Frame>, k: Keep, pend: multiset<nat>, more: multiset<nat>, st: State, mid: State, owned: bool,
                 r: Out, owned': bool)
    requires Inv(fs, k, pend, st) && SameParams(k, st.env, mid.env) && pend <= more && Post(fs, k, more, mid, owned, r)
    requires owned' ==> owned
    ensures Post(fs, k, pend, st, owned', r)
  {
    hide Grounded;
    match r.ctl
    case Normal(v) =>
      assert pend + Pending(owned', v) <= more + Pending(owned, v);
      HeldStays(fs, pend, pend + Pending(owned', v), k, st.env, st.env);
      InvForget(fs, k, more + Pending(owned, v), pend + Pending(owned', v), r.st, st);
      GroundedLess(fs, k, pend, more, r.st, v);
    case Brk(v) =>
      InvForget(fs, k, more, pend, r.st, st);
      GroundedLess(fs, k, pend, more, r.st, v);
    case Cont => InvForget(fs, k, more, pend, r.st, st);
    case Ret(v) => Forget(fs, Frame(map[], k.borrowed), more + One(v), pend + One(v), r.st.objs);
    case _ =>
  }

  lemma PostValue(fs: seq<Frame>, k: Keep, pend: multiset<nat>, st: State, v: Value)
    requires Inv(fs, k, pend, st) && Alive(st.objs, v) && Grounded(fs, k, pend, st, v)
    ensures Post(fs, k, pend, st, false, Out(Normal(v), st))
  {
    assert pend + Pending(false, v) == pend;
  }

  // -- values that can be trusted ---------------------------------------------------------------------

  lemma LocalOwned(fs: seq<Frame>, k: Keep, pend: multiset<nat>, st: State, x: LocalId)
    requires Inv(fs, k, pend, st) && Readable(x, k)
    ensures var v := Get(st.env, x);
            v.Ref? ==> FrameOwners([Frame(st.env, k.borrowed)] + fs, v.a) + pend[v.a] > 0 && Live(st.objs, v.a)
  {
    var v, f := Get(st.env, x), Frame(st.env, k.borrowed);
    if v.Ref? {
      assert ([f] + fs)[1..] == fs;
      if x !in k.borrowed {
        assert x in LocalSites(f, v.a);
      } else if FrameOwners(fs, v.a) + pend[v.a] == 0 {
        var y :| y in k.lent && Get(st.env, y) == v;
        assert y in LocalSites(f, v.a);
      }
      assert Owners(fs, f, pend, st.objs, v.a) > 0;
    }
  }

  lemma FieldAlive(fs: seq<Frame>, f: Frame, pend: multiset<nat>, objs: seq<Obj>, p: Value, idx: nat)
    requires Covered(fs, f, pend, objs) && Deref(objs, p).Fields? && idx < |Deref(objs, p).vs|
    ensures Alive(objs, Deref(objs, p).vs[idx])
  {
    var a, v := if p.Ref? then p.a else p.g, Deref(objs, p).vs[idx];
    if v.Ref? {
      FieldOwns(objs, a, v.a);
      RefsAt(objs[a].fields, idx);
      assert multiset{v.a}[v.a] == 1;
      assert Owners(fs, f, pend, objs, v.a) > 0;
    }
  }

  lemma NotDangling(objs: seq<Obj>, v: Value)
    requires Alive(objs, v)
    ensures !Deref(objs, v).Dangling?
  {
  }

  lemma LocalAlive(fs: seq<Frame>, k: Keep, pend: multiset<nat>, st: State, x: LocalId)
    requires Inv(fs, k, pend, st) && Readable(x, k)
    ensures Alive(st.objs, Get(st.env, x)) && Grounded(fs, k, pend, st, Get(st.env, x))
  {
    LocalOwned(fs, k, pend, st, x);
    GroundedNow(fs, k, pend, st, Get(st.env, x));
  }

  lemma PendAlive(fs: seq<Frame>, f: Frame, pend: multiset<nat>, objs: seq<Obj>, v: Value)
    requires Covered(fs, f, pend, objs) && One(v) <= pend
    ensures Alive(objs, v)
  {
    if v.Ref? {
      assert v.a in multiset{v.a};
      assert Owners(fs, f, pend, objs, v.a) > 0;
    }
  }

  // -- the steps ------------------------------------------------------------------------------------------

  lemma SameRefl(k: Keep, env: Env)
    ensures SameParams(k, env, env)
  {
  }

  lemma SameTrans(k: Keep, a: Env, b: Env, c: Env)
    requires SameParams(k, a, b) && SameParams(k, b, c)
    ensures SameParams(k, a, c)
  {
  }

  /** After a step that yielded a value, with the value's own reference forgotten. */
  lemma Settled(fs: seq<Frame>, k: Keep, pend: multiset<nat>, st: State, owned: bool, r: Out)
    requires Inv(fs, k, pend, st) && Post(fs, k, pend, st, owned, r) && (r.ctl.Normal? || r.ctl.Cont?)
    ensures Inv(fs, k, pend, r.st) && SameParams(k, st.env, r.st.env) && Post(fs, k, pend, st, false, r)
    ensures r.ctl.Normal? ==> Held(fs, pend, k, r.st.env)
  {
    if r.ctl.Normal? {
      PostFrom(fs, k, pend, pend, st, st, owned, r, false);
      assert pend + Pending(false, r.ctl.v) == pend;
    }
  }

  lemma Chain(fs: seq<Frame>, k: Keep, pend: multiset<nat>, st: State, mid: State, owned: bool, r: Out)
    requires Inv(fs, k, pend, st) && SameParams(k, st.env, mid.env) && Post(fs, k, pend, mid, owned, r)
    ensures Post(fs, k, pend, st, owned, r)
  {
    PostFrom(fs, k, pend, pend, st, mid, owned, r, owned);
  }

  lemma Borrowed(fs: seq<Frame>, k: Keep, pend: multiset<nat>, st: State, owned: bool, r: Out)
    requires Inv(fs, k, pend, st) && Post(fs, k, pend, st, owned, r)
    ensures Post(fs, k, pend, st, false, r)
  {
    PostFrom(fs, k, pend, pend, st, st, owned, r, false);
  }

  lemma PostScalar(fs: seq<Frame>, k: Keep, pend: multiset<nat>, st: State, v: Value)
    requires Inv(fs, k, pend, st) && !v.Ref?
    ensures Post(fs, k, pend, st, false, Out(Normal(v), st))
  {
    GroundedNow(fs, k, pend, st, v);
    PostValue(fs, k, pend, st, v);
  }

  lemma NilPost(fs: seq<Frame>, k: Keep, pend: multiset<nat>, st0: State, st: State)
    requires Inv(fs, k, pend, st) && SameParams(k, st0.env, st.env)
    ensures Post(fs, k, pend, st0, false, Out(Normal(Nil), st))
  {
    assert pend + Pending(false, Nil) == pend;
    GroundedNow(fs, k, pend, st, Nil);
  }

  lemma ContinueSafe(fs: seq<Frame>, k: Keep, pend: multiset<nat>, st: State)
    requires Inv(fs, k, pend, st)
    ensures Post(fs, k, pend, st, false, Out(Cont, st))
  {
  }

  /** A loop's value is a borrow, whatever `break` gave it. */
  lemma BreakValue(fs: seq<Frame>, k: Keep, pend: multiset<nat>, st: State, r: Out, v: Value)
    requires Inv(fs, k, pend, st) && Post(fs, k, pend, st, false, r) && r.ctl.Brk? && (v == r.ctl.v || v == Nil)
    ensures Post(fs, k, pend, st, false, Out(Normal(v), r.st))
  {
    if v == Nil {
      PostScalar(fs, k, pend, r.st, v);
    } else {
      PostValue(fs, k, pend, r.st, v);
    }
  }

  lemma TakeCovers(fs: seq<Frame>, f: Frame, pend: multiset<nat>, owned: bool, v: Value, st: State)
    requires Covered(fs, f, pend + Pending(owned, v), st.objs) && Alive(st.objs, v)
    ensures var t := Take(owned, v, st);
            t.ctl == Normal(v) && t.st.env == st.env && Covered(fs, f, pend + One(v), t.st.objs)
  {
    if !owned {
      assert pend + Pending(owned, v) == pend;
      RetainCovers(fs, f, pend, st.objs, v);
    }
  }

  lemma TakeSafe(fs: seq<Frame>, k: Keep, pend: multiset<nat>, owned: bool, v: Value, st: State)
    requires Inv(fs, k, pend + Pending(owned, v), st) && Held(fs, pend, k, st.env) && Alive(st.objs, v)
    ensures var t := Take(owned, v, st);
            && t.ctl == Normal(v) && t.st.env == st.env && Inv(fs, k, pend + One(v), t.st)
            && (forall w | Alive(st.objs, w) :: Alive(t.st.objs, w))
            && (!owned ==> Retain(st.objs, v) == Some(t.st.objs))
  {
    if !owned {
      assert pend + Pending(owned, v) == pend;
      RetainCovers(fs, Frame(st.env, k.borrowed), pend, st.objs, v);
    }
    HeldStays(fs, pend, pend + One(v), k, st.env, st.env);
  }

  /** Write a local that is not a parameter and release what it held. */
  lemma SetSafe(fs: seq<Frame>, k: Keep, pend: multiset<nat>, x: LocalId, v: Value, st: State)
    requires Inv(fs, k, pend + One(v), st) && Held(fs, pend, k, st.env) && Free(x, k)
    ensures var r := Release(st.objs, Get(st.env, x)); r.Some? && Inv(fs, k, pend, State(st.env[x := v], r.value))
    ensures Inv(fs, k, pend, State(st.env[x := v], st.objs))
    ensures SameParams(k, st.env, st.env[x := v])
  {
    var f, was := Frame(st.env, k.borrowed), Get(st.env, x);
    SetCovers(fs, f, pend, st.objs, x, v);
    assert f.(env := f.env[x := v]) == Frame(st.env[x := v], k.borrowed);
    ReleaseCovers(fs, Frame(st.env[x := v], k.borrowed), pend, st.objs, was);
    Forget(fs, Frame(st.env[x := v], k.borrowed), pend + One(was), pend, st.objs);
  }

  lemma BindSafe(fs: seq<Frame>, k: Keep, pend: multiset<nat>, x: LocalId, v: Value, owned: bool, o: seq<LocalId>,
                 st: State)
    requires Inv(fs, k, pend + Pending(owned, v), st) && Held(fs, pend, k, st.env) && Alive(st.objs, v) && Free(x, k)
    ensures Post(fs, k, pend, st, false, BindLocal(x, v, owned, o, st)) && BindLocal(x, v, owned, o, st).ctl.Normal?
  {
    TakeSafe(fs, k, pend, owned, v, st);
    var t := Take(owned, v, st);
    SetSafe(fs, k, pend, x, v, t.st);
    hide Inv, Held, Alive, Retain, Release;
    var r := BindLocal(x, v, owned, o, st);
    NilPost(fs, k, pend, st, r.st);
  }

  /** Leaving the frame: the result keeps a reference, the owned locals give up theirs. */
  lemma LeaveCovers(fs: seq<Frame>, k: Keep, pend: multiset<nat>, owned: bool, v: Value, o: seq<LocalId>, st: State)
    requires Covered(fs, Frame(st.env, k.borrowed), pend + Pending(owned, v), st.objs) && Alive(st.objs, v)
             && ListOk(o, k.borrowed)
    ensures var r := Leave(owned, v, o, st);
            r.ctl == Ret(v) && Covered(fs, Frame(map[], k.borrowed), pend + One(v), r.st.objs)
  {
    var f, f' := Frame(st.env, k.borrowed), Frame(map[], k.borrowed);
    TakeCovers(fs, f, pend, owned, v, st);
    var t := Take(owned, v, st);
    EndCovers(fs, f, pend + One(v), t.st.objs, o, f');
    ReleaseAllCovers(fs, f', pend + One(v), t.st.objs, ValuesOf(t.st.env, o));
    ReleaseLocalsIs(o, t.st);
  }

  lemma LeaveSafe(fs: seq<Frame>, k: Keep, pend: multiset<nat>, st0: State, owned: bool, v: Value, o: seq<LocalId>,
                  st: State)
    requires Inv(fs, k, pend + Pending(owned, v), st) && Alive(st.objs, v) && ListOk(o, k.borrowed)
    ensures Post(fs, k, pend, st0, false, Leave(owned, v, o, st)) && Leave(owned, v, o, st).ctl == Ret(v)
  {
    LeaveCovers(fs, k, pend, owned, v, o, st);
  }

  lemma NewSafe(fs: seq<Frame>, k: Keep, pend: multiset<nat>, st0: State, st: State, vs: seq<Value>, counted: bool)
    requires Inv(fs, k, pend, st0) && SameParams(k, st0.env, st.env) && Inv(fs, k, pend + Refs(vs), st)
    ensures var n, o := |st.objs|, if counted then Counted(1, vs) else Obj.Plain(vs);
            Post(fs, k, pend, st0, true, Out(Normal(if counted then Ref(n) else Gc(n)), st.(objs := st.objs + [o])))
  {
    var n := |st.objs|;
    AllocCovers(fs, Frame(st.env, k.borrowed), pend, st.objs, vs, counted);
    var v := if counted then Ref(n) else Gc(n);
    assert pend + Pending(true, v) == pend + (if counted then multiset{n} else multiset{});
    HeldStays(fs, pend, pend + Pending(true, v), k, st0.env, st.env);
    GroundedOwned(fs, k, pend, st.(objs := st.objs + [if counted then Counted(1, vs) else Obj.Plain(vs)]), v);
  }

  lemma ReadSafe(fs: seq<Frame>, k: Keep, pend: multiset<nat>, st0: State, st: State, p: Value, idx: nat)
    requires Inv(fs, k, pend, st0) && Inv(fs, k, pend, st) && SameParams(k, st0.env, st.env)
    requires Alive(st.objs, p) && Grounded(fs, k, pend, st, p)
    ensures var d := Deref(st.objs, p);
            !d.Dangling? && (d.Fields? && idx < |d.vs| ==> Post(fs, k, pend, st0, false, Out(Normal(d.vs[idx]), st)))
  {
    var d := Deref(st.objs, p);
    if d.Fields? && idx < |d.vs| {
      FieldAlive(fs, Frame(st.env, k.borrowed), pend, st.objs, p, idx);
      GroundedField(fs, k, pend, st, p, idx, d.vs[idx]);
      PostValue(fs, k, pend, st, d.vs[idx]);
    }
  }

  /** A discarded owned temporary is released. */
  lemma DropSafe(fs: seq<Frame>, k: Keep, pend: multiset<nat>, st0: State, v: Value, st: State)
    requires Inv(fs, k, pend, st0) && SameParams(k, st0.env, st.env) && Inv(fs, k, pend + Pending(true, v), st)
    ensures Post(fs, k, pend, st0, false, Lift(Release(st.objs, v), Normal(Nil), st))
  {
    ReleaseCovers(fs, Frame(st.env, k.borrowed), pend, st.objs, v);
    HeldStays(fs, pend, pend, k, st0.env, st.env);
    NilPost(fs, k, pend, st0, st.(objs := Release(st.objs, v).value));
  }

  /** A list takes a reference of its own for each item pushed. */
  lemma AppendSafe(fs: seq<Frame>, k: Keep, pend: multiset<nat>, p: Value, v: Value, st: State)
    requires Inv(fs, k, pend, st) && Alive(st.objs, v)
    ensures Post(fs, k, pend, st, false, AppendTo(p, v, st))
  {
    if ListAt(st.objs, p).Some? {
      assert pend + Pending(false, v) == pend;
      TakeSafe(fs, k, pend, false, v, st);
      var objs := Retain(st.objs, v).value;
      assert objs[p.g] == st.objs[p.g];
      PushCovers(fs, Frame(st.env, k.borrowed), pend, objs, p.g, v);
      SameRefl(k, st.env);
      hide Covered, Held, Retain;
      NilPost(fs, k, pend, st, AppendTo(p, v, st).st);
    }
  }

  // -- calls ----------------------------------------------------------------------------------------------

  lemma RefsPrepend(v: Value, vs: seq<Value>)
    ensures Refs([v] + vs) == One(v) + Refs(vs)
  {
    assert ([v] + vs)[1..] == vs;
  }

  predicate ArgsHeld(fs: seq<Frame>, pend: multiset<nat>, vs: seq<Value>)
  {
    forall i | 0 <= i < |vs| :: vs[i].Ref? ==> FrameOwners(fs, vs[i].a) + pend[vs[i].a] > 0
  }

  lemma {:induction false} BindingsFrom(env: Env, xs: seq<LocalId>, vs: seq<Value>, x: LocalId)
    requires |xs| == |vs|
    ensures Bindings(env, xs, vs).Keys == env.Keys + (set y | y in xs)
    ensures Get(Bindings(env, xs, vs), x) in vs || Get(Bindings(env, xs, vs), x) == Get(env, x)
    decreases xs
  {
    if xs != [] {
      BindingsFrom(env[xs[0] := vs[0]], xs[1..], vs[1..], x);
    }
  }

  /** The keep a function starts with: its parameters are held by the caller. */
  function Entry(f: Func, borrowed: set<LocalId>): Keep
  {
    Keep(borrowed, Elems(f.params), {})
  }

  lemma EnterSafe(fs: seq<Frame>, k: Keep, pend: multiset<nat>, st: State, f: Func, borrowed: set<LocalId>,
                  vs: seq<Value>)
    requires Inv(fs, k, pend, st) && |f.params| == |vs| && ArgsHeld([Frame(st.env, k.borrowed)] + fs, pend, vs)
    requires Elems(f.params) <= borrowed
    ensures Inv([Frame(st.env, k.borrowed)] + fs, Entry(f, borrowed), pend, st.(env := Bindings(map[], f.params, vs)))
  {
    var g, env := Frame(st.env, k.borrowed), Bindings(map[], f.params, vs);
    BindingsFrom(map[], f.params, vs, 0);
    EnterCovers(fs, g, pend, st.objs, Frame(env, borrowed));
    forall x <- Elems(f.params) | Get(env, x).Ref?
      ensures FrameOwners([g] + fs, Get(env, x).a) + pend[Get(env, x).a] > 0
    {
      BindingsFrom(map[], f.params, vs, x);
    }
  }

  lemma BackSafe(fs: seq<Frame>, k: Keep, pend: multiset<nat>, st: State, g: Frame, v: Value, objs: seq<Obj>)
    requires Inv(fs, k, pend, st) && Covered([Frame(st.env, k.borrowed)] + fs, g, pend + One(v), objs)
    ensures Post(fs, k, pend, st, true, Out(Normal(v), State(st.env, objs)))
  {
    ReturnCovers(fs, Frame(st.env, k.borrowed), pend + One(v), objs, g);
    HeldStays(fs, pend, pend + One(v), k, st.env, st.env);
    if v.Ref? {
      assert (pend + One(v))[v.a] > 0;
      assert Owners(fs, Frame(st.env, k.borrowed), pend + One(v), objs, v.a) > 0;
    }
    GroundedOwned(fs, k, pend, State(st.env, objs), v);
  }

  // -- stores -----------------------------------------------------------------------------------------------

  function SetField(objs: seq<Obj>, a: nat, i: nat, v: Value): seq<Obj>
    requires a < |objs| && !objs[a].Freed? && i < |objs[a].fields|
  {
    objs[a := objs[a].(fields := objs[a].fields[i := v])]
  }

  /** Writing a field of an object that survives and releasing a value commute. */
  lemma {:induction false} ReleaseCommutes(objs: seq<Obj>, a: nat, i: nat, v: Value, w: Value)
    requires a < |objs| && !objs[a].Freed? && i < |objs[a].fields|
    requires var r := Release(SetField(objs, a, i, v), w);
             r.Some? && !r.value[a].Freed? && Shrunk(SetField(objs, a, i, v), r.value)
    ensures var q := Release(objs, w);
            && q.Some? && !q.value[a].Freed? && i < |q.value[a].fields|
               && SetField(q.value, a, i, v) == Release(SetField(objs, a, i, v), w).value
    decreases LiveObjs(objs), 0, 0
  {
    var objs' := SetField(objs, a, i, v);
    if w.Ref? {
      var b := w.a;
      assert objs'[b].Counted? && objs[b].Counted? && objs[b].count == objs'[b].count;
      if objs[b].count > 1 {
        assert SetField(objs[b := objs[b].(count := objs[b].count - 1)], a, i, v)
               == objs'[b := objs'[b].(count := objs'[b].count - 1)];
      } else {
        var vs := objs'[b].fields;
        ReleaseAllShrinks(objs'[b := Freed], vs);
        assert b != a;
        assert SetField(objs[b := Freed], a, i, v) == objs'[b := Freed];
        LiveUpdate(objs, b, Freed);
        ReleaseAllCommutes(objs[b := Freed], a, i, v, vs);
      }
    }
  }

  lemma {:induction false} ReleaseAllCommutes(objs: seq<Obj>, a: nat, i: nat, v: Value, ws: seq<Value>)
    requires a < |objs| && !objs[a].Freed? && i < |objs[a].fields|
    requires var r := ReleaseAll(SetField(objs, a, i, v), ws); r.Some? && !r.value[a].Freed?
    ensures var q := ReleaseAll(objs, ws);
            && q.Some? && !q.value[a].Freed? && i < |q.value[a].fields|
               && SetField(q.value, a, i, v) == ReleaseAll(SetField(objs, a, i, v), ws).value
    decreases LiveObjs(objs), 1, |ws|
  {
    if ws != [] {
      var objs' := SetField(objs, a, i, v);
      var r1 := Release(objs', ws[0]).value;
      ReleaseShrinks(objs', ws[0]);
      ReleaseAllShrinks(r1, ws[1..]);
      ReleaseCommutes(objs, a, i, v, ws[0]);
      var q1 := Release(objs, ws[0]).value;
      ReleaseAllCommutes(q1, a, i, v, ws[1..]);
    }
  }

  lemma {:induction false} ReleaseShrinks(objs: seq<Obj>, v: Value)
    requires Release(objs, v).Some?
    ensures Shrunk(objs, Release(objs, v).value)
    decreases LiveObjs(objs), 0, 0
  {
    if v.Ref? {
      var o := objs[v.a];
      if o.count > 1 {
        ShrunkOne(objs, v.a, o.(count := o.count - 1));
      } else {
        LiveUpdate(objs, v.a, Freed);
        ShrunkOne(objs, v.a, Freed);
        ReleaseAllShrinks(objs[v.a := Freed], o.fields);
        ShrunkTrans(objs, objs[v.a := Freed], Release(objs, v).value);
      }
    }
  }

  lemma {:induction false} ReleaseAllShrinks(objs: seq<Obj>, vs: seq<Value>)
    requires ReleaseAll(objs, vs).Some?
    ensures Shrunk(objs, ReleaseAll(objs, vs).value)
    decreases LiveObjs(objs), 1, |vs|
  {
    if vs != [] {
      ReleaseShrinks(objs, vs[0]);
      ReleaseAllShrinks(Release(objs, vs[0]).value, vs[1..]);
      ShrunkTrans(objs, Release(objs, vs[0]).value, ReleaseAll(objs, vs).value);
    }
  }

  function AddrOf(p: Value): nat
  {
    match p case Ref(a) => a case Gc(a) => a case _ => 0
  }

  /** Memory `objs'` differs from `objs` in fields of `a`, in counts, and by what was freed. */
  predicate Near(objs: seq<Obj>, objs': seq<Obj>, a: nat)
  {
    && |objs| == |objs'|
    && forall i | 0 <= i < |objs| && i != a ::
         || objs'[i] == objs[i]
         || (objs[i].Counted? && objs'[i].Freed?)
         || (objs[i].Counted? && objs'[i].Counted? && objs'[i].fields == objs[i].fields)
  }

  lemma NearTrans(objs: seq<Obj>, o1: seq<Obj>, o2: seq<Obj>, o3: seq<Obj>, a: nat)
    requires Near(objs, o1, a) && |o2| == |o1| && (forall i | 0 <= i < |o1| && i != a :: o2[i] == o1[i])
             && Shrunk(o2, o3)
    ensures Near(objs, o3, a)
  {
  }

  /** Retaining the new value moves no field. */
  lemma TakeKeeps(p: Value, v: Value, owned: bool, st: State, a: nat)
    requires Take(owned, v, st).ctl.Normal?
    ensures Deref(Take(owned, v, st).st.objs, p) == Deref(st.objs, p) && Near(st.objs, Take(owned, v, st).st.objs, a)
  {
  }

  /** Up to the first visit of object `a`, the way to `v` reads the same; so if it led to
      `a` before, `a` is still owned and live. */
  lemma {:induction false} ReceiverSurvives(n: nat, fs: seq<Frame>, f: Frame, pend: multiset<nat>, objs: seq<Obj>,
                                            objs': seq<Obj>, a: nat, v: Value)
    requires Near(objs, objs', a) && Live(objs, a) && Covered(fs, f, pend, objs') && Reached(n, fs, f, pend, objs, v)
    ensures Live(objs', a) || Alive(objs', v)
    decreases n
  {
    if v.Ref? {
      if FrameOwners([f] + fs, v.a) + pend[v.a] > 0 {
        assert ([f] + fs)[1..] == fs;
        assert Owners(fs, f, pend, objs', v.a) > 0;
      } else {
        var w: Value, i: nat :| FieldIs(objs, w, i, v) && Reached(n - 1, fs, f, pend, objs, w);
        ReceiverSurvives(n - 1, fs, f, pend, objs, objs', a, w);
        if !Live(objs', a) {
          assert FieldIs(objs', w, i, v);
          FieldAlive(fs, f, pend, objs', w, i);
        }
      }
    }
  }

  lemma {:induction false} ReachedMore(n: nat, fs: seq<Frame>, f: Frame, pend: multiset<nat>, more: multiset<nat>,
                                       objs: seq<Obj>, v: Value)
    requires Reached(n, fs, f, pend, objs, v) && pend <= more
    ensures Reached(n, fs, f, more, objs, v)
    decreases n
  {
    if v.Ref? && !(FrameOwners([f] + fs, v.a) + pend[v.a] > 0) {
      var w: Value, i: nat :| FieldIs(objs, w, i, v) && Reached(n - 1, fs, f, pend, objs, w);
      ReachedMore(n - 1, fs, f, pend, more, objs, w);
    }
  }

  /** With the field emptied first, releasing what it held keeps counts covered and cannot
      free the receiver. */
  lemma EmptiedCovers(n: nat, fs: seq<Frame>, f: Frame, pend: multiset<nat>, objs0: seq<Obj>, objs: seq<Obj>, p: Value,
                      i: nat)
    requires Covered(fs, f, pend, objs) && Near(objs0, objs, AddrOf(p)) && Deref(objs0, p) == Deref(objs, p)
    requires Reached(n, fs, f, pend, objs0, p) && Deref(objs, p).Fields? && i < |Deref(objs, p).vs|
    ensures var e := SetField(objs, AddrOf(p), i, Nil);
            var r := Release(e, Deref(objs, p).vs[i]);
            && r.Some? && Covered(fs, f, pend, r.value) && Shrunk(e, r.value) && !r.value[AddrOf(p)].Freed?
  {
    var a, was := AddrOf(p), Deref(objs, p).vs[i];
    var e := SetField(objs, a, i, Nil);
    assert pend + One(Nil) == pend;
    StoreCovers(fs, f, pend, objs, a, i, Nil);
    ReleaseCovers(fs, f, pend, e, was);
    hide Covered, Reached, Release;
    var r := Release(e, was).value;
    if p.Ref? {
      NearTrans(objs0, objs, e, r, a);
      ReceiverSurvives(n, fs, f, pend, objs0, r, a, p);
    }
  }

  /** The code's order of steps, release and then store, gives the same memory as
      emptying the field, releasing and storing. */
  lemma StoreOrder(p: Value, i: nat, v: Value, owned: bool, st: State)
    requires Deref(st.objs, p).Fields? && i < |Deref(st.objs, p).vs|
    requires var t := Take(owned, v, st);
             t.ctl.Normal? && t.st.env == st.env && Deref(t.st.objs, p) == Deref(st.objs, p)
    requires var e := SetField(Take(owned, v, st).st.objs, AddrOf(p), i, Nil);
             var r := Release(e, Deref(st.objs, p).vs[i]);
             r.Some? && Shrunk(e, r.value) && !r.value[AddrOf(p)].Freed?
    ensures var r := Release(SetField(Take(owned, v, st).st.objs, AddrOf(p), i, Nil), Deref(st.objs, p).vs[i]).value;
            i < |r[AddrOf(p)].fields|
              && StoreField(p, i, v, owned, st) == Out(Normal(Nil), State(st.env, SetField(r, AddrOf(p), i, v)))
  {
    var t := Take(owned, v, st);
    var a, was := AddrOf(p), Deref(st.objs, p).vs[i];
    ReleaseCommutes(t.st.objs, a, i, Nil, was);
    ReleaseShrinks(t.st.objs, was);
    hide Release;
    var q := Release(t.st.objs, was).value;
    var r := Release(SetField(t.st.objs, a, i, Nil), was).value;
    assert SetField(q, a, i, v) == SetField(r, a, i, v) by {
      assert q[a].fields[i := v] == r[a].fields[i := v];
    }
  }

  /** A field store of a live value keeps counts covering owners, whatever the receiver:
      nothing it releases can free the receiver. */
  lemma StoreFieldSafe(p: Value, idx: nat, v: Value, owned: bool, fs: seq<Frame>, k: Keep, pend: multiset<nat>,
                       st0: State, st: State)
    requires Inv(fs, k, pend, st0) && SameParams(k, st0.env, st.env) && Alive(st.objs, p) && Alive(st.objs, v)
    requires Grounded(fs, k, pend + Pending(owned, v), st, p)
    ensures Post(fs, k, pend, st0, false, StoreField(p, idx, v, owned, st))
  {
    NotDangling(st.objs, p);
    if Deref(st.objs, p).Fields? && idx < |Deref(st.objs, p).vs| {
      var f := Frame(st.env, k.borrowed);
      var leak: multiset<nat>, n: nat :|
        Covered(fs, f, pend + Pending(owned, v) + leak, st.objs)
          && Reached(n, fs, f, pend + Pending(owned, v) + leak, st.objs, p);
      hide Covered, Reached, Held, SameParams, Retain, Release, Refs, One, Shrunk, Grounded;
      var more := pend + leak;
      assert pend + Pending(owned, v) + leak == more + Pending(owned, v);
      StoreGrounded(n, p, idx, v, owned, fs, f, more, st);
      hide StoreField;
      var r := StoreField(p, idx, v, owned, st);
      InvForget(fs, k, more, pend, r.st, st0);
      NilPost(fs, k, pend, st0, r.st);
    }
  }

  lemma StoreGrounded(n: nat, p: Value, idx: nat, v: Value, owned: bool, fs: seq<Frame>, f: Frame, more: multiset<nat>,
                      st: State)
    requires Deref(st.objs, p).Fields? && idx < |Deref(st.objs, p).vs| && Alive(st.objs, v)
    requires Covered(fs, f, more + Pending(owned, v), st.objs)
             && Reached(n, fs, f, more + Pending(owned, v), st.objs, p)
    ensures var r := StoreField(p, idx, v, owned, st);
            r.ctl == Normal(Nil) && r.st.env == st.env && Covered(fs, f, more, r.st.objs)
  {
    hide Covered, Reached, Retain, Release, Refs, Shrunk, StoreField, Near;
    TakeCovers(fs, f, more, owned, v, st);
    var t := Take(owned, v, st);
    TakeKeeps(p, v, owned, st, AddrOf(p));
    ReachedMore(n, fs, f, more + Pending(owned, v), more + One(v), st.objs, p);
    EmptiedCovers(n, fs, f, more + One(v), st.objs, t.st.objs, p, idx);
    StoreOrder(p, idx, v, owned, st);
    var a := AddrOf(p);
    var r := Release(SetField(t.st.objs, a, idx, Nil), Deref(st.objs, p).vs[idx]).value;
    EmptiedField(t.st.objs, a, idx, Deref(st.objs, p).vs[idx], r);
    StoreCovers(fs, f, more, r, a, idx, v);
    assert more + One(Nil) == more;
  }

  /** What was released did not write the emptied field. */
  lemma EmptiedField(objs: seq<Obj>, a: nat, i: nat, was: Value, r: seq<Obj>)
    requires a < |objs| && !objs[a].Freed? && i < |objs[a].fields| && Shrunk(SetField(objs, a, i, Nil), r)
             && !r[a].Freed?
    ensures a < |r| && i < |r[a].fields| && r[a].fields[i] == Nil
  {
  }

  /** Where a field store into a reached object goes wrong: exactly when a borrowed value
      did not outlive the evaluation of the receiver. */
  lemma StoreBadExactly(p: Value, idx: nat, v: Value, owned: bool, fs: seq<Frame>, k: Keep, pend: multiset<nat>,
                        st: State)
    requires Inv(fs, k, pend, st) && Grounded(fs, k, pend + Pending(owned, v), st, p) && Alive(st.objs, p)
    requires Deref(st.objs, p).Fields? && idx < |Deref(st.objs, p).vs|
    ensures StoreField(p, idx, v, owned, st).ctl.Bad? <==> !owned && !Alive(st.objs, v)
  {
    if owned {
      var leak: multiset<nat>, n: nat :|
        Covered(fs, Frame(st.env, k.borrowed), pend + Pending(owned, v) + leak, st.objs)
        && Reached(n, fs, Frame(st.env, k.borrowed), pend + Pending(owned, v) + leak, st.objs, p);
      hide Covered;
      PendAlive(fs, Frame(st.env, k.borrowed), pend + Pending(owned, v) + leak, st.objs, v);
    }
    if Alive(st.objs, v) {
      SameRefl(k, st.env);
      StoreFieldSafe(p, idx, v, owned, fs, k, pend, st, st);
    }
  }

  /** A local target: take the new reference, release the old one. */
  lemma StoreLocalSafe(pr: Program, x: LocalId, v: Value, owned: bool, o: seq<LocalId>, fs: seq<Frame>, k: Keep,
                       pend: multiset<nat>, st: State, fuel: nat)
    requires Inv(fs, k, pend + Pending(owned, v), st) && Held(fs, pend, k, st.env) && Alive(st.objs, v) && Free(x, k)
    ensures Post(fs, k, pend, st, false, EvalStore(pr, Local(x), v, owned, o, st, fuel))
  {
    TakeSafe(fs, k, pend, owned, v, st);
    var t := Take(owned, v, st);
    SetSafe(fs, k, pend, x, v, t.st);
    hide Inv, Held, Retain, Release;
    NilPost(fs, k, pend, st, EvalStore(pr, Local(x), v, owned, o, st, fuel).st);
  }

  // -- patterns -----------------------------------------------------------------------------------------------

  /** Binding a local for the first time releases nothing. */
  lemma FirstBindSpares(fs: seq<Frame>, k: Keep, pend: multiset<nat>, x: LocalId, v: Value, o: seq<LocalId>, st: State,
                        p: Value)
    requires Inv(fs, k, pend, st) && Alive(st.objs, v) && Alive(st.objs, p) && x !in o
    ensures Alive(BindLocal(x, v, false, o, st).st.objs, p)
  {
    assert pend + Pending(false, v) == pend;
    TakeSafe(fs, k, pend, false, v, st);
  }

  /** Destructuring a live object takes a reference for each field it binds. */
  lemma {:induction false} RecordSafe(fs: seq<Frame>, k: Keep, pend: multiset<nat>, rs: seq<Option<LocalId>>, i: nat,
                                      p: Value, o: seq<LocalId>, st: State)
    requires Inv(fs, k, pend, st) && Alive(st.objs, p) && i <= |rs| && FirstBind(FieldLocals(rs[i..]), k, o)
    ensures Post(fs, k, pend, st, false, BindRecord(rs, i, p, o, st))
    decreases |rs| - i
  {
    SameRefl(k, st.env);
    if i == |rs| {
      NilPost(fs, k, pend, st, st);
    } else if Deref(st.objs, p).Fields? && i < |Deref(st.objs, p).vs| {
      assert rs[i..][1..] == rs[i + 1..];
      if rs[i].None? {
        assert FieldLocals(rs[i..]) == FieldLocals(rs[i + 1..]);
        RecordSafe(fs, k, pend, rs, i + 1, p, o, st);
      } else {
        var x, v := rs[i].value, Deref(st.objs, p).vs[i];
        assert FieldLocals(rs[i..]) == [x] + FieldLocals(rs[i + 1..]);
        NextFirst(x, FieldLocals(rs[i + 1..]), k, o);
        FieldAlive(fs, Frame(st.env, k.borrowed), pend, st.objs, p, i);
        assert pend + Pending(false, v) == pend;
        hide Inv, Post, FirstBind, FieldLocals;
        BindStep(fs, k, pend, rs, i, p, x, v, o, st);
      }
    } else {
      NotDangling(st.objs, p);
    }
  }

  lemma {:induction false} BindStep(fs: seq<Frame>, k: Keep, pend: multiset<nat>, rs: seq<Option<LocalId>>, i: nat,
                                    p: Value, x: LocalId, v: Value, o: seq<LocalId>, st: State)
    requires Inv(fs, k, pend, st) && Inv(fs, k, pend + Pending(false, v), st) && Alive(st.objs, p) && Alive(st.objs, v)
    requires i < |rs| && rs[i] == Some(x) && Deref(st.objs, p).Fields? && i < |Deref(st.objs, p).vs|
    requires v == Deref(st.objs, p).vs[i] && Free(x, k) && x !in o && FirstBind(FieldLocals(rs[i + 1..]), k, Push(o, x))
    ensures Post(fs, k, pend, st, false, BindRecord(rs, i, p, o, st))
    decreases |rs| - i, 0
  {
    BindSafe(fs, k, pend, x, v, false, o, st);
    FirstBindSpares(fs, k, pend, x, v, o, st, p);
    var r := BindLocal(x, v, false, o, st);
    Settled(fs, k, pend, st, false, r);
    RecordSafe(fs, k, pend, rs, i + 1, p, Push(o, x), r.st);
    hide Inv, Post, BindLocal;
    assert BindRecord(rs, i, p, o, st) == BindRecord(rs, i + 1, p, Push(o, x), r.st);
    Chain(fs, k, pend, st, r.st, false, BindRecord(rs, i + 1, p, Push(o, x), r.st));
  }

  lemma NextFirst(x: LocalId, xs: seq<LocalId>, k: Keep, o: seq<LocalId>)
    requires FirstBind([x] + xs, k, o)
    ensures Free(x, k) && x !in o && FirstBind(xs, k, Push(o, x))
  {
    assert ([x] + xs)[0] == x;
    forall i | 0 <= i < |xs| ensures xs[i] == ([x] + xs)[i + 1] && xs[i] != x {}
    forall y <- xs ensures Free(y, k) && y !in Push(o, x) {
      assert y in [x] + xs;
    }
  }

  /** Binding a live value by a pattern of `let` or `for`. */
  lemma BindPatSafe(fs: seq<Frame>, k: Keep, pend: multiset<nat>, pat: Pattern, v: Value, owned: bool, o: seq<LocalId>,
                    st: State)
    requires Inv(fs, k, pend + Pending(owned, v), st) && Inv(fs, k, pend, st) && Alive(st.objs, v) && SafePat(pat, k, o)
    ensures Post(fs, k, pend, st, false, BindPat(pat, v, owned, o, st))
  {
    match pat
    case Bind(x) => BindSafe(fs, k, pend, x, v, owned, o, st);
    case Record(rs) =>
      assert rs[0..] == rs;
      RecordSafe(fs, k, pend, rs, 0, v, o, st);
    case Wild =>
      SameRefl(k, st.env);
      NilPost(fs, k, pend, st, st);
  }

  /** A run under a tighter keep, seen from the looser one. */
  lemma PostLooser(fs: seq<Frame>, k: Keep, k1: Keep, pend: multiset<nat>, st: State, mid: State, owned: bool, r: Out)
    requires Inv(fs, k, pend, st) && Tighter(k, k1) && SameParams(k, st.env, mid.env)
             && Post(fs, k1, pend, mid, owned, r)
    ensures Post(fs, k, pend, st, false, r)
  {
    hide Grounded;
    assert forall env, env' | SameParams(k1, env, env') :: SameParams(k, env, env');
    match r.ctl
    case Normal(v) =>
      assert Frame(r.st.env, k1.borrowed) == Frame(r.st.env, k.borrowed);
      SameTrans(k, st.env, mid.env, r.st.env);
      assert pend + Pending(false, v) == pend;
      InvForget(fs, k, pend + Pending(owned, v), pend, r.st, st);
      GroundedSame(fs, k, k1, pend, r.st, v);
    case Brk(v) =>
      SameTrans(k, st.env, mid.env, r.st.env);
      InvForget(fs, k, pend, pend, r.st, st);
      GroundedSame(fs, k, k1, pend, r.st, v);
    case Cont =>
      SameTrans(k, st.env, mid.env, r.st.env);
      InvForget(fs, k, pend, pend, r.st, st);
    case _ =>
  }

  lemma GroundedSame(fs: seq<Frame>, k: Keep, k1: Keep, pend: multiset<nat>, st: State, v: Value)
    requires Grounded(fs, k1, pend, st, v) && k.borrowed == k1.borrowed
    ensures Grounded(fs, k, pend, st, v)
  {
  }

  /** Writing a local that owns nothing. */
  lemma BorrowCovers(fs: seq<Frame>, borrowed: set<LocalId>, pend: multiset<nat>, x: LocalId, v: Value, st: State)
    requires Covered(fs, Frame(st.env, borrowed), pend, st.objs) && x in borrowed
    ensures Covered(fs, Frame(st.env[x := v], borrowed), pend, st.objs)
  {
    forall a: nat ensures LocalSites(Frame(st.env[x := v], borrowed), a) == LocalSites(Frame(st.env, borrowed), a) {}
  }

  lemma {:induction false} BorrowReached(n: nat, fs: seq<Frame>, borrowed: set<LocalId>, pend: multiset<nat>,
                                         x: LocalId, w: Value, st: State, v: Value)
    requires Reached(n, fs, Frame(st.env, borrowed), pend, st.objs, v) && x in borrowed
    ensures Reached(n, fs, Frame(st.env[x := w], borrowed), pend, st.objs, v)
    decreases n
  {
    var f, f' := Frame(st.env, borrowed), Frame(st.env[x := w], borrowed);
    if v.Ref? {
      assert LocalSites(f', v.a) == LocalSites(f, v.a);
      assert ([f] + fs)[1..] == fs && ([f'] + fs)[1..] == fs;
      if !(FrameOwners([f] + fs, v.a) + pend[v.a] > 0) {
        var u: Value, i: nat :| FieldIs(st.objs, u, i, v) && Reached(n - 1, fs, f, pend, st.objs, u);
        BorrowReached(n - 1, fs, borrowed, pend, x, w, st, u);
      }
    }
  }
}
