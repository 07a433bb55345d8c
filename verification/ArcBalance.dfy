/**
 The other half of reference counting: counts that are neither too low nor too high, and
 what the single steps do to them.
 */
module ArcBalance {
  import opened Hir
  import opened Arc
  import opened ArcLedger
  import opened ArcFragment
  import opened ArcInv

  /** A counted object is live exactly while somebody owns it, and its count is the number
      of its owners. */
  ghost predicate Exact(fs: seq<Frame>, f: Frame, pend: multiset<nat>, objs: seq<Obj>)
  {
    forall a: nat :: ExactAt(fs, f, pend, objs, a)
  }

  predicate ExactAt(fs: seq<Frame>, f: Frame, pend: multiset<nat>, objs: seq<Obj>, a: nat)
  {
    if Live(objs, a) then objs[a].count == Owners(fs, f, pend, objs, a) && objs[a].count > 0
    else Owners(fs, f, pend, objs, a) == 0
  }

  /** The locals that hold something are borrowed or in the owned-locals list. */
  predicate Listed(env: Env, o: seq<LocalId>, borrowed: set<LocalId>)
  {
    forall x <- env :: x in borrowed || x in o
  }

  // -- references ------------------------------------------------------------------------

  lemma RetainExact(fs: seq<Frame>, f: Frame, pend: multiset<nat>, objs: seq<Obj>, v: Value)
    requires Exact(fs, f, pend, objs) && Retain(objs, v).Some?
    ensures Exact(fs, f, pend + One(v), Retain(objs, v).value)
  {
    var objs' := Retain(objs, v).value;
    forall a: nat
      ensures ExactAt(fs, f, pend + One(v), objs', a)
    {
      assert ExactAt(fs, f, pend, objs, a);
      if v.Ref? {
        FieldUpdate(objs, v.a, objs'[v.a], a);
      }
    }
  }

  lemma TakeExact(fs: seq<Frame>, f: Frame, pend: multiset<nat>, owned: bool, v: Value, st: State)
    requires Exact(fs, f, pend + Pending(owned, v), st.objs) && Take(owned, v, st).ctl.Normal?
    ensures var t := Take(owned, v, st);
            t.ctl == Normal(v) && t.st.env == st.env && Exact(fs, f, pend + One(v), t.st.objs)
  {
    if !owned {
      assert pend + Pending(owned, v) == pend;
      RetainExact(fs, f, pend, st.objs, v);
    }
  }

  /** A pending reference makes its object live. */
  lemma PendingLive(fs: seq<Frame>, f: Frame, pend: multiset<nat>, objs: seq<Obj>, a: nat)
    requires Exact(fs, f, pend + multiset{a}, objs)
    ensures Live(objs, a) && objs[a].count == Owners(fs, f, pend, objs, a) + 1
  {
    assert ExactAt(fs, f, pend + multiset{a}, objs, a);
  }

  /** Giving up a reference lowers the count by one, and frees the object exactly if that was
      the last one, with what its fields own. */
  lemma {:induction false} ReleaseExact(fs: seq<Frame>, f: Frame, pend: multiset<nat>, objs: seq<Obj>, v: Value)
    requires Exact(fs, f, pend + One(v), objs)
    ensures Release(objs, v).Some? && Exact(fs, f, pend, Release(objs, v).value)
    decreases LiveObjs(objs), 0, 0
  {
    hide Exact, Refs;
    if v.Ref? {
      PendingLive(fs, f, pend, objs, v.a);
      var o := objs[v.a];
      if o.count > 1 {
        LowerExact(fs, f, pend, objs, v.a);
      } else {
        FreeExact(fs, f, pend, objs, v.a);
        LiveUpdate(objs, v.a, Freed);
        ReleaseAllExact(fs, f, pend, objs[v.a := Freed], o.fields);
      }
    } else {
      assert pend + One(v) == pend;
    }
  }

  lemma LowerExact(fs: seq<Frame>, f: Frame, pend: multiset<nat>, objs: seq<Obj>, a: nat)
    requires Exact(fs, f, pend + multiset{a}, objs) && Live(objs, a) && objs[a].count > 1
    ensures Exact(fs, f, pend, objs[a := objs[a].(count := objs[a].count - 1)])
  {
    var o' := objs[a].(count := objs[a].count - 1);
    var objs' := objs[a := o'];
    forall b: nat
      ensures ExactAt(fs, f, pend, objs', b)
    {
      assert ExactAt(fs, f, pend + multiset{a}, objs, b);
      FieldUpdate(objs, a, o', b);
    }
  }

  lemma FreeExact(fs: seq<Frame>, f: Frame, pend: multiset<nat>, objs: seq<Obj>, a: nat)
    requires Exact(fs, f, pend + multiset{a}, objs) && Live(objs, a) && objs[a].count <= 1
    ensures Exact(fs, f, pend + Refs(objs[a].fields), objs[a := Freed])
  {
    var pend', objs' := pend + Refs(objs[a].fields), objs[a := Freed];
    forall b: nat
      ensures ExactAt(fs, f, pend', objs', b)
    {
      assert ExactAt(fs, f, pend + multiset{a}, objs, b);
      FieldUpdate(objs, a, Freed, b);
    }
  }

  lemma {:induction false} ReleaseAllExact(fs: seq<Frame>, f: Frame, pend: multiset<nat>, objs: seq<Obj>,
                                           vs: seq<Value>)
    requires Exact(fs, f, pend + Refs(vs), objs)
    ensures ReleaseAll(objs, vs).Some? && Exact(fs, f, pend, ReleaseAll(objs, vs).value)
    decreases LiveObjs(objs), 1, |vs|
  {
    hide Exact;
    if vs == [] {
      assert pend + Refs(vs) == pend;
    } else {
      assert pend + Refs(vs) == pend + Refs(vs[1..]) + One(vs[0]);
      ReleaseExact(fs, f, pend + Refs(vs[1..]), objs, vs[0]);
      ReleaseAllExact(fs, f, pend, Release(objs, vs[0]).value, vs[1..]);
    }
  }

  // -- locals and fields ---------------------------------------------------------------------

  /** A local takes a pending reference, and its old one becomes pending. */
  lemma SetExact(fs: seq<Frame>, f: Frame, pend: multiset<nat>, objs: seq<Obj>, x: LocalId, v: Value)
    requires Exact(fs, f, pend + One(v), objs) && x !in f.params
    ensures Exact(fs, f.(env := f.env[x := v]), pend + One(Get(f.env, x)), objs)
  {
    var f', pend' := f.(env := f.env[x := v]), pend + One(Get(f.env, x));
    forall a: nat
      ensures ExactAt(fs, f', pend', objs, a)
    {
      assert ExactAt(fs, f, pend + One(v), objs, a);
      SetSites(f, x, v, a);
    }
  }

  lemma BorrowExact(fs: seq<Frame>, f: Frame, pend: multiset<nat>, objs: seq<Obj>, x: LocalId, v: Value)
    requires Exact(fs, f, pend, objs) && x in f.params
    ensures Exact(fs, f.(env := f.env[x := v]), pend, objs)
  {
    var f' := f.(env := f.env[x := v]);
    forall a: nat
      ensures ExactAt(fs, f', pend, objs, a)
    {
      assert ExactAt(fs, f, pend, objs, a);
      assert LocalSites(f', a) == LocalSites(f, a);
    }
  }

  /** A field takes a pending reference, and its old one becomes pending. */
  lemma FieldExact(fs: seq<Frame>, f: Frame, pend: multiset<nat>, objs: seq<Obj>, o: nat, i: nat, v: Value)
    requires Exact(fs, f, pend + One(v), objs) && o < |objs| && !objs[o].Freed? && i < |objs[o].fields|
    ensures Exact(fs, f, pend + One(objs[o].fields[i]), SetField(objs, o, i, v))
  {
    hide Owners, SetField, One;
    var was, objs' := objs[o].fields[i], SetField(objs, o, i, v);
    forall a: nat
      ensures ExactAt(fs, f, pend + One(was), objs', a)
    {
      assert ExactAt(fs, f, pend + One(v), objs, a);
      FieldMoves(fs, f, pend, objs, o, i, v, a);
      FieldsAfter(objs, o, i, v, a);
    }
  }

  lemma FieldMoves(fs: seq<Frame>, f: Frame, pend: multiset<nat>, objs: seq<Obj>, o: nat, i: nat, v: Value, a: nat)
    requires o < |objs| && !objs[o].Freed? && i < |objs[o].fields|
    ensures Owners(fs, f, pend + One(objs[o].fields[i]), SetField(objs, o, i, v), a)
            == Owners(fs, f, pend + One(v), objs, a)
  {
    hide FieldOwners, FrameOwners, LocalSites, Refs, One, SetField;
    var objs' := SetField(objs, o, i, v);
    FieldsAfter(objs, o, i, v, a);
    FieldUpdate(objs, o, objs'[o], a);
    RefsUpdate(objs[o].fields, i, v, a);
  }

  lemma FieldsAfter(objs: seq<Obj>, o: nat, i: nat, v: Value, a: nat)
    requires o < |objs| && !objs[o].Freed? && i < |objs[o].fields|
    ensures var objs' := SetField(objs, o, i, v);
            && FieldsOf(objs[o]) == objs[o].fields && FieldsOf(objs'[o]) == objs[o].fields[i := v]
            && objs' == objs[o := objs'[o]] && |objs'| == |objs|
            && (Live(objs', a) <==> Live(objs, a)) && (Live(objs, a) ==> objs'[a].count == objs[a].count)
  {
  }

  lemma PushMoves(fs: seq<Frame>, f: Frame, pend: multiset<nat>, objs: seq<Obj>, g: nat, v: Value, a: nat)
    requires g < |objs| && objs[g].Plain?
    ensures Owners(fs, f, pend, objs[g := Obj.Plain(objs[g].fields + [v])], a) == Owners(fs, f, pend + One(v), objs, a)
  {
    var o := Obj.Plain(objs[g].fields + [v]);
    FieldUpdate(objs, g, o, a);
    RefsAppend(objs[g].fields, v, a);
    hide FieldOwners, FrameOwners, LocalSites, Refs, One;
  }

  lemma PushExact(fs: seq<Frame>, f: Frame, pend: multiset<nat>, objs: seq<Obj>, g: nat, v: Value)
    requires Exact(fs, f, pend + One(v), objs) && g < |objs| && objs[g].Plain?
    ensures Exact(fs, f, pend, objs[g := Obj.Plain(objs[g].fields + [v])])
  {
    var objs' := objs[g := Obj.Plain(objs[g].fields + [v])];
    forall a: nat
      ensures ExactAt(fs, f, pend, objs', a)
    {
      assert ExactAt(fs, f, pend + One(v), objs, a);
      PushMoves(fs, f, pend, objs, g, v, a);
      hide Owners;
    }
  }

  lemma AllocExact(fs: seq<Frame>, f: Frame, pend: multiset<nat>, objs: seq<Obj>, vs: seq<Value>, counted: bool)
    requires Exact(fs, f, pend + Refs(vs), objs)
    ensures Exact(fs, f, pend + (if counted then multiset{|objs|} else multiset{}),
                  objs + [if counted then Counted(1, vs) else Obj.Plain(vs)])
  {
    var n := |objs|;
    var o := if counted then Counted(1, vs) else Obj.Plain(vs);
    var extra := if counted then multiset{n} else multiset{};
    assert (objs + [o])[..n] == objs;
    forall a: nat
      ensures ExactAt(fs, f, pend + extra, objs + [o], a)
    {
      assert ExactAt(fs, f, pend + Refs(vs), objs, a);
      assert Owners(fs, f, pend + extra, objs + [o], a) == Owners(fs, f, pend + Refs(vs), objs, a) + extra[a];
    }
  }

  // -- the steps of the generated code -----------------------------------------------------------

  /** Binding takes one reference and gives up what a listed local held. */
  lemma BindExact(fs: seq<Frame>, f: Frame, pend: multiset<nat>, x: LocalId, v: Value, owned: bool, o: seq<LocalId>,
                  st: State)
    requires f.env == st.env && Exact(fs, f, pend + Pending(owned, v), st.objs) && x !in f.params
    requires x in o || !Get(st.env, x).Ref?
    requires BindLocal(x, v, owned, o, st).ctl.Normal?
    ensures var r := BindLocal(x, v, owned, o, st);
            r.st.env == st.env[x := v] && Exact(fs, f.(env := r.st.env), pend, r.st.objs)
  {
    TakeExact(fs, f, pend, owned, v, st);
    var t, was := Take(owned, v, st), Get(st.env, x);
    SetExact(fs, f, pend, t.st.objs, x, v);
    if x in o {
      ReleaseExact(fs, f.(env := f.env[x := v]), pend, t.st.objs, was);
    } else {
      assert pend + One(was) == pend;
    }
  }

  /** A bind keeps counts exact if and only if the local is listed or holds no reference:
      otherwise what it held is lost with its count still raised. */
  lemma BindExactly(fs: seq<Frame>, f: Frame, pend: multiset<nat>, x: LocalId, v: Value, owned: bool, o: seq<LocalId>,
                    st: State)
    requires f.env == st.env && Exact(fs, f, pend + Pending(owned, v), st.objs) && x !in f.params
    requires BindLocal(x, v, owned, o, st).ctl.Normal?
    ensures var r := BindLocal(x, v, owned, o, st);
            Exact(fs, f.(env := r.st.env), pend, r.st.objs) <==> x in o || !Get(st.env, x).Ref?
  {
    if x in o || !Get(st.env, x).Ref? {
      BindExact(fs, f, pend, x, v, owned, o, st);
    } else {
      TakeExact(fs, f, pend, owned, v, st);
      var t, a := Take(owned, v, st), Get(st.env, x).a;
      SetExact(fs, f, pend, t.st.objs, x, v);
      var f' := f.(env := f.env[x := v]);
      assert ExactAt(fs, f', pend + multiset{a}, t.st.objs, a);
      assert !ExactAt(fs, f', pend, t.st.objs, a);
    }
  }

  lemma StoreLocalExact(fs: seq<Frame>, f: Frame, pend: multiset<nat>, x: LocalId, v: Value, owned: bool, st: State)
    requires f.env == st.env && Exact(fs, f, pend + Pending(owned, v), st.objs) && x !in f.params
    requires Take(owned, v, st).ctl.Normal?
    ensures var r := Release(Take(owned, v, st).st.objs, Get(st.env, x));
            r.Some? && Exact(fs, f.(env := st.env[x := v]), pend, r.value)
  {
    TakeExact(fs, f, pend, owned, v, st);
    var t := Take(owned, v, st);
    SetExact(fs, f, pend, t.st.objs, x, v);
    ReleaseExact(fs, f.(env := f.env[x := v]), pend, t.st.objs, Get(st.env, x));
  }

  /** Storing first and releasing second survives where the other order does, with the same
      memory at the end. */
  lemma ReleaseThenStore(objs: seq<Obj>, a: nat, i: nat, v: Value)
    requires a < |objs| && !objs[a].Freed? && i < |objs[a].fields|
    requires var q := Release(objs, objs[a].fields[i]); q.Some? && !q.value[a].Freed? && i < |q.value[a].fields|
    ensures var w := objs[a].fields[i];
            var r := Release(SetField(objs, a, i, v), w);
            r.Some? && r.value == SetField(Release(objs, w).value, a, i, v)
  {
    var w, objs2 := objs[a].fields[i], SetField(objs, a, i, v);
    Overwrites(objs, a, i, v, w);
    ReleaseShrinks(objs, w);
    ReleaseCommutes(objs2, a, i, w, w);
    var r, q := Release(objs2, w).value, Release(objs, w).value;
    ReleaseShrinks(objs2, w);
    assert SetField(objs2, a, i, w)[a] == objs[a];
    assert q == SetField(r, a, i, w);
    Overwrites(r, a, i, w, v);
  }

  lemma Overwrites(objs: seq<Obj>, a: nat, i: nat, w: Value, v: Value)
    requires a < |objs| && !objs[a].Freed? && i < |objs[a].fields| && objs[a].fields[i] == v
    ensures SetField(SetField(objs, a, i, w), a, i, v) == objs
  {
    var objs1 := SetField(objs, a, i, w);
    assert objs[a].fields[i := w][i := v] == objs[a].fields;
    assert SetField(objs1, a, i, v)[a] == objs[a];
  }

  lemma StoreFieldExact(fs: seq<Frame>, f: Frame, pend: multiset<nat>, p: Value, idx: nat, v: Value, owned: bool,
                        st: State)
    requires f.env == st.env && Exact(fs, f, pend + Pending(owned, v), st.objs)
    requires StoreField(p, idx, v, owned, st).ctl.Normal?
    ensures var r := StoreField(p, idx, v, owned, st);
            r.ctl == Normal(Nil) && r.st.env == st.env && Exact(fs, f, pend, r.st.objs)
  {
    TakeExact(fs, f, pend, owned, v, st);
    var objs, a := Take(owned, v, st).st.objs, AddrOf(p);
    var w := Deref(st.objs, p).vs[idx];
    assert !objs[a].Freed? && objs[a].fields == Deref(st.objs, p).vs;
    ReleaseThenStore(objs, a, idx, v);
    FieldExact(fs, f, pend, objs, a, idx, v);
    hide Exact, Release;
    ReleaseExact(fs, f, pend, SetField(objs, a, idx, v), w);
    assert StoreField(p, idx, v, owned, st).st.objs == SetField(Release(objs, w).value, a, idx, v);
  }

  lemma AppendExact(fs: seq<Frame>, f: Frame, pend: multiset<nat>, p: Value, v: Value, st: State)
    requires f.env == st.env && Exact(fs, f, pend, st.objs) && AppendTo(p, v, st).ctl.Normal?
    ensures var r := AppendTo(p, v, st); r.ctl == Normal(Nil) && r.st.env == st.env && Exact(fs, f, pend, r.st.objs)
  {
    RetainExact(fs, f, pend, st.objs, v);
    var objs := Retain(st.objs, v).value;
    assert objs[p.g] == st.objs[p.g];
    PushExact(fs, f, pend, objs, p.g, v);
  }

  // -- frames ---------------------------------------------------------------------------------------

  /** The owned locals of a frame own exactly what the list says they hold. */
  lemma SitesAre(f: Frame, o: seq<LocalId>, a: nat)
    requires Listed(f.env, o, f.params) && ListOk(o, f.params)
    ensures |LocalSites(f, a)| == Refs(ValuesOf(f.env, o))[a]
  {
    SitesIn(f, o, a);
    assert LocalSites(f, a) == set x | x in o && Get(f.env, x) == Ref(a);
  }

  /** Leaving the frame releases each owned local once: afterwards only the result is owned
      by it. */
  lemma LeaveExact(fs: seq<Frame>, f: Frame, pend: multiset<nat>, owned: bool, v: Value, o: seq<LocalId>, st: State)
    requires f.env == st.env && Exact(fs, f, pend + Pending(owned, v), st.objs)
    requires Listed(f.env, o, f.params) && ListOk(o, f.params) && Leave(owned, v, o, st).ctl.Ret?
    ensures var r := Leave(owned, v, o, st);
            r.ctl == Ret(v) && Exact(fs, f.(env := map[]), pend + One(v), r.st.objs)
  {
    var f' := f.(env := map[]);
    TakeExact(fs, f, pend, owned, v, st);
    var t := Take(owned, v, st);
    forall a: nat
      ensures ExactAt(fs, f', pend + One(v) + Refs(ValuesOf(st.env, o)), t.st.objs, a)
    {
      assert ExactAt(fs, f, pend + One(v), t.st.objs, a);
      SitesAre(f, o, a);
      assert LocalSites(f', a) == {};
    }
    ReleaseAllExact(fs, f', pend + One(v), t.st.objs, ValuesOf(st.env, o));
    ReleaseLocalsIs(o, t.st);
  }

  lemma EnterExact(fs: seq<Frame>, f: Frame, pend: multiset<nat>, objs: seq<Obj>, f': Frame)
    requires Exact(fs, f, pend, objs) && (forall x <- f'.env :: x in f'.params)
    ensures Exact([f] + fs, f', pend, objs)
  {
    forall a: nat
      ensures ExactAt([f] + fs, f', pend, objs, a)
    {
      assert ExactAt(fs, f, pend, objs, a);
      assert LocalSites(f', a) == {};
      assert ([f] + fs)[1..] == fs;
    }
  }

  lemma BackExact(fs: seq<Frame>, f: Frame, pend: multiset<nat>, objs: seq<Obj>, f': Frame)
    requires Exact([f] + fs, f', pend, objs) && f'.env == map[]
    ensures Exact(fs, f, pend, objs)
  {
    forall a: nat
      ensures ExactAt(fs, f, pend, objs, a)
    {
      assert ExactAt([f] + fs, f', pend, objs, a);
      assert LocalSites(f', a) == {};
      assert ([f] + fs)[1..] == fs;
    }
  }
}
