/**
 Who owns a counted object, and why retaining, releasing, binding and storing keep
 every strong count at or above the number of owners.
 */
module ArcLedger {
  import opened Hir
  import opened AsyncLayout
  import opened Arc

  // -- owners ------------------------------------------------------------------------

  function One(v: Value): multiset<nat>
  {
    if v.Ref? then multiset{v.a} else multiset{}
  }

  function Refs(vs: seq<Value>): multiset<nat>
  {
    if vs == [] then multiset{} else One(vs[0]) + Refs(vs[1..])
  }

  /** A suspended caller: its locals, and which of them are parameters. */
  datatype Frame = Frame(env: Env, params: set<LocalId>)

  function LocalSites(f: Frame, a: nat): set<LocalId>
  {
    set x | x in f.env.Keys && x !in f.params && f.env[x] == Ref(a)
  }

  function FrameOwners(fs: seq<Frame>, a: nat): nat
  {
    if fs == [] then 0 else |LocalSites(fs[0], a)| + FrameOwners(fs[1..], a)
  }

  function FieldOwners(objs: seq<Obj>, a: nat): nat
  {
    if objs == [] then 0 else FieldOwners(objs[..|objs| - 1], a) + Refs(FieldsOf(objs[|objs| - 1]))[a]
  }

  /** Owned locals of all frames, fields of live objects, and `pend`: the `+1` results
      not yet consumed. Parameters borrow from their caller. */
  function Owners(fs: seq<Frame>, f: Frame, pend: multiset<nat>, objs: seq<Obj>, a: nat): nat
  {
    FrameOwners(fs, a) + |LocalSites(f, a)| + FieldOwners(objs, a) + pend[a]
  }

  predicate Live(objs: seq<Obj>, a: nat)
  {
    a < |objs| && objs[a].Counted?
  }

  /** Every owned object is live and its count covers its owners. */
  ghost predicate Covered(fs: seq<Frame>, f: Frame, pend: multiset<nat>, objs: seq<Obj>)
  {
    forall a: nat | Owners(fs, f, pend, objs, a) > 0 :: Live(objs, a) && objs[a].count >= Owners(fs, f, pend, objs, a)
  }

  predicate Alive(objs: seq<Obj>, v: Value)
  {
    v.Ref? ==> Live(objs, v.a)
  }

  // -- counting ------------------------------------------------------------------------

  lemma SwapSize(s: set<LocalId>, s': set<LocalId>, x: LocalId)
    requires s - {x} == s' - {x}
    ensures |s'| + (if x in s then 1 else 0) == |s| + (if x in s' then 1 else 0)
  {
    var rest := s - {x};
    assert s == if x in s then rest + {x} else rest;
    assert s' == if x in s' then rest + {x} else rest;
  }

  lemma SetSites(f: Frame, x: LocalId, v: Value, a: nat)
    requires x !in f.params
    ensures |LocalSites(f.(env := f.env[x := v]), a)| + One(Get(f.env, x))[a] == |LocalSites(f, a)| + One(v)[a]
  {
    var s, s' := LocalSites(f, a), LocalSites(f.(env := f.env[x := v]), a);
    SwapSize(s, s', x);
    OneAt(v, a);
    OneAt(Get(f.env, x), a);
    assert x in s <==> Get(f.env, x) == Ref(a);
    assert x in s' <==> v == Ref(a);
  }

  lemma OneAt(v: Value, a: nat)
    ensures One(v)[a] == if v == Ref(a) then 1 else 0
  {
  }

  lemma {:induction false} RefsUpdate(vs: seq<Value>, i: nat, v: Value, a: nat)
    requires i < |vs|
    ensures Refs(vs[i := v])[a] + One(vs[i])[a] == Refs(vs)[a] + One(v)[a]
  {
    hide One;
    if i > 0 {
      RefsUpdate(vs[1..], i - 1, v, a);
      assert vs[i := v][1..] == vs[1..][i - 1 := v];
    } else {
      assert vs[i := v][1..] == vs[1..];
    }
  }

  lemma {:induction false} RefsAt(vs: seq<Value>, i: nat)
    requires i < |vs|
    ensures One(vs[i]) <= Refs(vs)
  {
    if i > 0 {
      RefsAt(vs[1..], i - 1);
    }
  }

  lemma {:induction false} FieldUpdate(objs: seq<Obj>, i: nat, o: Obj, a: nat)
    requires i < |objs|
    ensures FieldOwners(objs[i := o], a) + Refs(FieldsOf(objs[i]))[a] == FieldOwners(objs, a) + Refs(FieldsOf(o))[a]
    decreases |objs|
  {
    var n := |objs| - 1;
    if i < n {
      assert objs[i := o][..n] == objs[..n][i := o];
      FieldUpdate(objs[..n], i, o, a);
    } else {
      assert objs[i := o][..n] == objs[..n];
    }
  }

  lemma {:induction false} FieldOwns(objs: seq<Obj>, i: nat, a: nat)
    requires i < |objs|
    ensures FieldOwners(objs, a) >= Refs(FieldsOf(objs[i]))[a]
    decreases |objs|
  {
    if i < |objs| - 1 {
      FieldOwns(objs[..|objs| - 1], i, a);
    }
  }

  // -- each step ----------------------------------------------------------------------------

  /** Owners may be forgotten: the count then covers more than is asked. */
  lemma Forget(fs: seq<Frame>, f: Frame, pend: multiset<nat>, less: multiset<nat>, objs: seq<Obj>)
    requires Covered(fs, f, pend, objs) && less <= pend
    ensures Covered(fs, f, less, objs)
  {
    forall a: nat | Owners(fs, f, less, objs, a) > 0
      ensures Live(objs, a) && objs[a].count >= Owners(fs, f, less, objs, a)
    {
      assert less[a] <= pend[a];
    }
  }

  lemma RetainCovers(fs: seq<Frame>, f: Frame, pend: multiset<nat>, objs: seq<Obj>, v: Value)
    requires Covered(fs, f, pend, objs) && Alive(objs, v)
    ensures Retain(objs, v).Some? && Covered(fs, f, pend + One(v), Retain(objs, v).value)
    ensures forall w | Alive(objs, w) :: Alive(Retain(objs, v).value, w)
  {
    if v.Ref? {
      var objs' := Retain(objs, v).value;
      forall a: nat
        ensures Owners(fs, f, pend + One(v), objs', a) == Owners(fs, f, pend, objs, a) + One(v)[a]
      {
        FieldUpdate(objs, v.a, objs'[v.a], a);
      }
    }
  }

  /** What a release may do to any object: lower its count, or free it. */
  predicate Shrunk(objs: seq<Obj>, objs': seq<Obj>)
  {
    && |objs| == |objs'|
    && forall i | 0 <= i < |objs| ::
         || objs'[i] == objs[i]
         || (objs[i].Counted? && objs'[i].Freed?)
         || (objs[i].Counted? && objs'[i].Counted? && objs'[i].fields == objs[i].fields)
  }

  lemma ShrunkTrans(a: seq<Obj>, b: seq<Obj>, c: seq<Obj>)
    requires Shrunk(a, b) && Shrunk(b, c)
    ensures Shrunk(a, c)
  {
  }

  lemma ShrunkOne(objs: seq<Obj>, a: nat, o: Obj)
    requires Live(objs, a) && (o.Freed? || (o.Counted? && o.fields == objs[a].fields))
    ensures Shrunk(objs, objs[a := o])
  {
  }

  lemma HeldCount(fs: seq<Frame>, f: Frame, pend: multiset<nat>, objs: seq<Obj>, a: nat)
    requires Covered(fs, f, pend + multiset{a}, objs)
    ensures Live(objs, a) && objs[a].count > 0
  {
    assert Owners(fs, f, pend + multiset{a}, objs, a) > 0;
  }

  lemma {:induction false} ReleaseCovers(fs: seq<Frame>, f: Frame, pend: multiset<nat>, objs: seq<Obj>, v: Value)
    requires Covered(fs, f, pend + One(v), objs)
    ensures Release(objs, v).Some? && Covered(fs, f, pend, Release(objs, v).value)
            && Shrunk(objs, Release(objs, v).value)
    decreases LiveObjs(objs), 0, 0
  {
    hide Covered, Refs, Shrunk;
    if v.Ref? {
      HeldCount(fs, f, pend, objs, v.a);
      var o := objs[v.a];
      if o.count > 1 {
        LowerCovers(fs, f, pend, objs, v.a);
        ShrunkOne(objs, v.a, o.(count := o.count - 1));
      } else {
        FreeCovers(fs, f, pend, objs, v.a);
        LiveUpdate(objs, v.a, Freed);
        ReleaseAllCovers(fs, f, pend, objs[v.a := Freed], o.fields);
        ShrunkOne(objs, v.a, Freed);
        ShrunkTrans(objs, objs[v.a := Freed], Release(objs, v).value);
      }
    } else {
      assert pend + One(v) == pend;
      ShrunkRefl(objs);
    }
  }

  lemma ShrunkRefl(objs: seq<Obj>)
    ensures Shrunk(objs, objs)
  {
  }

  lemma LowerCovers(fs: seq<Frame>, f: Frame, pend: multiset<nat>, objs: seq<Obj>, a: nat)
    requires Covered(fs, f, pend + multiset{a}, objs) && Live(objs, a) && objs[a].count > 1
    ensures Covered(fs, f, pend, objs[a := objs[a].(count := objs[a].count - 1)])
  {
    var o' := objs[a].(count := objs[a].count - 1);
    forall b: nat
      ensures Owners(fs, f, pend, objs[a := o'], b) + multiset{a}[b] == Owners(fs, f, pend + multiset{a}, objs, b)
    {
      FieldUpdate(objs, a, o', b);
    }
  }

  /** The last owner of an object is the reference being released, so nobody is left
      when it is freed; what its fields owned is now pending. */
  lemma FreeCovers(fs: seq<Frame>, f: Frame, pend: multiset<nat>, objs: seq<Obj>, a: nat)
    requires Covered(fs, f, pend + multiset{a}, objs) && Live(objs, a) && objs[a].count <= 1
    ensures Covered(fs, f, pend + Refs(objs[a].fields), objs[a := Freed])
  {
    var vs, objs' := objs[a].fields, objs[a := Freed];
    forall b: nat | Owners(fs, f, pend + Refs(vs), objs', b) > 0
      ensures Live(objs', b) && objs'[b].count >= Owners(fs, f, pend + Refs(vs), objs', b)
    {
      FieldUpdate(objs, a, Freed, b);
      assert Refs(FieldsOf(Freed))[b] == 0;
      hide FieldOwners, FrameOwners, LocalSites, Refs;
      assert Owners(fs, f, pend + Refs(vs), objs', b) + multiset{a}[b] == Owners(fs, f, pend + multiset{a}, objs, b);
    }
  }

  lemma {:induction false} ReleaseAllCovers(fs: seq<Frame>, f: Frame, pend: multiset<nat>, objs: seq<Obj>,
                                            vs: seq<Value>)
    requires Covered(fs, f, pend + Refs(vs), objs)
    ensures ReleaseAll(objs, vs).Some? && Covered(fs, f, pend, ReleaseAll(objs, vs).value)
            && Shrunk(objs, ReleaseAll(objs, vs).value)
    decreases LiveObjs(objs), 1, |vs|
  {
    if vs != [] {
      assert pend + Refs(vs) == pend + Refs(vs[1..]) + One(vs[0]);
      ReleaseCovers(fs, f, pend + Refs(vs[1..]), objs, vs[0]);
      ReleaseAllCovers(fs, f, pend, Release(objs, vs[0]).value, vs[1..]);
      ShrunkTrans(objs, Release(objs, vs[0]).value, ReleaseAll(objs, vs).value);
    } else {
      assert pend + Refs(vs) == pend;
    }
  }

  /** A local takes a pending reference, and its old one becomes pending. */
  lemma SetCovers(fs: seq<Frame>, f: Frame, pend: multiset<nat>, objs: seq<Obj>, x: LocalId, v: Value)
    requires Covered(fs, f, pend + One(v), objs) && x !in f.params
    ensures Covered(fs, f.(env := f.env[x := v]), pend + One(Get(f.env, x)), objs)
  {
    forall a: nat
      ensures Owners(fs, f.(env := f.env[x := v]), pend + One(Get(f.env, x)), objs, a)
              == Owners(fs, f, pend + One(v), objs, a)
    {
      SetSites(f, x, v, a);
    }
  }

  /** A field takes a pending reference, and its old one becomes pending. */
  lemma StoreCovers(fs: seq<Frame>, f: Frame, pend: multiset<nat>, objs: seq<Obj>, o: nat, i: nat, v: Value)
    requires Covered(fs, f, pend + One(v), objs) && o < |objs| && !objs[o].Freed? && i < |objs[o].fields|
    ensures Covered(fs, f, pend + One(objs[o].fields[i]), objs[o := objs[o].(fields := objs[o].fields[i := v])])
  {
    var was, vs := objs[o].fields[i], objs[o].fields[i := v];
    var objs' := objs[o := objs[o].(fields := vs)];
    assert FieldsOf(objs'[o]) == vs && FieldsOf(objs[o]) == objs[o].fields;
    forall a: nat
      ensures Owners(fs, f, pend + One(was), objs', a) == Owners(fs, f, pend + One(v), objs, a)
    {
      FieldUpdate(objs, o, objs'[o], a);
      RefsUpdate(objs[o].fields, i, v, a);
    }
  }

  lemma {:induction false} RefsAppend(vs: seq<Value>, v: Value, a: nat)
    ensures Refs(vs + [v])[a] == Refs(vs)[a] + One(v)[a]
    decreases vs
  {
    if vs == [] {
      assert [v][1..] == [] && vs + [v] == [v];
    } else {
      assert (vs + [v])[1..] == vs[1..] + [v];
      RefsAppend(vs[1..], v, a);
    }
  }

  /** A list takes a pending reference as its last item. */
  lemma PushCovers(fs: seq<Frame>, f: Frame, pend: multiset<nat>, objs: seq<Obj>, g: nat, v: Value)
    requires Covered(fs, f, pend + One(v), objs) && g < |objs| && objs[g].Plain?
    ensures Covered(fs, f, pend, objs[g := Obj.Plain(objs[g].fields + [v])])
  {
    var objs' := objs[g := Obj.Plain(objs[g].fields + [v])];
    forall a: nat
      ensures Owners(fs, f, pend, objs', a) == Owners(fs, f, pend + One(v), objs, a)
    {
      FieldUpdate(objs, g, objs'[g], a);
      RefsAppend(objs[g].fields, v, a);
    }
  }

  /** A new object owns what its fields were given; a counted one starts at one. */
  lemma AllocCovers(fs: seq<Frame>, f: Frame, pend: multiset<nat>, objs: seq<Obj>, vs: seq<Value>, counted: bool)
    requires Covered(fs, f, pend + Refs(vs), objs)
    ensures Covered(fs, f, pend + (if counted then multiset{|objs|} else multiset{}),
                    objs + [if counted then Counted(1, vs) else Obj.Plain(vs)])
  {
    var n := |objs|;
    var o := if counted then Counted(1, vs) else Obj.Plain(vs);
    var extra := if counted then multiset{n} else multiset{};
    assert (objs + [o])[..n] == objs;
    assert Owners(fs, f, pend + Refs(vs), objs, n) == 0;
    forall a: nat
      ensures Owners(fs, f, pend + extra, objs + [o], a) == Owners(fs, f, pend + Refs(vs), objs, a) + extra[a]
    {
    }
  }

  // -- frames -------------------------------------------------------------------------------

  /** Entering a call: the caller's locals own as before, from one frame further out. */
  lemma EnterCovers(fs: seq<Frame>, f: Frame, pend: multiset<nat>, objs: seq<Obj>, f': Frame)
    requires Covered(fs, f, pend, objs) && (forall x <- f'.env :: x in f'.params)
    ensures Covered([f] + fs, f', pend, objs)
  {
    forall a: nat
      ensures Owners([f] + fs, f', pend, objs, a) == Owners(fs, f, pend, objs, a)
    {
      assert LocalSites(f', a) == {};
      assert ([f] + fs)[1..] == fs;
    }
  }

  lemma ReturnCovers(fs: seq<Frame>, f: Frame, pend: multiset<nat>, objs: seq<Obj>, f': Frame)
    requires Covered([f] + fs, f', pend, objs)
    ensures Covered(fs, f, pend, objs)
  {
    assert ([f] + fs)[1..] == fs;
    forall a: nat | Owners(fs, f, pend, objs, a) > 0
      ensures Live(objs, a) && objs[a].count >= Owners(fs, f, pend, objs, a)
    {
      assert Owners([f] + fs, f', pend, objs, a) >= Owners(fs, f, pend, objs, a);
    }
  }

  function ValuesOf(env: Env, o: seq<LocalId>): seq<Value>
  {
    if o == [] then [] else [Get(env, o[|o| - 1])] + ValuesOf(env, o[..|o| - 1])
  }

  /** Distinct owned locals own at least one reference each. */
  lemma {:induction false} LocalsOwn(f: Frame, o: seq<LocalId>, a: nat)
    requires NoDup(o) && (forall x <- o :: x !in f.params)
    ensures Refs(ValuesOf(f.env, o))[a] <= |LocalSites(f, a)|
  {
    SitesIn(f, o, a);
    SubsetSize((set x | x in o && Get(f.env, x) == Ref(a)), LocalSites(f, a));
  }

  lemma SubsetSize(a: set<LocalId>, b: set<LocalId>)
    requires a <= b
    ensures |a| <= |b|
  {
    assert b == a + (b - a);
  }

  lemma {:induction false} SitesIn(f: Frame, o: seq<LocalId>, a: nat)
    requires NoDup(o)
    ensures Refs(ValuesOf(f.env, o))[a] == |set x | x in o && Get(f.env, x) == Ref(a)|
    decreases o
  {
    if o != [] {
      var last, init := o[|o| - 1], o[..|o| - 1];
      var v := Get(f.env, last);
      SitesIn(f, init, a);
      var s := set x | x in o && Get(f.env, x) == Ref(a);
      var s' := set x | x in init && Get(f.env, x) == Ref(a);
      assert last !in init;
      assert s - {last} == s' - {last};
      SwapSize(s', s, last);
      assert last !in s' && (last in s <==> v == Ref(a));
      RefsCons(v, ValuesOf(f.env, init), a);
      OneAt(v, a);
      hide Refs, One;
      assert ValuesOf(f.env, o) == [v] + ValuesOf(f.env, init);
    }
  }

  lemma RefsCons(v: Value, vs: seq<Value>, a: nat)
    ensures Refs([v] + vs)[a] == One(v)[a] + Refs(vs)[a]
  {
    assert ([v] + vs)[1..] == vs;
  }

  /** The frame ends: its owned locals' references become pending, the rest is forgotten. */
  lemma EndCovers(fs: seq<Frame>, f: Frame, pend: multiset<nat>, objs: seq<Obj>, o: seq<LocalId>, f': Frame)
    requires Covered(fs, f, pend, objs) && NoDup(o) && (forall x <- o :: x !in f.params) && f'.env == map[]
    ensures Covered(fs, f', pend + Refs(ValuesOf(f.env, o)), objs)
  {
    forall a: nat | Owners(fs, f', pend + Refs(ValuesOf(f.env, o)), objs, a) > 0
      ensures Live(objs, a) && objs[a].count >= Owners(fs, f', pend + Refs(ValuesOf(f.env, o)), objs, a)
    {
      LocalsOwn(f, o, a);
      assert LocalSites(f', a) == {};
      assert Owners(fs, f, pend, objs, a) >= Owners(fs, f', pend + Refs(ValuesOf(f.env, o)), objs, a);
    }
  }

  lemma {:induction false} ReleaseLocalsIs(o: seq<LocalId>, st: State)
    ensures ReleaseLocals(o, st) == ReleaseAll(st.objs, ValuesOf(st.env, o))
    decreases o
  {
    if o != [] {
      var v := Get(st.env, o[|o| - 1]);
      var r := Release(st.objs, v);
      if r.Some? {
        ReleaseLocalsIs(o[..|o| - 1], st.(objs := r.value));
      }
    }
  }
}
