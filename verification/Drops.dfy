/**
 Finalizer ids: the id stamped into an allocation's descriptor and the registry that maps
 ids to compiled `drop` methods.
 */
module Drops {
  import opened Hir
  import opened StaticCast
  import opened Mangle
  import W = Worklist

  const GENERIC_BASE: nat := 0x100_0000_0000

  /** The `extend` block that implements `Drop` for a type: its `drop` method and whether
      the block is generic. */
  datatype Ext = Ext(method_: DefId, generic: bool)

  type Impls = map<DefId, Ext>
  type Funcs = map<Instance, nat>

  /** Every `extend` block belongs to one type, so its method does. */
  predicate MethodsApart(impls: Impls)
  {
    forall a, b | a in impls && b in impls && a != b :: impls[a].method_ != impls[b].method_
  }

  /** Definition indices stay below the generic range. */
  predicate IndicesSmall(impls: Impls)
  {
    forall d <- impls :: 1000 + d < GENERIC_BASE
  }

  predicate HasDrop(impls: Impls, t: Ty)
  {
    t.Named? && t.def in impls
  }

  /** The `drop` instance an allocation of type `t` declares. */
  function DropOf(impls: Impls, t: Ty): Instance
    requires HasDrop(impls, t)
  {
    Instance(impls[t.def].method_, if impls[t.def].generic then t.args else [])
  }

  /** `drop_type_id`, once that instance is declared; 0 means no finalizer. */
  function Stamp(impls: Impls, funcs: Funcs, t: Ty): int
    requires HasDrop(impls, t) ==> DropOf(impls, t) in funcs
  {
    if !HasDrop(impls, t) then 0
    else if impls[t.def].generic then GENERIC_BASE + funcs[DropOf(impls, t)]
    else 1000 + t.def
  }

  // -- the registry ------------------------------------------------------------------------

  /** Types registered under their own id. */
  function PlainKeys(impls: Impls, funcs: Funcs): set<DefId>
  {
    set d | d in impls && !impls[d].generic && Instance(impls[d].method_, []) in funcs
  }

  /** Instances registered under an id of their own. */
  function GenericKeys(impls: Impls, funcs: Funcs): set<Instance>
  {
    set i | i in funcs && i.args != [] && IsGenericDrop(impls, i.def)
  }

  predicate IsGenericDrop(impls: Impls, m: DefId)
  {
    exists d :: d in impls && impls[d].generic && impls[d].method_ == m
  }

  datatype Entry = Entry(id: int, fid: nat)

  function PlainEntry(impls: Impls, funcs: Funcs, d: DefId): Entry
    requires d in PlainKeys(impls, funcs)
  {
    Entry(1000 + d, funcs[Instance(impls[d].method_, [])])
  }

  function GenericEntry(funcs: Funcs, i: Instance): Entry
    requires i in funcs
  {
    Entry(GENERIC_BASE + funcs[i], funcs[i])
  }

  /** No two generic `drop` instances were given one function id. */
  predicate IdsApart(impls: Impls, funcs: Funcs)
  {
    forall i, j | i in GenericKeys(impls, funcs) && j in GenericKeys(impls, funcs) && i != j :: funcs[i] != funcs[j]
  }

  predicate OncePerId(out: seq<Entry>)
  {
    forall a, b | 0 <= a < b < |out| :: out[a].id != out[b].id
  }

  /** `out` holds the entries of `ds` and `gs`. */
  ghost predicate Holds(impls: Impls, funcs: Funcs, out: seq<Entry>, ds: set<DefId>, gs: set<Instance>)
    requires ds <= PlainKeys(impls, funcs) && gs <= GenericKeys(impls, funcs)
  {
    && (forall d <- ds :: PlainEntry(impls, funcs, d) in out)
    && (forall i <- gs :: GenericEntry(funcs, i) in out)
    && (forall e <- out ::
        (exists d :: d in ds && e == PlainEntry(impls, funcs, d))
          || (exists i :: i in gs && e == GenericEntry(funcs, i)))
  }

  /** The entry of a type whose `Drop` is not generic: 1000 and the type, with the method. */
  ghost predicate ForPlain(impls: Impls, funcs: Funcs, e: Entry)
  {
    exists d: DefId :: d in impls && !impls[d].generic && Instance(impls[d].method_, []) in funcs
                       && e.id == 1000 + d && e.fid == funcs[Instance(impls[d].method_, [])]
  }

  /** The entry of a compiled instance of a generic `Drop` method: an id above all others,
      from the function itself. */
  ghost predicate ForInstance(impls: Impls, funcs: Funcs, e: Entry)
  {
    exists i: Instance, d: DefId ::
      i in funcs && i.args != [] && d in impls && impls[d].generic && impls[d].method_ == i.def
      && e.fid == funcs[i] && e.id == 0x100_0000_0000 + e.fid
  }

  lemma HoldsExactly(impls: Impls, funcs: Funcs, out: seq<Entry>, e: Entry)
    requires Holds(impls, funcs, out, PlainKeys(impls, funcs), GenericKeys(impls, funcs))
    ensures e in out <==> ForPlain(impls, funcs, e) || ForInstance(impls, funcs, e)
  {
    if e in out {
      if d :| d in PlainKeys(impls, funcs) && e == PlainEntry(impls, funcs, d) {
        assert ForPlain(impls, funcs, e);
      } else {
        var i :| i in GenericKeys(impls, funcs) && e == GenericEntry(funcs, i);
        assert ForInstance(impls, funcs, e);
      }
    }
    if ForPlain(impls, funcs, e) {
      var d: DefId :| d in impls && !impls[d].generic && Instance(impls[d].method_, []) in funcs
                      && e.id == 1000 + d && e.fid == funcs[Instance(impls[d].method_, [])];
      assert d in PlainKeys(impls, funcs) && e == PlainEntry(impls, funcs, d);
    }
    if ForInstance(impls, funcs, e) {
      var i: Instance, d: DefId :|
        i in funcs && i.args != [] && d in impls && impls[d].generic && impls[d].method_ == i.def
        && e.fid == funcs[i] && e.id == 0x100_0000_0000 + e.fid;
      assert IsGenericDrop(impls, i.def);
      assert i in GenericKeys(impls, funcs) && e == GenericEntry(funcs, i);
    }
  }

  /** `collect_drops`: the non-generic types, then every generic instance. */
  method CollectDrops(impls: Impls, funcs: Funcs) returns (out: seq<Entry>)
    requires IndicesSmall(impls)
    ensures Holds(impls, funcs, out, PlainKeys(impls, funcs), GenericKeys(impls, funcs))
    ensures forall e: Entry :: e in out <==> ForPlain(impls, funcs, e) || ForInstance(impls, funcs, e)
    ensures ById(out) && (IdsApart(impls, funcs) ==> OncePerId(out))
  {
    out := [];
    var ds, all := PlainKeys(impls, funcs), PlainKeys(impls, funcs);
    while ds != {}
      invariant ds <= all
      invariant Holds(impls, funcs, out, all - ds, {}) && OncePerId(out)
    {
      var d :| d in ds;
      var e := PlainEntry(impls, funcs, d);
      AddPlain(impls, funcs, out, all - ds, d);
      out := out + [e];
      ds := ds - {d};
      assert all - ds == (all - (ds + {d})) + {d};
    }
    assert all - ds == all;
    var gs, every := GenericKeys(impls, funcs), GenericKeys(impls, funcs);
    assert every - gs == {};
    while gs != {}
      invariant gs <= every
      invariant Holds(impls, funcs, out, all, every - gs) && (IdsApart(impls, funcs) ==> OncePerId(out))
    {
      var i :| i in gs;
      AddGeneric(impls, funcs, out, all, every - gs, i);
      out := out + [GenericEntry(funcs, i)];
      gs := gs - {i};
      assert every - gs == (every - (gs + {i})) + {i};
    }
    assert every - gs == every;
    var sorted := SortById(out);
    assert Holds(impls, funcs, sorted, all, every) by {
      assert forall e <- out :: e in sorted;
    }
    out := sorted;
    forall e: Entry
      ensures e in out <==> ForPlain(impls, funcs, e) || ForInstance(impls, funcs, e)
    {
      HoldsExactly(impls, funcs, out, e);
    }
  }

  predicate ById(out: seq<Entry>)
  {
    forall a, b | 0 <= a < b < |out| :: out[a].id <= out[b].id
  }

  /** The entries in the order of their ids. */
  method SortById(xs: seq<Entry>) returns (ys: seq<Entry>)
    ensures ById(ys) && |ys| == |xs| && (forall e :: e in ys <==> e in xs)
    ensures OncePerId(xs) ==> OncePerId(ys)
  {
    ys := [];
    for n := 0 to |xs|
      invariant ById(ys) && |ys| == n && (forall e :: e in ys <==> e in xs[..n])
      invariant OncePerId(xs) ==> OncePerId(ys)
    {
      ghost var was := ys;
      var at := 0;
      while at < |ys| && ys[at].id <= xs[n].id
        invariant at <= |ys| && forall a | 0 <= a < at :: ys[a].id <= xs[n].id
      {
        at := at + 1;
      }
      ys := ys[..at] + [xs[n]] + ys[at..];
      Inserted(was, at, xs[n]);
      if OncePerId(xs) {
        forall a | 0 <= a < n ensures was[a].id != xs[n].id {
          assert was[a] in xs[..n];
        }
        InsertedOnce(was, at, xs[n]);
      }
      assert xs[..n + 1] == xs[..n] + [xs[n]];
    }
    assert xs[..|xs|] == xs;
  }

  lemma Inserted(ys: seq<Entry>, at: nat, e: Entry)
    requires ById(ys) && at <= |ys| && (forall a | 0 <= a < at :: ys[a].id <= e.id)
    requires at < |ys| ==> e.id < ys[at].id
    ensures var zs := ys[..at] + [e] + ys[at..];
            ById(zs) && |zs| == |ys| + 1 && forall x :: x in zs <==> x in ys || x == e
  {
    assert ys == ys[..at] + ys[at..];
  }

  lemma InsertedOnce(ys: seq<Entry>, at: nat, e: Entry)
    requires OncePerId(ys) && at <= |ys| && (forall a | 0 <= a < |ys| :: ys[a].id != e.id)
    ensures OncePerId(ys[..at] + [e] + ys[at..])
  {
  }

  lemma AddPlain(impls: Impls, funcs: Funcs, out: seq<Entry>, ds: set<DefId>, d: DefId)
    requires ds <= PlainKeys(impls, funcs) && Holds(impls, funcs, out, ds, {}) && OncePerId(out)
    requires d in PlainKeys(impls, funcs) && d !in ds
    ensures Holds(impls, funcs, out + [PlainEntry(impls, funcs, d)], ds + {d}, {})
            && OncePerId(out + [PlainEntry(impls, funcs, d)])
  {
    var e := PlainEntry(impls, funcs, d);
    forall k | 0 <= k < |out| ensures out[k].id != e.id { assert out[k] in out; }
    forall x <- out + [e] ensures (exists c :: c in ds + {d} && x == PlainEntry(impls, funcs, c)) {
      if x in out {
        var c :| c in ds && x == PlainEntry(impls, funcs, c);
        assert c in ds + {d};
      } else {
        assert d in ds + {d};
      }
    }
  }

  lemma AddGeneric(impls: Impls, funcs: Funcs, out: seq<Entry>, ds: set<DefId>, gs: set<Instance>, i: Instance)
    requires ds <= PlainKeys(impls, funcs) && gs <= GenericKeys(impls, funcs) && IndicesSmall(impls)
    requires Holds(impls, funcs, out, ds, gs) && (IdsApart(impls, funcs) ==> OncePerId(out))
    requires i in GenericKeys(impls, funcs) && i !in gs
    ensures Holds(impls, funcs, out + [GenericEntry(funcs, i)], ds, gs + {i})
    ensures IdsApart(impls, funcs) ==> OncePerId(out + [GenericEntry(funcs, i)])
  {
    var e := GenericEntry(funcs, i);
    if IdsApart(impls, funcs) {
      forall k | 0 <= k < |out| ensures out[k].id != e.id { assert out[k] in out; }
    }
    forall x <- out + [e]
      ensures (exists d :: d in ds && x == PlainEntry(impls, funcs, d))
              || (exists j :: j in gs + {i} && x == GenericEntry(funcs, j))
    {
      if x in out {
        if j :| j in gs && x == GenericEntry(funcs, j) {
          assert j in gs + {i};
        }
      } else {
        assert i in gs + {i};
      }
    }
  }

  // -- stamped ids are registered ---------------------------------------------------------------

  /** The registry has exactly one entry for the id, and it is `t`'s `drop` instance. */
  predicate RegisteredOnce(impls: Impls, funcs: Funcs, t: Ty, out: seq<Entry>)
    requires HasDrop(impls, t) && DropOf(impls, t) in funcs
  {
    && Entry(Stamp(impls, funcs, t), funcs[DropOf(impls, t)]) in out
    && forall a, b | 0 <= a < |out| && 0 <= b < |out| ::
         out[a].id == Stamp(impls, funcs, t) && out[b].id == Stamp(impls, funcs, t) ==> a == b
  }

  /** Different `drop` instances have different function ids. */
  predicate DropsApart(impls: Impls, funcs: Funcs)
  {
    forall i, j | i in funcs && j in funcs && i != j && IsDrop(impls, i.def) && IsDrop(impls, j.def) ::
      funcs[i] != funcs[j]
  }

  predicate IsDrop(impls: Impls, m: DefId)
  {
    exists d :: d in impls && impls[d].method_ == m
  }

  /** A stamped id is registered once, with the `drop` instance of that very type, exactly
      when the type carries an argument or its `Drop` is not generic; and the ids of
      generic and other types never meet. */
  lemma StampedIsRegistered(impls: Impls, funcs: Funcs, t: Ty, out: seq<Entry>)
    requires MethodsApart(impls) && IndicesSmall(impls) && HasDrop(impls, t) && DropOf(impls, t) in funcs
    requires DropsApart(impls, funcs)
    requires Holds(impls, funcs, out, PlainKeys(impls, funcs), GenericKeys(impls, funcs)) && OncePerId(out)
    ensures Stamp(impls, funcs, t) != 0
    ensures impls[t.def].generic <==> Stamp(impls, funcs, t) >= GENERIC_BASE
    ensures RegisteredOnce(impls, funcs, t, out) <==> (impls[t.def].generic ==> t.args != [])
  {
    var i := DropOf(impls, t);
    if !impls[t.def].generic {
      assert t.def in PlainKeys(impls, funcs);
      assert PlainEntry(impls, funcs, t.def) in out;
    } else if t.args != [] {
      assert IsGenericDrop(impls, i.def);
      assert i in GenericKeys(impls, funcs);
      assert GenericEntry(funcs, i) in out;
    } else {
      var e := Entry(Stamp(impls, funcs, t), funcs[i]);
      assert forall d <- PlainKeys(impls, funcs) :: PlainEntry(impls, funcs, d) != e;
      assert forall j <- GenericKeys(impls, funcs) :: GenericEntry(funcs, j) != e;
    }
  }

  /** The `drop` instance of a type is the method of its `extend` block, at the type's own
      arguments in their order if that block is generic and at none otherwise. */
  lemma DropIs(impls: Impls, t: Ty)
    requires HasDrop(impls, t)
    ensures var i, ext := DropOf(impls, t), impls[t.def];
            && i.def == ext.method_
            && |i.args| == (if ext.generic then |t.args| else 0)
            && forall k | 0 <= k < |i.args| :: i.args[k] == t.args[k]
  {
  }

  /** Different types with finalizers carry different ids, if their `drop` instances do. */
  lemma StampsApart(impls: Impls, funcs: Funcs, t: Ty, u: Ty)
    requires MethodsApart(impls) && IndicesSmall(impls)
    requires HasDrop(impls, t) && DropOf(impls, t) in funcs && HasDrop(impls, u) && DropOf(impls, u) in funcs
    requires funcs[DropOf(impls, t)] == funcs[DropOf(impls, u)] ==> DropOf(impls, t) == DropOf(impls, u)
    ensures Stamp(impls, funcs, t) == Stamp(impls, funcs, u) <==> DropOf(impls, t) == DropOf(impls, u)
  {
  }

  // -- after a successful compilation ---------------------------------------------------------------

  /** `drop` methods have bodies, so a run that ended without confusing two instances gave
      them ids of their own. */
  lemma RunKeepsDropsApart(p: W.Prog, s: W.Snap, impls: Impls)
    requires W.Inv(p, s, None, 0) && W.Idle(s) && forall d <- impls :: impls[d].method_ in p.present
    ensures DropsApart(impls, s.funcs) && IdsApart(impls, s.funcs)
  {
    hide W.Inv, W.Idle, W.SymbolsOk, W.Missing, W.Refused, Ids;
    W.IdleIsComplete(p, s);
    W.SymbolsHold(p, s);
    assert !W.Clash(p, s);
    forall i, j | i in s.funcs && j in s.funcs && i != j && IsDrop(impls, i.def) && IsDrop(impls, j.def)
      ensures s.funcs[i] != s.funcs[j]
    {
      assert i.def in p.present;
      assert !W.Confusable(i, j);
      W.IdsExact(p, s, i, j);
    }
    forall i, j | i in GenericKeys(impls, s.funcs) && j in GenericKeys(impls, s.funcs) && i != j
      ensures s.funcs[i] != s.funcs[j]
    {
      assert IsDrop(impls, i.def) && IsDrop(impls, j.def);
    }
  }

  /** After a successful compilation, collecting the finalizers registers every stamped id
      once, with the `drop` of that very type, unless the type's `Drop` is generic and the
      type has no arguments. */
  method RegisterAfterRun(p: W.Prog, ghost s: W.Snap, impls: Impls, funcs: Funcs) returns (out: seq<Entry>)
    requires W.Inv(p, s, None, 0) && W.Idle(s) && funcs == s.funcs
             && (forall d <- impls :: impls[d].method_ in p.present)
    requires MethodsApart(impls) && IndicesSmall(impls)
    ensures forall t: Ty | HasDrop(impls, t) && DropOf(impls, t) in funcs ::
              RegisteredOnce(impls, funcs, t, out) <==> (impls[t.def].generic ==> t.args != [])
  {
    RunKeepsDropsApart(p, s, impls);
    out := CollectDrops(impls, funcs);
    hide W.Inv, W.Idle;
    forall t: Ty | HasDrop(impls, t) && DropOf(impls, t) in funcs
      ensures RegisteredOnce(impls, funcs, t, out) <==> (impls[t.def].generic ==> t.args != [])
    {
      StampedIsRegistered(impls, funcs, t, out);
    }
  }
}
