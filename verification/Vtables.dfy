/**
 Interface method tables against lookup by name: the entry a virtual call loads is the
 function a direct call resolves to.
 */
module Vtables {
  import opened Hir
  import opened StaticCast
  import opened Mangle

  datatype Kind = InterfaceMethod | ExtendMethod | OtherKind

  datatype Def = Def(kind: Kind, parent: Option<DefId>, name: string, generic: bool)

  /** The definition table, and the `extend` block that implements an interface for a
      nominal type. */
  datatype Defs = Defs(table: seq<Def>, impls: map<(DefId, DefId), DefId>)

  predicate IsMethodOf(ds: Defs, d: DefId, iface: DefId)
  {
    d < |ds.table| && ds.table[d].kind.InterfaceMethod? && ds.table[d].parent == Some(iface)
  }

  /** The methods of an interface among the first `n` definitions, in declaration order. */
  function Methods(ds: Defs, iface: DefId, n: nat): seq<DefId>
    requires n <= |ds.table|
  {
    if n == 0 then []
    else Methods(ds, iface, n - 1) + (if IsMethodOf(ds, n - 1, iface) then [n - 1] else [])
  }

  function Position(ms: seq<DefId>, m: DefId): Option<nat>
  {
    if ms == [] then None
    else if ms[0] == m then Some(0)
    else match Position(ms[1..], m) case None => None case Some(i) => Some(i + 1)
  }

  /** `vtable_slot`. */
  function VtableSlot(ds: Defs, m: DefId): Option<nat>
  {
    if m >= |ds.table| || ds.table[m].parent.None? then None
    else Position(Methods(ds, ds.table[m].parent.value, |ds.table|), m)
  }

  predicate IsImpl(ds: Defs, d: DefId, ext: DefId, name: string)
  {
    d < |ds.table| && ds.table[d].kind.ExtendMethod? && ds.table[d].parent == Some(ext) && ds.table[d].name == name
  }

  /** The first method of that name in the `extend` block, from definition `d` on. */
  function FindImpl(ds: Defs, ext: DefId, name: string, d: DefId): Option<DefId>
    decreases |ds.table| - d
  {
    if d >= |ds.table| then None
    else if IsImpl(ds, d, ext, name) then Some(d)
    else FindImpl(ds, ext, name, d + 1)
  }

  predicate GenericExtend(ds: Defs, ext: DefId)
  {
    ext < |ds.table| && ds.table[ext].generic
  }

  /** A generic `extend` takes the receiver's type arguments. */
  function Targs(ds: Defs, ext: DefId, args: seq<Ty>): seq<Ty>
  {
    if GenericExtend(ds, ext) then args else []
  }

  /** `resolve_iface_method`: the type is resolved, its arguments are passed as they are. */
  function Resolve(ds: Defs, sub: Subst, m: DefId, t: Ty): Option<Instance>
  {
    var recv := Shallow(sub, t);
    if m >= |ds.table| || ds.table[m].parent.None? || !recv.Named? then None
    else
      var key := (recv.def, ds.table[m].parent.value);
      if key !in ds.impls then None
      else
        match FindImpl(ds, ds.impls[key], ds.table[m].name, 0)
        case None => None
        case Some(d) => Some(Instance(d, Targs(ds, ds.impls[key], recv.args)))
  }

  function NameOf(ds: Defs, d: DefId): string
  {
    if d < |ds.table| then ds.table[d].name else ""
  }

  function ShallowAll(sub: Subst, ts: seq<Ty>): (r: seq<Ty>)
    ensures |r| == |ts|
    ensures forall i | 0 <= i < |ts| :: r[i] == Shallow(sub, ts[i])
  {
    seq(|ts|, i requires 0 <= i < |ts| => Shallow(sub, ts[i]))
  }

  /** The table of a type for an interface: one entry per method, in order. The type and
      each of its arguments are resolved. */
  function Table(ds: Defs, sub: Subst, t: Ty, iface: DefId): Option<seq<Instance>>
  {
    var concrete := Shallow(sub, t);
    if !concrete.Named? || (concrete.def, iface) !in ds.impls then None
    else
      var ext, ms := ds.impls[(concrete.def, iface)], Methods(ds, iface, |ds.table|);
      if exists i :: 0 <= i < |ms| && FindImpl(ds, ext, NameOf(ds, ms[i]), 0).None? then None
      else Some(seq(|ms|, i requires 0 <= i < |ms| && FindImpl(ds, ext, NameOf(ds, ms[i]), 0).Some? =>
                            Instance(FindImpl(ds, ext, NameOf(ds, ms[i]), 0).value,
                                     Targs(ds, ext, ShallowAll(sub, concrete.args)))))
  }

  /** `emit_vtable`: the table, or an error when the type is not nominal or a method has no
      implementation. */
  method EmitVtable(ds: Defs, sub: Subst, t: Ty, iface: DefId) returns (r: Option<seq<Instance>>)
    ensures r == Table(ds, sub, t, iface)
    ensures r.None? ==>
              || !Shallow(sub, t).Named?
              || (Shallow(sub, t).def, iface) !in ds.impls
              || exists m :: IsMethodOf(ds, m, iface) && Resolve(ds, sub, m, t).None?
  {
    var concrete := Shallow(sub, t);
    if !concrete.Named? {
      return None;
    }
    var cargs: seq<Ty> := [];
    for i := 0 to |concrete.args|
      invariant cargs == ShallowAll(sub, concrete.args)[..i]
    {
      cargs := cargs + [Shallow(sub, concrete.args[i])];
    }
    if (concrete.def, iface) !in ds.impls {
      return None;
    }
    var ext := ds.impls[(concrete.def, iface)];
    var ms := Methods(ds, iface, |ds.table|);
    var entries: seq<Instance> := [];
    for i := 0 to |ms|
      invariant |entries| == i
      invariant forall j | 0 <= j < i ::
                  FindImpl(ds, ext, NameOf(ds, ms[j]), 0) == Some(entries[j].def)
                    && entries[j].args == Targs(ds, ext, cargs)
    {
      MethodsAre(ds, iface, |ds.table|, i);
      var found := FindImpl(ds, ext, ds.table[ms[i]].name, 0);
      if found.None? {
        assert IsMethodOf(ds, ms[i], iface) && Resolve(ds, sub, ms[i], t).None?;
        return None;
      }
      entries := entries + [Instance(found.value, Targs(ds, ext, cargs))];
    }
    assert !exists i :: 0 <= i < |ms| && FindImpl(ds, ext, NameOf(ds, ms[i]), 0).None?;
    assert cargs == ShallowAll(sub, concrete.args);
    assert entries == Table(ds, sub, t, iface).value;
    return Some(entries);
  }

  lemma {:induction false} MethodsAre(ds: Defs, iface: DefId, n: nat, i: nat)
    requires n <= |ds.table| && i < |Methods(ds, iface, n)|
    ensures IsMethodOf(ds, Methods(ds, iface, n)[i], iface) && Methods(ds, iface, n)[i] < n
  {
    if i < |Methods(ds, iface, n - 1)| {
      MethodsAre(ds, iface, n - 1, i);
    }
  }

  lemma {:induction false} MethodsHave(ds: Defs, iface: DefId, n: nat, m: DefId)
    requires m < n <= |ds.table| && IsMethodOf(ds, m, iface)
    ensures m in Methods(ds, iface, n)
  {
    if m < n - 1 {
      MethodsHave(ds, iface, n - 1, m);
    }
  }

  lemma {:induction false} PositionIs(ms: seq<DefId>, m: DefId)
    ensures Position(ms, m).Some? <==> m in ms
    ensures Position(ms, m).Some? ==> Position(ms, m).value < |ms| && ms[Position(ms, m).value] == m
  {
    if ms != [] && ms[0] != m {
      PositionIs(ms[1..], m);
    }
  }

  /** The arguments of the type mention no parameter that the table resolves. */
  predicate Settled(sub: Subst, args: seq<Ty>)
  {
    forall i | 0 <= i < |args| :: Shallow(sub, args[i]) == args[i]
  }

  /** A table entry and lookup by name name the same method. They name the same instance of
      it if and only if the `extend` is not generic or the type's arguments are settled. */
  lemma EntryExactly(ds: Defs, sub: Subst, t: Ty, iface: DefId, i: nat)
    requires Table(ds, sub, t, iface).Some? && i < |Methods(ds, iface, |ds.table|)|
    ensures var m, e := Methods(ds, iface, |ds.table|)[i], Table(ds, sub, t, iface).value[i];
            var concrete := Shallow(sub, t);
            && Resolve(ds, sub, m, t).Some? && Resolve(ds, sub, m, t).value.def == e.def
            && (Resolve(ds, sub, m, t) == Some(e)
                <==> !GenericExtend(ds, ds.impls[(concrete.def, iface)]) || Settled(sub, concrete.args))
  {
    MethodsAre(ds, iface, |ds.table|, i);
    var args := Shallow(sub, t).args;
    assert ShallowAll(sub, args) == args <==> Settled(sub, args);
  }

  /** Every interface method has a slot of its own, and in every table emitted for its
      interface that slot holds the method that a direct call resolves to, in the same
      instance under the same condition. */
  lemma SlotExactly(ds: Defs, sub: Subst, t: Ty, m: DefId, iface: DefId)
    requires IsMethodOf(ds, m, iface) && Table(ds, sub, t, iface).Some?
    ensures VtableSlot(ds, m).Some? && VtableSlot(ds, m).value < |Table(ds, sub, t, iface).value|
    ensures var e := Table(ds, sub, t, iface).value[VtableSlot(ds, m).value];
            && Resolve(ds, sub, m, t).Some? && Resolve(ds, sub, m, t).value.def == e.def
            && (Resolve(ds, sub, m, t) == Some(e)
                <==> !GenericExtend(ds, ds.impls[(Shallow(sub, t).def, iface)]) || Settled(sub, Shallow(sub, t).args))
    ensures forall m' | IsMethodOf(ds, m', iface) && m' != m :: VtableSlot(ds, m') != VtableSlot(ds, m)
  {
    var ms := Methods(ds, iface, |ds.table|);
    MethodsHave(ds, iface, |ds.table|, m);
    PositionIs(ms, m);
    EntryExactly(ds, sub, t, iface, VtableSlot(ds, m).value);
    forall m' | IsMethodOf(ds, m', iface) && m' != m
      ensures VtableSlot(ds, m') != VtableSlot(ds, m)
    {
      PositionIs(ms, m');
    }
  }

  /** What a resolved instance is: a method of that name in the very `extend` block, and
      the first such. */
  lemma {:induction false} FindImplFirst(ds: Defs, ext: DefId, name: string, d: DefId)
    ensures match FindImpl(ds, ext, name, d)
            case None => forall i | d <= i < |ds.table| :: !IsImpl(ds, i, ext, name)
            case Some(r) => d <= r && IsImpl(ds, r, ext, name) && forall i | d <= i < r :: !IsImpl(ds, i, ext, name)
    decreases |ds.table| - d
  {
    if d < |ds.table| && !IsImpl(ds, d, ext, name) {
      FindImplFirst(ds, ext, name, d + 1);
    }
  }

  // -- in terms of the definition table ------------------------------------------------------

  /** `d` is a method of that name in the `extend` block, and the first such definition. */
  predicate FirstNamed(ds: Defs, d: DefId, ext: DefId, name: string)
  {
    && d < |ds.table| && ds.table[d].kind == ExtendMethod && ds.table[d].parent == Some(ext)
    && ds.table[d].name == name
    && forall i | 0 <= i < d ::
         ds.table[i].kind == ExtendMethod && ds.table[i].parent == Some(ext) ==> ds.table[i].name != name
  }

  /** The type arguments an `extend` block is given: the type's, if it is generic. */
  predicate ArgsFor(ds: Defs, ext: DefId, args: seq<Ty>, given: seq<Ty>)
  {
    if ext < |ds.table| && ds.table[ext].generic
    then |given| == |args| && forall i | 0 <= i < |args| :: given[i] == args[i]
    else given == []
  }

  /** The interface has a method `m`, and `t` names a type that has a registered `extend`
      block for it. */
  predicate Registered(ds: Defs, sub: Subst, m: DefId, t: Ty)
  {
    && m < |ds.table| && ds.table[m].parent.Some?
    && Shallow(sub, t).Named? && (Shallow(sub, t).def, ds.table[m].parent.value) in ds.impls
  }

  lemma FirstFound(ds: Defs, ext: DefId, name: string)
    ensures match FindImpl(ds, ext, name, 0)
            case Some(d) => FirstNamed(ds, d, ext, name)
            case None => forall d: DefId :: !FirstNamed(ds, d, ext, name)
  {
    FindImplFirst(ds, ext, name, 0);
    forall d: DefId | d < |ds.table|
      ensures IsImpl(ds, d, ext, name) <==>
              ds.table[d].kind == ExtendMethod && ds.table[d].parent == Some(ext) && ds.table[d].name == name
    {
    }
    hide FindImpl;
    if FindImpl(ds, ext, name, 0).None? {
      forall d: DefId ensures !FirstNamed(ds, d, ext, name) {
        if d < |ds.table| {
          assert !IsImpl(ds, d, ext, name);
        }
      }
    } else {
      var r := FindImpl(ds, ext, name, 0).value;
      forall i | 0 <= i < r
        ensures ds.table[i].kind == ExtendMethod && ds.table[i].parent == Some(ext) ==> ds.table[i].name != name
      {
        assert !IsImpl(ds, i, ext, name);
      }
    }
  }

  /** A direct call names the first method with the interface method's name in the `extend`
      block registered for the type and interface, at the type's arguments, and is refused
      exactly if there is no such block or method. */
  lemma ResolveIs(ds: Defs, sub: Subst, m: DefId, t: Ty)
    ensures Resolve(ds, sub, m, t).Some? ==>
              && Registered(ds, sub, m, t)
              && var i, ext := Resolve(ds, sub, m, t).value, ds.impls[(Shallow(sub, t).def, ds.table[m].parent.value)];
                 FirstNamed(ds, i.def, ext, ds.table[m].name) && ArgsFor(ds, ext, Shallow(sub, t).args, i.args)
    ensures Resolve(ds, sub, m, t).None? && Registered(ds, sub, m, t) ==>
              var ext := ds.impls[(Shallow(sub, t).def, ds.table[m].parent.value)];
              forall d: DefId :: !FirstNamed(ds, d, ext, ds.table[m].name)
  {
    if Registered(ds, sub, m, t) {
      FirstFound(ds, ds.impls[(Shallow(sub, t).def, ds.table[m].parent.value)], ds.table[m].name);
    }
    hide FindImpl, FirstNamed;
  }

  /** The interface methods declared before definition `n`. */
  function Before(ds: Defs, iface: DefId, n: nat): set<DefId>
  {
    set d: DefId | 0 <= d < n && d < |ds.table|
                   && ds.table[d].kind == InterfaceMethod && ds.table[d].parent == Some(iface)
  }

  lemma {:induction false} MethodsCount(ds: Defs, iface: DefId, n: nat)
    requires n <= |ds.table|
    ensures |Methods(ds, iface, n)| == |Before(ds, iface, n)|
    decreases n
  {
    if n > 0 {
      MethodsCount(ds, iface, n - 1);
      var was := Before(ds, iface, n - 1);
      if ds.table[n - 1].kind == InterfaceMethod && ds.table[n - 1].parent == Some(iface) {
        assert Before(ds, iface, n) == was + {n - 1};
      } else {
        assert Before(ds, iface, n) == was;
      }
    } else {
      assert Before(ds, iface, 0) == {};
    }
  }

  lemma {:induction false} PositionOf(ds: Defs, iface: DefId, n: nat, m: DefId)
    requires m < n <= |ds.table| && ds.table[m].kind == InterfaceMethod && ds.table[m].parent == Some(iface)
    ensures Position(Methods(ds, iface, n), m) == Some(|Before(ds, iface, m)|)
    ensures |Before(ds, iface, m)| < |Methods(ds, iface, n)| && Methods(ds, iface, n)[|Before(ds, iface, m)|] == m
    decreases n
  {
    var ms := Methods(ds, iface, n - 1);
    if m == n - 1 {
      MethodsCount(ds, iface, m);
      forall i | 0 <= i < |ms| ensures ms[i] != m {
        MethodsAre(ds, iface, m, i);
      }
      PositionLast(ms, m);
    } else {
      PositionOf(ds, iface, n - 1, m);
      PositionPrefix(ms, Methods(ds, iface, n), m);
    }
  }

  lemma {:induction false} PositionLast(ms: seq<DefId>, m: DefId)
    requires m !in ms
    ensures Position(ms + [m], m) == Some(|ms|)
    decreases ms
  {
    if ms != [] {
      assert (ms + [m])[1..] == ms[1..] + [m];
      PositionLast(ms[1..], m);
    }
  }

  lemma {:induction false} PositionPrefix(ms: seq<DefId>, all: seq<DefId>, m: DefId)
    requires ms <= all && Position(ms, m).Some?
    ensures Position(all, m) == Position(ms, m)
    decreases ms
  {
    if ms[0] != m {
      PositionPrefix(ms[1..], all[1..], m);
    }
  }

  /** A virtual call of `m` loads from the slot whose number is that of the methods its
      interface declares before it. In the table of a type, that slot holds the first method
      with `m`'s name in the `extend` block registered for the type, at the type's resolved
      arguments; the table has a slot for each method and no more. */
  lemma SlotIs(ds: Defs, sub: Subst, t: Ty, m: DefId, iface: DefId)
    requires m < |ds.table| && ds.table[m].kind == InterfaceMethod && ds.table[m].parent == Some(iface)
    ensures VtableSlot(ds, m) == Some(|Before(ds, iface, m)|)
    ensures Table(ds, sub, t, iface).Some? ==>
              var entries, slot := Table(ds, sub, t, iface).value, |Before(ds, iface, m)|;
              && Registered(ds, sub, m, t) && |entries| == |Before(ds, iface, |ds.table|)| && slot < |entries|
              && var ext := ds.impls[(Shallow(sub, t).def, iface)];
                 && FirstNamed(ds, entries[slot].def, ext, ds.table[m].name)
                 && ArgsFor(ds, ext, ShallowAll(sub, Shallow(sub, t).args), entries[slot].args)
  {
    PositionOf(ds, iface, |ds.table|, m);
    MethodsCount(ds, iface, |ds.table|);
    if Table(ds, sub, t, iface).Some? {
      EntryExactly(ds, sub, t, iface, |Before(ds, iface, m)|);
      ResolveIs(ds, sub, m, t);
      hide FirstNamed, FindImpl, Position;
    }
  }
}
