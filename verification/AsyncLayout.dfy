/**
 The state struct of an async body: one word for the resume state, one for the
 suspended inner future, one per local, and three per ordinary `for` loop whose
 body awaits.
 */
module AsyncLayout {
  import opened Hir
  import opened Scan

  const INNER_OFF: nat := 8

  datatype Slots = Slots(primary: nat, secondary: nat, index: nat)

  /** How a local is represented: not at all, as a plain word, or as a managed
      pointer. */
  datatype Repr = Absent | Plain | Managed

  /** What the layout reads from the type tables: each local's own representation,
      and which locals are cell-backed captures. */
  datatype LocalTypes = LocalTypes(repr: map<LocalId, Repr>, captured: set<LocalId>, byValue: set<LocalId>)

  datatype Layout = Layout(
    slotOff: map<LocalId, nat>,
    live: seq<(LocalId, nat)>,
    ptrOffsets: seq<nat>,
    size: nat,
    forSlots: map<Span, Slots>)

  /** A captured local's variable holds its cell, a managed pointer. */
  function ReprOf(t: LocalTypes, x: LocalId): Repr
  {
    if x in t.captured && x !in t.byValue then Managed
    else if x in t.repr then t.repr[x]
    else Absent
  }

  predicate NoDup<T(==)>(xs: seq<T>)
  {
    forall i, j :: 0 <= i < j < |xs| ==> xs[i] != xs[j]
  }

  function IndexOf<T(==)>(xs: seq<T>, x: T): (i: nat)
    requires x in xs
    ensures i < |xs| && xs[i] == x
  {
    if xs[0] == x then 0 else 1 + IndexOf(xs[1..], x)
  }

  function Elems<T>(xs: seq<T>): set<T>
  {
    set x | x in xs
  }

  /** The locals that get a slot, in slot order, and the spans that get `for` slots. */
  function Locals(entry: seq<LocalId>, body: Block): seq<LocalId>
  {
    CollectBlock(body, entry)
  }

  function ForSpans(body: Block): seq<Span>
  {
    PushAll([], ScanForBlock(body))
  }

  function LocalOff(i: nat): nat { 16 + 8 * i }

  function ForOff(nLocals: nat, j: nat): Slots
  {
    var base := 16 + 8 * nLocals + 24 * j;
    Slots(base, base + 8, base + 16)
  }

  // -- the collector -------------------------------------------------------------

  predicate Extends(acc: seq<LocalId>, r: seq<LocalId>, extra: set<LocalId>)
  {
    && acc <= r
    && (NoDup(acc) ==> NoDup(r))
    && Elems(r) == Elems(acc) + extra
  }

  lemma {:induction false} PushAllExtends(acc: seq<LocalId>, xs: seq<LocalId>)
    ensures Extends(acc, PushAll(acc, xs), Elems(xs))
    decreases xs
  {
    if xs != [] {
      PushAllExtends(Push(acc, xs[0]), xs[1..]);
      assert Elems(xs) == {xs[0]} + Elems(xs[1..]);
      assert Elems(Push(acc, xs[0])) == Elems(acc) + {xs[0]};
    }
  }

  lemma ExtendsTrans(a: seq<LocalId>, b: seq<LocalId>, c: seq<LocalId>, x: set<LocalId>, y: set<LocalId>)
    requires Extends(a, b, x) && Extends(b, c, y)
    ensures Extends(a, c, x + y)
  {
  }

  lemma {:induction false} CollectIfExtends(e: Expr, acc: seq<LocalId>)
    requires e.If?
    ensures Extends(acc, Collect(e, acc), Bound(e))
    decreases e, 0
  {
    hide Extends, CollectBlock, BoundBlock;
    var a1 := Collect(e.cond, acc);
    var a2 := CollectBlock(e.thn, a1);
    CollectExtends(e.cond, acc);
    CollectBlockExtends(e.thn, a1);
    CollectExtends(e.els, a2);
    ExtendsTrans(acc, a1, a2, Bound(e.cond), BoundBlock(e.thn));
    ExtendsTrans(acc, a2, Collect(e.els, a2), Bound(e.cond) + BoundBlock(e.thn), Bound(e.els));
  }

  lemma {:induction false} CollectForExtends(e: Expr, acc: seq<LocalId>)
    requires e.For?
    ensures Extends(acc, Collect(e, acc), Bound(e))
    decreases e, 0
  {
    hide Extends, CollectBlock, BoundBlock, PushAll;
    var a1 := PushAll(acc, PatLocals(e.pat));
    var a2 := Collect(e.iter, a1);
    PushAllExtends(acc, PatLocals(e.pat));
    CollectExtends(e.iter, a1);
    CollectBlockExtends(e.body, a2);
    ExtendsTrans(acc, a1, a2, PatSet(e.pat), Bound(e.iter));
    ExtendsTrans(acc, a2, CollectBlock(e.body, a2), PatSet(e.pat) + Bound(e.iter), BoundBlock(e.body));
  }

  lemma {:induction false} CollectOneExtends(e: Expr, acc: seq<LocalId>)
    requires e.Await? || e.Field? || e.Adjust? || e.Cast? || e.Return? || e.Break?
    ensures Extends(acc, Collect(e, acc), Bound(e))
    decreases e, 0
  {
    hide Extends;
    match e
    case Await(_, f) => CollectExtends(f, acc);
    case Field(recv, _) => CollectExtends(recv, acc);
    case Adjust(_, inner) => CollectExtends(inner, acc);
    case Cast(_, inner, _, _) => CollectExtends(inner, acc);
    case Return(v) => CollectExtends(v, acc);
    case Break(v) => CollectExtends(v, acc);
  }

  lemma {:induction false} CollectListExtends(e: Expr, acc: seq<LocalId>)
    requires e.Prim? || e.Call? || e.Struct? || e.BlockExpr? || e.Loop?
    ensures Extends(acc, Collect(e, acc), Bound(e))
    decreases e, 0
  {
    hide Extends, CollectArgs, BoundArgs, CollectBlock, BoundBlock;
    match e
    case Prim(_, args) => CollectArgsExtends(args, acc);
    case Call(_, args) => CollectArgsExtends(args, acc);
    case Struct(_, fields) => CollectArgsExtends(fields, acc);
    case BlockExpr(b) => CollectBlockExtends(b, acc);
    case Loop(b) => CollectBlockExtends(b, acc);
  }

  lemma {:induction false} CollectTwoExtends(e: Expr, acc: seq<LocalId>)
    requires e.Logic? || e.Append? || e.Match? || e.While?
    ensures Extends(acc, Collect(e, acc), Bound(e))
    decreases e, 0
  {
    hide Extends, CollectArms, BoundArms, CollectBlock, BoundBlock;
    match e
    case Logic(_, l, r) =>
      CollectExtends(l, acc);
      CollectExtends(r, Collect(l, acc));
      ExtendsTrans(acc, Collect(l, acc), Collect(e, acc), Bound(l), Bound(r));
    case Append(l, i) =>
      CollectExtends(l, acc);
      CollectExtends(i, Collect(l, acc));
      ExtendsTrans(acc, Collect(l, acc), Collect(e, acc), Bound(l), Bound(i));
    case Match(sc, arms) =>
      CollectExtends(sc, acc);
      CollectArmsExtends(arms, Collect(sc, acc));
      ExtendsTrans(acc, Collect(sc, acc), Collect(e, acc), Bound(sc), BoundArms(arms));
    case While(c, b) =>
      CollectExtends(c, acc);
      CollectBlockExtends(b, Collect(c, acc));
      ExtendsTrans(acc, Collect(c, acc), Collect(e, acc), Bound(c), BoundBlock(b));
  }

  lemma CollectLeafExtends(e: Expr, acc: seq<LocalId>)
    requires e.Int? || e.Null? || e.Local? || e.Closure? || e.Continue?
    ensures Extends(acc, Collect(e, acc), Bound(e))
  {
  }

  /** The collector lists the entry locals first, then exactly the locals the body
      binds, each once. */
  lemma {:induction false} CollectExtends(e: Expr, acc: seq<LocalId>)
    ensures Extends(acc, Collect(e, acc), Bound(e))
    decreases e, 1
  {
    hide *;
    if e.Int? || e.Null? || e.Local? || e.Closure? || e.Continue? {
      CollectLeafExtends(e, acc);
    } else if e.Prim? || e.Call? || e.Struct? || e.BlockExpr? || e.Loop? {
      CollectListExtends(e, acc);
    } else if e.Logic? || e.Append? || e.Match? || e.While? {
      CollectTwoExtends(e, acc);
    } else if e.If? {
      CollectIfExtends(e, acc);
    } else if e.For? {
      CollectForExtends(e, acc);
    } else {
      CollectOneExtends(e, acc);
    }
  }

  lemma {:induction false} CollectArgsExtends(es: Exprs, acc: seq<LocalId>)
    ensures Extends(acc, CollectArgs(es, acc), BoundArgs(es))
    decreases es
  {
    if es.ECons? {
      CollectExtends(es.head, acc);
      CollectArgsExtends(es.tail, Collect(es.head, acc));
      ExtendsTrans(acc, Collect(es.head, acc), CollectArgs(es, acc), Bound(es.head), BoundArgs(es.tail));
    }
  }

  lemma {:induction false} CollectArmsExtends(arms: Arms, acc: seq<LocalId>)
    ensures Extends(acc, CollectArms(arms, acc), BoundArms(arms))
    decreases arms
  {
    if arms.Arm? {
      var a1 := PushAll(acc, PatLocals(arms.pat));
      var a2 := Collect(arms.guard, a1);
      var a3 := Collect(arms.arm, a2);
      PushAllExtends(acc, PatLocals(arms.pat));
      CollectExtends(arms.guard, a1);
      CollectExtends(arms.arm, a2);
      CollectArmsExtends(arms.rest, a3);
      ExtendsTrans(acc, a1, a2, PatSet(arms.pat), Bound(arms.guard));
      ExtendsTrans(acc, a2, a3, PatSet(arms.pat) + Bound(arms.guard), Bound(arms.arm));
      ExtendsTrans(acc, a3, CollectArms(arms, acc),
                   PatSet(arms.pat) + Bound(arms.guard) + Bound(arms.arm), BoundArms(arms.rest));
    }
  }

  lemma {:induction false} CollectStmtExtends(s: Stmt, acc: seq<LocalId>)
    ensures Extends(acc, CollectStmt(s, acc), BoundStmt(s))
    decreases s
  {
    match s
    case Let(p, init) =>
      var a1 := PushAll(acc, PatLocals(p));
      PushAllExtends(acc, PatLocals(p));
      CollectExtends(init, a1);
      ExtendsTrans(acc, a1, Collect(init, a1), PatSet(p), Bound(init));
    case Assign(t, v) =>
      CollectExtends(t, acc);
      CollectExtends(v, Collect(t, acc));
      ExtendsTrans(acc, Collect(t, acc), CollectStmt(s, acc), Bound(t), Bound(v));
    case ExprStmt(e) => CollectExtends(e, acc);
  }

  lemma {:induction false} CollectBlockExtends(b: Block, acc: seq<LocalId>)
    ensures Extends(acc, CollectBlock(b, acc), BoundBlock(b))
    decreases b
  {
    match b
    case Tail(e) => CollectExtends(e, acc);
    case Then(s, rest) =>
      CollectStmtExtends(s, acc);
      CollectBlockExtends(rest, CollectStmt(s, acc));
      ExtendsTrans(acc, CollectStmt(s, acc), CollectBlock(b, acc), BoundStmt(s), BoundBlock(rest));
  }

  // -- the layout ----------------------------------------------------------------

  /** The slot list of the first `n` locals that satisfy `keep`. */
  function OffsetsWhere(t: LocalTypes, locals: seq<LocalId>, keep: Repr -> bool, n: nat): seq<nat>
    requires n <= |locals|
  {
    if n == 0 then []
    else OffsetsWhere(t, locals, keep, n - 1)
         + (if keep(ReprOf(t, locals[n - 1])) then [LocalOff(n - 1)] else [])
  }

  function ForPtrs(nLocals: nat, n: nat): seq<nat>
  {
    if n == 0 then [] else ForPtrs(nLocals, n - 1) + [ForOff(nLocals, n - 1).primary, ForOff(nLocals, n - 1).secondary]
  }

  predicate IsManaged(r: Repr) { r.Managed? }

  ghost predicate LocalsPlaced(t: LocalTypes, locals: seq<LocalId>, slotOff: map<LocalId, nat>,
                               live: seq<(LocalId, nat)>)
  {
    && slotOff.Keys == Elems(locals)
    && (forall i | 0 <= i < |locals| :: slotOff[locals[i]] == LocalOff(i))
    && (forall p <- live :: p.0 in slotOff && p.1 == slotOff[p.0] && !ReprOf(t, p.0).Absent?)
    && (forall i | 0 <= i < |locals| :: !ReprOf(t, locals[i]).Absent? ==> (locals[i], LocalOff(i)) in live)
    && (forall i, j | 0 <= i < j < |live| :: live[i].1 < live[j].1)
  }

  ghost predicate LoopsPlaced(nLocals: nat, spans: seq<Span>, forSlots: map<Span, Slots>)
  {
    && forSlots.Keys == Elems(spans)
    && (forall j | 0 <= j < |spans| :: forSlots[spans[j]] == ForOff(nLocals, j))
  }

  /** What the layout of a body is, slot by slot. */
  ghost predicate IsLayout(t: LocalTypes, locals: seq<LocalId>, spans: seq<Span>, lay: Layout)
  {
    && LocalsPlaced(t, locals, lay.slotOff, lay.live)
    && LoopsPlaced(|locals|, spans, lay.forSlots)
    && lay.ptrOffsets == [INNER_OFF] + OffsetsWhere(t, locals, IsManaged, |locals|) + ForPtrs(|locals|, |spans|)
    && lay.size == 16 + 8 * |locals| + 24 * |spans|
  }

  /** `async_state_layout`: one pass over the locals, one over the scanned `for`
      spans. */
  method StateLayout(t: LocalTypes, entry: seq<LocalId>, body: Block) returns (lay: Layout)
    requires NoDup(entry)
    ensures IsLayout(t, Locals(entry, body), ForSpans(body), lay)
  {
    var all := CollectBlock(body, entry);
    CollectBlockExtends(body, entry);
    var slotOff, live, localPtrs := PlaceLocals(t, all);
    var forSlots, forPtrs, size := PlaceLoops(|all|, ScanForBlock(body));
    lay := Layout(slotOff, live, localPtrs + forPtrs, size, forSlots);
  }

  /** Placing one more local keeps the earlier ones where they are. */
  lemma PlaceOne(t: LocalTypes, locals: seq<LocalId>, slotOff: map<LocalId, nat>, live: seq<(LocalId, nat)>, x: LocalId)
    requires LocalsPlaced(t, locals, slotOff, live) && x !in locals
    ensures var off := LocalOff(|locals|);
            LocalsPlaced(t, locals + [x], slotOff[x := off],
                         if ReprOf(t, x).Absent? then live else live + [(x, off)])
  {
    var off := LocalOff(|locals|);
    var all, slots := locals + [x], slotOff[x := off];
    var live' := if ReprOf(t, x).Absent? then live else live + [(x, off)];
    assert slots.Keys == Elems(all);
    forall i | 0 <= i < |all|
      ensures slots[all[i]] == LocalOff(i)
      ensures !ReprOf(t, all[i]).Absent? ==> (all[i], LocalOff(i)) in live'
    {
      if i < |locals| {
        assert all[i] == locals[i];
        assert !ReprOf(t, locals[i]).Absent? ==> (locals[i], LocalOff(i)) in live;
      } else {
        assert all[i] == x;
        assert !ReprOf(t, x).Absent? ==> live'[|live|] == (x, off);
      }
    }
    forall p | p in live'
      ensures p.0 in slots && p.1 == slots[p.0] && !ReprOf(t, p.0).Absent?
    {
      if p in live {
        assert p.0 in slotOff && p.0 != x;
      }
    }
  }

  lemma PlaceNone(t: LocalTypes, all: seq<LocalId>)
    ensures all[..0] == [] && LocalsPlaced(t, [], map[], [])
    ensures [INNER_OFF] == [INNER_OFF] + OffsetsWhere(t, all, IsManaged, 0)
  {
  }

  method PlaceLocals(t: LocalTypes, all: seq<LocalId>)
    returns (slotOff: map<LocalId, nat>, live: seq<(LocalId, nat)>, ptrs: seq<nat>)
    requires NoDup(all)
    ensures LocalsPlaced(t, all, slotOff, live)
    ensures ptrs == [INNER_OFF] + OffsetsWhere(t, all, IsManaged, |all|)
  {
    hide LocalsPlaced, OffsetsWhere, LocalOff, NoDup;
    slotOff, live, ptrs := map[], [], [INNER_OFF];
    PlaceNone(t, all);
    for i := 0 to |all|
      invariant LocalsPlaced(t, all[..i], slotOff, live)
      invariant ptrs == [INNER_OFF] + OffsetsWhere(t, all, IsManaged, i)
    {
      var x, off := all[i], LocalOff(i);
      PrefixNext(all, i);
      PlaceOne(t, all[..i], slotOff, live, x);
      WhereNext(t, all, i);
      slotOff := slotOff[x := off];
      if x in t.captured && x !in t.byValue {
        live := live + [(x, off)];
        ptrs := ptrs + [off];
      } else if x in t.repr && !t.repr[x].Absent? {
        live := live + [(x, off)];
        if t.repr[x].Managed? {
          ptrs := ptrs + [off];
        }
      }
    }
    assert all[..|all|] == all;
  }

  lemma PrefixNext(xs: seq<LocalId>, i: nat)
    requires NoDup(xs) && i < |xs|
    ensures xs[i] !in xs[..i] && xs[..i + 1] == xs[..i] + [xs[i]]
  {
  }

  lemma WhereNext(t: LocalTypes, locals: seq<LocalId>, i: nat)
    requires i < |locals|
    ensures [INNER_OFF] + OffsetsWhere(t, locals, IsManaged, i + 1)
         == [INNER_OFF] + OffsetsWhere(t, locals, IsManaged, i)
           + (if ReprOf(t, locals[i]).Managed? then [LocalOff(i)] else [])
  {
  }

  method PlaceLoops(nLocals: nat, spans: seq<Span>) returns (forSlots: map<Span, Slots>, ptrs: seq<nat>, size: nat)
    ensures LoopsPlaced(nLocals, PushAll([], spans), forSlots)
    ensures ptrs == ForPtrs(nLocals, |PushAll([], spans)|)
    ensures size == 16 + 8 * nLocals + 24 * |PushAll([], spans)|
  {
    hide LoopsPlaced, ForPtrs, ForOff;
    LoopStart(nLocals);
    forSlots, ptrs, size := map[], [], 16 + nLocals * 8;
    ghost var done: seq<Span> := [];
    assert spans[0..] == spans;
    hide PushAll;
    for i := 0 to |spans|
      invariant PushAll(done, spans[i..]) == PushAll([], spans)
      invariant LoopsPlaced(nLocals, done, forSlots)
      invariant size == 16 + 8 * nLocals + 24 * |done|
      invariant ptrs == ForPtrs(nLocals, |done|)
    {
      var sp := spans[i];
      LoopNext(nLocals, done, forSlots, sp);
      PushNext(done, spans, i);
      if sp !in forSlots {
        var primary, secondary, index := size, size + 8, size + 16;
        ptrs := ptrs + [primary, secondary];
        forSlots := forSlots[sp := Slots(primary, secondary, index)];
        size := size + 24;
        done := done + [sp];
      }
    }
  }

  lemma LoopStart(nLocals: nat)
    ensures LoopsPlaced(nLocals, [], map[]) && ForPtrs(nLocals, 0) == []
  {
  }

  lemma PushNext(done: seq<Span>, spans: seq<Span>, i: nat)
    requires i < |spans|
    ensures PushAll(done, spans[i..]) == PushAll(if spans[i] in done then done else done + [spans[i]], spans[i + 1..])
  {
    assert spans[i..][1..] == spans[i + 1..];
  }

  lemma LoopNext(nLocals: nat, done: seq<Span>, forSlots: map<Span, Slots>, sp: Span)
    requires LoopsPlaced(nLocals, done, forSlots)
    ensures sp in forSlots <==> sp in done
    ensures var base := 16 + 8 * nLocals + 24 * |done|;
            && (sp !in forSlots ==> LoopsPlaced(nLocals, done + [sp], forSlots[sp := Slots(base, base + 8, base + 16)]))
            && ForPtrs(nLocals, |done| + 1) == ForPtrs(nLocals, |done|) + [base, base + 8]
  {
    assert sp in forSlots <==> sp in Elems(done);
    var all := done + [sp];
    assert Elems(all) == Elems(done) + {sp};
    forall j | 0 <= j < |all| ensures j < |done| ==> all[j] == done[j] {}
  }

  // -- what the layout guarantees --------------------------------------------------

  predicate Disjoint8(a: nat, b: nat) { a + 8 <= b || b + 8 <= a }

  /** The three words of a `for` cursor as one 24-byte range. */
  predicate Packed(p: Slots)
  {
    p.secondary == p.primary + 8 && p.index == p.primary + 16
  }

  lemma SlotOf(t: LocalTypes, entry: seq<LocalId>, body: Block, lay: Layout)
    requires NoDup(entry) && IsLayout(t, Locals(entry, body), ForSpans(body), lay)
    ensures forall x | x in lay.slotOff ::
              x in Locals(entry, body) && lay.slotOff[x] == LocalOff(IndexOf(Locals(entry, body), x))
    ensures forall sp | sp in lay.forSlots ::
              sp in ForSpans(body) && lay.forSlots[sp] == ForOff(|Locals(entry, body)|, IndexOf(ForSpans(body), sp))
  {
  }

  /** No two locals share a byte, and none touches the state word or the inner
      future; all lie inside the struct. */
  lemma LocalSlotsDisjoint(t: LocalTypes, entry: seq<LocalId>, body: Block, lay: Layout, x: LocalId, y: LocalId)
    requires NoDup(entry) && IsLayout(t, Locals(entry, body), ForSpans(body), lay)
    requires x in lay.slotOff && y in lay.slotOff
    ensures 16 <= lay.slotOff[x] && lay.slotOff[x] % 8 == 0 && lay.slotOff[x] + 8 <= lay.size
    ensures x != y ==> Disjoint8(lay.slotOff[x], lay.slotOff[y])
  {
    SlotOf(t, entry, body, lay);
    assert x != y ==> IndexOf(Locals(entry, body), x) != IndexOf(Locals(entry, body), y);
  }

  /** A `for` cursor is three adjacent words after the locals, inside the struct,
      apart from every other loop's. */
  lemma LoopSlotsDisjoint(t: LocalTypes, entry: seq<LocalId>, body: Block, lay: Layout, a: Span, b: Span, x: LocalId)
    requires NoDup(entry) && IsLayout(t, Locals(entry, body), ForSpans(body), lay)
    requires a in lay.forSlots && b in lay.forSlots
    ensures Packed(lay.forSlots[a]) && 16 <= lay.forSlots[a].primary
    ensures lay.forSlots[a].primary % 8 == 0 && lay.forSlots[a].primary + 24 <= lay.size
    ensures x in lay.slotOff ==> lay.slotOff[x] + 8 <= lay.forSlots[a].primary
    ensures a != b ==> || lay.forSlots[a].primary + 24 <= lay.forSlots[b].primary
                       || lay.forSlots[b].primary + 24 <= lay.forSlots[a].primary
  {
    SlotOf(t, entry, body, lay);
    var spans, n := ForSpans(body), |Locals(entry, body)|;
    var i, j := IndexOf(spans, a), IndexOf(spans, b);
    assert lay.size == LocalOff(n) + 24 * |spans| && i < |spans|;
    assert a != b ==> i != j;
    hide *;
    LoopWords(n, i, j);
    if x in lay.slotOff {
      assert IndexOf(Locals(entry, body), x) < n;
    }
  }

  lemma LoopWords(n: nat, i: nat, j: nat)
    ensures Packed(ForOff(n, i)) && ForOff(n, i).primary == LocalOff(n) + 24 * i && 16 <= LocalOff(n)
            && LocalOff(n) % 8 == 0
    ensures i < j ==> ForOff(n, i).primary + 24 <= ForOff(n, j).primary
    ensures j < i ==> ForOff(n, j).primary + 24 <= ForOff(n, i).primary
  {
  }

  /** Every local the body binds, every entry local and every ordinary `for` loop
      whose body awaits has a slot, and nothing else has. */
  lemma SlotsCover(t: LocalTypes, entry: seq<LocalId>, body: Block, lay: Layout)
    requires NoDup(entry) && IsLayout(t, Locals(entry, body), ForSpans(body), lay)
    ensures lay.slotOff.Keys == Elems(entry) + BoundBlock(body)
    ensures lay.forSlots.Keys == Elems(ScanForBlock(body))
  {
    CollectBlockExtends(body, entry);
    PushAllExtends([], ScanForBlock(body));
  }

  predicate Increasing(xs: seq<nat>)
  {
    forall i, j :: 0 <= i < j < |xs| ==> xs[i] < xs[j]
  }

  predicate Within(xs: seq<nat>, lo: nat, hi: nat)
  {
    forall i :: 0 <= i < |xs| ==> lo <= xs[i] < hi
  }

  lemma IncreasingConcat(a: seq<nat>, b: seq<nat>, lo: nat, mid: nat, hi: nat)
    requires Increasing(a) && Increasing(b) && Within(a, lo, mid) && Within(b, mid, hi) && lo <= mid <= hi
    ensures Increasing(a + b) && Within(a + b, lo, hi)
  {
  }

  lemma {:induction false} OffsetsWhereExact(t: LocalTypes, locals: seq<LocalId>, n: nat)
    requires n <= |locals|
    ensures forall o :: o in OffsetsWhere(t, locals, IsManaged, n) <==>
              exists i :: 0 <= i < n && ReprOf(t, locals[i]).Managed? && o == LocalOff(i)
    ensures Increasing(OffsetsWhere(t, locals, IsManaged, n))
    ensures Within(OffsetsWhere(t, locals, IsManaged, n), 16, LocalOff(n))
  {
    if n > 0 {
      OffsetsWhereExact(t, locals, n - 1);
      IncreasingConcat(OffsetsWhere(t, locals, IsManaged, n - 1),
                       if ReprOf(t, locals[n - 1]).Managed? then [LocalOff(n - 1)] else [],
                       16, LocalOff(n - 1), LocalOff(n));
    }
  }

  lemma {:induction false} ForPtrsExact(nLocals: nat, n: nat)
    ensures forall o :: o in ForPtrs(nLocals, n) <==>
              exists j :: 0 <= j < n && (o == ForOff(nLocals, j).primary || o == ForOff(nLocals, j).secondary)
    ensures Increasing(ForPtrs(nLocals, n))
    ensures Within(ForPtrs(nLocals, n), 16 + 8 * nLocals, 16 + 8 * nLocals + 24 * n)
  {
    if n > 0 {
      ForPtrsExact(nLocals, n - 1);
      var last := ForOff(nLocals, n - 1);
      IncreasingConcat(ForPtrs(nLocals, n - 1), [last.primary, last.secondary],
                       16 + 8 * nLocals, last.primary, 16 + 8 * nLocals + 24 * n);
      assert last.primary in ForPtrs(nLocals, n) by {
        assert ForPtrs(nLocals, n)[|ForPtrs(nLocals, n)| - 2] == last.primary;
      }
      assert last.secondary in ForPtrs(nLocals, n) by {
        assert ForPtrs(nLocals, n)[|ForPtrs(nLocals, n)| - 1] == last.secondary;
      }
    }
  }

  ghost predicate ManagedLocalAt(t: LocalTypes, lay: Layout, o: nat)
  {
    exists x :: x in lay.slotOff && ReprOf(t, x).Managed? && o == lay.slotOff[x]
  }

  ghost predicate LoopPointerAt(lay: Layout, o: nat)
  {
    exists sp :: sp in lay.forSlots && (o == lay.forSlots[sp].primary || o == lay.forSlots[sp].secondary)
  }

  lemma ManagedLocals(t: LocalTypes, entry: seq<LocalId>, body: Block, lay: Layout, o: nat)
    requires NoDup(entry) && IsLayout(t, Locals(entry, body), ForSpans(body), lay)
    ensures o in OffsetsWhere(t, Locals(entry, body), IsManaged, |Locals(entry, body)|) <==> ManagedLocalAt(t, lay, o)
  {
    var locals := Locals(entry, body);
    SlotOf(t, entry, body, lay);
    OffsetsWhereExact(t, locals, |locals|);
    if x :| x in lay.slotOff && ReprOf(t, x).Managed? && o == lay.slotOff[x] {
      assert o == LocalOff(IndexOf(locals, x));
    }
    if i :| 0 <= i < |locals| && ReprOf(t, locals[i]).Managed? && o == LocalOff(i) {
      assert locals[i] in lay.slotOff;
    }
  }

  lemma LoopPointers(t: LocalTypes, entry: seq<LocalId>, body: Block, lay: Layout, o: nat)
    requires NoDup(entry) && IsLayout(t, Locals(entry, body), ForSpans(body), lay)
    ensures o in ForPtrs(|Locals(entry, body)|, |ForSpans(body)|) <==> LoopPointerAt(lay, o)
  {
    var n, spans := |Locals(entry, body)|, ForSpans(body);
    SlotOf(t, entry, body, lay);
    ForPtrsExact(n, |spans|);
    if sp :| sp in lay.forSlots && (o == lay.forSlots[sp].primary || o == lay.forSlots[sp].secondary) {
      assert lay.forSlots[sp] == ForOff(n, IndexOf(spans, sp));
    }
    if j :| 0 <= j < |spans| && (o == ForOff(n, j).primary || o == ForOff(n, j).secondary) {
      assert spans[j] in lay.forSlots;
    }
  }

  /** The collector's trace map lists exactly the managed words (the inner future,
      the managed or cell-backed locals, and each loop's two pointers), in increasing
      order. */
  lemma TraceMapExact(t: LocalTypes, entry: seq<LocalId>, body: Block, lay: Layout)
    requires NoDup(entry) && IsLayout(t, Locals(entry, body), ForSpans(body), lay)
    ensures Increasing(lay.ptrOffsets)
    ensures forall o :: o in lay.ptrOffsets <==> o == INNER_OFF || ManagedLocalAt(t, lay, o) || LoopPointerAt(lay, o)
  {
    var n, k := |Locals(entry, body)|, |ForSpans(body)|;
    var a, b := OffsetsWhere(t, Locals(entry, body), IsManaged, n), ForPtrs(n, k);
    forall o
      ensures o in lay.ptrOffsets <==> o == INNER_OFF || ManagedLocalAt(t, lay, o) || LoopPointerAt(lay, o)
    {
      ManagedLocals(t, entry, body, lay, o);
      LoopPointers(t, entry, body, lay, o);
      assert o in lay.ptrOffsets <==> o == INNER_OFF || o in a || o in b;
    }
    OffsetsWhereExact(t, Locals(entry, body), n);
    ForPtrsExact(n, k);
    IncreasingConcat([INNER_OFF], a, 0, 16, 16 + 8 * n);
    IncreasingConcat([INNER_OFF] + a, b, 0, 16 + 8 * n, lay.size);
  }

  /** What the tables say about one slot: a local that a closure captures, other than by
      value, holds its cell, which is saved and traced whatever the local's type; any other
      local is saved if its type has a word, and traced if that is a managed pointer. */
  lemma SlotTraced(t: LocalTypes, entry: seq<LocalId>, body: Block, lay: Layout, x: LocalId)
    requires NoDup(entry) && IsLayout(t, Locals(entry, body), ForSpans(body), lay) && x in lay.slotOff
    ensures x in t.captured && x !in t.byValue ==> (x, lay.slotOff[x]) in lay.live && lay.slotOff[x] in lay.ptrOffsets
    ensures !(x in t.captured && x !in t.byValue) ==>
              && ((x, lay.slotOff[x]) in lay.live <==> x in t.repr && t.repr[x] != Absent)
              && (lay.slotOff[x] in lay.ptrOffsets <==> x in t.repr && t.repr[x] == Managed)
  {
    var o := lay.slotOff[x];
    SlotLive(t, entry, body, lay, x);
    TraceMapExact(t, entry, body, lay);
    hide IsLayout, Increasing;
    if ManagedLocalAt(t, lay, o) {
      var y :| y in lay.slotOff && ReprOf(t, y).Managed? && o == lay.slotOff[y];
      LocalSlotsDisjoint(t, entry, body, lay, x, y);
    }
    LocalSlotsDisjoint(t, entry, body, lay, x, x);
    if LoopPointerAt(lay, o) {
      var sp :| sp in lay.forSlots && (o == lay.forSlots[sp].primary || o == lay.forSlots[sp].secondary);
      LoopSlotsDisjoint(t, entry, body, lay, sp, sp, x);
    }
  }

  /** The saved locals, each once and in slot order, are those with a word of their own. */
  lemma SlotLive(t: LocalTypes, entry: seq<LocalId>, body: Block, lay: Layout, x: LocalId)
    requires NoDup(entry) && IsLayout(t, Locals(entry, body), ForSpans(body), lay) && x in lay.slotOff
    ensures (x, lay.slotOff[x]) in lay.live <==> !ReprOf(t, x).Absent?
    ensures forall i, j | 0 <= i < j < |lay.live| :: lay.live[i].1 < lay.live[j].1
  {
    var locals := Locals(entry, body);
    var i := IndexOf(locals, x);
    assert locals[i] == x;
  }
}
