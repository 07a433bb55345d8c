/**
 Field blocks: offsets, size and alignment of managed structs and of C structs with the
 packed, aligned and union variations, and the trace map.
 */
module Layouts {
  import opened Hir
  import opened Powers

  // -- alignment ---------------------------------------------------------------------

  ghost predicate IsPow2(a: nat)
  {
    exists e: nat :: a == Pow2(e)
  }

  /** `x` is a multiple of `a`. */
  ghost predicate Aligned(x: int, a: nat)
  {
    exists k: int :: x == k * a
  }

  function AlignUp(x: nat, a: nat): nat
    requires a > 0
  {
    (x + a - 1) / a * a
  }

  function Max(a: nat, b: nat): nat { if a < b then b else a }

  function Min(a: nat, b: nat): nat { if a < b then a else b }

  /** `AlignUp` is the least multiple of `a` that is not below `x`. */
  lemma AlignUpIs(x: nat, a: nat)
    requires a > 0
    ensures Aligned(AlignUp(x, a), a) && x <= AlignUp(x, a) < x + a
  {
    var y := x + a - 1;
    var q, r := y / a, y % a;
    assert y == q * a + r;
    assert AlignUp(x, a) == q * a;
  }

  lemma AlignUpLeast(x: nat, a: nat, y: nat)
    requires a > 0 && Aligned(y, a) && x <= y
    ensures AlignUp(x, a) <= y
  {
    AlignUpIs(x, a);
    var k: int :| y == k * a;
    var j: int :| AlignUp(x, a) == j * a;
    assert (k + 1) * a == k * a + a;
    StepMul(k + 1, j, a);
    StepMul(j, k, a);
  }

  lemma StepMul(j: int, k: int, a: nat)
    ensures j <= k ==> j * a <= k * a
  {
  }

  lemma {:induction false} PowDivides(d: nat, e: nat)
    requires d <= e
    ensures Aligned(Pow2(e), Pow2(d))
    decreases e
  {
    if d == e {
      assert Pow2(e) == 1 * Pow2(d);
    } else {
      PowDivides(d, e - 1);
      var k: int :| Pow2(e - 1) == k * Pow2(d);
      assert Pow2(e) == (2 * k) * Pow2(d);
    }
  }

  lemma {:induction false} PowMono(d: nat, e: nat)
    requires d < e
    ensures Pow2(d) < Pow2(e)
    decreases e
  {
    if d < e - 1 {
      PowMono(d, e - 1);
    }
  }

  /** Powers of two divide the larger ones. */
  lemma Pow2Divides(a: nat, b: nat)
    requires IsPow2(a) && IsPow2(b) && a <= b
    ensures Aligned(b, a)
  {
    var d: nat :| a == Pow2(d);
    var e: nat :| b == Pow2(e);
    if e < d {
      PowMono(e, d);
    } else {
      PowDivides(d, e);
    }
  }

  lemma AlignedTrans(x: int, b: nat, a: nat)
    requires Aligned(x, b) && Aligned(b, a)
    ensures Aligned(x, a)
  {
    var j: int :| x == j * b;
    var k: int :| b == k * a;
    assert x == (j * k) * a;
  }

  lemma AlignedSum(x: int, y: int, a: nat)
    requires Aligned(x, a) && Aligned(y, a)
    ensures Aligned(x + y, a)
  {
    var j: int :| x == j * a;
    var k: int :| y == k * a;
    assert x + y == (j + k) * a;
  }

  lemma AlignedTimes(x: int, n: int, a: nat)
    requires Aligned(x, a)
    ensures Aligned(n * x, a)
  {
    var j: int :| x == j * a;
    assert n * x == (n * j) * a;
  }

  lemma OneIsPow2()
    ensures IsPow2(1)
  {
    assert Pow2(0) == 1;
  }

  // -- C structs -----------------------------------------------------------------------

  /** A field's size and natural alignment; an array has its element's alignment. */
  datatype CField = CField(size: nat, align: nat)

  datatype Repr = Repr(packed: Option<nat>, minAlign: Option<nat>, isUnion: bool)

  datatype Layout = Layout(offsets: seq<nat>, size: nat, align: nat)

  ghost predicate FieldsOk(fs: seq<CField>)
  {
    forall i | 0 <= i < |fs| :: IsPow2(fs[i].align)
  }

  ghost predicate ReprOk(r: Repr)
  {
    (r.packed.Some? ==> IsPow2(Max(r.packed.value, 1))) && (r.minAlign.Some? ==> IsPow2(Max(r.minAlign.value, 1)))
  }

  /** The alignment a field is placed with. */
  function Eff(r: Repr, f: CField): nat
  {
    if r.packed.Some? then Min(f.align, Max(r.packed.value, 1)) else f.align
  }

  lemma EffPow2(r: Repr, f: CField)
    requires IsPow2(f.align) && ReprOk(r)
    ensures IsPow2(Eff(r, f)) && Eff(r, f) > 0
  {
  }

  function EndOf(fs: seq<CField>, offs: seq<nat>, i: nat): nat
    requires i < |fs| && i < |offs|
  {
    offs[i] + fs[i].size
  }

  ghost predicate AllAligned(r: Repr, fs: seq<CField>, offs: seq<nat>)
    requires |offs| <= |fs|
  {
    forall i | 0 <= i < |offs| :: Aligned(offs[i], Eff(r, fs[i]))
  }

  predicate Within(fs: seq<CField>, offs: seq<nat>, raw: nat)
    requires |offs| <= |fs|
  {
    forall i | 0 <= i < |offs| :: EndOf(fs, offs, i) <= raw
  }

  predicate Apart(fs: seq<CField>, offs: seq<nat>)
    requires |offs| <= |fs|
  {
    forall i, j | 0 <= i < j < |offs| :: EndOf(fs, offs, i) <= offs[j]
  }

  /** Every field is as low as its alignment and the field before it allow. */
  predicate Tight(r: Repr, fs: seq<CField>, offs: seq<nat>)
    requires |offs| <= |fs|
  {
    forall i | 0 <= i < |offs| :: offs[i] < (if i == 0 then 0 else EndOf(fs, offs, i - 1)) + Eff(r, fs[i])
  }

  predicate AllZero(offs: seq<nat>)
  {
    forall i | 0 <= i < |offs| :: offs[i] == 0
  }

  /** The first `n` fields are placed: aligned, inside `raw`, and in order, apart and tight;
      in a union all at 0. */
  ghost predicate Placed(r: Repr, fs: seq<CField>, offs: seq<nat>, n: nat, raw: nat)
  {
    && n <= |fs| && |offs| == n && AllAligned(r, fs, offs) && Within(fs, offs, raw)
    && (if r.isUnion then AllZero(offs)
        else Apart(fs, offs) && Tight(r, fs, offs) && raw == (if n == 0 then 0 else EndOf(fs, offs, n - 1)))
  }

  ghost predicate AlignCovers(r: Repr, fs: seq<CField>, n: nat, align: nat)
    requires n <= |fs|
  {
    IsPow2(align) && forall i | 0 <= i < n :: Eff(r, fs[i]) <= align
  }

  /** Where the first `n` fields end: one after the other, or in a union together. */
  function End(fs: seq<CField>, r: Repr, n: nat): nat
    requires n <= |fs|
  {
    if n == 0 then 0
    else if r.isUnion then Max(End(fs, r, n - 1), fs[n - 1].size)
    else AlignUp(End(fs, r, n - 1), Max(Eff(r, fs[n - 1]), 1)) + fs[n - 1].size
  }

  function OffsetAt(fs: seq<CField>, r: Repr, i: nat): nat
    requires i < |fs|
  {
    if r.isUnion then 0 else AlignUp(End(fs, r, i), Max(Eff(r, fs[i]), 1))
  }

  function Offsets(fs: seq<CField>, r: Repr, n: nat): seq<nat>
    requires n <= |fs|
  {
    if n == 0 then [] else Offsets(fs, r, n - 1) + [OffsetAt(fs, r, n - 1)]
  }

  function WidestOf(fs: seq<CField>, r: Repr, n: nat): (a: nat)
    requires n <= |fs|
    ensures a > 0
  {
    if n == 0 then 1 else Max(WidestOf(fs, r, n - 1), Eff(r, fs[n - 1]))
  }

  function AlignOf(fs: seq<CField>, r: Repr): (a: nat)
    ensures a > 0
  {
    var a := WidestOf(fs, r, |fs|);
    if r.minAlign.Some? then Max(a, Max(r.minAlign.value, 1)) else a
  }

  function LayoutOf(fs: seq<CField>, r: Repr): Layout
  {
    Layout(Offsets(fs, r, |fs|), Max(AlignUp(End(fs, r, |fs|), AlignOf(fs, r)), 1), AlignOf(fs, r))
  }

  lemma {:induction false} OffsetsAre(fs: seq<CField>, r: Repr, n: nat, i: nat)
    requires i < n <= |fs|
    ensures |Offsets(fs, r, n)| == n && Offsets(fs, r, n)[i] == OffsetAt(fs, r, i)
    decreases n
  {
    if n > 1 {
      OffsetsAre(fs, r, n - 1, if i < n - 1 then i else 0);
    }
  }

  /** `extern_layout_of_fields`. */
  method CLayout(fs: seq<CField>, r: Repr) returns (l: Layout, ghost raw: nat)
    requires FieldsOk(fs) && ReprOk(r)
    ensures l == LayoutOf(fs, r) && raw == End(fs, r, |fs|)
    ensures Placed(r, fs, l.offsets, |fs|, raw) && AlignCovers(r, fs, |fs|, l.align)
    ensures raw <= l.size && (r.minAlign.Some? ==> r.minAlign.value <= l.align)
    ensures l.size == if raw == 0 then 1 else AlignUp(raw, l.align)
    ensures l.align > 0
  {
    hide AllAligned, Within, Apart, Tight, AllZero, Aligned, IsPow2, Placed, AlignUp;
    var offs: seq<nat> := [];
    EmptyPlaced(r, fs);
    var offset: nat, align: nat, unionSize: nat := 0, 1, 0;
    OneIsPow2();
    for i := 0 to |fs|
      invariant Placed(r, fs, offs, i, if r.isUnion then unionSize else offset)
      invariant offs == Offsets(fs, r, i) && align == WidestOf(fs, r, i)
                && (if r.isUnion then unionSize else offset) == End(fs, r, i)
      invariant AlignCovers(r, fs, i, align) && align > 0
    {
      var a := Eff(r, fs[i]);
      EffPow2(r, fs[i]);
      var off := if r.isUnion then 0 else AlignUp(offset, a);
      PlaceOne(r, fs, offs, i, if r.isUnion then unionSize else offset, off);
      offs := offs + [off];
      if r.isUnion {
        unionSize := Max(unionSize, fs[i].size);
      } else {
        offset := off + fs[i].size;
      }
      GrowAlign(r, fs, i, align);
      align := Max(align, a);
    }
    if r.minAlign.Some? {
      align := Max(align, Max(r.minAlign.value, 1));
    }
    raw := if r.isUnion then unionSize else offset;
    var total := if r.isUnion then unionSize else offset;
    TotalIs(total, align);
    l := Layout(offs, Max(AlignUp(total, align), 1), align);
  }

  lemma NoAlign(r: Repr, fs: seq<CField>)
    ensures AlignCovers(r, fs, 0, 1)
  {
    OneIsPow2();
  }

  lemma GrowAlign(r: Repr, fs: seq<CField>, n: nat, align: nat)
    requires n < |fs| && AlignCovers(r, fs, n, align) && IsPow2(Eff(r, fs[n]))
    ensures AlignCovers(r, fs, n + 1, Max(align, Eff(r, fs[n])))
  {
  }

  lemma EmptyPlaced(r: Repr, fs: seq<CField>)
    ensures Placed(r, fs, [], 0, 0)
  {
  }

  lemma ZeroUp(a: nat)
    requires a > 0
    ensures AlignUp(0, a) == 0
  {
    AlignUpIs(0, a);
    var k: int :| AlignUp(0, a) == k * a;
    StepMul(1, k, a);
  }

  lemma TotalIs(raw: nat, align: nat)
    requires align > 0
    ensures Max(AlignUp(raw, align), 1) == (if raw == 0 then 1 else AlignUp(raw, align))
            && raw <= Max(AlignUp(raw, align), 1)
  {
    AlignUpIs(raw, align);
    if raw == 0 {
      ZeroUp(align);
    }
  }

  lemma PlaceOne(r: Repr, fs: seq<CField>, offs: seq<nat>, n: nat, raw: nat, off: nat)
    requires n < |fs| && Placed(r, fs, offs, n, raw) && Eff(r, fs[n]) > 0
    requires off == if r.isUnion then 0 else AlignUp(raw, Eff(r, fs[n]))
    ensures Placed(r, fs, offs + [off], n + 1, if r.isUnion then Max(raw, fs[n].size) else off + fs[n].size)
  {
    var a := Eff(r, fs[n]);
    AlignUpIs(raw, a);
    assert Aligned(0, a) by { assert 0 == 0 * a; }
    var next := offs + [off];
    hide AlignUp, Aligned, Eff;
    PlaceAligned(r, fs, offs, off);
    hide AllAligned, Within, Apart, Tight;
    PlaceWithin(fs, offs, raw, off, if r.isUnion then Max(raw, fs[n].size) else off + fs[n].size);
    if !r.isUnion {
      PlaceApart(fs, offs, raw, off);
      PlaceTight(r, fs, offs, raw, off);
      assert EndOf(fs, next, n) == off + fs[n].size;
    }
  }

  lemma PlaceAligned(r: Repr, fs: seq<CField>, offs: seq<nat>, off: nat)
    requires |offs| < |fs| && AllAligned(r, fs, offs) && Aligned(off, Eff(r, fs[|offs|]))
    ensures AllAligned(r, fs, offs + [off])
  {
    hide Aligned, Eff;
  }

  lemma PlaceWithin(fs: seq<CField>, offs: seq<nat>, raw: nat, off: nat, m: nat)
    requires |offs| < |fs| && Within(fs, offs, raw) && raw <= m && off + fs[|offs|].size <= m
    ensures Within(fs, offs + [off], m)
  {
    var next := offs + [off];
    forall i | 0 <= i < |next| ensures EndOf(fs, next, i) <= m {
      if i < |offs| {
        assert EndOf(fs, next, i) == EndOf(fs, offs, i);
      }
    }
  }

  lemma PlaceApart(fs: seq<CField>, offs: seq<nat>, raw: nat, off: nat)
    requires |offs| < |fs| && Within(fs, offs, raw) && Apart(fs, offs) && raw <= off
    ensures Apart(fs, offs + [off])
  {
    var next := offs + [off];
    forall i, j | 0 <= i < j < |next| ensures EndOf(fs, next, i) <= next[j] {
      assert EndOf(fs, next, i) == EndOf(fs, offs, i);
    }
  }

  lemma PlaceTight(r: Repr, fs: seq<CField>, offs: seq<nat>, raw: nat, off: nat)
    requires |offs| < |fs| && Tight(r, fs, offs) && off < raw + Eff(r, fs[|offs|])
    requires raw == if offs == [] then 0 else EndOf(fs, offs, |offs| - 1)
    ensures Tight(r, fs, offs + [off])
  {
    var next := offs + [off];
    forall i | 0 <= i < |offs| ensures EndOf(fs, next, i) == EndOf(fs, offs, i) {}
  }

  /** The total is a multiple of the alignment exactly when there is something in it, or
      the alignment is 1. */
  lemma SizeMultiple(raw: nat, align: nat, size: nat)
    requires align > 0 && size == if raw == 0 then 1 else AlignUp(raw, align)
    ensures Aligned(size, align) <==> raw != 0 || align == 1
  {
    if raw != 0 {
      AlignUpIs(raw, align);
    } else if align == 1 {
      assert 1 == 1 * align;
    } else {
      NoUnit(align);
    }
  }

  lemma NoUnit(a: nat)
    requires a > 1
    ensures !Aligned(1, a)
  {
    forall k: int ensures 1 != k * a {
      if k >= 1 {
        assert k * a >= a;
      } else {
        assert k * a <= 0;
      }
    }
  }

  /** Wherever a block with this layout is put at a multiple of its alignment, every field
      is at a multiple of its own: in a nested struct and in an array of structs alike. */
  lemma FieldsStayAligned(r: Repr, fs: seq<CField>, l: Layout, raw: nat, base: int, i: nat)
    requires FieldsOk(fs) && ReprOk(r) && Placed(r, fs, l.offsets, |fs|, raw) && AlignCovers(r, fs, |fs|, l.align)
    requires Aligned(base, l.align) && i < |fs|
    ensures Aligned(base + l.offsets[i], Eff(r, fs[i]))
  {
    EffPow2(r, fs[i]);
    Pow2Divides(Eff(r, fs[i]), l.align);
    AlignedTrans(base, l.align, Eff(r, fs[i]));
    AlignedSum(base, l.offsets[i], Eff(r, fs[i]));
  }

  /** Elements of an array whose element size is a multiple of its alignment. */
  lemma ElementsAligned(base: int, size: nat, align: nat, k: nat)
    requires Aligned(base, align) && Aligned(size, align)
    ensures Aligned(base + k * size, align)
  {
    AlignedTimes(size, k, align);
    AlignedSum(base, k * size, align);
  }

  // -- managed structs --------------------------------------------------------------------

  /** A managed field: its machine size (0 for no value), and whether it holds a managed
      pointer or a reference-counted one. */
  datatype MField = MField(size: nat, managed: bool, counted: bool)

  predicate MFieldOk(f: MField)
  {
    (f.size == 0 || f.size == 1 || f.size == 2 || f.size == 4 || f.size == 8) && (f.counted ==> f.managed)
  }

  function AsField(f: MField): CField
  {
    CField(f.size, Max(f.size, 1))
  }

  function AsFields(fs: seq<MField>): seq<CField>
  {
    seq(|fs|, i requires 0 <= i < |fs| => AsField(fs[i]))
  }

  const PLAIN := Repr(None, None, false)

  datatype MLayout = MLayout(offsets: seq<nat>, size: nat, align: nat, ptrs: seq<nat>, counted: seq<nat>)

  datatype Which = Managed | CountedOnly

  predicate Keeps(which: Which, f: MField)
  {
    if which.Managed? then f.managed else f.counted
  }

  /** The offsets of the chosen fields among the first `n`. */
  function Pick(fs: seq<MField>, offs: seq<nat>, which: Which, n: nat): seq<nat>
    requires n <= |fs| && n <= |offs|
  {
    if n == 0 then [] else Pick(fs, offs, which, n - 1) + (if Keeps(which, fs[n - 1]) then [offs[n - 1]] else [])
  }


  lemma SmallPow2(n: nat)
    requires n == 1 || n == 2 || n == 4 || n == 8
    ensures IsPow2(n)
  {
    assert Pow2(0) == 1 && Pow2(1) == 2 && Pow2(2) == 4 && Pow2(3) == 8;
  }

  lemma {:induction false} PickPrefix(fs: seq<MField>, offs: seq<nat>, off: nat, which: Which, n: nat)
    requires n <= |fs| && n <= |offs|
    ensures Pick(fs, offs + [off], which, n) == Pick(fs, offs, which, n)
  {
    if n > 0 {
      PickPrefix(fs, offs, off, which, n - 1);
    }
  }

  lemma FieldAt(fs: seq<MField>, i: nat)
    requires i < |fs|
    ensures |AsFields(fs)| == |fs| && AsFields(fs)[i] == CField(fs[i].size, Max(fs[i].size, 1))
    ensures Eff(PLAIN, AsFields(fs)[i]) == Max(fs[i].size, 1)
  {
  }

  lemma PickNext(fs: seq<MField>, offs: seq<nat>, which: Which, n: nat)
    requires n < |fs| && n < |offs|
    ensures Pick(fs, offs, which, n + 1) == Pick(fs, offs, which, n) + (if Keeps(which, fs[n]) then [offs[n]] else [])
  {
  }

  /** The state of the loop after `i` fields. */
  ghost predicate Built(fs: seq<MField>, offs: seq<nat>, ptrs: seq<nat>, counted: seq<nat>, offset: nat, align: nat,
                        i: nat)
  {
    && i <= |fs| && |offs| == i && |AsFields(fs)| == |fs| && 0 < align <= 8
    && Placed(PLAIN, AsFields(fs), offs, i, offset) && AlignCovers(PLAIN, AsFields(fs), i, align)
    && ptrs == Pick(fs, offs, Managed, i) && counted == Pick(fs, offs, CountedOnly, i)
  }

  lemma BuiltStart(fs: seq<MField>)
    ensures Built(fs, [], [], [], 0, 1, 0)
  {
    EmptyPlaced(PLAIN, AsFields(fs));
    NoAlign(PLAIN, AsFields(fs));
  }

  lemma BuiltNext(fs: seq<MField>, offs: seq<nat>, ptrs: seq<nat>, counted: seq<nat>, offset: nat, align: nat, i: nat,
                  a: nat, off: nat)
    requires Built(fs, offs, ptrs, counted, offset, align, i) && i < |fs| && MFieldOk(fs[i])
    requires a == Max(fs[i].size, 1) && off == AlignUp(offset, a)
    ensures Built(fs, offs + [off], ptrs + (if fs[i].managed then [off] else []),
                  counted + (if fs[i].counted then [off] else []), off + fs[i].size, Max(align, a), i + 1)
  {
    hide AllAligned, Within, Apart, Tight, AllZero, Aligned, Placed, AlignUp, AsFields, Pick, AlignCovers;
    SmallPow2(a);
    FieldAt(fs, i);
    hide IsPow2;
    PlaceOne(PLAIN, AsFields(fs), offs, i, offset, off);
    GrowAlign(PLAIN, AsFields(fs), i, align);
    PickPrefix(fs, offs, off, Managed, i);
    PickPrefix(fs, offs, off, CountedOnly, i);
    PickNext(fs, offs + [off], Managed, i);
    PickNext(fs, offs + [off], CountedOnly, i);
  }

  /** `layout_of_fields`. */
  method ManagedLayout(fs: seq<MField>) returns (l: MLayout, ghost raw: nat)
    requires forall i | 0 <= i < |fs| :: MFieldOk(fs[i])
    ensures Built(fs, l.offsets, l.ptrs, l.counted, raw, l.align, |fs|)
    ensures l.align > 0 && raw <= l.size && l.size == (if raw == 0 then 1 else AlignUp(raw, l.align))
  {
    hide Built, AlignUp;
    var offs: seq<nat>, ptrs: seq<nat>, counted: seq<nat> := [], [], [];
    var offset: nat, align: nat := 0, 1;
    BuiltStart(fs);
    for i := 0 to |fs|
      invariant align > 0 && Built(fs, offs, ptrs, counted, offset, align, i)
    {
      var a := Max(fs[i].size, 1);
      var off := AlignUp(offset, a);
      BuiltNext(fs, offs, ptrs, counted, offset, align, i, a, off);
      offs := offs + [off];
      ptrs := ptrs + (if fs[i].managed then [off] else []);
      counted := counted + (if fs[i].counted then [off] else []);
      offset := off + fs[i].size;
      align := Max(align, a);
    }
    raw := offset;
    TotalIs(offset, align);
    l := MLayout(offs, Max(AlignUp(offset, align), 1), align, ptrs, counted);
  }

  /** The trace map lists exactly the offsets of the fields it should. */
  lemma {:induction false} PickExact(fs: seq<MField>, offs: seq<nat>, which: Which, n: nat, o: nat)
    requires n <= |fs| && n <= |offs|
    ensures o in Pick(fs, offs, which, n) <==> exists i :: 0 <= i < n && Keeps(which, fs[i]) && offs[i] == o
  {
    if n > 0 {
      PickExact(fs, offs, which, n - 1, o);
    }
  }

  // -- reference-counted structs --------------------------------------------------------------

  const RC_HEADER: nat := 8

  function Shift(xs: seq<nat>): seq<nat>
  {
    seq(|xs|, i requires 0 <= i < |xs| => xs[i] + RC_HEADER)
  }

  /** Room for the count word in front of the fields. */
  function Counting(l: MLayout): MLayout
  {
    MLayout(Shift(l.offsets), l.size + RC_HEADER, Max(l.align, RC_HEADER), Shift(l.ptrs), Shift(l.counted))
  }

  /** The shift keeps every field aligned, apart from the others and inside the block,
      keeps both pointer maps exact, and leaves the first eight bytes to the count. */
  lemma CountingKeeps(fs: seq<MField>, l: MLayout, raw: nat)
    requires forall i | 0 <= i < |fs| :: MFieldOk(fs[i])
    requires Placed(PLAIN, AsFields(fs), l.offsets, |fs|, raw) && raw <= l.size
    requires l.ptrs == Pick(fs, l.offsets, Managed, |fs|) && l.counted == Pick(fs, l.offsets, CountedOnly, |fs|)
    ensures var c := Counting(l);
            && (forall i | 0 <= i < |fs| ::
                Aligned(c.offsets[i], AsField(fs[i]).align) && RC_HEADER <= c.offsets[i]
                  && c.offsets[i] + fs[i].size <= c.size)
            && (forall i, j | 0 <= i < j < |fs| :: c.offsets[i] + fs[i].size <= c.offsets[j])
            && c.ptrs == Pick(fs, c.offsets, Managed, |fs|) && c.counted == Pick(fs, c.offsets, CountedOnly, |fs|)
  {
    var c := Counting(l);
    var cs := AsFields(fs);
    assert AllAligned(PLAIN, cs, l.offsets) && Within(cs, l.offsets, raw) && Apart(cs, l.offsets);
    ShiftPick(fs, l.offsets, Managed, |fs|);
    ShiftPick(fs, l.offsets, CountedOnly, |fs|);
    hide Placed, Tight, Pick;
    forall i | 0 <= i < |fs|
      ensures Aligned(c.offsets[i], AsField(fs[i]).align) && c.offsets[i] + fs[i].size <= c.size
    {
      assert cs[i] == AsField(fs[i]) && Eff(PLAIN, cs[i]) == AsField(fs[i]).align;
      ShiftAligned(l.offsets[i], fs[i]);
      assert EndOf(cs, l.offsets, i) <= raw;
    }
    hide AllAligned, Aligned;
    forall i, j | 0 <= i < j < |fs|
      ensures c.offsets[i] + fs[i].size <= c.offsets[j]
    {
      assert EndOf(cs, l.offsets, i) <= l.offsets[j];
    }
  }

  /** The counted size is a multiple of the counted alignment if and only if the size it is
      shifted from is a multiple of 8, as it is when some field takes 8 bytes. */
  lemma CountedTotalExactly(fs: seq<MField>, l: MLayout, raw: nat)
    requires forall i | 0 <= i < |fs| :: MFieldOk(fs[i])
    requires Built(fs, l.offsets, l.ptrs, l.counted, raw, l.align, |fs|)
    requires l.size == (if raw == 0 then 1 else AlignUp(raw, l.align))
    ensures Aligned(Counting(l).size, Counting(l).align) <==> l.size % RC_HEADER == 0
    ensures (exists i | 0 <= i < |fs| :: fs[i].size == 8) ==> l.size % RC_HEADER == 0
  {
    hide Built, AlignUp;
    assert 0 < l.align <= 8 by { hide *; BuiltAlign(fs, l, raw); }
    var size := Counting(l).size;
    assert size % 8 == l.size % 8;
    if size % 8 == 0 {
      assert size == size / 8 * 8;
    }
    if Aligned(size, 8) {
      var k: int :| size == k * 8;
    }
    if i :| 0 <= i < |fs| && fs[i].size == 8 {
      WideFieldRounds(fs, l, raw, i);
    }
  }

  lemma BuiltAlign(fs: seq<MField>, l: MLayout, raw: nat)
    requires Built(fs, l.offsets, l.ptrs, l.counted, raw, l.align, |fs|)
    ensures 0 < l.align <= 8
  {
  }

  lemma WideFieldRounds(fs: seq<MField>, l: MLayout, raw: nat, i: nat)
    requires Built(fs, l.offsets, l.ptrs, l.counted, raw, l.align, |fs|) && i < |fs| && fs[i].size == 8
    requires l.align > 0 && l.size == (if raw == 0 then 1 else AlignUp(raw, l.align))
    ensures l.size % 8 == 0
  {
    hide AlignUp, Pick, AllAligned, Apart, Tight, IsPow2;
    var cs := AsFields(fs);
    FieldAt(fs, i);
    assert Eff(PLAIN, cs[i]) <= l.align && EndOf(cs, l.offsets, i) <= raw;
    EightRounds(raw);
  }

  lemma EightRounds(x: nat)
    ensures AlignUp(x, 8) % 8 == 0
  {
  }

  /** One byte-sized field: 9 bytes with alignment 8. */
  lemma CountedByte(l: MLayout, raw: nat)
    requires Built([MField(1, false, false)], l.offsets, l.ptrs, l.counted, raw, l.align, 1)
    requires l.size == (if raw == 0 then 1 else AlignUp(raw, l.align)) && l.align == 1
    ensures Counting(l).size == 9 && Counting(l).align == 8 && !Aligned(Counting(l).size, Counting(l).align)
  {
    var fs := [MField(1, false, false)];
    FieldAt(fs, 0);
    CountedTotalExactly(fs, l, raw);
  }

  lemma ShiftAligned(o: nat, f: MField)
    requires MFieldOk(f) && Aligned(o, AsField(f).align)
    ensures Aligned(o + RC_HEADER, AsField(f).align)
  {
    var a := AsField(f).align;
    SmallPow2(a);
    SmallPow2(8);
    Pow2Divides(a, 8);
    AlignedSum(o, 8, a);
  }

  lemma {:induction false} ShiftPick(fs: seq<MField>, offs: seq<nat>, which: Which, n: nat)
    requires n <= |fs| && n <= |offs|
    ensures Shift(Pick(fs, offs, which, n)) == Pick(fs, Shift(offs), which, n)
  {
    if n > 0 {
      ShiftPick(fs, offs, which, n - 1);
      var p := Pick(fs, offs, which, n - 1);
      var last := if Keeps(which, fs[n - 1]) then [offs[n - 1]] else [];
      assert Shift(p + last) == Shift(p) + Shift(last);
    }
  }
}
