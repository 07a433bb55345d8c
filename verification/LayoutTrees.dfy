/**
 Layouts inside layouts: structs embedded in structs and in arrays, to any depth.
 */
module LayoutTrees {
  import opened Hir
  import opened Layouts

  /** A field's type as layout sees it: a scalar, a fixed array, or an embedded struct. */
  datatype Shape = Plain(bytes: nat) | FixedArray(elem: Shape, len: nat) | Embedded(fields: seq<Shape>, repr: Repr)

  /** `field_size_align`. */
  function SizeAlign(sh: Shape): CField
    decreases sh
  {
    match sh
    case Plain(n) => CField(n, Max(n, 1))
    case FixedArray(elem, len) => CField(SizeAlign(elem).size * len, SizeAlign(elem).align)
    case Embedded(fs, r) => CField(LayoutOf(FieldList(fs), r).size, LayoutOf(FieldList(fs), r).align)
  }

  function FieldList(fs: seq<Shape>): (cs: seq<CField>)
    ensures |cs| == |fs|
    decreases fs
  {
    if fs == [] then [] else [SizeAlign(fs[0])] + FieldList(fs[1..])
  }

  lemma {:induction false} FieldListAt(fs: seq<Shape>, i: nat)
    requires i < |fs|
    ensures FieldList(fs)[i] == SizeAlign(fs[i])
  {
    if i > 0 {
      FieldListAt(fs[1..], i - 1);
    }
  }

  /** Scalars have a power-of-two size or none, decorators name powers of two. */
  ghost predicate WellFormed(sh: Shape)
    decreases sh
  {
    match sh
    case Plain(n) => IsPow2(Max(n, 1))
    case FixedArray(elem, _) => WellFormed(elem)
    case Embedded(fs, r) => ReprOk(r) && forall i | 0 <= i < |fs| :: WellFormed(fs[i])
  }

  // -- one struct -----------------------------------------------------------------------

  lemma {:induction false} PlacedUpTo(fs: seq<CField>, r: Repr, n: nat)
    requires FieldsOk(fs) && ReprOk(r) && n <= |fs|
    ensures Placed(r, fs, Offsets(fs, r, n), n, End(fs, r, n)) && AlignCovers(r, fs, n, WidestOf(fs, r, n))
    decreases n
  {
    hide AllAligned, Within, Apart, Tight, AllZero, Aligned, IsPow2, Placed, AlignUp, AlignCovers;
    if n == 0 {
      EmptyPlaced(r, fs);
      NoAlign(r, fs);
    } else {
      PlacedUpTo(fs, r, n - 1);
      EffPow2(r, fs[n - 1]);
      PlaceOne(r, fs, Offsets(fs, r, n - 1), n - 1, End(fs, r, n - 1), OffsetAt(fs, r, n - 1));
      GrowAlign(r, fs, n - 1, WidestOf(fs, r, n - 1));
    }
  }

  lemma LayoutPlaced(fs: seq<CField>, r: Repr)
    requires FieldsOk(fs) && ReprOk(r)
    ensures Placed(r, fs, LayoutOf(fs, r).offsets, |fs|, End(fs, r, |fs|))
            && AlignCovers(r, fs, |fs|, LayoutOf(fs, r).align)
    ensures End(fs, r, |fs|) <= LayoutOf(fs, r).size
  {
    PlacedUpTo(fs, r, |fs|);
    TotalIs(End(fs, r, |fs|), AlignOf(fs, r));
    hide Placed, AlignUp;
  }

  lemma {:induction false} AlignsArePow2(sh: Shape)
    requires WellFormed(sh)
    ensures IsPow2(SizeAlign(sh).align)
    decreases sh
  {
    match sh
    case Plain(_) =>
    case FixedArray(elem, _) => AlignsArePow2(elem);
    case Embedded(fs, r) =>
      FieldListOk(fs);
      LayoutPlaced(FieldList(fs), r);
  }

  lemma {:induction false} FieldListOk(fs: seq<Shape>)
    requires forall i | 0 <= i < |fs| :: WellFormed(fs[i])
    ensures FieldsOk(FieldList(fs))
    decreases fs
  {
    forall i | 0 <= i < |fs| ensures IsPow2(FieldList(fs)[i].align) {
      FieldListAt(fs, i);
      AlignsArePow2(fs[i]);
    }
  }

  // -- every depth --------------------------------------------------------------------------

  /** No decorator packs a field below its own alignment, and array elements keep the ones
      after them aligned. */
  ghost predicate Natural(sh: Shape)
    decreases sh
  {
    match sh
    case Plain(_) => true
    case FixedArray(elem, len) => Natural(elem) && (len > 1 ==> Aligned(SizeAlign(elem).size, SizeAlign(elem).align))
    case Embedded(fs, r) =>
      forall i | 0 <= i < |fs| :: Natural(fs[i]) && Eff(r, SizeAlign(fs[i])) == SizeAlign(fs[i]).align
  }

  datatype Part = Part(offset: nat, shape: Shape)

  /** The part a path of element and field numbers leads to. */
  function PartAt(sh: Shape, path: seq<nat>): Option<Part>
    decreases path
  {
    if path == [] then Some(Part(0, sh))
    else
      match sh
      case Plain(_) => None
      case FixedArray(elem, len) =>
        if path[0] < len then Further(path[0] * SizeAlign(elem).size, PartAt(elem, path[1..])) else None
      case Embedded(fs, r) =>
        if path[0] < |fs| then Further(OffsetAt(FieldList(fs), r, path[0]), PartAt(fs[path[0]], path[1..])) else None
  }

  function Further(shift: nat, p: Option<Part>): Option<Part>
  {
    match p case None => None case Some(q) => Some(Part(shift + q.offset, q.shape))
  }

  /** Whatever is put at a multiple of its alignment has every part, at every depth of
      structs in arrays in structs, at a multiple of the part's own, and inside it. */
  lemma {:induction false} EveryDepthAligned(sh: Shape, path: seq<nat>, base: int)
    requires WellFormed(sh) && Natural(sh) && Aligned(base, SizeAlign(sh).align) && PartAt(sh, path).Some?
    ensures var p := PartAt(sh, path).value;
            Aligned(base + p.offset, SizeAlign(p.shape).align)
              && p.offset + SizeAlign(p.shape).size <= SizeAlign(sh).size
    decreases path
  {
    if path != [] {
      match sh
      case FixedArray(elem, len) =>
        var k, c := path[0], SizeAlign(elem);
        ElementAt(base, c.size, c.align, k, len);
        EveryDepthAligned(elem, path[1..], base + k * c.size);
      case Embedded(fs, r) =>
        var i := path[0];
        FieldAligned(fs, r, i, base);
        EveryDepthAligned(fs[i], path[1..], base + OffsetAt(FieldList(fs), r, i));
    }
  }

  lemma ElementAt(base: int, size: nat, align: nat, k: nat, len: nat)
    requires Aligned(base, align) && k < len && (len > 1 ==> Aligned(size, align))
    ensures Aligned(base + k * size, align) && k * size + size <= size * len
  {
    if k > 0 {
      ElementsAligned(base, size, align, k);
    }
    StepMul(k + 1, len, size);
  }

  lemma FieldAligned(fs: seq<Shape>, r: Repr, i: nat, base: int)
    requires WellFormed(Embedded(fs, r)) && Natural(Embedded(fs, r)) && i < |fs|
             && Aligned(base, SizeAlign(Embedded(fs, r)).align)
    ensures Aligned(base + OffsetAt(FieldList(fs), r, i), SizeAlign(fs[i]).align)
    ensures OffsetAt(FieldList(fs), r, i) + SizeAlign(fs[i]).size <= SizeAlign(Embedded(fs, r)).size
  {
    var cs := FieldList(fs);
    var l := LayoutOf(cs, r);
    FieldListOk(fs);
    LayoutPlaced(cs, r);
    FieldListAt(fs, i);
    OffsetsAre(cs, r, |cs|, i);
    FieldsStayAligned(r, cs, l, End(cs, r, |cs|), base, i);
    assert EndOf(cs, l.offsets, i) <= End(cs, r, |cs|);
  }

  /** A scalar of `n` bytes, at any depth, is at a multiple of `n` and inside the whole. */
  lemma ScalarsAligned(sh: Shape, path: seq<nat>, base: int)
    requires WellFormed(sh) && Natural(sh) && Aligned(base, SizeAlign(sh).align) && PartAt(sh, path).Some?
    ensures var p := PartAt(sh, path).value;
            p.shape.Plain? && p.shape.bytes > 0 ==>
              (base + p.offset) % p.shape.bytes == 0 && p.offset + p.shape.bytes <= SizeAlign(sh).size
  {
    EveryDepthAligned(sh, path, base);
    var p := PartAt(sh, path).value;
    if p.shape.Plain? && p.shape.bytes > 0 {
      assert SizeAlign(p.shape) == CField(p.shape.bytes, p.shape.bytes);
      hide SizeAlign, PartAt, WellFormed, Natural;
      MultipleOf(base + p.offset, p.shape.bytes);
    }
  }

  lemma MultipleOf(x: int, n: nat)
    requires n > 0 && Aligned(x, n)
    ensures x % n == 0
  {
    var k: int :| x == k * n;
    var q, m := x / n, x % n;
    assert x == q * n + m;
    StepMul(k, q, n);
    StepMul(q + 1, k, n);
  }

  // -- the exceptions -------------------------------------------------------------------------

  /** The second element of an array of structs is aligned if and only if the struct is not
      empty or not over-aligned. */
  lemma SecondElementExactly(fs: seq<Shape>, r: Repr, base: int)
    requires WellFormed(Embedded(fs, r)) && Aligned(base, SizeAlign(Embedded(fs, r)).align)
    ensures var c := SizeAlign(Embedded(fs, r));
            Aligned(base + c.size, c.align) <==> End(FieldList(fs), r, |fs|) != 0 || c.align == 1
  {
    var cs, c := FieldList(fs), SizeAlign(Embedded(fs, r));
    TotalIs(End(cs, r, |cs|), c.align);
    SizeMultiple(End(cs, r, |cs|), c.align, c.size);
    if Aligned(base + c.size, c.align) {
      AlignedTimes(base, -1, c.align);
      AlignedSum(base + c.size, -base, c.align);
    } else if Aligned(c.size, c.align) {
      AlignedSum(base, c.size, c.align);
    }
  }

  /** Wherever a struct with this decorator is put, and whatever its other fields are, a
      field of shape `sh` is at a multiple of its own alignment. */
  ghost predicate AlwaysAligned(sh: Shape, r: Repr)
  {
    forall fs: seq<Shape>, i: nat, base: int | Holds(fs, r, i, sh, base) ::
      Aligned(base + OffsetAt(FieldList(fs), r, i), SizeAlign(sh).align)
  }

  ghost predicate Holds(fs: seq<Shape>, r: Repr, i: nat, sh: Shape, base: int)
  {
    i < |fs| && fs[i] == sh && WellFormed(Embedded(fs, r)) && Aligned(base, SizeAlign(Embedded(fs, r)).align)
  }

  /** The decorators under which a field of shape `sh` is always aligned: those that do not
      pack below its alignment, and on a union those that also ask for that much. */
  predicate Roomy(sh: Shape, r: Repr)
  {
    var a := SizeAlign(sh).align;
    || r.packed.None?
    || a <= Max(r.packed.value, 1)
    || (r.isUnion && r.minAlign.Some? && a <= r.minAlign.value)
  }

  /** A field is at a multiple of its own alignment in every struct with that decorator if
      and only if the decorator is roomy for it: packing below it is what breaks this. */
  lemma PackedFieldExactly(sh: Shape, r: Repr)
    requires WellFormed(sh) && ReprOk(r)
    ensures AlwaysAligned(sh, r) <==> Roomy(sh, r)
  {
    if Roomy(sh, r) {
      forall fs: seq<Shape>, i: nat, base: int | Holds(fs, r, i, sh, base)
        ensures Aligned(base + OffsetAt(FieldList(fs), r, i), SizeAlign(sh).align)
      {
        RoomyAligned(fs, r, i, base);
      }
    } else if r.isUnion {
      UnionTooLow(sh, r);
    } else {
      PackedTooLow(sh, r);
    }
  }

  lemma RoomyAligned(fs: seq<Shape>, r: Repr, i: nat, base: int)
    requires i < |fs| && Holds(fs, r, i, fs[i], base) && Roomy(fs[i], r)
    ensures Aligned(base + OffsetAt(FieldList(fs), r, i), SizeAlign(fs[i]).align)
  {
    var cs := FieldList(fs);
    var l := LayoutOf(cs, r);
    FieldListOk(fs);
    LayoutPlaced(cs, r);
    FieldListAt(fs, i);
    OffsetsAre(cs, r, |cs|, i);
    if Eff(r, cs[i]) == cs[i].align {
      FieldsStayAligned(r, cs, l, End(cs, r, |cs|), base, i);
    } else {
      AlignsArePow2(fs[i]);
      Pow2Divides(cs[i].align, l.align);
      AlignedTrans(base, l.align, cs[i].align);
    }
  }

  lemma ZeroAligned(a: nat)
    ensures Aligned(0, a)
  {
    assert 0 == 0 * a;
  }

  lemma SmallerNot(x: nat, a: nat)
    requires 0 < x < a
    ensures !Aligned(x, a)
  {
    if Aligned(x, a) {
      var k: int :| x == k * a;
      StepMul(k, 0, a);
      StepMul(1, k, a);
    }
  }

  /** A byte in front of the field puts it at the packed alignment, which is too low. */
  lemma PackedTooLow(sh: Shape, r: Repr)
    requires WellFormed(sh) && ReprOk(r) && !Roomy(sh, r) && !r.isUnion
    ensures !AlwaysAligned(sh, r)
  {
    var fs, p := [Plain(1), sh], Max(r.packed.value, 1);
    OneIsPow2();
    ZeroAligned(SizeAlign(Embedded(fs, r)).align);
    assert Holds(fs, r, 1, sh, 0);
    FieldListAt(fs, 0);
    FieldListAt(fs, 1);
    ByteThen(FieldList(fs), r, p);
    SmallerNot(p, SizeAlign(sh).align);
    assert !Aligned(0 + OffsetAt(FieldList(fs), r, 1), SizeAlign(sh).align);
  }

  lemma ByteThen(cs: seq<CField>, r: Repr, p: nat)
    requires |cs| == 2 && cs[0] == CField(1, 1) && !r.isUnion && 0 < p && Eff(r, cs[0]) == 1 && Eff(r, cs[1]) == p
    ensures OffsetAt(cs, r, 1) == p
  {
    assert End(cs, r, 0) == 0 && End(cs, r, 1) == 1;
    assert AlignUp(1, p) == p;
  }

  /** A union of that one field, put at a multiple of its own alignment. */
  lemma UnionTooLow(sh: Shape, r: Repr)
    requires WellFormed(sh) && ReprOk(r) && !Roomy(sh, r) && r.isUnion
    ensures !AlwaysAligned(sh, r)
  {
    var fs := [sh];
    var m := SizeAlign(Embedded(fs, r)).align;
    FieldListAt(fs, 0);
    assert WidestOf(FieldList(fs), r, 1) == Max(WidestOf(FieldList(fs), r, 0), Eff(r, SizeAlign(sh)));
    assert m < SizeAlign(sh).align;
    assert Aligned(m, m) by { assert m == 1 * m; }
    assert Holds(fs, r, 0, sh, m);
    SmallerNot(m, SizeAlign(sh).align);
    assert !Aligned(m + OffsetAt(FieldList(fs), r, 0), SizeAlign(sh).align);
  }
}
