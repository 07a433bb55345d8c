/**
 Type descriptors: the blob that code generation writes and the positions at which the
 runtime reads it.
 */
module Descriptor {
  type byte = x: int | 0 <= x < 256

  const U32: nat := 0x1_0000_0000
  const U64: nat := 0x1_0000_0000_0000_0000

  /** `k` bytes of `x`, least significant first. */
  function Le(x: nat, k: nat): (b: seq<byte>)
    ensures |b| == k
    decreases k
  {
    if k == 0 then [] else [x % 256] + Le(x / 256, k - 1)
  }

  function Words(xs: seq<nat>): (b: seq<byte>)
    ensures |b| == 4 * |xs|
  {
    if xs == [] then [] else Words(xs[..|xs| - 1]) + Le(xs[|xs| - 1], 4)
  }

  datatype Desc = Desc(size: nat, kind: nat, typeId: int, ptrs: seq<nat>, counted: seq<nat>)

  predicate Fits(d: Desc)
  {
    && d.size < U32 && d.kind < U64 && -0x8000_0000_0000_0000 <= d.typeId < 0x8000_0000_0000_0000
    && |d.ptrs| < U32 && |d.counted| < U32
    && (forall i | 0 <= i < |d.ptrs| :: d.ptrs[i] < U32) && (forall i | 0 <= i < |d.counted| :: d.counted[i] < U32)
  }

  /** A signed 64-bit id as its bit pattern, and back. */
  function AsU64(x: int): nat
    requires -0x8000_0000_0000_0000 <= x < 0x8000_0000_0000_0000
  {
    if x < 0 then x + U64 else x
  }

  function AsI64(x: nat): int
  {
    if x < 0x8000_0000_0000_0000 then x else x - U64
  }

  function Head(d: Desc): seq<byte>
    requires Fits(d)
  {
    Le(d.size, 8) + Le(d.kind, 8) + Le(AsU64(d.typeId), 8) + Le(|d.ptrs|, 8)
  }

  function Blob(d: Desc): seq<byte>
    requires Fits(d)
  {
    Head(d) + Words(d.ptrs) + Le(|d.counted|, 4) + Words(d.counted) + Le(0, 4)
  }

  /** `emit_descriptor_full`. */
  method Write(d: Desc) returns (bytes: seq<byte>)
    requires Fits(d)
    ensures bytes == Blob(d)
  {
    hide Le, Words;
    bytes := Le(d.size, 8);
    bytes := bytes + Le(d.kind, 8);
    bytes := bytes + Le(AsU64(d.typeId), 8);
    bytes := bytes + Le(|d.ptrs|, 8);
    ghost var head := bytes;
    WordsStart(d.ptrs);
    for i := 0 to |d.ptrs|
      invariant bytes == head + Words(d.ptrs[..i])
    {
      WordsNext(head, d.ptrs, i);
      bytes := bytes + Le(d.ptrs[i], 4);
    }
    assert d.ptrs[..|d.ptrs|] == d.ptrs;
    bytes := bytes + Le(|d.counted|, 4);
    ghost var first := bytes;
    WordsStart(d.counted);
    for i := 0 to |d.counted|
      invariant bytes == first + Words(d.counted[..i])
    {
      WordsNext(first, d.counted, i);
      bytes := bytes + Le(d.counted[i], 4);
    }
    assert d.counted[..|d.counted|] == d.counted;
    bytes := bytes + Le(0, 4);
  }

  lemma WordsStart(xs: seq<nat>)
    ensures Words(xs[..0]) == []
  {
  }

  lemma WordsNext(pre: seq<byte>, xs: seq<nat>, i: nat)
    requires i < |xs|
    ensures pre + Words(xs[..i]) + Le(xs[i], 4) == pre + Words(xs[..i + 1])
  {
    hide Le;
    assert xs[..i + 1][..i] == xs[..i] && xs[..i + 1][i] == xs[i];
    assert Words(xs[..i + 1]) == Words(xs[..i]) + Le(xs[i], 4);
    hide Words;
  }

  // -- the runtime's reader --------------------------------------------------------------------

  function Read(b: seq<byte>, off: nat, k: nat): nat
    requires off + k <= |b|
    decreases k
  {
    if k == 0 then 0 else b[off] + 256 * Read(b, off + 1, k - 1)
  }

  function ReadWords(b: seq<byte>, off: nat, n: nat): seq<nat>
    requires off + 4 * n <= |b|
  {
    if n == 0 then [] else ReadWords(b, off, n - 1) + [Read(b, off + 4 * (n - 1), 4)]
  }

  datatype Parsed = Parsed(desc: Desc, endpoints: nat, used: nat)

  /** Reading by the documented positions; `None` where a read would leave the blob. */
  datatype Result = Bad | Good(p: Parsed)

  function Parse(b: seq<byte>): Result
  {
    if |b| < 32 then Bad
    else
      var n := Read(b, 24, 8);
      var trailer := 32 + 4 * n;
      if |b| < trailer + 4 then Bad
      else
        var m := Read(b, trailer, 4);
        var endpoints := trailer + 4 + 4 * m;
        if |b| < endpoints + 4 then Bad
        else
          Good(Parsed(Desc(Read(b, 0, 8), Read(b, 8, 8), AsI64(Read(b, 16, 8)), ReadWords(b, 32, n),
                           ReadWords(b, trailer + 4, m)), Read(b, endpoints, 4), endpoints + 4))
  }

  function Pow256(k: nat): nat
  {
    if k == 0 then 1 else 256 * Pow256(k - 1)
  }

  lemma {:induction false} ReadLe(b: seq<byte>, off: nat, x: nat, k: nat)
    requires off + k <= |b| && b[off..off + k] == Le(x, k) && x < Pow256(k)
    ensures Read(b, off, k) == x
    decreases k
  {
    if k > 0 {
      var seg := b[off..off + k];
      assert seg[0] == x % 256 && seg[1..] == Le(x / 256, k - 1);
      assert b[off + 1..off + 1 + (k - 1)] == seg[1..];
      ReadLe(b, off + 1, x / 256, k - 1);
    }
  }

  lemma Pows()
    ensures Pow256(4) == U32 && Pow256(8) == U64
  {
    assert Pow256(2) == 65536;
    assert Pow256(3) == 16777216;
    assert Pow256(4) == U32;
    assert Pow256(5) == 256 * U32;
    assert Pow256(6) == 65536 * U32;
    assert Pow256(7) == 16777216 * U32;
  }

  /** Segment `seg` of `b` starts at `off`. */
  predicate At(b: seq<byte>, off: nat, seg: seq<byte>)
  {
    off + |seg| <= |b| && b[off..off + |seg|] == seg
  }

  lemma AtSplit(b: seq<byte>, off: nat, x: seq<byte>, y: seq<byte>)
    requires At(b, off, x + y)
    ensures At(b, off, x) && At(b, off + |x|, y)
  {
    var s := x + y;
    assert b[off..off + |x|] == s[..|x|] == x;
    assert b[off + |x|..off + |x| + |y|] == s[|x|..] == y;
  }

  lemma ReadAt(b: seq<byte>, off: nat, x: nat, k: nat)
    requires At(b, off, Le(x, k)) && (k == 4 || k == 8) && x < (if k == 4 then U32 else U64)
    ensures Read(b, off, k) == x
  {
    Pows();
    ReadLe(b, off, x, k);
  }

  lemma WordsSplit(b: seq<byte>, off: nat, xs: seq<nat>, n: nat)
    requires n + 1 == |xs| && At(b, off, Words(xs))
    ensures off + 4 * n + 4 <= |b| && At(b, off, Words(xs[..n])) && At(b, off + 4 * n, Le(xs[n], 4))
  {
    Inside(b, off, Words(xs));
    hide At, Le;
    assert Words(xs) == Words(xs[..n]) + Le(xs[n], 4);
    AtSplit(b, off, Words(xs[..n]), Le(xs[n], 4));
  }

  lemma {:induction false} ReadWordsAt(b: seq<byte>, off: nat, xs: seq<nat>)
    requires off + 4 * |xs| <= |b| && At(b, off, Words(xs)) && forall i | 0 <= i < |xs| :: xs[i] < U32
    ensures ReadWords(b, off, |xs|) == xs
    decreases |xs|
  {
    hide At, Le, Words, Read;
    if xs != [] {
      var n := |xs| - 1;
      WordsSplit(b, off, xs, n);
      ReadWordsAt(b, off, xs[..n]);
      ReadAt(b, off + 4 * n, xs[n], 4);
      assert xs == xs[..n] + [xs[n]];
    }
  }

  lemma Inside(b: seq<byte>, off: nat, seg: seq<byte>)
    requires At(b, off, seg)
    ensures off + |seg| <= |b|
  {
  }

  lemma Whole(a: seq<byte>, rest: seq<byte>)
    ensures At(a + rest, 0, a)
  {
  }

  /** Parsing what was written gives back every part and uses exactly the bytes written,
      whatever follows the blob in memory. */
  lemma ParseBlob(d: Desc, rest: seq<byte>)
    requires Fits(d)
    ensures Parse(Blob(d) + rest) == Good(Parsed(d, 0, |Blob(d)|))
  {
    hide At, Le, Words, Read, ReadWords, Blob, Head, Parse, Fits;
    var b := Blob(d) + rest;
    BlobParts(b, d, rest);
    HeadParts(b, d);
    BodyParts(b, d);
    ParseIs(b, |d.ptrs|, |d.counted|);
  }

  lemma BodyParts(b: seq<byte>, d: Desc)
    requires Fits(d) && |b| >= 40 + 4 * |d.ptrs| + 4 * |d.counted|
    requires At(b, 32, Words(d.ptrs)) && At(b, 32 + 4 * |d.ptrs|, Le(|d.counted|, 4))
    requires At(b, 36 + 4 * |d.ptrs|, Words(d.counted)) && At(b, 36 + 4 * |d.ptrs| + 4 * |d.counted|, Le(0, 4))
    ensures ReadWords(b, 32, |d.ptrs|) == d.ptrs && Read(b, 32 + 4 * |d.ptrs|, 4) == |d.counted|
    ensures ReadWords(b, 36 + 4 * |d.ptrs|, |d.counted|) == d.counted
            && Read(b, 36 + 4 * |d.ptrs| + 4 * |d.counted|, 4) == 0
  {
    hide At, Le, Words, Read, ReadWords;
    ReadWordsAt(b, 32, d.ptrs);
    ReadAt(b, 32 + 4 * |d.ptrs|, |d.counted|, 4);
    ReadWordsAt(b, 36 + 4 * |d.ptrs|, d.counted);
    ReadAt(b, 36 + 4 * |d.ptrs| + 4 * |d.counted|, 0, 4);
  }

  lemma ParseIs(b: seq<byte>, n: nat, m: nat)
    requires |b| >= 40 + 4 * n + 4 * m && Read(b, 24, 8) == n && Read(b, 32 + 4 * n, 4) == m
    ensures Parse(b)
            == Good(Parsed(Desc(Read(b, 0, 8), Read(b, 8, 8), AsI64(Read(b, 16, 8)), ReadWords(b, 32, n),
                                ReadWords(b, 36 + 4 * n, m)), Read(b, 36 + 4 * n + 4 * m, 4), 40 + 4 * n + 4 * m))
  {
    hide Read, ReadWords;
  }

  lemma BlobParts(b: seq<byte>, d: Desc, rest: seq<byte>)
    requires Fits(d) && b == Blob(d) + rest
    ensures var n, m := |d.ptrs|, |d.counted|;
            && |Blob(d)| == 40 + 4 * n + 4 * m && At(b, 0, Head(d)) && At(b, 32, Words(d.ptrs))
               && At(b, 32 + 4 * n, Le(m, 4))
            && At(b, 36 + 4 * n, Words(d.counted)) && At(b, 36 + 4 * n + 4 * m, Le(0, 4))
  {
    var n, m := |d.ptrs|, |d.counted|;
    hide At, Le, Words, Fits;
    Whole(Blob(d), rest);
    assert |Head(d)| == 32;
    var head, ps, cs := Head(d), Words(d.ptrs), Words(d.counted);
    hide Head;
    AtSplit(b, 0, head + ps + Le(m, 4) + cs, Le(0, 4));
    AtSplit(b, 0, head + ps + Le(m, 4), cs);
    AtSplit(b, 0, head + ps, Le(m, 4));
    AtSplit(b, 0, head, ps);
  }

  lemma HeadParts(b: seq<byte>, d: Desc)
    requires Fits(d) && At(b, 0, Head(d))
    ensures |b| >= 32 && Read(b, 0, 8) == d.size && Read(b, 8, 8) == d.kind && AsI64(Read(b, 16, 8)) == d.typeId
            && Read(b, 24, 8) == |d.ptrs|
  {
    var n := |d.ptrs|;
    hide At, Le, Words, Read;
    AtSplit(b, 0, Le(d.size, 8) + Le(d.kind, 8) + Le(AsU64(d.typeId), 8), Le(n, 8));
    AtSplit(b, 0, Le(d.size, 8) + Le(d.kind, 8), Le(AsU64(d.typeId), 8));
    AtSplit(b, 0, Le(d.size, 8), Le(d.kind, 8));
    Inside(b, 24, Le(n, 8));
    ReadAt(b, 0, d.size, 8);
    ReadAt(b, 8, d.kind, 8);
    ReadAt(b, 16, AsU64(d.typeId), 8);
    ReadAt(b, 24, n, 8);
  }
}
