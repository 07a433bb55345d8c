/**
 Blocks of bytes: copying an extern struct in chunks, its heap home, and the aligned
 stack block.
 */
module Blocks {
  import opened Layouts

  // -- copying --------------------------------------------------------------------------

  /** One load and store of `w` bytes at offset `i`. */
  datatype Chunk = Chunk(i: nat, w: nat)

  /** The chunk list that `copy_bytes` emits. */
  method Chunks(n: nat) returns (cs: seq<Chunk>)
    ensures Tiles(cs, n)
    ensures forall k | 0 <= k < |cs| :: cs[k].w == 8 || cs[k].w == 4 || cs[k].w == 2 || cs[k].w == 1
  {
    cs := [];
    var i: nat := 0;
    var widths := [8, 4, 2, 1];
    for k := 0 to 4
      invariant i <= n && Tiles(cs, i) && (k > 0 ==> n - i < widths[k - 1])
      invariant forall j | 0 <= j < |cs| :: cs[j].w == 8 || cs[j].w == 4 || cs[j].w == 2 || cs[j].w == 1
    {
      while i + widths[k] <= n
        invariant i <= n && Tiles(cs, i)
        invariant forall j | 0 <= j < |cs| :: cs[j].w == 8 || cs[j].w == 4 || cs[j].w == 2 || cs[j].w == 1
        decreases n - i
      {
        cs := cs + [Chunk(i, widths[k])];
        i := i + widths[k];
      }
    }
  }

  /** The chunks lie end to end from 0 to `n`. */
  predicate Tiles(cs: seq<Chunk>, n: nat)
  {
    if cs == [] then n == 0
    else
      var c := cs[|cs| - 1];
      c.w > 0 && c.i + c.w == n && Tiles(cs[..|cs| - 1], c.i)
  }

  /** How many chunks write byte `b`. */
  function Writes(cs: seq<Chunk>, b: nat): nat
  {
    if cs == [] then 0
    else
      var c := cs[|cs| - 1];
      Writes(cs[..|cs| - 1], b) + (if c.i <= b < c.i + c.w then 1 else 0)
  }

  /** Each of the `n` bytes is written exactly once, and no other byte is. */
  lemma {:induction false} TilesWriteOnce(cs: seq<Chunk>, n: nat, b: nat)
    requires Tiles(cs, n)
    ensures Writes(cs, b) == if b < n then 1 else 0
    decreases |cs|
  {
    if cs != [] {
      TilesWriteOnce(cs[..|cs| - 1], cs[|cs| - 1].i, b);
    }
  }

  /** Running the chunks in order copies the bytes and leaves the rest alone. */
  method CopyBytes(dst: array<int>, off: nat, src: array<int>, n: nat)
    requires dst != src && n <= src.Length && off + n <= dst.Length
    modifies dst
    ensures forall b | 0 <= b < dst.Length :: dst[b] == if off <= b < off + n then src[b - off] else old(dst[b])
  {
    var i: nat := 0;
    var widths := [8, 4, 2, 1];
    for k := 0 to 4
      invariant i <= n && (k > 0 ==> n - i < widths[k - 1])
      invariant forall b | 0 <= b < dst.Length :: dst[b] == if off <= b < off + i then src[b - off] else old(dst[b])
    {
      var w := widths[k];
      while i + w <= n
        invariant i <= n
        invariant forall b | 0 <= b < dst.Length :: dst[b] == if off <= b < off + i then src[b - off] else old(dst[b])
        decreases n - i
      {
        CopyWord(dst, off + i, src, i, w);
        i := i + w;
      }
    }
  }

  /** A load of `w` bytes and a store of the same. */
  method CopyWord(dst: array<int>, at: nat, src: array<int>, from: nat, w: nat)
    requires dst != src && at + w <= dst.Length && from + w <= src.Length
    modifies dst
    ensures forall b | 0 <= b < dst.Length :: dst[b] == if at <= b < at + w then src[from + (b - at)] else old(dst[b])
  {
    for j := 0 to w
      invariant forall b | 0 <= b < dst.Length ::
                  dst[b] == if at <= b < at + j then src[from + (b - at)] else old(dst[b])
    {
      dst[at + j] := src[from + j];
    }
  }

  function Words(size: nat): nat
  {
    (size + 7) / 8
  }

  /** The heap block of `heap_copy_extern`. */
  function HeapBlock(size: nat): nat
  {
    Max(Words(size) * 8, 8)
  }

  /** The copy stays inside its block, which wastes less than a word. */
  lemma CopyFits(size: nat)
    ensures size <= HeapBlock(size) && HeapBlock(size) % 8 == 0 && (size > 0 ==> HeapBlock(size) < size + 8)
  {
  }

  // -- the stack block ------------------------------------------------------------------------

  /** The bytes of the slot: whole words, and room to round up when the stack cannot give
      the alignment itself. */
  function SlotBytes(size: nat, align: nat): nat
  {
    Words(Max(size, 1)) * 8 + (if align <= 16 then 0 else align)
  }

  /** `(base + mask) & !mask` for a power of two `align`. */
  function RoundUp(base: nat, align: nat): nat
    requires align > 0
  {
    (base + (align - 1)) / align * align
  }

  /** What the stack gives a slot: the asked-for alignment up to 16, and 16 beyond. */
  ghost predicate SlotBase(base: nat, align: nat)
  {
    Aligned(base, if align <= 16 then align else 16)
  }

  method StackBlock(mem: array<int>, base: nat, size: nat, align0: nat) returns (addr: nat)
    requires IsPow2(Max(align0, 1)) && SlotBase(base, Max(align0, 1))
    requires base + SlotBytes(size, Max(align0, 1)) <= mem.Length
    modifies mem
    ensures Aligned(addr, Max(align0, 1))
    ensures base <= addr
            && addr + Max(size, 1) <= addr + Words(Max(size, 1)) * 8 <= base + SlotBytes(size, Max(align0, 1))
    ensures forall b | addr <= b < addr + Words(Max(size, 1)) * 8 :: mem[b] == 0
    ensures forall b | 0 <= b < mem.Length && !(addr <= b < addr + Words(Max(size, 1)) * 8) :: mem[b] == old(mem[b])
  {
    var align := Max(align0, 1);
    var words := Words(Max(size, 1));
    if align <= 16 {
      addr := base;
    } else {
      addr := RoundUp(base, align);
      RoundUpIs(base, align);
    }
    for w := 0 to words
      invariant forall b | addr <= b < addr + w * 8 :: mem[b] == 0
      invariant forall b | 0 <= b < mem.Length && !(addr <= b < addr + w * 8) :: mem[b] == old(mem[b])
    {
      ZeroWord(mem, addr + w * 8);
    }
  }

  lemma RoundUpIs(base: nat, align: nat)
    requires align > 0
    ensures Aligned(RoundUp(base, align), align) && base <= RoundUp(base, align) < base + align
  {
    AlignUpIs(base, align);
    assert base + (align - 1) == base + align - 1;
    assert RoundUp(base, align) == AlignUp(base, align);
  }

  method ZeroWord(mem: array<int>, at: nat)
    requires at + 8 <= mem.Length
    modifies mem
    ensures forall b | 0 <= b < mem.Length :: mem[b] == if at <= b < at + 8 then 0 else old(mem[b])
  {
    for j := 0 to 8
      invariant forall b | 0 <= b < mem.Length :: mem[b] == if at <= b < at + j then 0 else old(mem[b])
    {
      mem[at + j] := 0;
    }
  }
}
