/**
 The line index of a source file against counting newlines.
 */
module Lines {
  type Text = seq<nat>

  const NEWLINE: nat := 10

  /** The newlines among the first `n` bytes. */
  function Newlines(src: Text, n: nat): nat
    requires n <= |src|
  {
    if n == 0 then 0 else Newlines(src, n - 1) + (if src[n - 1] == NEWLINE then 1 else 0)
  }

  function Clamp(src: Text, pos: nat): nat
  {
    if pos < |src| then pos else |src|
  }

  /** `byte_to_line`: the simple form. */
  function ByteToLine(src: Text, pos: nat): nat
  {
    1 + Newlines(src, Clamp(src, pos))
  }

  /** The line starts known after `n` bytes. */
  function Starts(src: Text, n: nat): (r: seq<nat>)
    requires n <= |src|
    ensures |r| == 1 + Newlines(src, n)
  {
    if n == 0 then [0] else Starts(src, n - 1) + (if src[n - 1] == NEWLINE then [n] else [])
  }

  /** `compute_line_starts`. */
  method ComputeLineStarts(src: Text) returns (starts: seq<nat>)
    ensures starts == Starts(src, |src|)
  {
    starts := [0];
    for i := 0 to |src|
      invariant starts == Starts(src, i)
    {
      if src[i] == NEWLINE {
        starts := starts + [i + 1];
      }
    }
  }

  predicate Increasing(xs: seq<nat>)
  {
    forall i, j | 0 <= i < j < |xs| :: xs[i] < xs[j]
  }

  lemma {:induction false} StartsIncrease(src: Text, n: nat)
    requires n <= |src|
    ensures Increasing(Starts(src, n)) && Starts(src, n)[0] == 0
    ensures forall k | 0 <= k < |Starts(src, n)| :: Starts(src, n)[k] <= n
  {
    if n > 0 {
      StartsIncrease(src, n - 1);
    }
  }

  /** The starts up to `off` are those found in the first `off` bytes. */
  lemma {:induction false} StartsSplit(src: Text, off: nat, n: nat)
    requires off <= n <= |src|
    ensures Starts(src, off) <= Starts(src, n)
    ensures forall k | |Starts(src, off)| <= k < |Starts(src, n)| :: Starts(src, n)[k] > off
    decreases n
  {
    if off < n {
      StartsSplit(src, off, n - 1);
    }
  }

  /** Binary search as the standard library specifies it: a hit, or the insertion point. */
  method Search(xs: seq<nat>, x: nat) returns (hit: bool, i: nat)
    requires Increasing(xs)
    ensures hit ==> i < |xs| && xs[i] == x
    ensures !hit ==> i <= |xs| && (forall k | 0 <= k < i :: xs[k] < x) && (forall k | i <= k < |xs| :: x < xs[k])
  {
    var lo, hi := 0, |xs|;
    while lo < hi
      invariant 0 <= lo <= hi <= |xs|
      invariant (forall k | 0 <= k < lo :: xs[k] < x) && (forall k | hi <= k < |xs| :: x < xs[k])
    {
      var mid := lo + (hi - lo) / 2;
      if xs[mid] == x {
        return true, mid;
      } else if xs[mid] < x {
        lo := mid + 1;
      } else {
        hi := mid;
      }
    }
    return false, lo;
  }

  /** The search ends at the last start that is not after `off`. */
  lemma IndexIs(starts: seq<nat>, own: seq<nat>, off: nat, hit: bool, i: nat)
    requires Increasing(starts) && own <= starts && |own| > 0
    requires (forall k | 0 <= k < |own| :: own[k] <= off) && (forall k | |own| <= k < |starts| :: starts[k] > off)
    requires if hit then i < |starts| && starts[i] == off
             else
               && i <= |starts|
               && (forall k | 0 <= k < i :: starts[k] < off)
               && (forall k | i <= k < |starts| :: off < starts[k])
    ensures (if hit then i else i - 1) == |own| - 1
  {
    var c := |own| - 1;
    assert starts[c] == own[c] && own[c] <= off;
    assert c + 1 < |starts| ==> starts[c + 1] > off;
    assert forall k | 0 <= k < c :: starts[k] < starts[c];
  }

  /** `line_col`: 1-based, from the table. The line is the one counting newlines gives, and
      line start plus column is the clamped offset, with no newline in between. */
  method LineCol(src: Text, starts: seq<nat>, pos: nat) returns (line: nat, col: nat)
    requires starts == Starts(src, |src|)
    ensures line == ByteToLine(src, pos)
    ensures 1 <= line <= |starts| && col >= 1 && starts[line - 1] + (col - 1) == Clamp(src, pos)
    ensures forall k | starts[line - 1] <= k < Clamp(src, pos) :: src[k] != NEWLINE
  {
    var off := if pos < |src| then pos else |src|;
    StartsIncrease(src, |src|);
    StartsSplit(src, off, |src|);
    StartsIncrease(src, off);
    var hit, i := Search(starts, off);
    var idx := if hit then i else i - 1;
    IndexIs(starts, Starts(src, off), off, hit, i);
    SameLine(src, off);
    line := idx + 1;
    col := off - starts[idx] + 1;
  }

  /** After the last start, no newline. */
  lemma {:induction false} SameLine(src: Text, n: nat)
    requires n <= |src|
    ensures var s := Starts(src, n); forall k | s[|s| - 1] <= k < n :: src[k] != NEWLINE
  {
    if n > 0 {
      SameLine(src, n - 1);
    }
  }

  /** Lines never go down along the text, and a newline is the last byte of its line. */
  lemma {:induction false} LinesGrow(src: Text, a: nat, b: nat)
    requires a <= b
    ensures ByteToLine(src, a) <= ByteToLine(src, b)
    ensures a < |src| && src[a] == NEWLINE ==> ByteToLine(src, a + 1) == ByteToLine(src, a) + 1
    decreases b
  {
    if a < b && b <= |src| {
      LinesGrow(src, a, b - 1);
    } else if a < b && b > |src| {
      LinesGrow(src, a, b - 1);
    }
  }
}
