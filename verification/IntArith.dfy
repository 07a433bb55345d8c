/**
 Integer arithmetic with explicit overflow: the four families over add, sub, mul, div,
 rem, neg and the shifts, as the select sequences that are emitted, against one exact
 mathematical result.
 */
module IntArith {
  import opened Powers

  /** An integer type. */
  datatype T = T(bits: nat, signed: bool)

  predicate IsInt(t: T)
  {
    t.bits == 8 || t.bits == 16 || t.bits == 32 || t.bits == 64
  }

  /** 2^bits and 2^(bits-1). */
  function Size(t: T): int
    requires IsInt(t)
  {
    if t.bits == 8 then 0x100 else if t.bits == 16 then 0x1_0000 else if t.bits == 32 then 0x1_0000_0000
    else 0x1_0000_0000_0000_0000
  }

  function Half(t: T): int
    requires IsInt(t)
  {
    if t.bits == 8 then 0x80 else if t.bits == 16 then 0x8000 else if t.bits == 32 then 0x8000_0000
    else 0x8000_0000_0000_0000
  }

  function Lo(t: T): int
    requires IsInt(t)
  {
    if t.signed then -Half(t) else 0
  }

  function Hi(t: T): int
    requires IsInt(t)
  {
    if t.signed then Half(t) - 1 else Size(t) - 1
  }

  predicate Fits(t: T, x: int)
    requires IsInt(t)
  {
    Lo(t) <= x <= Hi(t)
  }

  function Residue(t: T, x: int): nat
    requires IsInt(t)
  {
    if t.bits == 8 then x % 0x100
    else if t.bits == 16 then x % 0x1_0000
    else if t.bits == 32 then x % 0x1_0000_0000
    else x % 0x1_0000_0000_0000_0000
  }

  /** The value of a machine word of type `t` that holds `x` modulo its width. */
  function Wrap(t: T, x: int): int
    requires IsInt(t)
  {
    var m := Residue(t, x);
    if t.signed && m >= Half(t) then m - Size(t) else m
  }

  /** `Wrap` is the residue in range: it fits and differs from `x` by a multiple of
      2^bits, so a value that fits is its own. */
  lemma WrapIs(t: T, x: int)
    requires IsInt(t)
    ensures Fits(t, Wrap(t, x)) && Residue(t, Wrap(t, x) - x) == 0
    ensures Fits(t, x) ==> Wrap(t, x) == x
  {
    if t.bits == 8 {
      Mod8(x);
    } else if t.bits == 16 {
      Mod16(x);
    } else if t.bits == 32 {
      Mod32(x);
    } else {
      Mod64(x);
    }
  }

  lemma Mod8(x: int)
    ensures (x % 0x100 - x) % 0x100 == 0 && (x % 0x100 - 0x100 - x) % 0x100 == 0
    ensures 0 <= x < 0x100 ==> x % 0x100 == x
    ensures -0x100 <= x < 0 ==> x % 0x100 == x + 0x100
  {
    var q := x / 0x100;
    assert x % 0x100 - x == 0x100 * (-q);
    assert x % 0x100 - 0x100 - x == 0x100 * (-q - 1);
  }

  lemma Mod16(x: int)
    ensures (x % 0x1_0000 - x) % 0x1_0000 == 0 && (x % 0x1_0000 - 0x1_0000 - x) % 0x1_0000 == 0
    ensures 0 <= x < 0x1_0000 ==> x % 0x1_0000 == x
    ensures -0x1_0000 <= x < 0 ==> x % 0x1_0000 == x + 0x1_0000
  {
    var q := x / 0x1_0000;
    assert x % 0x1_0000 - x == 0x1_0000 * (-q);
    assert x % 0x1_0000 - 0x1_0000 - x == 0x1_0000 * (-q - 1);
  }

  lemma Mod32(x: int)
    ensures (x % 0x1_0000_0000 - x) % 0x1_0000_0000 == 0 && (x % 0x1_0000_0000 - 0x1_0000_0000 - x) % 0x1_0000_0000 == 0
    ensures 0 <= x < 0x1_0000_0000 ==> x % 0x1_0000_0000 == x
    ensures -0x1_0000_0000 <= x < 0 ==> x % 0x1_0000_0000 == x + 0x1_0000_0000
  {
    var q := x / 0x1_0000_0000;
    assert x % 0x1_0000_0000 - x == 0x1_0000_0000 * (-q);
    assert x % 0x1_0000_0000 - 0x1_0000_0000 - x == 0x1_0000_0000 * (-q - 1);
  }

  lemma Mod64(x: int)
    ensures (x % 0x1_0000_0000_0000_0000 - x) % 0x1_0000_0000_0000_0000 == 0
            && (x % 0x1_0000_0000_0000_0000 - 0x1_0000_0000_0000_0000 - x) % 0x1_0000_0000_0000_0000 == 0
    ensures 0 <= x < 0x1_0000_0000_0000_0000 ==> x % 0x1_0000_0000_0000_0000 == x
    ensures -0x1_0000_0000_0000_0000 <= x < 0 ==> x % 0x1_0000_0000_0000_0000 == x + 0x1_0000_0000_0000_0000
  {
    var q := x / 0x1_0000_0000_0000_0000;
    assert x % 0x1_0000_0000_0000_0000 - x == 0x1_0000_0000_0000_0000 * (-q);
    assert x % 0x1_0000_0000_0000_0000 - 0x1_0000_0000_0000_0000 - x == 0x1_0000_0000_0000_0000 * (-q - 1);
  }

  /** No other value in range has the same residue. */
  lemma WrapUnique(t: T, x: int, y: int)
    requires IsInt(t) && Fits(t, y) && Residue(t, y - x) == 0
    ensures y == Wrap(t, x)
  {
    WrapIs(t, x);
    var w := Wrap(t, x);
    hide Wrap;
    if t.bits == 8 {
      Same8(x, y, w);
    } else if t.bits == 16 {
      Same16(x, y, w);
    } else if t.bits == 32 {
      Same32(x, y, w);
    } else {
      Same64(x, y, w);
    }
  }

  lemma Same8(x: int, y: int, w: int)
    requires (y - x) % 0x100 == 0 && (w - x) % 0x100 == 0 && -0x100 < y - w < 0x100
    ensures y == w
  {
    var a, b := (y - x) / 0x100, (w - x) / 0x100;
    assert y - w == 0x100 * (a - b);
  }

  lemma Same16(x: int, y: int, w: int)
    requires (y - x) % 0x1_0000 == 0 && (w - x) % 0x1_0000 == 0 && -0x1_0000 < y - w < 0x1_0000
    ensures y == w
  {
    var a, b := (y - x) / 0x1_0000, (w - x) / 0x1_0000;
    assert y - w == 0x1_0000 * (a - b);
  }

  lemma Same32(x: int, y: int, w: int)
    requires (y - x) % 0x1_0000_0000 == 0 && (w - x) % 0x1_0000_0000 == 0 && -0x1_0000_0000 < y - w < 0x1_0000_0000
    ensures y == w
  {
    var a, b := (y - x) / 0x1_0000_0000, (w - x) / 0x1_0000_0000;
    assert y - w == 0x1_0000_0000 * (a - b);
  }

  lemma Same64(x: int, y: int, w: int)
    requires (y - x) % 0x1_0000_0000_0000_0000 == 0 && (w - x) % 0x1_0000_0000_0000_0000 == 0
             && -0x1_0000_0000_0000_0000 < y - w < 0x1_0000_0000_0000_0000
    ensures y == w
  {
    var a, b := (y - x) / 0x1_0000_0000_0000_0000, (w - x) / 0x1_0000_0000_0000_0000;
    assert y - w == 0x1_0000_0000_0000_0000 * (a - b);
  }

  // -- constants --------------------------------------------------------------------------

  /** `int_min_max`: the patterns given to a constant instruction, as 64-bit signed. */
  function MinMax(t: T): (int, int)
    requires IsInt(t)
  {
    if t.signed then
      if t.bits >= 64 then (-0x8000_0000_0000_0000, 0x7fff_ffff_ffff_ffff) else (-Half(t), Half(t) - 1)
    else if t.bits >= 64 then (0, -1)
    else (0, Size(t) - 1)
  }

  /** Read back in the type, the patterns are the type's bounds. */
  lemma MinMaxRead(t: T)
    requires IsInt(t)
    ensures Wrap(t, MinMax(t).0) == Lo(t) && Wrap(t, MinMax(t).1) == Hi(t)
  {
    WrapIs(t, Lo(t));
    WrapIs(t, Hi(t));
    if !t.signed && t.bits == 64 {
      WrapUnique(t, -1, Hi(t));
    }
  }

  // -- what is meant ------------------------------------------------------------------------

  datatype Op = Add | Sub | Mul | Div | Rem | Neg
  datatype Family = Wrapping | Saturating | Checked | Overflowing

  /** A value, `null`, a value with its flag, or the divide-by-zero panic. */
  datatype Res = Just(v: int) | NullRes | Flagged(v: int, flag: bool) | Panics

  /** Division that truncates toward zero. */
  function Quot(a: int, b: int): int
    requires b != 0
  {
    if (a >= 0) == (b > 0) then Abs(a) / Abs(b) else -(Abs(a) / Abs(b))
  }

  function Abs(x: int): nat
  {
    if x < 0 then -x else x
  }

  function Exact(op: Op, a: int, b: int): int
    requires op.Div? || op.Rem? ==> b != 0
  {
    match op
    case Add => a + b
    case Sub => a - b
    case Mul => a * b
    case Div => Quot(a, b)
    case Rem => a - b * Quot(a, b)
    case Neg => -a
  }

  /** Overflow: the result does not fit, or the division is MIN by -1. */
  predicate Over(t: T, op: Op, a: int, b: int)
    requires IsInt(t) && (op.Div? || op.Rem? ==> b != 0)
  {
    !Fits(t, Exact(op, a, b)) || ((op.Div? || op.Rem?) && t.signed && a == Lo(t) && b == -1)
  }

  function Clamp(t: T, x: int): int
    requires IsInt(t)
  {
    if x < Lo(t) then Lo(t) else if x > Hi(t) then Hi(t) else x
  }

  function Meant(t: T, fam: Family, op: Op, a: int, b: int): Res
    requires IsInt(t)
  {
    if (op.Div? || op.Rem?) && b == 0 then if fam.Checked? then NullRes else Panics
    else
      match fam
      case Wrapping => Just(Wrap(t, Exact(op, a, b)))
      case Saturating => Just(Clamp(t, Exact(op, a, b)))
      case Checked => if Over(t, op, a, b) then NullRes else Just(Exact(op, a, b))
      case Overflowing => Flagged(Wrap(t, Exact(op, a, b)), Over(t, op, a, b))
  }

  // -- what is emitted -----------------------------------------------------------------------

  function Package(fam: Family, res: int, ovf: bool, clamp: int): Res
  {
    match fam
    case Wrapping => Just(res)
    case Saturating => Just(if ovf then clamp else res)
    case Checked => if ovf then NullRes else Just(res)
    case Overflowing => Flagged(res, ovf)
  }

  /** The machine's add, subtract and multiply with overflow flag. */
  function WithFlag(t: T, op: Op, a: int, b: int): (int, bool)
    requires IsInt(t) && (op.Add? || op.Sub? || op.Mul?)
  {
    (Wrap(t, Exact(op, a, b)), !Fits(t, Exact(op, a, b)))
  }

  function EmitAddSubMul(t: T, fam: Family, op: Op, a: int, b: int): Res
    requires IsInt(t) && (op.Add? || op.Sub? || op.Mul?)
  {
    var (res, ovf) := WithFlag(t, op, a, b);
    var min, max := Wrap(t, MinMax(t).0), Wrap(t, MinMax(t).1);
    var clamp :=
      if !t.signed then if op.Sub? then min else max
      else
        var toMax := if op.Mul? then (a < 0) == (b < 0) else a >= 0;
        if toMax then max else min;
    Package(fam, res, ovf, clamp)
  }

  /** `div_overflow_select`: the flag, and a divisor that cannot trap. */
  function SafeDivisor(t: T, a: int, b: int): (bool, int)
    requires IsInt(t)
  {
    var ovf := a == Lo(t) && b == -1;
    (ovf, if ovf then 1 else b)
  }

  function EmitDivRem(t: T, fam: Family, op: Op, a: int, b: int): Res
    requires IsInt(t) && (op.Div? || op.Rem?)
  {
    if !fam.Checked? && b == 0 then Panics
    else
      var (o, sb) := if t.signed then SafeDivisor(t, a, b) else (false, b);
      var safe := if b == 0 then 1 else sb;
      var ovf := if fam.Checked? then o || b == 0 else o;
      var raw := Wrap(t, if safe == 0 then 0 else Exact(op, a, safe));
      var res := if t.signed && o then (if op.Div? then a else 0) else raw;
      Package(fam, res, ovf, if op.Div? then Wrap(t, MinMax(t).1) else 0)
  }

  function EmitNeg(t: T, fam: Family, a: int): Res
    requires IsInt(t)
  {
    var ovf := if t.signed then a == Wrap(t, MinMax(t).0) else a != 0;
    Package(fam, Wrap(t, -a), ovf, if t.signed then Wrap(t, MinMax(t).1) else 0)
  }

  function Emit(t: T, fam: Family, op: Op, a: int, b: int): Res
    requires IsInt(t)
  {
    match op
    case Neg => EmitNeg(t, fam, a)
    case Div => EmitDivRem(t, fam, op, a, b)
    case Rem => EmitDivRem(t, fam, op, a, b)
    case _ => EmitAddSubMul(t, fam, op, a, b)
  }

  // -- they agree ---------------------------------------------------------------------------------

  lemma MulSign(a: int, b: int)
    ensures (a < 0) == (b < 0) ==> a * b >= 0
    ensures (a < 0) != (b < 0) ==> a * b <= 0
  {
  }

  /** On overflow, the sign test picks the bound that was passed. */
  lemma AddSubMulMeant(t: T, fam: Family, op: Op, a: int, b: int)
    requires IsInt(t) && Fits(t, a) && Fits(t, b) && (op.Add? || op.Sub? || op.Mul?)
    ensures EmitAddSubMul(t, fam, op, a, b) == Meant(t, fam, op, a, b)
  {
    var x := Exact(op, a, b);
    WrapIs(t, x);
    MinMaxRead(t);
    MulSign(a, b);
    hide Residue, Wrap, MinMax;
  }

  lemma QuotBound(a: int, b: int)
    requires b != 0
    ensures Abs(Quot(a, b)) <= Abs(a) && (Abs(b) >= 2 && a != 0 ==> Abs(Quot(a, b)) < Abs(a))
    ensures a >= 0 && b > 0 ==> Quot(a, b) >= 0
    ensures b == 1 ==> Quot(a, b) == a
    ensures b == -1 ==> Quot(a, b) == -a
  {
    var m, n := Abs(a), Abs(b);
    var q, r := m / n, m % n;
    assert m == n * q + r;
    QuotSize(m, n, q, r);
  }

  lemma RemBound(a: int, b: int)
    requires b != 0
    ensures Abs(a - b * Quot(a, b)) < Abs(b) && Abs(a - b * Quot(a, b)) <= Abs(a)
    ensures a >= 0 ==> a - b * Quot(a, b) >= 0
  {
    var q, r := Abs(a) / Abs(b), Abs(a) % Abs(b);
    assert Abs(a) == Abs(b) * q + r;
    SignedProduct(a, b, q);
    RemSize(a, b * Quot(a, b), Abs(b) * q, r);
    QuotSize(Abs(a), Abs(b), q, r);
    hide Quot;
  }

  lemma RemSize(a: int, prod: int, p: int, r: nat)
    requires Abs(a) == p + r && prod == if a >= 0 then p else -p
    ensures Abs(a - prod) == r && (a >= 0 ==> a - prod == r)
  {
  }

  lemma QuotSize(m: nat, n: nat, q: nat, r: nat)
    requires m == n * q + r && r < n
    ensures q <= m && n * q <= m && (n >= 2 && m > 0 ==> q < m) && (n == 1 ==> q == m)
  {
    Grows(n, q);
  }

  lemma {:induction false} Grows(n: nat, q: nat)
    requires n > 0
    ensures n * q >= q && (n >= 2 ==> n * q >= 2 * q)
    decreases n
  {
    if n > 1 {
      Grows(n - 1, q);
    }
  }

  lemma SignedProduct(a: int, b: int, q: nat)
    requires b != 0 && q == Abs(a) / Abs(b)
    ensures b * Quot(a, b) == if a >= 0 then Abs(b) * q else -(Abs(b) * q)
  {
  }

  lemma DivRemMeant(t: T, fam: Family, op: Op, a: int, b: int)
    requires IsInt(t) && Fits(t, a) && Fits(t, b) && (op.Div? || op.Rem?)
    ensures EmitDivRem(t, fam, op, a, b) == Meant(t, fam, op, a, b)
  {
    MinMaxRead(t);
    if b != 0 {
      QuotBound(a, b);
      RemBound(a, b);
      var x := Exact(op, a, b);
      if t.signed && a == Lo(t) && b == -1 {
        MinByMinusOne(t, op);
      } else {
        QuotFits(t, a, b);
        WrapIs(t, x);
      }
    }
    hide Residue, Wrap, MinMax, Quot;
  }

  lemma QuotFits(t: T, a: int, b: int)
    requires IsInt(t) && Fits(t, a) && Fits(t, b) && b != 0 && !(t.signed && a == Lo(t) && b == -1)
    ensures Fits(t, Quot(a, b)) && Fits(t, a - b * Quot(a, b))
  {
    QuotBound(a, b);
    RemBound(a, b);
    hide Quot;
  }

  lemma MinByMinusOne(t: T, op: Op)
    requires IsInt(t) && t.signed && (op.Div? || op.Rem?)
    ensures Exact(Div, Lo(t), -1) == Hi(t) + 1 && Exact(Rem, Lo(t), -1) == 0
    ensures Wrap(t, Hi(t) + 1) == Lo(t) && Wrap(t, 0) == 0 && Fits(t, 0)
  {
    QuotBound(Lo(t), -1);
    RemBound(Lo(t), -1);
    WrapIs(t, 0);
  }

  lemma NegMeant(t: T, fam: Family, a: int, b: int)
    requires IsInt(t) && Fits(t, a)
    ensures EmitNeg(t, fam, a) == Meant(t, fam, Neg, a, b)
  {
    MinMaxRead(t);
    WrapIs(t, -a);
    hide Residue, Wrap, MinMax;
  }

  /** For every type, operand pair and operation, each family gives what its name says
      about the one exact result. */
  lemma FamiliesMeant(t: T, fam: Family, op: Op, a: int, b: int)
    requires IsInt(t) && Fits(t, a) && Fits(t, b)
    ensures Emit(t, fam, op, a, b) == Meant(t, fam, op, a, b)
  {
    hide EmitAddSubMul, EmitDivRem, EmitNeg, Meant;
    match op
    case Neg => NegMeant(t, fam, a, b);
    case Div => DivRemMeant(t, fam, op, a, b);
    case Rem => DivRemMeant(t, fam, op, a, b);
    case _ => AddSubMulMeant(t, fam, op, a, b);
  }

  // -- shifts ----------------------------------------------------------------------------------------

  function Shifted(t: T, left: bool, a: int, k: nat): int
    requires IsInt(t)
  {
    if left then Wrap(t, a * Pow2(k)) else a / Pow2(k)
  }

  /** The machine shift: it looks at the count modulo the width only. */
  function MachineShift(t: T, left: bool, a: int, count: nat): int
    requires IsInt(t)
  {
    Shifted(t, left, a, count % t.bits)
  }

  /** The `u32` count brought to the value's type: truncated where that is narrower. */
  function NarrowCount(t: T, count: nat): nat
    requires IsInt(t)
  {
    if t.bits < 32 then Residue(t, count) else count
  }

  function EmitShift(t: T, fam: Family, left: bool, a: int, count: nat): Res
    requires IsInt(t)
  {
    var ovf := count >= t.bits;
    var res := MachineShift(t, left, a, NarrowCount(t, count));
    Package(fam, res, ovf, MachineShift(t, left, a, t.bits - 1))
  }

  lemma NarrowSame(t: T, count: nat)
    requires IsInt(t)
    ensures NarrowCount(t, count) % t.bits == count % t.bits
    ensures count < t.bits ==> count % t.bits == count
    ensures (t.bits - 1) % t.bits == t.bits - 1
  {
    if t.bits == 8 {
      Narrow8(count);
    } else if t.bits == 16 {
      Narrow16(count);
    } else if t.bits == 32 {
    } else {
    }
  }

  lemma Narrow8(c: nat)
    ensures c % 0x100 % 8 == c % 8
  {
  }

  lemma Narrow16(c: nat)
    ensures c % 0x1_0000 % 16 == c % 16
  {
  }

  /** `r` is `a` shifted by `k` places: to the left the value in range that differs from
      `a * 2^k` by a multiple of 2^bits, to the right `a / 2^k` rounded down. */
  predicate ShiftIs(t: T, left: bool, a: int, k: nat, r: int)
    requires IsInt(t)
  {
    if left then Fits(t, r) && (r - a * Pow2(k)) % Pow2(t.bits) == 0
    else r * Pow2(k) <= a < (r + 1) * Pow2(k)
  }

  /** There is only one such value. */
  lemma ShiftUnique(t: T, left: bool, a: int, k: nat, r: int, r': int)
    requires IsInt(t) && ShiftIs(t, left, a, k, r) && ShiftIs(t, left, a, k, r')
    ensures r == r'
  {
    if left {
      SizeIsPower(t);
      hide Pow2;
      WrapUnique(t, a * Pow2(k), r);
      WrapUnique(t, a * Pow2(k), r');
    } else {
      Quotients(a, Pow2(k), r, r');
      Quotients(a, Pow2(k), r', r);
    }
  }

  lemma Quotients(a: int, p: nat, r: int, r': int)
    requires p > 0 && r * p <= a < (r' + 1) * p
    ensures r <= r'
  {
    TimesMono(r' + 1, r, p);
  }

  lemma TimesMono(x: int, y: int, p: nat)
    ensures x <= y ==> x * p <= y * p
  {
  }

  lemma {:induction false} PowSum(a: nat, b: nat)
    ensures Pow2(a + b) == Pow2(a) * Pow2(b)
    decreases b
  {
    if b > 0 {
      PowSum(a, b - 1);
    }
  }

  lemma SizeIsPower(t: T)
    requires IsInt(t)
    ensures Size(t) == Pow2(t.bits) && Half(t) == Pow2(t.bits - 1)
  {
    WidthPowers();
    assert Pow2(t.bits) == 2 * Pow2(t.bits - 1);
    hide Pow2;
  }

  lemma WidthPowers()
    ensures Pow2(8) == 0x100 && Pow2(16) == 0x1_0000 && Pow2(32) == 0x1_0000_0000
    ensures Pow2(64) == 0x1_0000_0000_0000_0000
  {
    assert Pow2(2) == 4 && Pow2(4) == 16;
    hide Pow2;
    PowSum(4, 4);
    PowSum(8, 8);
    PowSum(16, 16);
    PowSum(32, 32);
  }

  lemma ShiftedIs(t: T, left: bool, a: int, k: nat)
    requires IsInt(t)
    ensures ShiftIs(t, left, a, k, Shifted(t, left, a, k))
  {
    SizeIsPower(t);
    hide Pow2;
    if left {
      WrapIs(t, a * Pow2(k));
    } else {
      RoundsDown(a, Pow2(k));
    }
  }

  lemma RoundsDown(a: int, p: nat)
    requires p > 0
    ensures a / p * p <= a < (a / p + 1) * p
  {
    assert a == a / p * p + a % p;
  }

  /** A wrapping shift uses the count modulo the width, even after the count was narrowed;
      the flag is a count that reaches the width, and saturation caps the count. */
  lemma ShiftsMeant(t: T, fam: Family, left: bool, a: int, count: nat)
    requires IsInt(t) && Fits(t, a) && count < 0x1_0000_0000
    ensures var r := EmitShift(t, fam, left, a, count);
            match fam
            case Wrapping => r.Just? && ShiftIs(t, left, a, count % t.bits, r.v)
            case Saturating => r.Just? && ShiftIs(t, left, a, if count < t.bits then count else t.bits - 1, r.v)
            case Checked => if count < t.bits then r.Just? && ShiftIs(t, left, a, count, r.v) else r == NullRes
            case Overflowing => r.Flagged? && ShiftIs(t, left, a, count % t.bits, r.v) && r.flag == (count >= t.bits)
  {
    NarrowSame(t, count);
    hide Shifted, NarrowCount, ShiftIs;
    ShiftedIs(t, left, a, count % t.bits);
    ShiftedIs(t, left, a, t.bits - 1);
  }

  // -- the operators ------------------------------------------------------------------------------------

  /** `+`, `-`, `*`: panic on overflow in debug, wrap in release. */
  function Operator(release: bool, t: T, op: Op, a: int, b: int): Res
    requires IsInt(t) && (op.Add? || op.Sub? || op.Mul?)
  {
    var (res, ovf) := WithFlag(t, op, a, b);
    if !release && ovf then Panics else Just(res)
  }

  /** Signed `/` and `%` in release, with the divisor known not to be zero. */
  function SignedDivision(t: T, op: Op, a: int, b: int): int
    requires IsInt(t) && (op.Div? || op.Rem?) && b != 0
  {
    var (ovf, safe) := SafeDivisor(t, a, b);
    if ovf then if op.Div? then a else 0 else Wrap(t, Exact(op, a, safe))
  }

  /** The release operators are the wrapping family; a debug `+`, `-` or `*` panics exactly
      where the checked family answers `null`. */
  lemma OperatorsMeant(t: T, op: Op, a: int, b: int)
    requires IsInt(t) && Fits(t, a) && Fits(t, b)
    ensures op.Add? || op.Sub? || op.Mul? ==>
              && Operator(true, t, op, a, b) == Meant(t, Wrapping, op, a, b)
              && (Operator(false, t, op, a, b) == Panics <==> Meant(t, Checked, op, a, b) == NullRes)
              && (Operator(false, t, op, a, b) != Panics ==>
                  Operator(false, t, op, a, b) == Meant(t, Checked, op, a, b))
    ensures (op.Div? || op.Rem?) && t.signed && b != 0 ==>
              Just(SignedDivision(t, op, a, b)) == Meant(t, Wrapping, op, a, b)
  {
    if op.Add? || op.Sub? || op.Mul? {
      WrapIs(t, Exact(op, a, b));
    } else if (op.Div? || op.Rem?) && t.signed && b != 0 {
      DivRemMeant(t, Wrapping, op, a, b);
    }
  }

  // -- in plain arithmetic ---------------------------------------------------------------------------

  /** The range of the type, in powers of two. */
  predicate InRange(t: T, x: int)
    requires t.bits > 0
  {
    if t.signed then 0 - Pow2(t.bits - 1) <= x < Pow2(t.bits - 1) else 0 <= x < Pow2(t.bits)
  }

  /** `r` is what the family owes for the exact result `x`: the value in range congruent to
      it, the nearest value in range, `null` or the result itself, or the wrapped value with
      its flag. */
  ghost predicate AnswerIs(t: T, fam: Family, x: int, over: bool, r: Res)
    requires IsInt(t)
  {
    match fam
    case Wrapping => r.Just? && InRange(t, r.v) && (r.v - x) % Pow2(t.bits) == 0
    case Saturating => r.Just? && InRange(t, r.v) && forall y: int | InRange(t, y) :: Abs(r.v - x) <= Abs(y - x)
    case Checked => r == if over then NullRes else Just(x)
    case Overflowing => r.Flagged? && InRange(t, r.v) && (r.v - x) % Pow2(t.bits) == 0 && r.flag == over
  }

  lemma RangeIs(t: T, x: int)
    requires IsInt(t)
    ensures InRange(t, x) <==> Fits(t, x)
  {
    SizeIsPower(t);
  }

  lemma ResidueIs(t: T, x: int)
    requires IsInt(t)
    ensures Residue(t, x) == 0 <==> x % Pow2(t.bits) == 0
  {
    SizeIsPower(t);
  }

  lemma AnswersAre(t: T, fam: Family, x: int, over: bool)
    requires IsInt(t) && (!over ==> Fits(t, x))
    ensures AnswerIs(t, fam, x, over, match fam
                                      case Wrapping => Just(Wrap(t, x))
                                      case Saturating => Just(Clamp(t, x))
                                      case Checked => if over then NullRes else Just(x)
                                      case Overflowing => Flagged(Wrap(t, x), over))
  {
    WrapIs(t, x);
    RangeIs(t, Wrap(t, x));
    ResidueIs(t, Wrap(t, x) - x);
    RangeIs(t, Clamp(t, x));
    forall y: int | InRange(t, y)
      ensures Abs(Clamp(t, x) - x) <= Abs(y - x)
    {
      RangeIs(t, y);
    }
    hide Wrap, Residue, InRange;
  }

  /** Addition, subtraction, multiplication and negation in every family. */
  lemma PlainAnswers(t: T, fam: Family, a: int, b: int)
    requires IsInt(t) && InRange(t, a) && InRange(t, b)
    ensures AnswerIs(t, fam, a + b, !InRange(t, a + b), Emit(t, fam, Add, a, b))
    ensures AnswerIs(t, fam, a - b, !InRange(t, a - b), Emit(t, fam, Sub, a, b))
    ensures AnswerIs(t, fam, a * b, !InRange(t, a * b), Emit(t, fam, Mul, a, b))
    ensures AnswerIs(t, fam, -a, !InRange(t, -a), Emit(t, fam, Neg, a, b))
  {
    RangeIs(t, a);
    RangeIs(t, b);
    hide InRange, Emit, AnswerIs, Wrap, Clamp;
    PlainAnswer(t, fam, Add, a, b);
    PlainAnswer(t, fam, Sub, a, b);
    PlainAnswer(t, fam, Mul, a, b);
    PlainAnswer(t, fam, Neg, a, b);
  }

  lemma PlainAnswer(t: T, fam: Family, op: Op, a: int, b: int)
    requires IsInt(t) && Fits(t, a) && Fits(t, b) && (op.Add? || op.Sub? || op.Mul? || op.Neg?)
    ensures AnswerIs(t, fam, Exact(op, a, b), !InRange(t, Exact(op, a, b)), Emit(t, fam, op, a, b))
  {
    var x := Exact(op, a, b);
    FamiliesMeant(t, fam, op, a, b);
    RangeIs(t, x);
    AnswersAre(t, fam, x, !Fits(t, x));
    hide InRange, Emit, AnswerIs, Wrap, Clamp;
  }

  /** `q` and `m` are quotient and remainder of a division that truncates toward zero. */
  predicate Divides(a: int, b: int, q: int, m: int)
  {
    a == q * b + m && Abs(m) < Abs(b) && (m == 0 || (m < 0) == (a < 0))
  }

  /** Division and remainder in every family: truncated, with a zero divisor refused and
      the one quotient that does not fit reported for both. */
  lemma DivisionAnswers(t: T, fam: Family, a: int, b: int, q: int, m: int)
    requires IsInt(t) && InRange(t, a) && InRange(t, b)
    ensures b == 0 ==> Emit(t, fam, Div, a, b) == Emit(t, fam, Rem, a, b) == if fam.Checked? then NullRes else Panics
    ensures Divides(a, b, q, m) ==>
              && AnswerIs(t, fam, q, !InRange(t, q), Emit(t, fam, Div, a, b))
              && AnswerIs(t, fam, m, !InRange(t, q), Emit(t, fam, Rem, a, b))
  {
    RangeIs(t, a);
    RangeIs(t, b);
    FamiliesMeant(t, fam, Div, a, b);
    FamiliesMeant(t, fam, Rem, a, b);
    if Divides(a, b, q, m) {
      QuotientUnique(a, b, q, m);
      RangeIs(t, q);
      hide InRange, Emit, AnswerIs, Wrap, Clamp, Quot;
      assert Exact(Div, a, b) == q && Exact(Rem, a, b) == m;
      if t.signed && a == Lo(t) && b == -1 {
        MinByMinusOne(t, Div);
      } else {
        QuotFits(t, a, b);
      }
      AnswersAre(t, fam, q, !Fits(t, q));
      AnswersAre(t, fam, m, !Fits(t, q));
    }
  }

  lemma QuotientUnique(a: int, b: int, q: int, m: int)
    requires Divides(a, b, q, m)
    ensures q == Quot(a, b) && m == a - b * Quot(a, b)
  {
    var s := if (a >= 0) == (b > 0) then q else -q;
    assert Abs(b) > 0 && Abs(m) < Abs(b) && b != 0;
    Unsigned(a, b, q, m);
    hide Abs;
    NatQuotient(Abs(a), Abs(b), s, Abs(m));
    assert q == Quot(a, b);
    hide Quot;
    Commutes(a, b, q, m);
  }

  lemma Commutes(a: int, b: int, q: int, m: int)
    requires a == q * b + m
    ensures m == a - b * q
  {
  }

  lemma Unsigned(a: int, b: int, q: int, m: int)
    requires Divides(a, b, q, m)
    ensures Abs(a) == (if (a >= 0) == (b > 0) then q else -q) * Abs(b) + Abs(m)
  {
    assert (-q) * b == -(q * b) && (-q) * (-b) == q * b && q * (-b) == -(q * b);
  }

  lemma NatQuotient(a: nat, b: nat, q: int, m: nat)
    requires b > 0 && a == q * b + m && m < b
    ensures q == a / b
  {
    RoundsDown(a, b);
    Quotients(a, b, q, a / b);
    Quotients(a, b, a / b, q);
  }
}
