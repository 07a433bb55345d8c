/**
 Symbols of function instances: name, definition index and argument type ids.
 */
module Mangle {
  import opened Hir
  import opened StaticCast

  datatype Instance = Instance(def: DefId, args: seq<Ty>)

  function Digit(d: nat): char
    requires d < 10
  {
    ['0', '1', '2', '3', '4', '5', '6', '7', '8', '9'][d]
  }

  function Dec(n: nat): string
  {
    if n < 10 then [Digit(n)] else Dec(n / 10) + [Digit(n % 10)]
  }

  function Signed(n: int): string
  {
    if n < 0 then ['-'] + Dec(-n) else Dec(n)
  }

  function Suffix(ids: seq<TypeId>): string
  {
    if ids == [] then [] else ['_'] + Signed(ids[0]) + Suffix(ids[1..])
  }

  /** `names` gives each definition's own name. */
  function Symbol(names: DefId -> string, i: Instance): string
  {
    names(i.def) + ['$'] + (Dec(i.def) + Suffix(Ids(i.args)))
  }

  // -- reading a symbol back ---------------------------------------------------------------

  predicate IsNumeric(c: char)
  {
    c == '-' || '0' <= c <= '9'
  }

  predicate Numeric(s: string)
  {
    forall i | 0 <= i < |s| :: IsNumeric(s[i])
  }

  lemma {:induction false} DecNumeric(n: nat)
    ensures |Dec(n)| > 0 && forall i | 0 <= i < |Dec(n)| :: '0' <= Dec(n)[i] <= '9'
  {
    if n >= 10 {
      DecNumeric(n / 10);
    }
  }

  lemma {:induction false} DecInjective(m: nat, n: nat)
    requires Dec(m) == Dec(n)
    ensures m == n
  {
    var a, b := Dec(m), Dec(n);
    assert a[|a| - 1] == Digit(m % 10) && b[|b| - 1] == Digit(n % 10);
    if m >= 10 && n >= 10 {
      assert a[..|a| - 1] == Dec(m / 10) && b[..|b| - 1] == Dec(n / 10);
      DecInjective(m / 10, n / 10);
    } else if m >= 10 {
      DecNumeric(m / 10);
    } else if n >= 10 {
      DecNumeric(n / 10);
    }
  }

  lemma SignOf(n: int)
    ensures |Signed(n)| > 0 && (Signed(n)[0] == '-' <==> n < 0)
  {
    DecNumeric(if n < 0 then -n else n);
  }

  lemma SignedInjective(m: int, n: int)
    requires Signed(m) == Signed(n)
    ensures m == n
  {
    SignOf(m);
    SignOf(n);
    if m < 0 {
      assert Signed(m)[1..] == Dec(-m) && Signed(n)[1..] == Dec(-n);
      DecInjective(-m, -n);
    } else {
      DecInjective(m, n);
    }
  }

  lemma SignedNumeric(n: int)
    ensures Numeric(Signed(n)) && |Signed(n)| > 0
  {
    DecNumeric(if n < 0 then -n else n);
  }

  lemma NextChar(a: string, x: string, b: string, y: string)
    requires a + x == b + y && Numeric(b)
    ensures |a| < |b| ==> |x| > 0 && IsNumeric(x[0])
  {
    if |a| < |b| {
      assert (a + x)[|a|] == b[|a|];
    }
  }

  /** A numeric prefix ends where the next `_` or the end of the text is. */
  lemma PrefixUnique(a: string, x: string, b: string, y: string)
    requires a + x == b + y && Numeric(a) && Numeric(b)
    requires (x == [] || x[0] == '_') && (y == [] || y[0] == '_')
    ensures a == b && x == y
  {
    NextChar(a, x, b, y);
    NextChar(b, y, a, x);
    assert |a| == |b|;
    var s := a + x;
    assert a == s[..|a|] && b == s[..|a|];
    assert x == s[|a|..] && y == s[|a|..];
  }

  lemma SuffixHead(a: seq<TypeId>)
    requires a != []
    ensures Suffix(a) != [] && Suffix(a)[1..] == Signed(a[0]) + Suffix(a[1..]) && Suffix(a)[0] == '_'
  {
    var rest := Signed(a[0]) + Suffix(a[1..]);
    assert Suffix(a) == ['_'] + rest;
  }

  lemma SuffixStart(a: seq<TypeId>)
    ensures Suffix(a) == [] || Suffix(a)[0] == '_'
  {
    if a != [] {
      SuffixHead(a);
    }
  }

  lemma SuffixStep(a: seq<TypeId>, b: seq<TypeId>)
    requires a != [] && b != [] && Suffix(a) == Suffix(b)
    ensures a[0] == b[0] && Suffix(a[1..]) == Suffix(b[1..])
  {
    hide *;
    SuffixHead(a);
    SuffixHead(b);
    SignedNumeric(a[0]);
    SignedNumeric(b[0]);
    SuffixStart(a[1..]);
    SuffixStart(b[1..]);
    PrefixUnique(Signed(a[0]), Suffix(a[1..]), Signed(b[0]), Suffix(b[1..]));
    SignedInjective(a[0], b[0]);
  }

  lemma {:induction false} SuffixInjective(a: seq<TypeId>, b: seq<TypeId>)
    requires Suffix(a) == Suffix(b)
    ensures a == b
    decreases a
  {
    if a != [] {
      SuffixHead(a);
    }
    if b != [] {
      SuffixHead(b);
    }
    if a != [] && b != [] {
      hide Suffix;
      SuffixStep(a, b);
      SuffixInjective(a[1..], b[1..]);
      assert a == [a[0]] + a[1..] && b == [b[0]] + b[1..];
    }
  }

  lemma {:induction false} SuffixNoDollar(ids: seq<TypeId>)
    ensures '$' !in Suffix(ids)
  {
    if ids != [] {
      SignedNumeric(ids[0]);
      SuffixNoDollar(ids[1..]);
    }
  }

  lemma DollarIn(m: string, s: string, n: string, t: string)
    requires m + ['$'] + s == n + ['$'] + t
    ensures |m| < |n| ==> '$' in s
  {
    if |m| < |n| {
      assert (n + ['$'] + t)[|n|] == '$';
      assert (m + ['$'] + s)[|n|] == s[|n| - |m| - 1];
    }
  }

  /** A text without `$` after the last `$` is determined by the whole. */
  lemma LastDollar(m: string, s: string, n: string, t: string)
    requires m + ['$'] + s == n + ['$'] + t && '$' !in s && '$' !in t
    ensures m == n && s == t
  {
    DollarIn(m, s, n, t);
    DollarIn(n, t, m, s);
    assert |m| == |n|;
    var all := m + ['$'] + s;
    assert m == all[..|m|] && n == all[..|m|];
    assert s == all[|m| + 1..] && t == all[|m| + 1..];
  }

  /** Two instances get one symbol exactly when they are instances of one definition whose
      argument type ids agree, whatever characters the names hold. */
  lemma SymbolExact(names: DefId -> string, i: Instance, j: Instance)
    ensures Symbol(names, i) == Symbol(names, j) <==> i.def == j.def && Ids(i.args) == Ids(j.args)
  {
    if Symbol(names, i) == Symbol(names, j) {
      var s, t := Suffix(Ids(i.args)), Suffix(Ids(j.args));
      DecNumeric(i.def);
      DecNumeric(j.def);
      SuffixNoDollar(Ids(i.args));
      SuffixNoDollar(Ids(j.args));
      LastDollar(names(i.def), Dec(i.def) + s, names(j.def), Dec(j.def) + t);
      PrefixUnique(Dec(i.def), s, Dec(j.def), t);
      DecInjective(i.def, j.def);
      SuffixInjective(Ids(i.args), Ids(j.args));
    }
  }

  /** Two different instances can share a symbol: type ids forget type arguments. */
  lemma SymbolsCollide(names: DefId -> string, f: DefId, s: DefId)
    ensures var i, j := Instance(f, [Named(s, [IntTy(I32)])]), Instance(f, [Named(s, [IntTy(I64)])]);
            i != j && Symbol(names, i) == Symbol(names, j)
  {
    var a, b := Named(s, [IntTy(I32)]), Named(s, [IntTy(I64)]);
    assert a.args[0] != b.args[0];
    assert Ids([a]) == [1000 + s] && Ids([b]) == [1000 + s];
    assert [a][0] != [b][0];
    SymbolExact(names, Instance(f, [a]), Instance(f, [b]));
  }
}
