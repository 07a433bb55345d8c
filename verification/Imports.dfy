/**
 Import paths: classification of the raw spelling, and what the classified form means.
 */
module Imports {
  import opened Hir

  datatype Scheme = Core | Std | Pkg | SelfRoot | SelfRel | File

  datatype ImportPath = ImportPath(scheme: Scheme, segments: seq<string>, up: nat, body: string)

  datatype Error =
    | MissingScheme(path: string)
    | ReservedScheme(name: string)
    | UnknownScheme(name: string)
    | EmptyPath(name: string)
    | FileNotRelative(text: string)
    | InteriorParent(path: string)

  datatype Result<+T> = Ok(value: T) | Err(error: Error)

  function Keyword(s: Scheme): string
  {
    match s
    case Core => "core"
    case Std => "std"
    case Pkg => "pkg"
    case SelfRoot => "self"
    case SelfRel => "self"
    case File => "file"
  }

  function DisplaySource(p: ImportPath): string
  {
    Keyword(p.scheme) + ":" + p.body
  }

  // -- splitting -----------------------------------------------------------------------

  /** The text before and after the first `c`. */
  function SplitOnce(s: string, c: char): Option<(string, string)>
  {
    if s == [] then None
    else if s[0] == c then Some(([], s[1..]))
    else match SplitOnce(s[1..], c) case None => None case Some((a, b)) => Some(([s[0]] + a, b))
  }

  lemma {:induction false} SplitOnceIs(s: string, c: char)
    ensures SplitOnce(s, c).None? <==> c !in s
    ensures SplitOnce(s, c).Some? ==> var (a, b) := SplitOnce(s, c).value; s == a + [c] + b && c !in a
  {
    if s != [] && s[0] != c {
      SplitOnceIs(s[1..], c);
      match SplitOnce(s[1..], c)
      case None =>
      case Some((a, b)) => assert s == [s[0]] + (a + [c] + b);
    }
  }

  /** All pieces between the separators, empty ones too. */
  function Split(s: string): (r: seq<string>)
    ensures |r| > 0
  {
    if s == [] then [[]]
    else
      var rest := Split(s[1..]);
      if s[0] == '/' then [[]] + rest else [[s[0]] + rest[0]] + rest[1..]
  }

  function Join(ps: seq<string>): string
  {
    if |ps| == 0 then [] else if |ps| == 1 then ps[0] else ps[0] + ['/'] + Join(ps[1..])
  }

  /** Joining the pieces gives the text back, and no piece holds a separator. */
  lemma {:induction false} SplitJoin(s: string)
    ensures Join(Split(s)) == s
    ensures forall i | 0 <= i < |Split(s)| :: '/' !in Split(s)[i]
  {
    if s != [] {
      SplitJoin(s[1..]);
      var rest := Split(s[1..]);
      if s[0] == '/' {
        assert ([[]] + rest)[1..] == rest;
      } else {
        var all := [[s[0]] + rest[0]] + rest[1..];
        assert all[1..] == rest[1..];
        assert Join(all) == [s[0]] + Join(rest);
      }
    }
  }

  function NonEmpty(ps: seq<string>): seq<string>
  {
    if ps == [] then [] else (if ps[0] == "" then [] else [ps[0]]) + NonEmpty(ps[1..])
  }

  function Parts(body: string): seq<string>
  {
    NonEmpty(Split(body))
  }

  // -- absolute paths ----------------------------------------------------------------------

  predicate IsDot(p: string)
  {
    p == "." || p == ".."
  }

  function Absolute(scheme: Scheme, body: string): Result<ImportPath>
  {
    var parts := Parts(body);
    if exists i :: 0 <= i < |parts| && IsDot(parts[i]) then Err(InteriorParent(Keyword(scheme) + ":" + body))
    else if parts == [] then Err(EmptyPath(Keyword(scheme)))
    else Ok(ImportPath(scheme, parts, 0, body))
  }

  /** `absolute`, piece by piece. */
  method AbsoluteLoop(scheme: Scheme, body: string) returns (r: Result<ImportPath>)
    ensures r == Absolute(scheme, body)
  {
    hide Split, Join;
    var pieces := Split(body);
    var segments: seq<string> := [];
    for i := 0 to |pieces|
      invariant segments == NonEmpty(pieces[..i])
      invariant forall k | 0 <= k < |segments| :: !IsDot(segments[k])
    {
      NonEmptyNext(pieces, i);
      if pieces[i] == "" {
        continue;
      }
      if pieces[i] == "." || pieces[i] == ".." {
        DotStays(pieces, i);
        return Err(InteriorParent(Keyword(scheme) + ":" + body));
      }
      segments := segments + [pieces[i]];
    }
    assert pieces[..|pieces|] == pieces;
    if segments == [] {
      return Err(EmptyPath(Keyword(scheme)));
    }
    return Ok(ImportPath(scheme, segments, 0, body));
  }

  lemma {:induction false} NonEmptyNext(ps: seq<string>, i: nat)
    requires i < |ps|
    ensures NonEmpty(ps[..i + 1]) == NonEmpty(ps[..i]) + (if ps[i] == "" then [] else [ps[i]])
    decreases i
  {
    if i > 0 {
      NonEmptyNext(ps[1..], i - 1);
      assert ps[..i + 1][1..] == ps[1..][..i] && ps[..i][1..] == ps[1..][..i - 1];
      assert ps[..i + 1][0] == ps[0] && ps[..i][0] == ps[0];
    } else {
      assert ps[..1] == [ps[0]] && [ps[0]][1..] == [];
    }
  }

  lemma {:induction false} DotStays(ps: seq<string>, i: nat)
    requires i < |ps| && ps[i] != ""
    ensures exists k :: 0 <= k < |NonEmpty(ps)| && NonEmpty(ps)[k] == ps[i]
    decreases i
  {
    var all := NonEmpty(ps);
    if i == 0 {
      assert all[0] == ps[0];
    } else {
      DotStays(ps[1..], i - 1);
      var k :| 0 <= k < |NonEmpty(ps[1..])| && NonEmpty(ps[1..])[k] == ps[1..][i - 1];
      assert all[k + (if ps[0] == "" then 0 else 1)] == ps[i];
    }
  }

  // -- relative paths ---------------------------------------------------------------------------

  /** The hops and segments so far, and whether a segment was seen; `None` on a `..` after one. */
  datatype Rel = Rel(up: nat, segments: seq<string>)

  function Relative(parts: seq<string>, acc: Rel): Option<Rel>
    decreases parts
  {
    if parts == [] then Some(acc)
    else if parts[0] == "." then Relative(parts[1..], acc)
    else if parts[0] == ".." then
      if acc.segments != [] then None else Relative(parts[1..], acc.(up := acc.up + 1))
    else Relative(parts[1..], acc.(segments := acc.segments + [parts[0]]))
  }

  /** `split_relative`. */
  method SplitRelative(body: string, parts: seq<string>) returns (r: Result<Rel>)
    ensures match Relative(parts, Rel(0, []))
            case None => r == Err(InteriorParent("file/self:" + body))
            case Some(rel) => r == Ok(rel)
  {
    var up: nat, segments: seq<string>, seen := 0, [], false;
    for i := 0 to |parts|
      invariant seen <==> segments != []
      invariant Relative(parts[i..], Rel(up, segments)) == Relative(parts, Rel(0, []))
    {
      assert parts[i..][1..] == parts[i + 1..];
      if parts[i] == "." {
      } else if parts[i] == ".." {
        if seen {
          return Err(InteriorParent("file/self:" + body));
        }
        up := up + 1;
      } else {
        seen := true;
        segments := segments + [parts[i]];
      }
    }
    return Ok(Rel(up, segments));
  }

  /** Walking the raw components one by one from a base directory; `None` when a `..` leaves
      it. */
  function Walk(base: seq<string>, parts: seq<string>): Option<seq<string>>
    decreases parts
  {
    if parts == [] then Some(base)
    else if parts[0] == "." then Walk(base, parts[1..])
    else if parts[0] == ".." then if base == [] then None else Walk(base[..|base| - 1], parts[1..])
    else Walk(base + [parts[0]], parts[1..])
  }

  /** Popping `up` levels and pushing the segments. */
  function Apply(base: seq<string>, r: Rel): seq<string>
    requires r.up <= |base|
  {
    base[..|base| - r.up] + r.segments
  }

  lemma {:induction false} WalkFrom(base: seq<string>, parts: seq<string>, acc: Rel, end: Rel)
    requires Relative(parts, acc) == Some(end) && end.up <= |base|
    ensures acc.up <= end.up && Walk(Apply(base, acc), parts) == Some(Apply(base, end))
    decreases parts
  {
    UpGrows(parts, acc, end);
    if parts != [] {
      if parts[0] == "." {
        WalkFrom(base, parts[1..], acc, end);
      } else if parts[0] == ".." {
        var next := acc.(up := acc.up + 1);
        UpGrows(parts[1..], next, end);
        WalkFrom(base, parts[1..], next, end);
        assert Apply(base, acc)[..|Apply(base, acc)| - 1] == Apply(base, next);
      } else {
        var next := acc.(segments := acc.segments + [parts[0]]);
        WalkFrom(base, parts[1..], next, end);
        assert Apply(base, acc) + [parts[0]] == Apply(base, next);
      }
    }
  }

  lemma {:induction false} UpGrows(parts: seq<string>, acc: Rel, end: Rel)
    requires Relative(parts, acc) == Some(end)
    ensures acc.up <= end.up
    decreases parts
  {
    if parts != [] {
      if parts[0] == "." {
        UpGrows(parts[1..], acc, end);
      } else if parts[0] == ".." {
        UpGrows(parts[1..], acc.(up := acc.up + 1), end);
      } else {
        UpGrows(parts[1..], acc.(segments := acc.segments + [parts[0]]), end);
      }
    }
  }

  /** From any base deep enough, the normalised path is the walk. */
  lemma RelativeIsWalk(base: seq<string>, parts: seq<string>, end: Rel)
    requires Relative(parts, Rel(0, [])) == Some(end) && end.up <= |base|
    ensures Walk(base, parts) == Some(Apply(base, end))
  {
    WalkFrom(base, parts, Rel(0, []), end);
    assert Apply(base, Rel(0, [])) == base;
  }

  /** A relative path is refused exactly when a `..` follows a real segment. */
  lemma {:induction false} RefusedExactly(parts: seq<string>, acc: Rel)
    ensures Relative(parts, acc).None? <==>
            exists j :: 0 <= j < |parts| && parts[j] == ".."
              && (acc.segments != [] || exists i :: 0 <= i < j && !IsDot(parts[i]))
    decreases parts
  {
    if parts != [] {
      var rest := parts[1..];
      var next := if parts[0] == "." then acc
                  else if parts[0] == ".." then acc.(up := acc.up + 1)
                  else acc.(segments := acc.segments + [parts[0]]);
      RefusedExactly(rest, next);
      if Late(rest, next) {
        var j :| 0 <= j < |rest| && rest[j] == ".."
          && (next.segments != [] || exists i :: 0 <= i < j && !IsDot(rest[i]));
        assert parts[j + 1] == "..";
        if next.segments == [] {
          var i :| 0 <= i < j && !IsDot(rest[i]);
          assert !IsDot(parts[i + 1]);
        } else if acc.segments == [] {
          assert !IsDot(parts[0]);
        }
      }
      if Late(parts, acc) && !(parts[0] == ".." && acc.segments != []) {
        var j :| 0 <= j < |parts| && parts[j] == ".."
          && (acc.segments != [] || exists i :: 0 <= i < j && !IsDot(parts[i]));
        assert j > 0;
        assert rest[j - 1] == "..";
        if acc.segments == [] {
          var i :| 0 <= i < j && !IsDot(parts[i]);
          if i > 0 {
            assert !IsDot(rest[i - 1]);
          }
        }
      }
    }
  }

  predicate Late(parts: seq<string>, acc: Rel)
  {
    exists j :: 0 <= j < |parts| && parts[j] == ".."
      && (acc.segments != [] || exists i :: 0 <= i < j && !IsDot(parts[i]))
  }

  // -- classification ----------------------------------------------------------------------------

  function FromRelative(scheme: Scheme, body: string): Result<ImportPath>
  {
    match Relative(Parts(body), Rel(0, []))
    case None => Err(InteriorParent("file/self:" + body))
    case Some(r) => Ok(ImportPath(scheme, r.segments, r.up, body))
  }

  predicate LeadsRelative(body: string)
  {
    Parts(body) != [] && IsDot(Parts(body)[0])
  }

  function ClassifySelf(body: string): Result<ImportPath>
  {
    if LeadsRelative(body) then FromRelative(SelfRel, body) else Absolute(SelfRoot, body)
  }

  function ClassifyFile(body: string): Result<ImportPath>
  {
    if LeadsRelative(body) then FromRelative(File, body) else Err(FileNotRelative(body))
  }

  function Classify(raw: string): Result<ImportPath>
  {
    match SplitOnce(raw, ':')
    case None => Err(MissingScheme(raw))
    case Some((kw, body)) =>
      if '+' in kw || kw == "url" || kw == "http" || kw == "https" || kw == "blob" then Err(ReservedScheme(kw))
      else if body == "" then Err(EmptyPath(kw))
      else if kw == "core" then Absolute(Core, body)
      else if kw == "std" then Absolute(Std, body)
      else if kw == "pkg" then Absolute(Pkg, body)
      else if kw == "self" then ClassifySelf(body)
      else if kw == "file" then ClassifyFile(body)
      else Err(UnknownScheme(kw))
  }

  lemma AbsoluteIs(scheme: Scheme, body: string)
    ensures Absolute(scheme, body).Ok? ==>
              var p := Absolute(scheme, body).value;
              && p == ImportPath(scheme, Parts(body), 0, body) && Parts(body) != []
              && forall i | 0 <= i < |Parts(body)| :: !IsDot(Parts(body)[i])
  {
  }

  lemma FromRelativeIs(scheme: Scheme, body: string)
    ensures FromRelative(scheme, body).Ok? ==>
              var p := FromRelative(scheme, body).value;
              p == ImportPath(scheme, p.segments, p.up, body)
                && Relative(Parts(body), Rel(0, [])) == Some(Rel(p.up, p.segments))
  {
  }

  /** Which of the two forms an accepted path has, and the text it came from. */
  lemma ClassifiedForm(raw: string)
    requires Classify(raw).Ok?
    ensures var p := Classify(raw).value;
            && raw == Keyword(p.scheme) + ":" + p.body
            && (if p.scheme.SelfRel? || p.scheme.File? then FromRelative(p.scheme, p.body) == Ok(p)
                else Absolute(p.scheme, p.body) == Ok(p))
  {
    hide Absolute, FromRelative, Parts, SplitOnce, LeadsRelative;
    SplitOnceIs(raw, ':');
    var (kw, body) := SplitOnce(raw, ':').value;
    forall scheme: Scheme
      ensures Absolute(scheme, body).Ok? ==>
                Absolute(scheme, body).value.scheme == scheme && Absolute(scheme, body).value.body == body
    {
      AbsoluteIs(scheme, body);
    }
    FromRelativeIs(SelfRel, body);
    FromRelativeIs(File, body);
    assert raw == kw + ":" + body;
  }

  /** Printing an accepted path gives the spelling it came from. */
  lemma DisplayIsSource(raw: string)
    requires Classify(raw).Ok?
    ensures DisplaySource(Classify(raw).value) == raw
  {
    ClassifiedForm(raw);
    hide Classify, Absolute, FromRelative;
  }

  /** Absolute forms have segments and climb nowhere; both forms mean the walk along their
      body. */
  lemma ClassifiedIs(raw: string, base: seq<string>)
    requires Classify(raw).Ok?
    ensures var p := Classify(raw).value;
            && (p.scheme.SelfRel? || p.scheme.File? ==> p.up <= |base| ==>
                Walk(base, Parts(p.body)) == Some(base[..|base| - p.up] + p.segments))
            && (!p.scheme.SelfRel? && !p.scheme.File? ==>
                p.up == 0 && p.segments != [] && Walk(base, Parts(p.body)) == Some(base + p.segments))
  {
    hide Classify, Absolute, FromRelative, Parts, NonEmpty, Split, LeadsRelative;
    ClassifiedForm(raw);
    var p := Classify(raw).value;
    AbsoluteIs(p.scheme, p.body);
    FromRelativeIs(p.scheme, p.body);
    if p.scheme.SelfRel? || p.scheme.File? {
      if p.up <= |base| {
        RelativeIsWalk(base, Parts(p.body), Rel(p.up, p.segments));
      }
    } else {
      WalkNames(base, Parts(p.body));
    }
  }

  lemma {:induction false} WalkNames(base: seq<string>, parts: seq<string>)
    requires forall i | 0 <= i < |parts| :: !IsDot(parts[i])
    ensures Walk(base, parts) == Some(base + parts)
    decreases parts
  {
    if parts == [] {
      assert base + parts == base;
    } else {
      WalkNames(base + [parts[0]], parts[1..]);
      assert base + [parts[0]] + parts[1..] == base + parts;
    }
  }

  // -- which spellings are accepted ---------------------------------------------------------------

  /** Some component, and none of them `.` or `..`. */
  predicate PlainParts(parts: seq<string>)
  {
    parts != [] && forall i | 0 <= i < |parts| :: parts[i] != "." && parts[i] != ".."
  }

  /** `.` or `..` in front, and no `..` after a component that is neither. */
  predicate HopsFirst(parts: seq<string>)
  {
    && parts != [] && (parts[0] == "." || parts[0] == "..")
    && forall i, j | 0 <= i < j < |parts| && parts[i] != "." && parts[i] != ".." :: parts[j] != ".."
  }

  lemma {:induction false} SplitOnceAt(kw: string, body: string)
    requires ':' !in kw
    ensures SplitOnce(kw + [':'] + body, ':') == Some((kw, body))
    decreases kw
  {
    var s := kw + [':'] + body;
    if kw != [] {
      assert s[1..] == kw[1..] + [':'] + body;
      SplitOnceAt(kw[1..], body);
      assert [s[0]] + kw[1..] == kw;
    }
  }

  lemma AbsoluteExactly(scheme: Scheme, body: string)
    ensures var parts := Parts(body);
            Absolute(scheme, body)
            == if PlainParts(parts) then Ok(ImportPath(scheme, parts, 0, body))
               else if parts == [] then Err(EmptyPath(Keyword(scheme)))
               else Err(InteriorParent(Keyword(scheme) + ":" + body))
  {
    hide Parts;
  }

  lemma RelativeExactly(scheme: Scheme, body: string)
    requires Parts(body) != [] && (Parts(body)[0] == "." || Parts(body)[0] == "..")
    ensures var r := FromRelative(scheme, body);
            if HopsFirst(Parts(body)) then r.Ok? && r.value.scheme == scheme && r.value.body == body
            else r == Err(InteriorParent("file/self:" + body))
  {
    var parts := Parts(body);
    RefusedExactly(parts, Rel(0, []));
    hide Parts, Relative;
    if Relative(parts, Rel(0, [])).None? {
      var j :| 0 <= j < |parts| && parts[j] == ".." && exists i :: 0 <= i < j && !IsDot(parts[i]);
      var i :| 0 <= i < j && !IsDot(parts[i]);
      assert parts[i] != "." && parts[i] != "..";
      assert !HopsFirst(parts);
    }
    if !HopsFirst(parts) {
      var i, j :| 0 <= i < j < |parts| && parts[i] != "." && parts[i] != ".." && parts[j] == "..";
      assert !IsDot(parts[i]);
    }
  }

  /** Once the scheme is split off. */
  lemma Dispatched(kw: string, body: string)
    requires ':' !in kw
    ensures var r := Classify(kw + [':'] + body);
            if '+' in kw || kw in ["url", "http", "https", "blob"] then r == Err(ReservedScheme(kw))
            else if body == "" then r == Err(EmptyPath(kw))
            else if kw == "core" then r == Absolute(Core, body)
            else if kw == "std" then r == Absolute(Std, body)
            else if kw == "pkg" then r == Absolute(Pkg, body)
            else if kw == "self" then r == ClassifySelf(body)
            else if kw == "file" then r == ClassifyFile(body)
            else r == Err(UnknownScheme(kw))
  {
    hide Absolute, ClassifySelf, ClassifyFile, SplitOnce;
    SplitOnceAt(kw, body);
  }

  /** A spelling without a scheme is refused. With one, in this order: the reserved schemes
      and every scheme with a `+`, an empty body, and unknown schemes are refused; `core`,
      `std` and `pkg` take plain components; `self` takes plain components or hops in front;
      `file` takes hops in front. */
  lemma ClassifiedExactly(kw: string, body: string)
    requires ':' !in kw
    ensures ':' !in body ==> Classify(body) == Err(MissingScheme(body))
    ensures var r, parts := Classify(kw + [':'] + body), Parts(body);
            if '+' in kw || kw in ["url", "http", "https", "blob"] then r == Err(ReservedScheme(kw))
            else if body == "" then r == Err(EmptyPath(kw))
            else if kw !in ["core", "std", "pkg", "self", "file"] then r == Err(UnknownScheme(kw))
            else if kw == "file" then
              if parts == [] || (parts[0] != "." && parts[0] != "..") then r == Err(FileNotRelative(body))
              else if HopsFirst(parts) then r.Ok? && r.value.scheme == File && r.value.body == body
              else r == Err(InteriorParent("file/self:" + body))
            else if kw == "self" && parts != [] && (parts[0] == "." || parts[0] == "..") then
              if HopsFirst(parts) then r.Ok? && r.value.scheme == SelfRel && r.value.body == body
              else r == Err(InteriorParent("file/self:" + body))
            else if PlainParts(parts) then
              var scheme := if kw == "core" then Core else if kw == "std" then Std
                            else if kw == "pkg" then Pkg else SelfRoot;
              r == Ok(ImportPath(scheme, parts, 0, body))
            else r == Err(if parts == [] then EmptyPath(kw) else InteriorParent(kw + ":" + body))
  {
    hide Parts, SplitOnce, Absolute, FromRelative, PlainParts, HopsFirst;
    Unschemed(body);
    Dispatched(kw, body);
    hide Classify;
    AbsoluteExactly(Core, body);
    AbsoluteExactly(Std, body);
    AbsoluteExactly(Pkg, body);
    AbsoluteExactly(SelfRoot, body);
    if LeadsRelative(body) {
      RelativeExactly(SelfRel, body);
      RelativeExactly(File, body);
    }
  }

  lemma Unschemed(raw: string)
    ensures ':' !in raw ==> Classify(raw) == Err(MissingScheme(raw))
  {
    SplitOnceIs(raw, ':');
  }
}
