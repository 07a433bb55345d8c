/**
 Facts about generated poll code on its own: its length, the uniqueness of its
 suspend points, and what saving and reloading the state struct does.
 */
module PollFacts {
  import opened Hir
  import opened Scan
  import opened Sites
  import opened Semantics
  import opened AsyncLayout
  import opened PollCode

  // -- code segments --------------------------------------------------------------

  predicate At(code: seq<Instr>, pc: nat, seg: seq<Instr>)
  {
    pc + |seg| <= |code| && forall i {:trigger seg[i]} :: 0 <= i < |seg| ==> code[pc + i] == seg[i]
  }

  lemma AtSplit(code: seq<Instr>, pc: nat, a: seq<Instr>, b: seq<Instr>)
    requires At(code, pc, a + b)
    ensures At(code, pc, a) && At(code, pc + |a|, b)
  {
    forall i | 0 <= i < |a|
      ensures code[pc + i] == a[i]
    {
      assert (a + b)[i] == a[i];
    }
    forall i | 0 <= i < |b|
      ensures code[pc + |a| + i] == b[i]
    {
      assert (a + b)[|a| + i] == b[i];
    }
  }

  // -- lengths ----------------------------------------------------------------------

  lemma {:induction false} GenSize(cx: Ctx, e: Expr, pc: nat, brk: nat, cont: nat, saved: set<LocalId>)
    requires Nf(e)
    ensures |Gen(cx, e, pc, brk, cont, saved)| == Size(e)
    decreases e, 1
  {
    hide Bound, BoundBlock, PatSet, SiteNo, SlotsOf, GenBlock, GenArms, SizeBlock, SizeArms, NfBlock, NfArms;
    if HasAwait(e) {
      match e
      case Await(_, _) =>
      case Adjust(_, inner) => GenSize(cx, inner, pc, brk, cont, saved);
      case Return(v) => GenSize(cx, v, pc, brk, cont, saved);
      case Break(v) => GenSize(cx, v, pc, brk, cont, saved);
      case Logic(_, l, r) => GenSize(cx, r, pc + 2, brk, cont, saved + Bound(l));
      case BlockExpr(b) => GenBlockSize(cx, b, pc, brk, cont, saved);
      case Loop(b) => GenBlockSize(cx, b, pc, pc + SizeBlock(b) + 1, pc, saved);
      case While(_, _) => GenLoopSize(cx, e, pc, brk, cont, saved);
      case For(_, _, _, _, _) => GenLoopSize(cx, e, pc, brk, cont, saved);
      case If(c, t, f) =>
        GenBlockSize(cx, t, pc + 2, brk, cont, saved + Bound(c));
        GenSize(cx, f, pc + 2 + SizeBlock(t) + 1, brk, cont, saved + Bound(c) + BoundBlock(t));
      case Match(sc, arms) => GenArmsSize(cx, arms, pc + 2, pc + 2 + SizeArms(arms), brk, cont, saved + Bound(sc));
    }
  }

  lemma {:induction false} GenLoopSize(cx: Ctx, e: Expr, pc: nat, brk: nat, cont: nat, saved: set<LocalId>)
    requires Nf(e) && HasAwait(e) && (e.While? || e.For?)
    ensures |Gen(cx, e, pc, brk, cont, saved)| == Size(e)
    decreases e, 0
  {
    hide Bound, BoundBlock, PatSet, SiteNo, SlotsOf;
    match e
    case While(c, b) =>
      var top := pc + Size(c) + 1;
      GenSize(cx, c, pc, brk, cont, saved);
      GenBlockSize(cx, b, top, top + SizeBlock(b) + 1, pc, saved + Bound(c));
    case For(pat, iter, _, b, d) =>
      if d.AsyncIter? {
        GenBlockSize(cx, b, pc + 4, pc + 4 + SizeBlock(b) + 1, pc, saved + PatSet(pat));
      } else {
        var latch := pc + 3 + SizeBlock(b);
        GenBlockSize(cx, b, pc + 3, latch + 2, latch, saved + Bound(iter) + PatSet(pat));
      }
  }

  lemma {:induction false} GenArmsSize(cx: Ctx, arms: Arms, pc: nat, end: nat, brk: nat, cont: nat, saved: set<LocalId>)
    requires NfArms(arms)
    ensures |GenArms(cx, arms, pc, end, brk, cont, saved)| == SizeArms(arms)
    decreases arms
  {
    if arms.Arm? {
      var saved' := saved + PatSet(arms.pat) + Bound(arms.guard);
      GenSize(cx, arms.arm, pc + 1, brk, cont, saved');
      GenArmsSize(cx, arms.rest, pc + 1 + Size(arms.arm) + 1, end, brk, cont, saved' + Bound(arms.arm));
    }
  }

  lemma {:induction false} GenStmtSize(cx: Ctx, s: Stmt, pc: nat, brk: nat, cont: nat, saved: set<LocalId>)
    requires NfStmt(s)
    ensures |GenStmt(cx, s, pc, brk, cont, saved)| == SizeStmt(s)
    decreases s
  {
    match s
    case Let(_, init) => GenSize(cx, init, pc, brk, cont, saved);
    case Assign(_, v) => GenSize(cx, v, pc, brk, cont, saved);
    case ExprStmt(e) => GenSize(cx, e, pc, brk, cont, saved);
  }

  lemma {:induction false} GenBlockSize(cx: Ctx, b: Block, pc: nat, brk: nat, cont: nat, saved: set<LocalId>)
    requires NfBlock(b)
    ensures |GenBlock(cx, b, pc, brk, cont, saved)| == SizeBlock(b)
    decreases b
  {
    match b
    case Tail(e) => GenSize(cx, e, pc, brk, cont, saved);
    case Then(s, rest) =>
      GenStmtSize(cx, s, pc, brk, cont, saved);
      GenBlockSize(cx, rest, pc + SizeStmt(s), brk, cont, saved + BoundStmt(s));
  }

  // -- the code of each construct --------------------------------------------------------

  lemma WhileGen(cx: Ctx, e: Expr, pc: nat, brk: nat, cont: nat, saved: set<LocalId>)
    requires e.While? && HasAwait(e) && Nf(e)
    ensures var top := pc + Size(e.cond) + 1; var exit := top + SizeBlock(e.body) + 1;
            var cg := Gen(cx, e.cond, pc, brk, cont, saved);
            var bg := GenBlock(cx, e.body, top, exit, pc, saved + Bound(e.cond));
            && Gen(cx, e, pc, brk, cont, saved) == cg + [BrUnless(exit)] + bg + [Jump(pc), Clear]
            && |cg| == Size(e.cond) && |bg| == SizeBlock(e.body) && pc + Size(e) == exit + 1
  {
    var top := pc + Size(e.cond) + 1;
    GenSize(cx, e.cond, pc, brk, cont, saved);
    GenBlockSize(cx, e.body, top, top + SizeBlock(e.body) + 1, pc, saved + Bound(e.cond));
    hide GenBlock, SizeBlock;
  }

  lemma IfGen(cx: Ctx, e: Expr, pc: nat, brk: nat, cont: nat, saved: set<LocalId>)
    requires e.If? && HasAwait(e) && Nf(e)
    ensures var other := pc + 2 + SizeBlock(e.thn) + 1;
            var tg := GenBlock(cx, e.thn, pc + 2, brk, cont, saved + Bound(e.cond));
            && Gen(cx, e, pc, brk, cont, saved)
               == [Exec(e.cond, brk, cont), BrUnless(other)] + tg + [Jump(other + Size(e.els))]
                  + Gen(cx, e.els, other, brk, cont, saved + Bound(e.cond) + BoundBlock(e.thn))
            && |tg| == SizeBlock(e.thn) && pc + Size(e) == other + Size(e.els)
  {
    GenBlockSize(cx, e.thn, pc + 2, brk, cont, saved + Bound(e.cond));
    hide GenBlock, SizeBlock;
  }

  lemma MatchGen(cx: Ctx, e: Expr, pc: nat, brk: nat, cont: nat, saved: set<LocalId>)
    requires e.Match? && HasAwait(e)
    ensures var end := pc + 2 + SizeArms(e.arms);
            && Gen(cx, e, pc, brk, cont, saved)
               == [Exec(e.scrut, brk, cont), Scrut]
                 + GenArms(cx, e.arms, pc + 2, end, brk, cont, saved + Bound(e.scrut))
            && pc + Size(e) == end
  {
    hide GenArms, SizeArms;
  }

  lemma ForGen(cx: Ctx, e: Expr, pc: nat, brk: nat, cont: nat, saved: set<LocalId>)
    requires e.For? && !e.driver.AsyncIter? && HasAwait(e) && Nf(e)
    ensures var q := SlotsOf(cx, e.span); var latch := pc + 3 + SizeBlock(e.body);
            var bg := GenBlock(cx, e.body, pc + 3, latch + 2, latch, saved + Bound(e.iter) + PatSet(e.pat));
            && Gen(cx, e, pc, brk, cont, saved)
               == [Exec(e.iter, brk, cont), ForSetup(e.driver, q), ForHead(e.driver, e.pat, q, latch + 2, brk, cont)]
                 + bg
                  + [ForLatch(e.driver, q), Jump(pc + 2), Clear]
            && |bg| == SizeBlock(e.body) && pc + Size(e) == latch + 3
  {
    var latch := pc + 3 + SizeBlock(e.body);
    GenBlockSize(cx, e.body, pc + 3, latch + 2, latch, saved + Bound(e.iter) + PatSet(e.pat));
    hide GenBlock, SizeBlock, SlotsOf;
  }

  lemma ArmGen(cx: Ctx, arms: Arms, pc: nat, end: nat, brk: nat, cont: nat, saved: set<LocalId>)
    requires arms.Arm? && NfArms(arms)
    ensures var next := pc + 1 + Size(arms.arm) + 1; var saved' := saved + PatSet(arms.pat) + Bound(arms.guard);
            var ag := Gen(cx, arms.arm, pc + 1, brk, cont, saved');
            && GenArms(cx, arms, pc, end, brk, cont, saved)
               == [TryArm(arms.pat, arms.guard, next, brk, cont)] + ag + [Jump(end)]
                  + GenArms(cx, arms.rest, next, end, brk, cont, saved' + Bound(arms.arm))
            && |ag| == Size(arms.arm)
  {
    GenSize(cx, arms.arm, pc + 1, brk, cont, saved + PatSet(arms.pat) + Bound(arms.guard));
    hide Gen, Size;
  }

  // -- suspend points -----------------------------------------------------------------

  /** How often suspend point `n` stands in the code. */
  function Count(code: seq<Instr>, n: nat): nat
  {
    if code == [] then 0 else (if code[0] == Poll(n) then 1 else 0) + Count(code[1..], n)
  }

  lemma {:induction false} CountConcat(a: seq<Instr>, b: seq<Instr>, n: nat)
    ensures Count(a + b, n) == Count(a, n) + Count(b, n)
  {
    if a == [] {
      assert a + b == b;
    } else {
      CountConcat(a[1..], b, n);
      assert (a + b)[1..] == a[1..] + b;
    }
  }

  /** How many of the spans have number `n`. */
  function Named(cx: Ctx, sps: seq<Span>, n: nat): nat
  {
    if sps == [] then 0 else (if SiteNo(cx, sps[0]) == n then 1 else 0) + Named(cx, sps[1..], n)
  }

  lemma {:induction false} NamedConcat(cx: Ctx, a: seq<Span>, b: seq<Span>, n: nat)
    ensures Named(cx, a + b, n) == Named(cx, a, n) + Named(cx, b, n)
  {
    if a == [] {
      assert a + b == b;
    } else {
      NamedConcat(cx, a[1..], b, n);
      assert (a + b)[1..] == a[1..] + b;
    }
  }

  predicate Quiet(code: seq<Instr>)
  {
    forall i :: 0 <= i < |code| ==> !code[i].Poll?
  }

  lemma {:induction false} CountNone(code: seq<Instr>, n: nat)
    requires Quiet(code)
    ensures Count(code, n) == 0
  {
    if code != [] {
      CountNone(code[1..], n);
    }
  }

  /** Code that does not suspend may stand around code that does. */
  lemma CountWrap(pre: seq<Instr>, mid: seq<Instr>, post: seq<Instr>, n: nat)
    requires Quiet(pre) && Quiet(post)
    ensures Count(pre + mid + post, n) == Count(mid, n)
    ensures Count(pre + mid, n) == Count(mid, n)
    ensures Count(mid + post, n) == Count(mid, n)
  {
    CountNone(pre, n);
    CountNone(post, n);
    CountConcat(pre + mid, post, n);
    CountConcat(pre, mid, n);
    CountConcat(mid, post, n);
  }

  lemma CountOne(pre: seq<Instr>, k: nat, post: seq<Instr>, n: nat)
    requires Quiet(pre) && Quiet(post)
    ensures Count(pre + [Poll(k)] + post, n) == if k == n then 1 else 0
  {
    CountWrap(pre, [Poll(k)], post, n);
    assert [Poll(k)][1..] == [];
  }

  /** The code holds each suspend point as often as its site is reached. */
  lemma {:induction false} GenPolls(cx: Ctx, e: Expr, pc: nat, brk: nat, cont: nat, saved: set<LocalId>, n: nat)
    requires Nf(e)
    ensures Count(Gen(cx, e, pc, brk, cont, saved), n) == Named(cx, Reach(e), n)
    decreases e, 0
  {
    if !HasAwait(e) {
      QuietReach(e);
      CountNone([Exec(e, brk, cont)], n);
    } else {
      match e
      case Await(sp, f) =>
        QuietReach(f);
        CountOne([Exec(f, brk, cont), Suspend(SiteNo(cx, sp), saved + Bound(f))], SiteNo(cx, sp), [], n);
        assert [Exec(f, brk, cont), Suspend(SiteNo(cx, sp), saved + Bound(f))] + [Poll(SiteNo(cx, sp))] + []
            == Gen(cx, e, pc, brk, cont, saved);
        assert [sp][1..] == [];
        assert Reach(e) == [sp];
      case Adjust(a, inner) =>
        GenPolls(cx, inner, pc, brk, cont, saved, n);
        CountWrap([], Gen(cx, inner, pc, brk, cont, saved), [Coerce(a)], n);
      case Return(v) =>
        GenPolls(cx, v, pc, brk, cont, saved, n);
        CountWrap([], Gen(cx, v, pc, brk, cont, saved), [Finish], n);
      case Break(v) =>
        GenPolls(cx, v, pc, brk, cont, saved, n);
        CountWrap([], Gen(cx, v, pc, brk, cont, saved), [Jump(brk)], n);
      case BlockExpr(b) => GenBlockPolls(cx, b, pc, brk, cont, saved, n);
      case Loop(b) =>
        GenBlockPolls(cx, b, pc, pc + SizeBlock(b) + 1, pc, saved, n);
        CountWrap([], GenBlock(cx, b, pc, pc + SizeBlock(b) + 1, pc, saved), [Jump(pc)], n);
      case Logic(_, _, _) => GenLogicPolls(cx, e, pc, brk, cont, saved, n);
      case While(_, _) => GenWhilePolls(cx, e, pc, brk, cont, saved, n);
      case For(_, _, _, _, d) =>
        if d.AsyncIter? {
          GenForAwaitPolls(cx, e, pc, brk, cont, saved, n);
        } else {
          GenForPolls(cx, e, pc, brk, cont, saved, n);
        }
      case If(_, _, _) => GenIfPolls(cx, e, pc, brk, cont, saved, n);
      case Match(_, _) => GenMatchPolls(cx, e, pc, brk, cont, saved, n);
    }
  }

  lemma {:induction false} GenLogicPolls(cx: Ctx, e: Expr, pc: nat, brk: nat, cont: nat, saved: set<LocalId>, n: nat)
    requires Nf(e) && HasAwait(e) && e.Logic?
    ensures Count(Gen(cx, e, pc, brk, cont, saved), n) == Named(cx, Reach(e), n)
    decreases e, -1
  {
    var end := pc + 2 + Size(e.right);
    QuietReach(e.left);
    GenPolls(cx, e.right, pc + 2, brk, cont, saved + Bound(e.left), n);
    CountWrap([Exec(e.left, brk, cont), if e.isAnd then BrUnless(end) else BrIf(end)],
              Gen(cx, e.right, pc + 2, brk, cont, saved + Bound(e.left)), [], n);
    assert Reach(e) == Reach(e.right);
  }

  lemma MatchCount(cx: Ctx, e: Expr, pc: nat, brk: nat, cont: nat, saved: set<LocalId>, n: nat)
    requires HasAwait(e) && e.Match?
    ensures Count(Gen(cx, e, pc, brk, cont, saved), n)
            == Count(GenArms(cx, e.arms, pc + 2, pc + 2 + SizeArms(e.arms), brk, cont, saved + Bound(e.scrut)), n)
  {
    MatchGen(cx, e, pc, brk, cont, saved);
    hide Gen, GenBlock, GenArms, Size, SizeBlock, SizeArms, HasAwait, HasAwaitBlock, Count, Named, Bound, BoundBlock,
         PatSet, Reach, ReachBlock, ReachArms, SlotsOf, Nf, NfBlock, NfArms;
    CountWrap([Exec(e.scrut, brk, cont), Scrut],
              GenArms(cx, e.arms, pc + 2, pc + 2 + SizeArms(e.arms), brk, cont, saved + Bound(e.scrut)), [], n);
  }

  lemma {:induction false} GenMatchPolls(cx: Ctx, e: Expr, pc: nat, brk: nat, cont: nat, saved: set<LocalId>, n: nat)
    requires Nf(e) && HasAwait(e) && e.Match?
    ensures Count(Gen(cx, e, pc, brk, cont, saved), n) == Named(cx, Reach(e), n)
    decreases e, -1
  {
    QuietReach(e.scrut);
    MatchCount(cx, e, pc, brk, cont, saved, n);
    assert Reach(e) == ReachArms(e.arms) && NfArms(e.arms);
    hide Gen, GenBlock, GenArms, Size, SizeBlock, SizeArms, HasAwait, HasAwaitBlock, Count, Named, Bound, BoundBlock,
         PatSet, Reach, ReachBlock, ReachArms, SlotsOf, Nf, NfBlock, NfArms;
    GenArmsPolls(cx, e.arms, pc + 2, pc + 2 + SizeArms(e.arms), brk, cont, saved + Bound(e.scrut), n);
  }

  lemma TwoCounts(a: seq<Instr>, mid: seq<Instr>, b: seq<Instr>, post: seq<Instr>, n: nat)
    requires Quiet(mid) && Quiet(post)
    ensures Count(a + mid + b + post, n) == Count(a, n) + Count(b, n)
  {
    CountWrap([], a, mid, n);
    CountConcat(a + mid, b, n);
    CountWrap([], a + mid + b, post, n);
  }

  lemma {:induction false} GenWhilePolls(cx: Ctx, e: Expr, pc: nat, brk: nat, cont: nat, saved: set<LocalId>, n: nat)
    requires Nf(e) && HasAwait(e) && e.While?
    ensures Count(Gen(cx, e, pc, brk, cont, saved), n) == Named(cx, Reach(e), n)
    decreases e, -1
  {
    WhileGen(cx, e, pc, brk, cont, saved);
    hide Gen, GenBlock, Size, SizeBlock, HasAwait, HasAwaitBlock, Count, Named, Bound;
    var top := pc + Size(e.cond) + 1;
    var exit := top + SizeBlock(e.body) + 1;
    GenPolls(cx, e.cond, pc, brk, cont, saved, n);
    GenBlockPolls(cx, e.body, top, exit, pc, saved + Bound(e.cond), n);
    TwoCounts(Gen(cx, e.cond, pc, brk, cont, saved), [BrUnless(exit)],
              GenBlock(cx, e.body, top, exit, pc, saved + Bound(e.cond)), [Jump(pc), Clear], n);
    NamedConcat(cx, Reach(e.cond), ReachBlock(e.body), n);
  }

  lemma {:induction false} GenForAwaitPolls(cx: Ctx, e: Expr, pc: nat, brk: nat, cont: nat, saved: set<LocalId>, n: nat)
    requires Nf(e) && HasAwait(e) && e.For? && e.driver.AsyncIter?
    ensures Count(Gen(cx, e, pc, brk, cont, saved), n) == Named(cx, Reach(e), n)
    decreases e, -1
  {
    hide SizeBlock, SiteNo, PatSet, GenArms, ReachArms, HasAwaitBlock;
    QuietReach(e.iter);
    var k, exit := SiteNo(cx, e.span), pc + 4 + SizeBlock(e.body) + 1;
    var p1 := [NextAsync(if e.iter.Local? then e.iter.x else 0, e.driver.next, brk, cont), Suspend(k, saved)];
    var p2 := [TakeItem(e.driver.done, e.pat, exit)];
    var b := GenBlock(cx, e.body, pc + 4, exit, pc, saved + PatSet(e.pat));
    GenBlockPolls(cx, e.body, pc + 4, exit, pc, saved + PatSet(e.pat), n);
    CountOne(p1, k, p2, n);
    CountConcat(p1 + [Poll(k)] + p2, b, n);
    CountWrap([], p1 + [Poll(k)] + p2 + b, [Jump(pc), Clear], n);
    NamedConcat(cx, [e.span], ReachBlock(e.body), n);
    assert [e.span][1..] == [];
    assert p1 + [Poll(k)] + p2 == [p1[0], p1[1], Poll(k), p2[0]];
    assert Reach(e) == [e.span] + ReachBlock(e.body);
  }

  lemma ForCount(cx: Ctx, e: Expr, pc: nat, brk: nat, cont: nat, saved: set<LocalId>, n: nat)
    requires Nf(e) && HasAwait(e) && e.For? && !e.driver.AsyncIter?
    ensures var latch := pc + 3 + SizeBlock(e.body);
            Count(Gen(cx, e, pc, brk, cont, saved), n)
            == Count(GenBlock(cx, e.body, pc + 3, latch + 2, latch, saved + Bound(e.iter) + PatSet(e.pat)), n)
  {
    ForGen(cx, e, pc, brk, cont, saved);
    hide Gen, GenBlock, GenArms, Size, SizeBlock, SizeArms, HasAwait, HasAwaitBlock, Count, Named, Bound, BoundBlock,
         PatSet, Reach, ReachBlock, ReachArms, SlotsOf, Nf, NfBlock, NfArms;
    var q := SlotsOf(cx, e.span);
    var latch := pc + 3 + SizeBlock(e.body);
    CountWrap([Exec(e.iter, brk, cont), ForSetup(e.driver, q), ForHead(e.driver, e.pat, q, latch + 2, brk, cont)],
              GenBlock(cx, e.body, pc + 3, latch + 2, latch, saved + Bound(e.iter) + PatSet(e.pat)),
              [ForLatch(e.driver, q), Jump(pc + 2), Clear], n);
  }

  lemma ForReach(e: Expr)
    requires Nf(e) && HasAwait(e) && e.For? && !e.driver.AsyncIter?
    ensures Reach(e) == ReachBlock(e.body) && NfBlock(e.body)
  {
    QuietReach(e.iter);
  }

  lemma {:induction false} GenForPolls(cx: Ctx, e: Expr, pc: nat, brk: nat, cont: nat, saved: set<LocalId>, n: nat)
    requires Nf(e) && HasAwait(e) && e.For? && !e.driver.AsyncIter?
    ensures Count(Gen(cx, e, pc, brk, cont, saved), n) == Named(cx, Reach(e), n)
    decreases e, -1
  {
    ForReach(e);
    ForCount(cx, e, pc, brk, cont, saved, n);
    hide Gen, GenBlock, GenArms, Size, SizeBlock, SizeArms, HasAwait, HasAwaitBlock, Count, Named, Bound, BoundBlock,
         PatSet, Reach, ReachBlock, ReachArms, SlotsOf, Nf, NfBlock, NfArms;
    var latch := pc + 3 + SizeBlock(e.body);
    GenBlockPolls(cx, e.body, pc + 3, latch + 2, latch, saved + Bound(e.iter) + PatSet(e.pat), n);
  }

  lemma IfCount(cx: Ctx, e: Expr, pc: nat, brk: nat, cont: nat, saved: set<LocalId>, n: nat)
    requires Nf(e) && HasAwait(e) && e.If?
    ensures var other := pc + 2 + SizeBlock(e.thn) + 1;
            Count(Gen(cx, e, pc, brk, cont, saved), n)
            == Count(GenBlock(cx, e.thn, pc + 2, brk, cont, saved + Bound(e.cond)), n)
               + Count(Gen(cx, e.els, other, brk, cont, saved + Bound(e.cond) + BoundBlock(e.thn)), n)
  {
    IfGen(cx, e, pc, brk, cont, saved);
    hide Gen, GenBlock, GenArms, Size, SizeBlock, SizeArms, HasAwait, HasAwaitBlock, Count, Named, Bound, BoundBlock,
         PatSet, Reach, ReachBlock, ReachArms, SlotsOf, Nf, NfBlock, NfArms;
    var other := pc + 2 + SizeBlock(e.thn) + 1;
    ArmCount([Exec(e.cond, brk, cont), BrUnless(other)], GenBlock(cx, e.thn, pc + 2, brk, cont, saved + Bound(e.cond)),
             [Jump(other + Size(e.els))], Gen(cx, e.els, other, brk, cont, saved + Bound(e.cond) + BoundBlock(e.thn)),
               n);
  }

  lemma {:induction false} GenIfPolls(cx: Ctx, e: Expr, pc: nat, brk: nat, cont: nat, saved: set<LocalId>, n: nat)
    requires Nf(e) && HasAwait(e) && e.If?
    ensures Count(Gen(cx, e, pc, brk, cont, saved), n) == Named(cx, Reach(e), n)
    decreases e, -1
  {
    QuietReach(e.cond);
    IfCount(cx, e, pc, brk, cont, saved, n);
    assert Reach(e) == ReachBlock(e.thn) + Reach(e.els);
    assert NfBlock(e.thn) && Nf(e.els);
    hide Gen, GenBlock, GenArms, Size, SizeBlock, SizeArms, HasAwait, HasAwaitBlock, Count, Named, Bound, BoundBlock,
         PatSet, Reach, ReachBlock, ReachArms, SlotsOf, Nf, NfBlock, NfArms;
    var other := pc + 2 + SizeBlock(e.thn) + 1;
    GenBlockPolls(cx, e.thn, pc + 2, brk, cont, saved + Bound(e.cond), n);
    GenPolls(cx, e.els, other, brk, cont, saved + Bound(e.cond) + BoundBlock(e.thn), n);
    NamedConcat(cx, ReachBlock(e.thn), Reach(e.els), n);
  }

  lemma ArmsCount(cx: Ctx, arms: Arms, pc: nat, end: nat, brk: nat, cont: nat, saved: set<LocalId>, n: nat)
    requires NfArms(arms) && arms.Arm?
    ensures var next := pc + 1 + Size(arms.arm) + 1; var saved' := saved + PatSet(arms.pat) + Bound(arms.guard);
            Count(GenArms(cx, arms, pc, end, brk, cont, saved), n)
            == Count(Gen(cx, arms.arm, pc + 1, brk, cont, saved'), n)
              + Count(GenArms(cx, arms.rest, next, end, brk, cont, saved' + Bound(arms.arm)), n)
  {
    ArmGen(cx, arms, pc, end, brk, cont, saved);
    hide Gen, GenArms, Size, Count, Bound, PatSet, NfArms;
    var next := pc + 1 + Size(arms.arm) + 1;
    var saved' := saved + PatSet(arms.pat) + Bound(arms.guard);
    ArmCount([TryArm(arms.pat, arms.guard, next, brk, cont)], Gen(cx, arms.arm, pc + 1, brk, cont, saved'), [Jump(end)],
             GenArms(cx, arms.rest, next, end, brk, cont, saved' + Bound(arms.arm)), n);
  }

  lemma {:induction false} GenArmsPolls(cx: Ctx, arms: Arms, pc: nat, end: nat, brk: nat, cont: nat,
                                        saved: set<LocalId>, n: nat)
    requires NfArms(arms)
    ensures Count(GenArms(cx, arms, pc, end, brk, cont, saved), n) == Named(cx, ReachArms(arms), n)
    decreases arms, 0
  {
    if arms.NoArms? {
      CountNone([Trap], n);
    } else {
      var next := pc + 1 + Size(arms.arm) + 1;
      var saved' := saved + PatSet(arms.pat) + Bound(arms.guard);
      QuietReach(arms.guard);
      ArmsCount(cx, arms, pc, end, brk, cont, saved, n);
      ArmNamed(cx, Reach(arms.guard), Reach(arms.arm), ReachArms(arms.rest), n);
      assert ReachArms(arms) == Reach(arms.guard) + Reach(arms.arm) + ReachArms(arms.rest);
      hide Gen, GenArms, Size, HasAwait, Count, Named, Bound, PatSet, Reach, ReachArms;
      GenPolls(cx, arms.arm, pc + 1, brk, cont, saved', n);
      GenArmsPolls(cx, arms.rest, next, end, brk, cont, saved' + Bound(arms.arm), n);
    }
  }

  lemma ArmCount(pre: seq<Instr>, body: seq<Instr>, post: seq<Instr>, rest: seq<Instr>, n: nat)
    requires Quiet(pre) && Quiet(post)
    ensures Count(pre + body + post + rest, n) == Count(body, n) + Count(rest, n)
  {
    CountWrap(pre, body, post, n);
    CountConcat(pre + body + post, rest, n);
  }

  lemma ArmNamed(cx: Ctx, quiet: seq<Span>, body: seq<Span>, rest: seq<Span>, n: nat)
    requires quiet == []
    ensures Named(cx, quiet + body + rest, n) == Named(cx, body, n) + Named(cx, rest, n)
  {
    NamedConcat(cx, body, rest, n);
    assert quiet + body + rest == body + rest;
  }

  lemma {:induction false} GenStmtPolls(cx: Ctx, s: Stmt, pc: nat, brk: nat, cont: nat, saved: set<LocalId>, n: nat)
    requires NfStmt(s)
    ensures Count(GenStmt(cx, s, pc, brk, cont, saved), n) == Named(cx, ReachStmt(s), n)
    decreases s, 0
  {
    match s
    case Let(pat, init) =>
      GenPolls(cx, init, pc, brk, cont, saved, n);
      CountWrap([], Gen(cx, init, pc, brk, cont, saved), [BindTo(pat)], n);
    case Assign(t, v) =>
      GenPolls(cx, v, pc, brk, cont, saved, n);
      CountWrap([], Gen(cx, v, pc, brk, cont, saved), [StoreTo(t, brk, cont)], n);
      QuietReach(t);
      assert ReachStmt(s) == Reach(v);
    case ExprStmt(e) => GenPolls(cx, e, pc, brk, cont, saved, n);
  }

  lemma {:induction false} GenBlockPolls(cx: Ctx, b: Block, pc: nat, brk: nat, cont: nat, saved: set<LocalId>, n: nat)
    requires NfBlock(b)
    ensures Count(GenBlock(cx, b, pc, brk, cont, saved), n) == Named(cx, ReachBlock(b), n)
    decreases b, 0
  {
    match b
    case Tail(e) => GenPolls(cx, e, pc, brk, cont, saved, n);
    case Then(s, rest) =>
      GenStmtPolls(cx, s, pc, brk, cont, saved, n);
      if TermStmt(s) {
        assert GenBlock(cx, b, pc, brk, cont, saved) == GenStmt(cx, s, pc, brk, cont, saved);
        assert ReachBlock(b) == ReachStmt(s);
      } else {
        GenBlockPolls(cx, rest, pc + SizeStmt(s), brk, cont, saved + BoundStmt(s), n);
        CountConcat(GenStmt(cx, s, pc, brk, cont, saved),
                    GenBlock(cx, rest, pc + SizeStmt(s), brk, cont, saved + BoundStmt(s)), n);
        NamedConcat(cx, ReachStmt(s), ReachBlock(rest), n);
      }
  }

  lemma {:induction false} CountPositive(code: seq<Instr>, n: nat, i: nat)
    requires i < |code| && code[i] == Poll(n)
    ensures Count(code, n) >= 1
  {
    if i > 0 {
      CountPositive(code[1..], n, i - 1);
    }
  }

  /** A suspend point that stands once is where dispatch resumes. */
  lemma {:induction false} PollPcFound(code: seq<Instr>, n: nat, pc: nat)
    requires Count(code, n) <= 1 && pc < |code| && code[pc] == Poll(n)
    ensures PollPc(code, n) == Some(pc)
  {
    if pc > 0 {
      CountPositive(code[1..], n, pc - 1);
      PollPcFound(code[1..], n, pc - 1);
    }
  }

  lemma {:induction false} NoDupOnce(xs: seq<Span>, x: Span)
    requires NoDup(xs)
    ensures multiset(xs)[x] <= 1
  {
    if xs != [] {
      NoDupOnce(xs[1..], x);
      assert xs == [xs[0]] + xs[1..];
      if xs[0] == x {
        assert x !in xs[1..];
      }
    }
  }

  lemma {:induction false} NamedAtMost(cx: Ctx, sps: seq<Span>, n: nat, x: Span)
    requires forall sp <- sps :: SiteNo(cx, sp) == n ==> sp == x
    ensures Named(cx, sps, n) <= multiset(sps)[x]
  {
    if sps != [] {
      NamedAtMost(cx, sps[1..], n, x);
      assert sps == [sps[0]] + sps[1..];
    }
  }

  lemma NumberedOnce(cx: Ctx, sites: seq<Span>, got: seq<Span>, n: nat)
    requires NoDup(sites) && cx.no == NumberSites(sites) && n > 0
    requires multiset(got) <= multiset(sites)
    ensures Named(cx, got, n) <= 1
  {
    var x := if n <= |sites| then sites[n - 1] else 0;
    forall sp | sp in got && SiteNo(cx, sp) == n
      ensures sp == x
    {
      assert sp in multiset(got);
      assert sp in sites;
    }
    NamedAtMost(cx, got, n, x);
    NoDupOnce(sites, x);
  }

  /** Distinct await spans give each resume state one suspend point. */
  lemma SuspendPointsUnique(cx: Ctx, b: Block, pc: nat, brk: nat, cont: nat, saved: set<LocalId>, n: nat)
    requires NfBlock(b) && NoDup(ScanBlock(b)) && cx.no == NumberSites(ScanBlock(b)) && n > 0
    ensures Count(GenBlock(cx, b, pc, brk, cont, saved) + [Finish], n) <= 1
  {
    hide GenBlock, HasAwaitBlock, NfBlock, ScanBlock, ReachBlock, Named, NoDup, NumberSites;
    GenBlockPolls(cx, b, pc, brk, cont, saved, n);
    CountWrap([], GenBlock(cx, b, pc, brk, cont, saved), [Finish], n);
    assert [] + GenBlock(cx, b, pc, brk, cont, saved) + [Finish] == GenBlock(cx, b, pc, brk, cont, saved) + [Finish];
    BlockReached(b);
    NumberedOnce(cx, ScanBlock(b), ReachBlock(b), n);
  }

  // -- the state struct -----------------------------------------------------------------

  /** Saving writes each local's own word and touches no other. */
  lemma {:induction false} SaveFromSpec(slots: map<nat, Value>, locals: seq<LocalId>, i: nat, env: Env,
                                        saved: set<LocalId>)
    requires i <= |locals|
    ensures var out := SaveFrom(slots, locals, i, env, saved);
            && (forall k | i <= k < |locals| ::
                  Word(out, LocalOff(k)) == if locals[k] in saved then Get(env, locals[k]) else Num(0))
            && (forall off: nat | off < LocalOff(i) || LocalOff(|locals|) <= off :: Word(out, off) == Word(slots, off))
    decreases |locals| - i
  {
    if i < |locals| {
      var slots' := slots[LocalOff(i) := if locals[i] in saved then Get(env, locals[i]) else Num(0)];
      SaveFromSpec(slots', locals, i + 1, env, saved);
    }
  }

  lemma {:induction false} StoreArgsSpec(slots: map<nat, Value>, i: nat, args: seq<Value>)
    ensures var out := StoreArgs(slots, i, args);
            && (forall k | 0 <= k < |args| :: Word(out, LocalOff(i + k)) == args[k])
            && (forall off: nat | off < LocalOff(i) :: Word(out, off) == Word(slots, off))
    decreases args
  {
    if args != [] {
      StoreArgsSpec(slots[LocalOff(i) := args[0]], i + 1, args[1..]);
      forall k | 0 <= k < |args|
        ensures Word(StoreArgs(slots, i, args), LocalOff(i + k)) == args[k]
      {
        if k > 0 {
          assert LocalOff(i + k) == LocalOff(i + 1 + (k - 1));
        }
      }
    }
  }

  // -- terminating statements --------------------------------------------------------------

  lemma {:induction false} TermLeaves(pr: Program, e: Expr, s: State, fuel: nat)
    requires Term(e)
    ensures !Eval(pr, e, s, fuel).ctl.Normal?
  {
    match e
    case BlockExpr(b) => TermBlockLeaves(pr, b, s, fuel);
    case Adjust(_, inner) => TermLeaves(pr, inner, s, fuel);
    case _ =>
  }

  lemma {:induction false} TermStmtLeaves(pr: Program, st: Stmt, s: State, fuel: nat)
    requires TermStmt(st)
    ensures !EvalStmt(pr, st, s, fuel).ctl.Normal?
  {
    match st
    case Let(_, init) => TermLeaves(pr, init, s, fuel);
    case Assign(_, v) => TermLeaves(pr, v, s, fuel);
    case ExprStmt(e) => TermLeaves(pr, e, s, fuel);
  }

  lemma {:induction false} TermBlockLeaves(pr: Program, b: Block, s: State, fuel: nat)
    requires TermBlock(b)
    ensures !EvalBlock(pr, b, s, fuel).ctl.Normal?
  {
    match b
    case Tail(e) => TermLeaves(pr, e, s, fuel);
    case Then(st, rest) =>
      if TermStmt(st) {
        TermStmtLeaves(pr, st, s, fuel);
      } else {
        TermBlockLeaves(pr, rest, EvalStmt(pr, st, s, fuel).s, fuel);
      }
  }
}
