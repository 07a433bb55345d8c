/**
 The await scan against code generation: which suspend sites the scan registers,
 and which ones `h_expr` reaches.
 */
module Sites {
  import opened Hir
  import opened Scan

  // -- scan and has-await ------------------------------------------------------

  /** A registered site is a real await, in every body. */
  lemma {:induction false} ScanImpliesAwait(e: Expr)
    ensures ScanValue(e) != [] ==> HasAwait(e)
  {
    match e
    case Adjust(_, inner) => ScanImpliesAwait(inner);
    case Return(v) => ScanImpliesAwait(v);
    case Break(v) => ScanImpliesAwait(v);
    case Logic(_, _, r) => ScanImpliesAwait(r);
    case BlockExpr(b) => ScanBlockImpliesAwait(b);
    case Loop(b) => ScanBlockImpliesAwait(b);
    case While(c, b) => ScanImpliesAwait(c); ScanBlockImpliesAwait(b);
    case For(_, _, _, b, _) => ScanBlockImpliesAwait(b);
    case If(_, t, f) => ScanBlockImpliesAwait(t); ScanImpliesAwait(f);
    case Match(_, arms) => ScanArmsImpliesAwait(arms);
    case _ =>
  }

  lemma {:induction false} ScanArmsImpliesAwait(arms: Arms)
    ensures ScanArms(arms) != [] ==> HasAwaitArms(arms)
  {
    if arms.Arm? {
      ScanImpliesAwait(arms.arm);
      ScanArmsImpliesAwait(arms.rest);
    }
  }

  lemma {:induction false} ScanStmtImpliesAwait(s: Stmt)
    ensures ScanStmt(s) != [] ==> HasAwaitStmt(s)
  {
    match s
    case Let(_, init) => ScanImpliesAwait(init);
    case Assign(_, v) => ScanImpliesAwait(v);
    case ExprStmt(e) => ScanImpliesAwait(e);
  }

  lemma {:induction false} ScanBlockImpliesAwait(b: Block)
    ensures ScanBlock(b) != [] ==> HasAwaitBlock(b)
  {
    match b
    case Tail(e) => ScanImpliesAwait(e);
    case Then(s, rest) =>
      ScanStmtImpliesAwait(s);
      ScanBlockImpliesAwait(rest);
  }

  /** In normal form the converse holds, so the state-machine path is taken exactly
      for the bodies with a registered site. */
  lemma {:induction false} AwaitImpliesScan(e: Expr)
    requires Nf(e) && HasAwait(e)
    ensures ScanValue(e) != []
  {
    match e
    case Adjust(_, inner) => AwaitImpliesScan(inner);
    case Return(v) => AwaitImpliesScan(v);
    case Break(v) => AwaitImpliesScan(v);
    case Logic(_, _, r) => AwaitImpliesScan(r);
    case BlockExpr(b) => AwaitBlockImpliesScan(b);
    case Loop(b) => AwaitBlockImpliesScan(b);
    case While(c, b) => if HasAwait(c) { AwaitImpliesScan(c); } else { AwaitBlockImpliesScan(b); }
    case For(_, _, _, b, d) => if !d.AsyncIter? { AwaitBlockImpliesScan(b); }
    case If(_, t, f) => if HasAwaitBlock(t) { AwaitBlockImpliesScan(t); } else { AwaitImpliesScan(f); }
    case Match(_, arms) => AwaitArmsImpliesScan(arms);
    case _ =>
  }

  lemma {:induction false} AwaitArmsImpliesScan(arms: Arms)
    requires NfArms(arms) && HasAwaitArms(arms)
    ensures ScanArms(arms) != []
  {
    if HasAwait(arms.arm) {
      AwaitImpliesScan(arms.arm);
    } else {
      AwaitArmsImpliesScan(arms.rest);
    }
  }

  lemma {:induction false} AwaitBlockImpliesScan(b: Block)
    requires NfBlock(b) && HasAwaitBlock(b)
    ensures ScanBlock(b) != []
  {
    match b
    case Tail(e) => AwaitImpliesScan(e);
    case Then(s, rest) =>
      if HasAwaitStmt(s) {
        match s
        case Let(_, init) => AwaitImpliesScan(init);
        case Assign(_, v) => AwaitImpliesScan(v);
        case ExprStmt(e) => AwaitImpliesScan(e);
      } else {
        AwaitBlockImpliesScan(rest);
      }
  }

  // -- await-free code ------------------------------------------------------------

  lemma {:induction false} QuietReach(e: Expr)
    requires !HasAwait(e)
    ensures Reach(e) == []
  {
    match e
    case Prim(_, args) => QuietReachArgs(args);
    case Logic(_, l, r) => QuietReach(l); QuietReach(r);
    case Call(_, args) => QuietReachArgs(args);
    case Struct(_, fields) => QuietReachArgs(fields);
    case Field(recv, _) => QuietReach(recv);
    case Append(l, i) => QuietReach(l); QuietReach(i);
    case Adjust(_, inner) => QuietReach(inner);
    case Cast(_, inner, _, _) => QuietReach(inner);
    case If(c, t, f) => QuietReach(c); QuietReachBlock(t); QuietReach(f);
    case Match(sc, arms) => QuietReach(sc); QuietReachArms(arms);
    case BlockExpr(b) => QuietReachBlock(b);
    case Loop(b) => QuietReachBlock(b);
    case While(c, b) => QuietReach(c); QuietReachBlock(b);
    case For(_, iter, _, b, _) => QuietReach(iter); QuietReachBlock(b);
    case Return(v) => QuietReach(v);
    case Break(v) => QuietReach(v);
    case _ =>
  }

  lemma {:induction false} QuietReachArgs(es: Exprs)
    requires !HasAwaitArgs(es)
    ensures ReachArgs(es) == []
  {
    if es.ECons? {
      QuietReach(es.head);
      QuietReachArgs(es.tail);
    }
  }

  lemma {:induction false} QuietReachArms(arms: Arms)
    requires !HasAwaitArms(arms)
    ensures ReachArms(arms) == []
  {
    if arms.Arm? {
      QuietReach(arms.guard);
      QuietReach(arms.arm);
      QuietReachArms(arms.rest);
    }
  }

  lemma {:induction false} QuietReachBlock(b: Block)
    requires !HasAwaitBlock(b)
    ensures ReachBlock(b) == []
  {
    match b
    case Tail(e) => QuietReach(e);
    case Then(s, rest) =>
      match s {
        case Let(_, init) => QuietReach(init);
        case Assign(t, v) => QuietReach(v); QuietReach(t);
        case ExprStmt(e) => QuietReach(e);
      }
      QuietReachBlock(rest);
  }

  // -- registered and reached sites -------------------------------------------------

  /** No registered site stands after a terminating statement, in code that is
      never generated. */
  predicate LiveSites(e: Expr)
  {
    match e
    case Adjust(_, inner) => LiveSites(inner)
    case Return(v) => LiveSites(v)
    case Break(v) => LiveSites(v)
    case Logic(_, _, r) => LiveSites(r)
    case BlockExpr(b) => LiveBlock(b)
    case Loop(b) => LiveBlock(b)
    case While(c, b) => LiveSites(c) && LiveBlock(b)
    case For(_, _, _, b, _) => LiveBlock(b)
    case If(_, t, f) => LiveBlock(t) && LiveSites(f)
    case Match(_, arms) => LiveArms(arms)
    case _ => true
  }

  predicate LiveArms(arms: Arms)
  {
    arms.Arm? ==> LiveSites(arms.arm) && LiveArms(arms.rest)
  }

  predicate LiveStmt(s: Stmt)
  {
    match s
    case Let(_, init) => LiveSites(init)
    case Assign(_, v) => LiveSites(v)
    case ExprStmt(e) => LiveSites(e)
  }

  predicate LiveBlock(b: Block)
  {
    match b
    case Tail(e) => LiveSites(e)
    case Then(s, rest) => LiveStmt(s) && (if TermStmt(s) then ScanBlock(rest) == [] else LiveBlock(rest))
  }

  /** `got` is what code generation reaches out of the registered `all`. */
  predicate Covers(all: seq<Span>, got: seq<Span>, live: bool)
  {
    && multiset(got) <= multiset(all)
    && |got| <= |all|
    && (live <==> got == all)
  }

  lemma CoversConcat(a1: seq<Span>, g1: seq<Span>, l1: bool, a2: seq<Span>, g2: seq<Span>, l2: bool)
    requires Covers(a1, g1, l1) && Covers(a2, g2, l2)
    ensures Covers(a1 + a2, g1 + g2, l1 && l2)
  {
    if g1 + g2 == a1 + a2 {
      assert |g1| == |a1|;
      assert g1 == (g1 + g2)[..|g1|] && a1 == (a1 + a2)[..|a1|];
      assert g2 == (g1 + g2)[|g1|..] && a2 == (a1 + a2)[|a1|..];
    }
  }

  /** On a normal-form body every reached site is registered, as often as it is
      reached, so the unregistered-site error never fires; and the two lists are equal
      exactly when no registered site is dead code. */
  lemma {:induction false} ReachedAreRegistered(e: Expr)
    requires Nf(e)
    ensures Covers(ScanValue(e), Reach(e), LiveSites(e))
  {
    if !HasAwait(e) {
      QuietReach(e);
      ScanImpliesAwait(e);
      QuietLive(e);
    } else {
      match e
      case Await(_, f) => QuietReach(f);
      case Adjust(_, inner) => ReachedAreRegistered(inner);
      case Return(v) => ReachedAreRegistered(v);
      case Break(v) => ReachedAreRegistered(v);
      case Logic(_, l, r) => QuietReach(l); ReachedAreRegistered(r); assert Reach(e) == Reach(r);
      case BlockExpr(b) => BlockReached(b);
      case Loop(b) => BlockReached(b);
      case While(c, b) =>
        ReachedAreRegistered(c);
        BlockReached(b);
        CoversConcat(ScanValue(c), Reach(c), LiveSites(c), ScanBlock(b), ReachBlock(b), LiveBlock(b));
      case For(_, iter, sp, b, d) =>
        QuietReach(iter);
        BlockReached(b);
        var own := if d.AsyncIter? then [sp] else [];
        CoversConcat(own, own, true, ScanBlock(b), ReachBlock(b), LiveBlock(b));
        assert Reach(e) == own + ReachBlock(b);
      case If(c, t, f) =>
        QuietReach(c);
        BlockReached(t);
        ReachedAreRegistered(f);
        CoversConcat(ScanBlock(t), ReachBlock(t), LiveBlock(t), ScanValue(f), Reach(f), LiveSites(f));
        assert Reach(e) == ReachBlock(t) + Reach(f);
      case Match(sc, arms) =>
        QuietReach(sc);
        ArmsReached(arms);
        assert Reach(e) == ReachArms(arms);
    }
  }

  lemma {:induction false} ArmsReached(arms: Arms)
    requires NfArms(arms)
    ensures Covers(ScanArms(arms), ReachArms(arms), LiveArms(arms))
  {
    if arms.Arm? {
      QuietReach(arms.guard);
      ReachedAreRegistered(arms.arm);
      ArmsReached(arms.rest);
      CoversConcat(ScanValue(arms.arm), Reach(arms.arm), LiveSites(arms.arm),
                   ScanArms(arms.rest), ReachArms(arms.rest), LiveArms(arms.rest));
      assert ReachArms(arms) == Reach(arms.arm) + ReachArms(arms.rest);
    }
  }

  lemma {:induction false} StmtReached(s: Stmt)
    requires NfStmt(s)
    ensures Covers(ScanStmt(s), ReachStmt(s), LiveStmt(s))
  {
    match s
    case Let(_, init) => ReachedAreRegistered(init);
    case Assign(t, v) => ReachedAreRegistered(v); QuietReach(t); assert ReachStmt(s) == Reach(v);
    case ExprStmt(e) => ReachedAreRegistered(e);
  }

  lemma {:induction false} BlockReached(b: Block)
    requires NfBlock(b)
    ensures Covers(ScanBlock(b), ReachBlock(b), LiveBlock(b))
  {
    match b
    case Tail(e) => ReachedAreRegistered(e);
    case Then(s, rest) =>
      StmtReached(s);
      BlockReached(rest);
      if TermStmt(s) {
        CoversConcat(ScanStmt(s), ReachStmt(s), LiveStmt(s), ScanBlock(rest), [], ScanBlock(rest) == []);
      } else {
        CoversConcat(ScanStmt(s), ReachStmt(s), LiveStmt(s), ScanBlock(rest), ReachBlock(rest), LiveBlock(rest));
      }
  }

  /** Code without a registered site has no dead one. */
  lemma {:induction false} QuietLive(e: Expr)
    ensures ScanValue(e) == [] ==> LiveSites(e)
  {
    match e
    case Adjust(_, inner) => QuietLive(inner);
    case Return(v) => QuietLive(v);
    case Break(v) => QuietLive(v);
    case Logic(_, _, r) => QuietLive(r);
    case BlockExpr(b) => QuietLiveBlock(b);
    case Loop(b) => QuietLiveBlock(b);
    case While(c, b) => QuietLive(c); QuietLiveBlock(b);
    case For(_, _, _, b, _) => QuietLiveBlock(b);
    case If(_, t, f) => QuietLiveBlock(t); QuietLive(f);
    case Match(_, arms) => QuietLiveArms(arms);
    case _ =>
  }

  lemma {:induction false} QuietLiveArms(arms: Arms)
    ensures ScanArms(arms) == [] ==> LiveArms(arms)
  {
    if arms.Arm? {
      QuietLive(arms.arm);
      QuietLiveArms(arms.rest);
    }
  }

  lemma {:induction false} QuietLiveStmt(s: Stmt)
    ensures ScanStmt(s) == [] ==> LiveStmt(s)
  {
    match s
    case Let(_, init) => QuietLive(init);
    case Assign(_, v) => QuietLive(v);
    case ExprStmt(e) => QuietLive(e);
  }

  lemma {:induction false} QuietLiveBlock(b: Block)
    ensures ScanBlock(b) == [] ==> LiveBlock(b)
  {
    match b
    case Tail(e) => QuietLive(e);
    case Then(s, rest) =>
      QuietLiveStmt(s);
      QuietLiveBlock(rest);
  }
}
