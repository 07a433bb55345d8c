/**
 The poll function means the body: calling it again and again, with its frame
 lost at every `Pending`, ends with the value and the effects of running the body
 straight through.
 */
module PollProof {
  import opened Hir
  import opened Scan
  import opened Semantics
  import opened Lockstep
  import opened AsyncLayout
  import opened PollCode
  import opened PollFacts

  // -- the invariant ------------------------------------------------------------------

  predicate SlotsApart(cx: Ctx)
  {
    && (forall sp <- cx.slots ::
          && LocalOff(|cx.locals|) <= cx.slots[sp].primary
          && cx.slots[sp].secondary == cx.slots[sp].primary + 8
          && cx.slots[sp].index == cx.slots[sp].primary + 16)
    && (forall a, b | a in cx.slots && b in cx.slots && a != b ::
          || cx.slots[a].primary + 24 <= cx.slots[b].primary
          || cx.slots[b].primary + 24 <= cx.slots[a].primary)
  }

  ghost predicate Sound(p: PollFn)
  {
    && SyncProgram(p.pr)
    && NoDup(p.cx.locals)
    && SlotsApart(p.cx)
    && (forall n: nat | n > 0 :: Count(p.code, n) <= 1)
  }

  /** What a piece of the body needs from the context: its locals have slots, its
      sites numbers, and its awaiting loops cursors of their own. */
  predicate Fits(p: PollFn, bound: set<LocalId>, sites: seq<Span>, loops: seq<Span>)
  {
    && bound <= Elems(p.cx.locals)
    && (forall sp <- sites :: SiteNo(p.cx, sp) > 0)
    && (forall sp <- loops :: sp in p.cx.slots)
    && NoDup(loops)
  }

  lemma FitsSplit(p: PollFn, b1: set<LocalId>, b2: set<LocalId>, s1: seq<Span>, s2: seq<Span>, l1: seq<Span>,
                  l2: seq<Span>)
    requires Fits(p, b1 + b2, s1 + s2, l1 + l2)
    ensures Fits(p, b1, s1, l1) && Fits(p, b2, s2, l2) && Elems(l1) !! Elems(l2)
    ensures Elems(l1 + l2) == Elems(l1) + Elems(l2)
  {
    forall i | 0 <= i < |s1| ensures SiteNo(p.cx, s1[i]) > 0 { assert (s1 + s2)[i] == s1[i]; }
    forall i | 0 <= i < |s2| ensures SiteNo(p.cx, s2[i]) > 0 { assert (s1 + s2)[|s1| + i] == s2[i]; }
    forall i | 0 <= i < |l1| ensures l1[i] in p.cx.slots { assert (l1 + l2)[i] == l1[i]; }
    forall i | 0 <= i < |l2| ensures l2[i] in p.cx.slots { assert (l1 + l2)[|l1| + i] == l2[i]; }
    forall i, j | 0 <= i < j < |l1| ensures l1[i] != l1[j] { assert (l1 + l2)[i] != (l1 + l2)[j]; }
    forall i, j | 0 <= i < j < |l2| ensures l2[i] != l2[j] { assert (l1 + l2)[|l1| + i] != (l1 + l2)[|l1| + j]; }
    forall i, j | 0 <= i < |l1| && 0 <= j < |l2| ensures l1[i] != l2[j] { assert (l1 + l2)[i] != (l1 + l2)[|l1| + j]; }
  }

  predicate SameWorld(s: State, sh: Shared)
  {
    s.mem == sh.mem && s.trace == sh.trace && s.ins == Readys(sh.answers)
  }

  /** The machine agrees with the reference run on everything in scope. */
  predicate Rel(g: set<LocalId>, s: State, f: Frame, sh: Shared)
  {
    SameWorld(s, sh) && AgreeOn(g, s.env, f.env) && s.stacked == {}
  }

  /** The cursors of the loops outside `own` are as they were. */
  predicate Keeps(p: PollFn, own: set<Span>, a: Shared, b: Shared)
  {
    forall sp <- p.cx.slots | sp !in own ::
      && Word(a.slots, p.cx.slots[sp].primary) == Word(b.slots, p.cx.slots[sp].primary)
      && Word(a.slots, p.cx.slots[sp].secondary) == Word(b.slots, p.cx.slots[sp].secondary)
      && Word(a.slots, p.cx.slots[sp].index) == Word(b.slots, p.cx.slots[sp].index)
  }

  /** Configuration `c` is where the reference outcome `r` belongs. */
  predicate Arrives(p: PollFn, c: Config, r: Out, next: nat, brk: nat, cont: nat, g: set<LocalId>, own: set<Span>,
                    from: Shared)
  {
    match r.ctl
    case Normal(v) => c.Running? && c.pc == next && c.f.acc == v && Rel(g, r.s, c.f, c.sh) && Keeps(p, own, from, c.sh)
    case Brk(v) => c.Running? && c.pc == brk && c.f.acc == v && Rel(g, r.s, c.f, c.sh) && Keeps(p, own, from, c.sh)
    case Cont => c.Running? && c.pc == cont && Rel(g, r.s, c.f, c.sh) && Keeps(p, own, from, c.sh)
    case Ret(v) => c.Finished? && c.v == v && SameWorld(r.s, c.sh)
    case Panic => c.Panicked? && SameWorld(r.s, c.sh)
    case Wait => c.Starved? && SameWorld(r.s, c.sh)
    case _ => false
  }

  predicate Proper(c: Ctl)
  {
    !c.Timeout? && !c.Stuck?
  }

  ghost predicate Ready0(p: PollFn, g: set<LocalId>, saved: set<LocalId>, s: State, f: Frame, sh: Shared, fuel: nat)
  {
    Sound(p) && g <= saved && g <= Elems(p.cx.locals) && Rel(g, s, f, sh) && fuel <= p.fuel
  }

  lemma Weaken(p: PollFn, c: Config, r: Out, next: nat, brk: nat, cont: nat,
               g: set<LocalId>, own: set<Span>, from: Shared,
               g1: set<LocalId>, own1: set<Span>, mid: Shared, own2: set<Span>)
    requires Keeps(p, own1, from, mid) && Arrives(p, c, r, next, brk, cont, g1, own2, mid)
    requires g <= g1 && own1 <= own && own2 <= own
    ensures Arrives(p, c, r, next, brk, cont, g, own, from)
  {
  }

  lemma OneStep(p: PollFn, c: Config, k: nat)
    ensures Run(p, c, k + 1) == StepConfig(p, Run(p, c, k))
  {
    RunAdd(p, c, k, 1);
    assert Run(p, Run(p, c, k), 1) == Run(p, StepConfig(p, Run(p, c, k)), 0);
  }

  lemma KeepsRefl(p: PollFn, sh: Shared)
    ensures Keeps(p, {}, sh, sh)
  {
  }

  lemma KeepsTrans(p: PollFn, x: set<Span>, y: set<Span>, a: Shared, b: Shared, c: Shared)
    requires Keeps(p, x, a, b) && Keeps(p, y, b, c)
    ensures Keeps(p, x + y, a, c)
  {
  }

  lemma RelWeaken(g: set<LocalId>, g1: set<LocalId>, s: State, f: Frame, sh: Shared)
    requires Rel(g1, s, f, sh) && g <= g1
    ensures Rel(g, s, f, sh)
  {
  }

  lemma OneStep0(p: PollFn, c: Config)
    ensures Run(p, c, 1) == StepConfig(p, c)
  {
    assert Run(p, c, 1) == Run(p, StepConfig(p, c), 0);
  }

  // -- await-free code ------------------------------------------------------------------

  lemma AtomRun(p: PollFn, e: Expr, pc: nat, brk: nat, cont: nat, g: set<LocalId>, s: State, f: Frame, sh: Shared,
                fuel: nat)
    requires Sound(p) && Rel(g, s, f, sh) && fuel <= p.fuel
    requires !HasAwait(e) && Scoped(e, g) && Proper(Eval(p.pr, e, s, fuel).ctl)
    requires pc < |p.code| && p.code[pc] == Exec(e, brk, cont)
    ensures Arrives(p, Run(p, Running(pc, f, sh), 1), Eval(p.pr, e, s, fuel), pc + 1, brk, cont, g, {}, sh)
    ensures var c := Run(p, Running(pc, f, sh), 1); c.Running? ==> c.sh.slots == sh.slots && c.f.scrut == f.scrut
  {
    EvalAlike(p.pr, e, s, AsState(f, sh), g, fuel, p.fuel);
    OneStep(p, Running(pc, f, sh), 0);
  }

  // -- suspending -------------------------------------------------------------------------

  /** The struct holds all that a resumed call needs. */
  predicate Parked(p: PollFn, n: nat, fut: Value, g: set<LocalId>, env: Env, slots: map<nat, Value>)
  {
    && Word(slots, 0) == Num(n)
    && Word(slots, INNER_OFF) == fut
    && (forall i | 0 <= i < |p.cx.locals| ::
        p.cx.locals[i] in g ==> Word(slots, LocalOff(i)) == Get(env, p.cx.locals[i]))
  }

  lemma ReloadAgrees(p: PollFn, n: nat, fut: Value, g: set<LocalId>, env: Env, slots: map<nat, Value>)
    requires Parked(p, n, fut, g, env, slots) && g <= Elems(p.cx.locals)
    ensures AgreeOn(g, env, LoadAll(slots, p.cx.locals))
  {
    forall x | x in g
      ensures Get(env, x) == Get(LoadAll(slots, p.cx.locals), x)
    {
      var i := IndexOf(p.cx.locals, x);
      assert p.cx.locals[i] == x;
    }
  }

  /** Any number of `Pending` answers, each losing the frame, then the ready value. */
  lemma {:induction false} PollRun(p: PollFn, pc: nat, n: nat, fut: Value, f: Frame, sh: Shared, g: set<LocalId>,
                                   s: State, brk: nat, cont: nat) returns (k: nat)
    requires Sound(p) && g <= Elems(p.cx.locals) && Rel(g, s, f, sh) && n > 0
    requires pc < |p.code| && p.code[pc] == Poll(n) && Parked(p, n, fut, g, s.env, sh.slots)
    ensures Arrives(p, Run(p, Running(pc, f, sh), k), DoAwait(fut, s), pc + 1, brk, cont, g, {}, sh)
    decreases |sh.answers|
  {
    var c := Running(pc, f, sh);
    OneStep(p, c, 0);
    if sh.answers == [] || sh.answers[0].Ready? {
      k := 1;
    } else {
      var sh' := sh.(answers := sh.answers[1..]);
      assert Run(p, c, 1) == Idle(sh');
      PollPcFound(p.code, n, pc);
      ReloadAgrees(p, n, fut, g, s.env, sh.slots);
      var f' := Frame(Nil, Nil, LoadAll(sh.slots, p.cx.locals));
      OneStep(p, c, 1);
      assert Run(p, c, 2) == Running(pc, f', sh');
      var j := PollRun(p, pc, n, fut, f', sh', g, s, brk, cont);
      RunAdd(p, c, 2, j);
      k := 2 + j;
    }
  }

  function Suspended(p: PollFn, n: nat, saved: set<LocalId>, f: Frame, sh: Shared): Shared
  {
    sh.(slots := SaveFrom(sh.slots, p.cx.locals, 0, f.env, saved)[INNER_OFF := f.acc][0 := Num(n)])
  }

  /** Saving parks everything in scope and touches no cursor. */
  lemma SuspendParks(p: PollFn, n: nat, saved: set<LocalId>, f: Frame, sh: Shared, g: set<LocalId>, s: State)
    requires Sound(p) && g <= saved && Rel(g, s, f, sh)
    ensures Parked(p, n, f.acc, g, s.env, Suspended(p, n, saved, f, sh).slots)
            && Keeps(p, {}, sh, Suspended(p, n, saved, f, sh))
  {
    SaveFromSpec(sh.slots, p.cx.locals, 0, f.env, saved);
    hide SaveFrom;
  }

  /** Save, then poll until ready. */
  lemma AwaitRun(p: PollFn, pc: nat, n: nat, saved: set<LocalId>, f: Frame, sh: Shared, g: set<LocalId>, s: State,
                 brk: nat, cont: nat) returns (k: nat)
    requires Sound(p) && g <= saved && g <= Elems(p.cx.locals) && Rel(g, s, f, sh) && n > 0
    requires pc + 1 < |p.code| && p.code[pc] == Suspend(n, saved) && p.code[pc + 1] == Poll(n)
    ensures Arrives(p, Run(p, Running(pc, f, sh), k), DoAwait(f.acc, s), pc + 2, brk, cont, g, {}, sh)
  {
    hide Run, Arrives, DoAwait, Sound, Elems, AgreeOn, Parked, Keeps, SaveFrom;
    var c, sh' := Running(pc, f, sh), Suspended(p, n, saved, f, sh);
    OneStep0(p, c);
    assert Run(p, c, 1) == Running(pc + 1, f, sh');
    SuspendParks(p, n, saved, f, sh, g, s);
    var j := PollRun(p, pc + 1, n, f.acc, f, sh', g, s, brk, cont);
    RunAdd(p, c, 1, j);
    k := 1 + j;
    Weaken(p, Run(p, c, k), DoAwait(f.acc, s), pc + 2, brk, cont, g, {}, sh, g, {}, sh', {});
  }

  // -- where the pieces of a construct stand ---------------------------------------------------

  function Own(e: Expr): set<Span> { Elems(ScanFor(e)) }

  function OwnBlock(b: Block): set<Span> { Elems(ScanForBlock(b)) }

  function OwnArms(arms: Arms): set<Span> { Elems(ScanForArms(arms)) }

  /** Normal-form, scoped code for `e` stands at `pc`. */
  ghost predicate Here(p: PollFn, e: Expr, pc: nat, brk: nat, cont: nat, saved: set<LocalId>, g: set<LocalId>)
  {
    && Nf(e) && Scoped(e, g)
    && Fits(p, Bound(e), ScanValue(e), ScanFor(e))
    && At(p.code, pc, Gen(p.cx, e, pc, brk, cont, saved))
  }

  ghost predicate HereBlock(p: PollFn, b: Block, pc: nat, brk: nat, cont: nat, saved: set<LocalId>, g: set<LocalId>)
  {
    && NfBlock(b) && ScopedBlock(b, g)
    && Fits(p, BoundBlock(b), ScanBlock(b), ScanForBlock(b))
    && At(p.code, pc, GenBlock(p.cx, b, pc, brk, cont, saved))
  }

  ghost predicate HereStmt(p: PollFn, st: Stmt, pc: nat, brk: nat, cont: nat, saved: set<LocalId>, g: set<LocalId>)
  {
    && NfStmt(st) && ScopedStmt(st, g)
    && Fits(p, BoundStmt(st), ScanStmt(st), ScanForStmt(st))
    && At(p.code, pc, GenStmt(p.cx, st, pc, brk, cont, saved))
  }

  ghost predicate HereArms(p: PollFn, arms: Arms, pc: nat, end: nat, brk: nat, cont: nat, saved: set<LocalId>,
                           g: set<LocalId>)
  {
    && NfArms(arms) && ScopedArms(arms, g)
    && Fits(p, BoundArms(arms), ScanArms(arms), ScanForArms(arms))
    && At(p.code, pc, GenArms(p.cx, arms, pc, end, brk, cont, saved))
  }

  /** Instruction `i` stands at `pc`. */
  predicate Is(p: PollFn, pc: nat, i: Instr)
  {
    pc < |p.code| && p.code[pc] == i
  }

  lemma AtIs(p: PollFn, pc: nat, seg: seq<Instr>, i: nat)
    requires At(p.code, pc, seg) && i < |seg|
    ensures Is(p, pc + i, seg[i])
  {
  }

  lemma AwaitLayout(p: PollFn, e: Expr, pc: nat, brk: nat, cont: nat, saved: set<LocalId>, g: set<LocalId>)
    requires Here(p, e, pc, brk, cont, saved, g) && HasAwait(e) && e.Await?
    ensures var n := SiteNo(p.cx, e.span);
            && !HasAwait(e.fut) && Scoped(e.fut, g) && n > 0 && Size(e) == 3
            && Is(p, pc, Exec(e.fut, brk, cont)) && Is(p, pc + 1, Suspend(n, saved + Bound(e.fut)))
               && Is(p, pc + 2, Poll(n))
  {
    var seg := Gen(p.cx, e, pc, brk, cont, saved);
    AtIs(p, pc, seg, 0);
    AtIs(p, pc, seg, 1);
    AtIs(p, pc, seg, 2);
    assert e.span in [e.span];
  }

  lemma WrapLayout(p: PollFn, e: Expr, pc: nat, brk: nat, cont: nat, saved: set<LocalId>, g: set<LocalId>)
    requires Here(p, e, pc, brk, cont, saved, g) && HasAwait(e) && (e.Adjust? || e.Return? || e.Break?)
    ensures var inner := if e.Adjust? then e.inner else e.value;
            && Here(p, inner, pc, brk, cont, saved, g) && Own(e) == Own(inner) && Size(e) == Size(inner) + 1
            && Is(p, pc + Size(inner), if e.Adjust? then Coerce(e.adjust) else if e.Return? then Finish else Jump(brk))
  {
    var inner := if e.Adjust? then e.inner else e.value;
    var last := [if e.Adjust? then Coerce(e.adjust) else if e.Return? then Finish else Jump(brk)];
    GenSize(p.cx, inner, pc, brk, cont, saved);
    AtSplit(p.code, pc, Gen(p.cx, inner, pc, brk, cont, saved), last);
    AtIs(p, pc + Size(inner), last, 0);
  }

  lemma LogicLayout(p: PollFn, e: Expr, pc: nat, brk: nat, cont: nat, saved: set<LocalId>, g: set<LocalId>)
    requires Here(p, e, pc, brk, cont, saved, g) && HasAwait(e) && e.Logic?
    ensures var end := pc + 2 + Size(e.right);
            && !HasAwait(e.left) && Scoped(e.left, g) && Own(e.right) == Own(e) && pc + Size(e) == end
            && Is(p, pc, Exec(e.left, brk, cont)) && Is(p, pc + 1, if e.isAnd then BrUnless(end) else BrIf(end))
            && Here(p, e.right, pc + 2, brk, cont, saved + Bound(e.left), g)
  {
    var end := pc + 2 + Size(e.right);
    var pre := [Exec(e.left, brk, cont), if e.isAnd then BrUnless(end) else BrIf(end)];
    AtSplit(p.code, pc, pre, Gen(p.cx, e.right, pc + 2, brk, cont, saved + Bound(e.left)));
    AtIs(p, pc, pre, 0);
    AtIs(p, pc, pre, 1);
  }

  lemma LoopLayout(p: PollFn, e: Expr, pc: nat, brk: nat, cont: nat, saved: set<LocalId>, g: set<LocalId>)
    requires Here(p, e, pc, brk, cont, saved, g) && HasAwait(e) && e.Loop?
    ensures var exit := pc + SizeBlock(e.body) + 1;
            && pc + Size(e) == exit && Own(e) == OwnBlock(e.body)
            && HereBlock(p, e.body, pc, exit, pc, saved, g) && Is(p, exit - 1, Jump(pc))
  {
    var exit := pc + SizeBlock(e.body) + 1;
    GenBlockSize(p.cx, e.body, pc, exit, pc, saved);
    AtSplit(p.code, pc, GenBlock(p.cx, e.body, pc, exit, pc, saved), [Jump(pc)]);
    AtIs(p, exit - 1, [Jump(pc)], 0);
  }

  lemma AtWhile(p: PollFn, pc: nat, a: seq<Instr>, mid: Instr, b: seq<Instr>, post: seq<Instr>)
    requires At(p.code, pc, a + [mid] + b + post)
    ensures At(p.code, pc, a) && Is(p, pc + |a|, mid) && At(p.code, pc + |a| + 1, b)
            && At(p.code, pc + |a| + 1 + |b|, post)
  {
    AtSplit(p.code, pc, a + [mid] + b, post);
    AtSplit(p.code, pc, a + [mid], b);
    AtSplit(p.code, pc, a, [mid]);
    AtIs(p, pc + |a|, [mid], 0);
  }

  lemma WhileFits(p: PollFn, e: Expr)
    requires e.While? && Fits(p, Bound(e), ScanValue(e), ScanFor(e))
    ensures Fits(p, Bound(e.cond), ScanValue(e.cond), ScanFor(e.cond))
            && Fits(p, BoundBlock(e.body), ScanBlock(e.body), ScanForBlock(e.body))
    ensures Own(e) == Own(e.cond) + OwnBlock(e.body)
  {
    hide Fits;
    FitsSplit(p, Bound(e.cond), BoundBlock(e.body), ScanValue(e.cond), ScanBlock(e.body), ScanFor(e.cond),
              ScanForBlock(e.body));
  }

  lemma WhileCode(p: PollFn, e: Expr, pc: nat, brk: nat, cont: nat, saved: set<LocalId>)
    requires e.While? && HasAwait(e) && Nf(e) && At(p.code, pc, Gen(p.cx, e, pc, brk, cont, saved))
    ensures var top := pc + Size(e.cond) + 1; var exit := top + SizeBlock(e.body) + 1;
            && pc + Size(e) == exit + 1 && At(p.code, pc, Gen(p.cx, e.cond, pc, brk, cont, saved))
               && Is(p, top - 1, BrUnless(exit))
            && At(p.code, top, GenBlock(p.cx, e.body, top, exit, pc, saved + Bound(e.cond)))
            && Is(p, exit - 1, Jump(pc)) && Is(p, exit, Clear)
  {
    WhileGen(p.cx, e, pc, brk, cont, saved);
    hide At, Gen, GenBlock, Size, SizeBlock, HasAwait, Nf, Bound;
    var top := pc + Size(e.cond) + 1;
    var exit := top + SizeBlock(e.body) + 1;
    AtWhile(p, pc, Gen(p.cx, e.cond, pc, brk, cont, saved), BrUnless(exit),
            GenBlock(p.cx, e.body, top, exit, pc, saved + Bound(e.cond)), [Jump(pc), Clear]);
    AtIs(p, exit - 1, [Jump(pc), Clear], 0);
    AtIs(p, exit - 1, [Jump(pc), Clear], 1);
  }

  lemma WhileLayout(p: PollFn, e: Expr, pc: nat, brk: nat, cont: nat, saved: set<LocalId>, g: set<LocalId>)
    requires Here(p, e, pc, brk, cont, saved, g) && HasAwait(e) && e.While?
    ensures var top := pc + Size(e.cond) + 1; var exit := top + SizeBlock(e.body) + 1;
            && pc + Size(e) == exit + 1 && Own(e) == Own(e.cond) + OwnBlock(e.body)
            && Here(p, e.cond, pc, brk, cont, saved, g) && Is(p, top - 1, BrUnless(exit))
            && HereBlock(p, e.body, top, exit, pc, saved + Bound(e.cond), g)
            && Is(p, exit - 1, Jump(pc)) && Is(p, exit, Clear)
  {
    WhileCode(p, e, pc, brk, cont, saved);
    WhileFits(p, e);
    hide At, Gen, GenBlock, GenArms, Size, SizeBlock, SizeArms, Fits, Own, OwnBlock, OwnArms, Elems, HasAwait;
  }

  lemma AtIf(p: PollFn, pc: nat, pre: seq<Instr>, a: seq<Instr>, mid: Instr, b: seq<Instr>)
    requires At(p.code, pc, pre + a + [mid] + b)
    ensures At(p.code, pc, pre) && At(p.code, pc + |pre|, a) && Is(p, pc + |pre| + |a|, mid)
            && At(p.code, pc + |pre| + |a| + 1, b)
  {
    AtSplit(p.code, pc, pre + a + [mid], b);
    AtSplit(p.code, pc, pre + a, [mid]);
    AtSplit(p.code, pc, pre, a);
    AtIs(p, pc + |pre| + |a|, [mid], 0);
  }

  lemma IfFits(p: PollFn, e: Expr)
    requires e.If? && Fits(p, Bound(e), ScanValue(e), ScanFor(e))
    ensures Fits(p, BoundBlock(e.thn), ScanBlock(e.thn), ScanForBlock(e.thn))
            && Fits(p, Bound(e.els), ScanValue(e.els), ScanFor(e.els))
    ensures OwnBlock(e.thn) <= Own(e) && Own(e.els) <= Own(e)
  {
    FitsSplit(p, Bound(e.cond) + BoundBlock(e.thn), Bound(e.els), ScanBlock(e.thn), ScanValue(e.els),
              ScanForBlock(e.thn), ScanFor(e.els));
  }

  lemma IfCode(p: PollFn, e: Expr, pc: nat, brk: nat, cont: nat, saved: set<LocalId>)
    requires e.If? && HasAwait(e) && Nf(e) && At(p.code, pc, Gen(p.cx, e, pc, brk, cont, saved))
    ensures var other := pc + 2 + SizeBlock(e.thn) + 1;
            && pc + Size(e) == other + Size(e.els) && Is(p, pc, Exec(e.cond, brk, cont))
               && Is(p, pc + 1, BrUnless(other))
            && At(p.code, pc + 2, GenBlock(p.cx, e.thn, pc + 2, brk, cont, saved + Bound(e.cond)))
            && Is(p, other - 1, Jump(other + Size(e.els)))
            && At(p.code, other, Gen(p.cx, e.els, other, brk, cont, saved + Bound(e.cond) + BoundBlock(e.thn)))
  {
    IfGen(p.cx, e, pc, brk, cont, saved);
    hide At, Gen, GenBlock, Size, SizeBlock, HasAwait, Nf, Bound, BoundBlock;
    var other := pc + 2 + SizeBlock(e.thn) + 1;
    var pre := [Exec(e.cond, brk, cont), BrUnless(other)];
    AtIf(p, pc, pre, GenBlock(p.cx, e.thn, pc + 2, brk, cont, saved + Bound(e.cond)), Jump(other + Size(e.els)),
         Gen(p.cx, e.els, other, brk, cont, saved + Bound(e.cond) + BoundBlock(e.thn)));
    AtIs(p, pc, pre, 0);
    AtIs(p, pc, pre, 1);
  }

  lemma IfLayout(p: PollFn, e: Expr, pc: nat, brk: nat, cont: nat, saved: set<LocalId>, g: set<LocalId>)
    requires Here(p, e, pc, brk, cont, saved, g) && HasAwait(e) && e.If?
    ensures var other := pc + 2 + SizeBlock(e.thn) + 1;
            && pc + Size(e) == other + Size(e.els) && OwnBlock(e.thn) <= Own(e) && Own(e.els) <= Own(e)
            && !HasAwait(e.cond) && Scoped(e.cond, g)
            && Is(p, pc, Exec(e.cond, brk, cont)) && Is(p, pc + 1, BrUnless(other))
               && Is(p, other - 1, Jump(other + Size(e.els)))
            && HereBlock(p, e.thn, pc + 2, brk, cont, saved + Bound(e.cond), g)
            && Here(p, e.els, other, brk, cont, saved + Bound(e.cond) + BoundBlock(e.thn), g)
  {
    IfCode(p, e, pc, brk, cont, saved);
    IfFits(p, e);
    hide At, Gen, GenBlock, GenArms, Size, SizeBlock, SizeArms, Fits, Own, OwnBlock, OwnArms, Elems, HasAwait;
  }

  lemma MatchFits(p: PollFn, e: Expr)
    requires e.Match? && Fits(p, Bound(e), ScanValue(e), ScanFor(e)) && !HasAwait(e.scrut)
    ensures Fits(p, BoundArms(e.arms), ScanArms(e.arms), ScanForArms(e.arms)) && Own(e) == OwnArms(e.arms)
  {
  }

  lemma MatchCode(p: PollFn, e: Expr, pc: nat, brk: nat, cont: nat, saved: set<LocalId>)
    requires e.Match? && HasAwait(e) && At(p.code, pc, Gen(p.cx, e, pc, brk, cont, saved))
    ensures var end := pc + 2 + SizeArms(e.arms);
            && pc + Size(e) == end && Is(p, pc, Exec(e.scrut, brk, cont)) && Is(p, pc + 1, Scrut)
            && At(p.code, pc + 2, GenArms(p.cx, e.arms, pc + 2, end, brk, cont, saved + Bound(e.scrut)))
  {
    MatchGen(p.cx, e, pc, brk, cont, saved);
    hide At, Gen, GenArms, Size, SizeArms, HasAwait, Bound;
    var pre := [Exec(e.scrut, brk, cont), Scrut];
    AtSplit(p.code, pc, pre,
            GenArms(p.cx, e.arms, pc + 2, pc + 2 + SizeArms(e.arms), brk, cont, saved + Bound(e.scrut)));
    AtIs(p, pc, pre, 0);
    AtIs(p, pc, pre, 1);
  }

  lemma MatchLayout(p: PollFn, e: Expr, pc: nat, brk: nat, cont: nat, saved: set<LocalId>, g: set<LocalId>)
    requires Here(p, e, pc, brk, cont, saved, g) && HasAwait(e) && e.Match?
    ensures var end := pc + 2 + SizeArms(e.arms);
            && pc + Size(e) == end && Own(e) == OwnArms(e.arms) && !HasAwait(e.scrut) && Scoped(e.scrut, g)
            && Is(p, pc, Exec(e.scrut, brk, cont)) && Is(p, pc + 1, Scrut)
            && HereArms(p, e.arms, pc + 2, end, brk, cont, saved + Bound(e.scrut), g)
  {
    MatchCode(p, e, pc, brk, cont, saved);
    MatchFits(p, e);
    hide At, Gen, GenBlock, GenArms, Size, SizeBlock, SizeArms, Fits, Own, OwnBlock, OwnArms, Elems, HasAwait;
  }

  lemma ArmLayout(p: PollFn, arms: Arms, pc: nat, end: nat, brk: nat, cont: nat, saved: set<LocalId>, g: set<LocalId>)
    requires HereArms(p, arms, pc, end, brk, cont, saved, g) && arms.Arm?
    ensures var next := pc + 1 + Size(arms.arm) + 1; var saved' := saved + PatSet(arms.pat) + Bound(arms.guard);
            && !HasAwait(arms.guard) && Scoped(arms.guard, g + PatSet(arms.pat))
            && Own(arms.arm) <= OwnArms(arms) && OwnArms(arms.rest) <= OwnArms(arms)
            && PatSet(arms.pat) <= Elems(p.cx.locals)
            && Is(p, pc, TryArm(arms.pat, arms.guard, next, brk, cont)) && Is(p, next - 1, Jump(end))
            && Here(p, arms.arm, pc + 1, brk, cont, saved', g + PatSet(arms.pat))
            && HereArms(p, arms.rest, next, end, brk, cont, saved' + Bound(arms.arm), g)
  {
    hide At, Gen, GenArms, Size, SizeArms, Fits, Own, OwnArms, Elems;
    ArmCode(p, arms, pc, end, brk, cont, saved, g);
    ArmFits(p, arms);
  }

  lemma ArmCode(p: PollFn, arms: Arms, pc: nat, end: nat, brk: nat, cont: nat, saved: set<LocalId>, g: set<LocalId>)
    requires HereArms(p, arms, pc, end, brk, cont, saved, g) && arms.Arm?
    ensures var next := pc + 1 + Size(arms.arm) + 1; var saved' := saved + PatSet(arms.pat) + Bound(arms.guard);
            && Is(p, pc, TryArm(arms.pat, arms.guard, next, brk, cont)) && Is(p, next - 1, Jump(end))
            && At(p.code, pc + 1, Gen(p.cx, arms.arm, pc + 1, brk, cont, saved'))
            && At(p.code, next, GenArms(p.cx, arms.rest, next, end, brk, cont, saved' + Bound(arms.arm)))
  {
    ArmGen(p.cx, arms, pc, end, brk, cont, saved);
    hide At, Gen, GenArms, Size, SizeArms, Fits, NfArms, ScopedArms;
    var next := pc + 1 + Size(arms.arm) + 1;
    var saved' := saved + PatSet(arms.pat) + Bound(arms.guard);
    AtFour(p, pc, TryArm(arms.pat, arms.guard, next, brk, cont), Gen(p.cx, arms.arm, pc + 1, brk, cont, saved'),
           Jump(end), GenArms(p.cx, arms.rest, next, end, brk, cont, saved' + Bound(arms.arm)));
  }

  lemma AtFour(p: PollFn, pc: nat, first: Instr, a: seq<Instr>, mid: Instr, b: seq<Instr>)
    requires At(p.code, pc, [first] + a + [mid] + b)
    ensures Is(p, pc, first) && At(p.code, pc + 1, a) && Is(p, pc + 1 + |a|, mid) && At(p.code, pc + 2 + |a|, b)
  {
    AtSplit(p.code, pc, [first] + a + [mid], b);
    AtSplit(p.code, pc, [first] + a, [mid]);
    AtSplit(p.code, pc, [first], a);
    AtIs(p, pc, [first], 0);
    AtIs(p, pc + 1 + |a|, [mid], 0);
  }

  lemma ArmFits(p: PollFn, arms: Arms)
    requires NfArms(arms) && Fits(p, BoundArms(arms), ScanArms(arms), ScanForArms(arms)) && arms.Arm?
    ensures Fits(p, Bound(arms.arm), ScanValue(arms.arm), ScanFor(arms.arm))
    ensures Fits(p, BoundArms(arms.rest), ScanArms(arms.rest), ScanForArms(arms.rest))
    ensures PatSet(arms.pat) <= Elems(p.cx.locals) && Own(arms.arm) <= OwnArms(arms)
            && OwnArms(arms.rest) <= OwnArms(arms)
  {
    FitsSplit(p, PatSet(arms.pat) + Bound(arms.guard) + Bound(arms.arm), BoundArms(arms.rest),
              ScanValue(arms.arm), ScanArms(arms.rest), ScanFor(arms.arm), ScanForArms(arms.rest));
  }

  lemma FitsFor(p: PollFn, e: Expr)
    requires e.For? && Fits(p, Bound(e), ScanValue(e), ScanFor(e)) && (e.driver.AsyncIter? || HasAwaitBlock(e.body))
    ensures Fits(p, BoundBlock(e.body), ScanBlock(e.body), ScanForBlock(e.body)) && PatSet(e.pat) <= Elems(p.cx.locals)
    ensures if e.driver.AsyncIter? then SiteNo(p.cx, e.span) > 0 && Own(e) == OwnBlock(e.body)
            else e.span in p.cx.slots && e.span !in OwnBlock(e.body) && Own(e) == {e.span} + OwnBlock(e.body)
  {
    var sites, loops := if e.driver.AsyncIter? then [e.span] else [], if e.driver.AsyncIter? then [] else [e.span];
    FitsSplit(p, PatSet(e.pat) + Bound(e.iter), BoundBlock(e.body), sites, ScanBlock(e.body), loops,
              ScanForBlock(e.body));
    assert e.span in [e.span];
    assert Elems(loops) == if e.driver.AsyncIter? then {} else {e.span};
  }

  lemma AtThree(p: PollFn, pc: nat, a: seq<Instr>, b: seq<Instr>, c: seq<Instr>)
    requires At(p.code, pc, a + b + c)
    ensures At(p.code, pc, a) && At(p.code, pc + |a|, b) && At(p.code, pc + |a| + |b|, c)
  {
    AtSplit(p.code, pc, a + b, c);
    AtSplit(p.code, pc, a, b);
  }

  lemma ForCode(p: PollFn, e: Expr, pc: nat, brk: nat, cont: nat, saved: set<LocalId>)
    requires e.For?
    requires var q := SlotsOf(p.cx, e.span); var latch := pc + 3 + SizeBlock(e.body);
             var bg := GenBlock(p.cx, e.body, pc + 3, latch + 2, latch, saved + Bound(e.iter) + PatSet(e.pat));
             && At(p.code, pc,
                   [Exec(e.iter, brk, cont), ForSetup(e.driver, q), ForHead(e.driver, e.pat, q, latch + 2, brk, cont)]
                     + bg
                               + [ForLatch(e.driver, q), Jump(pc + 2), Clear])
             && |bg| == SizeBlock(e.body)
    ensures var q := SlotsOf(p.cx, e.span); var latch := pc + 3 + SizeBlock(e.body);
            && Is(p, pc, Exec(e.iter, brk, cont)) && Is(p, pc + 1, ForSetup(e.driver, q))
            && Is(p, pc + 2, ForHead(e.driver, e.pat, q, latch + 2, brk, cont))
            && At(p.code, pc + 3,
                  GenBlock(p.cx, e.body, pc + 3, latch + 2, latch, saved + Bound(e.iter) + PatSet(e.pat)))
            && Is(p, latch, ForLatch(e.driver, q)) && Is(p, latch + 1, Jump(pc + 2)) && Is(p, latch + 2, Clear)
  {
    hide At, GenBlock, SizeBlock, Bound, PatSet, SlotsOf;
    var q := SlotsOf(p.cx, e.span);
    var latch := pc + 3 + SizeBlock(e.body);
    var pre := [Exec(e.iter, brk, cont), ForSetup(e.driver, q), ForHead(e.driver, e.pat, q, latch + 2, brk, cont)];
    var post := [ForLatch(e.driver, q), Jump(pc + 2), Clear];
    AtThree(p, pc, pre, GenBlock(p.cx, e.body, pc + 3, latch + 2, latch, saved + Bound(e.iter) + PatSet(e.pat)), post);
    AtIs(p, pc, pre, 0);
    AtIs(p, pc, pre, 1);
    AtIs(p, pc, pre, 2);
    AtIs(p, latch, post, 0);
    AtIs(p, latch, post, 1);
    AtIs(p, latch, post, 2);
  }

  lemma ForLayout(p: PollFn, e: Expr, pc: nat, brk: nat, cont: nat, saved: set<LocalId>, g: set<LocalId>)
    requires Here(p, e, pc, brk, cont, saved, g) && HasAwait(e) && e.For? && !e.driver.AsyncIter?
    ensures var q := SlotsOf(p.cx, e.span); var latch := pc + 3 + SizeBlock(e.body);
            && pc + Size(e) == latch + 3 && !HasAwait(e.iter) && Scoped(e.iter, g)
            && Is(p, pc, Exec(e.iter, brk, cont)) && Is(p, pc + 1, ForSetup(e.driver, q))
            && Is(p, pc + 2, ForHead(e.driver, e.pat, q, latch + 2, brk, cont))
            && Is(p, latch, ForLatch(e.driver, q)) && Is(p, latch + 1, Jump(pc + 2)) && Is(p, latch + 2, Clear)
            && HereBlock(p, e.body, pc + 3, latch + 2, latch, saved + Bound(e.iter) + PatSet(e.pat), g + PatSet(e.pat))
    ensures e.span in p.cx.slots && e.span !in OwnBlock(e.body) && Own(e) == {e.span} + OwnBlock(e.body)
    ensures PatSet(e.pat) <= Elems(p.cx.locals)
  {
    hide At, Gen, GenBlock, GenArms, Size, SizeBlock, SizeArms, Fits, Own, OwnBlock, OwnArms, Elems;
    hide SlotsOf, Bound, BoundBlock, ScanValue, ScanBlock, ScanFor, ScanForBlock, PatSet;
    ForGen(p.cx, e, pc, brk, cont, saved);
    ForCode(p, e, pc, brk, cont, saved);
    FitsFor(p, e);
    hide HasAwait;
  }

  lemma ForAwaitShape(p: PollFn, e: Expr, pc: nat, brk: nat, cont: nat, saved: set<LocalId>, g: set<LocalId>)
    requires Here(p, e, pc, brk, cont, saved, g) && HasAwait(e) && e.For? && e.driver.AsyncIter?
    ensures e.iter.Local? && e.iter.x in g && NfBlock(e.body) && ScopedBlock(e.body, g + PatSet(e.pat))
    ensures var n, exit := SiteNo(p.cx, e.span), pc + 4 + SizeBlock(e.body) + 1;
            var pre := [NextAsync(e.iter.x, e.driver.next, brk, cont), Suspend(n, saved), Poll(n),
                        TakeItem(e.driver.done, e.pat, exit)];
            var bg := GenBlock(p.cx, e.body, pc + 4, exit, pc, saved + PatSet(e.pat));
            At(p.code, pc, pre + bg + [Jump(pc), Clear]) && |bg| == SizeBlock(e.body) && pc + Size(e) == exit + 1
  {
    var n, exit := SiteNo(p.cx, e.span), pc + 4 + SizeBlock(e.body) + 1;
    var bg := GenBlock(p.cx, e.body, pc + 4, exit, pc, saved + PatSet(e.pat));
    assert e.iter.Local? && Scoped(e.iter, g);
    assert Gen(p.cx, e, pc, brk, cont, saved)
        == [NextAsync(e.iter.x, e.driver.next, brk, cont), Suspend(n, saved), Poll(n),
            TakeItem(e.driver.done, e.pat, exit)]
           + bg + [Jump(pc), Clear] by { hide At, Fits, GenBlock, SizeBlock; }
    GenBlockSize(p.cx, e.body, pc + 4, exit, pc, saved + PatSet(e.pat));
    hide Fits, At, Gen;
  }

  lemma ForAwaitCode(p: PollFn, e: Expr, pc: nat, brk: nat, cont: nat, saved: set<LocalId>)
    requires e.For? && e.driver.AsyncIter? && e.iter.Local?
    requires var n, exit := SiteNo(p.cx, e.span), pc + 4 + SizeBlock(e.body) + 1;
             var pre := [NextAsync(e.iter.x, e.driver.next, brk, cont), Suspend(n, saved), Poll(n),
                         TakeItem(e.driver.done, e.pat, exit)];
             var bg := GenBlock(p.cx, e.body, pc + 4, exit, pc, saved + PatSet(e.pat));
             At(p.code, pc, pre + bg + [Jump(pc), Clear]) && |bg| == SizeBlock(e.body)
    ensures var n, exit := SiteNo(p.cx, e.span), pc + 4 + SizeBlock(e.body) + 1;
            && Is(p, pc, NextAsync(e.iter.x, e.driver.next, brk, cont)) && Is(p, pc + 1, Suspend(n, saved))
            && Is(p, pc + 2, Poll(n)) && Is(p, pc + 3, TakeItem(e.driver.done, e.pat, exit))
            && At(p.code, pc + 4, GenBlock(p.cx, e.body, pc + 4, exit, pc, saved + PatSet(e.pat)))
            && Is(p, exit - 1, Jump(pc)) && Is(p, exit, Clear)
  {
    hide At, GenBlock, SizeBlock, PatSet, SiteNo;
    var n, exit := SiteNo(p.cx, e.span), pc + 4 + SizeBlock(e.body) + 1;
    var pre := [NextAsync(e.iter.x, e.driver.next, brk, cont), Suspend(n, saved), Poll(n),
                TakeItem(e.driver.done, e.pat, exit)];
    var post := [Jump(pc), Clear];
    AtThree(p, pc, pre, GenBlock(p.cx, e.body, pc + 4, exit, pc, saved + PatSet(e.pat)), post);
    AtIs(p, pc, pre, 0);
    AtIs(p, pc, pre, 1);
    AtIs(p, pc, pre, 2);
    AtIs(p, pc, pre, 3);
    AtIs(p, exit - 1, post, 0);
    AtIs(p, exit - 1, post, 1);
  }

  lemma ForAwaitLayout(p: PollFn, e: Expr, pc: nat, brk: nat, cont: nat, saved: set<LocalId>, g: set<LocalId>)
    requires Here(p, e, pc, brk, cont, saved, g) && HasAwait(e) && e.For? && e.driver.AsyncIter?
    ensures e.iter.Local? && e.iter.x in g && SiteNo(p.cx, e.span) > 0
    ensures var n := SiteNo(p.cx, e.span); var exit := pc + 4 + SizeBlock(e.body) + 1;
            && pc + Size(e) == exit + 1
            && Is(p, pc, NextAsync(e.iter.x, e.driver.next, brk, cont)) && Is(p, pc + 1, Suspend(n, saved))
            && Is(p, pc + 2, Poll(n)) && Is(p, pc + 3, TakeItem(e.driver.done, e.pat, exit))
            && Is(p, exit - 1, Jump(pc)) && Is(p, exit, Clear)
            && HereBlock(p, e.body, pc + 4, exit, pc, saved + PatSet(e.pat), g + PatSet(e.pat))
    ensures Own(e) == OwnBlock(e.body) && PatSet(e.pat) <= Elems(p.cx.locals)
  {
    ForAwaitShape(p, e, pc, brk, cont, saved, g);
    ForAwaitCode(p, e, pc, brk, cont, saved);
    FitsFor(p, e);
    hide At, Gen, GenBlock, GenArms, Size, SizeBlock, SizeArms, Fits, Own, OwnBlock, OwnArms, Elems, HasAwait;
    hide SiteNo, Scoped, ScopedBlock, Nf, NfBlock;
  }

  lemma StmtLayout(p: PollFn, st: Stmt, pc: nat, brk: nat, cont: nat, saved: set<LocalId>, g: set<LocalId>)
    requires HereStmt(p, st, pc, brk, cont, saved, g) && !st.ExprStmt?
    ensures var e := if st.Let? then st.init else st.value;
            && Here(p, e, pc, brk, cont, saved, g) && Own(e) == Elems(ScanForStmt(st)) && SizeStmt(st) == Size(e) + 1
            && Is(p, pc + Size(e), if st.Let? then BindTo(st.pat) else StoreTo(st.target, brk, cont))
            && (st.Let? ==> PatSet(st.pat) <= Elems(p.cx.locals))
            && (st.Assign? ==> !HasAwait(st.target) && Scoped(st.target, g))
  {
    var e := if st.Let? then st.init else st.value;
    var last := [if st.Let? then BindTo(st.pat) else StoreTo(st.target, brk, cont)];
    GenSize(p.cx, e, pc, brk, cont, saved);
    AtSplit(p.code, pc, Gen(p.cx, e, pc, brk, cont, saved), last);
    AtIs(p, pc + Size(e), last, 0);
  }

  lemma BlockLayout(p: PollFn, b: Block, pc: nat, brk: nat, cont: nat, saved: set<LocalId>, g: set<LocalId>)
    requires HereBlock(p, b, pc, brk, cont, saved, g) && b.Then?
    ensures HereStmt(p, b.s, pc, brk, cont, saved, g)
    ensures Elems(ScanForStmt(b.s)) <= OwnBlock(b) && OwnBlock(b.rest) <= OwnBlock(b)
    ensures !TermStmt(b.s) ==>
              && HereBlock(p, b.rest, pc + SizeStmt(b.s), brk, cont, saved + BoundStmt(b.s), ScopeAfter(b.s, g))
              && SizeBlock(b) == SizeStmt(b.s) + SizeBlock(b.rest)
    ensures b.s.Let? ==> PatSet(b.s.pat) <= Elems(p.cx.locals)
  {
    var sg := GenStmt(p.cx, b.s, pc, brk, cont, saved);
    var rg := if TermStmt(b.s) then []
        else GenBlock(p.cx, b.rest, pc + SizeStmt(b.s), brk, cont, saved + BoundStmt(b.s));
    GenStmtSize(p.cx, b.s, pc, brk, cont, saved);
    AtSplit(p.code, pc, sg, rg);
    FitsSplit(p, BoundStmt(b.s), BoundBlock(b.rest), ScanStmt(b.s), ScanBlock(b.rest), ScanForStmt(b.s),
              ScanForBlock(b.rest));
  }

  // -- the induction -----------------------------------------------------------------------

  /** The code of an expression simulates its evaluation. */
  lemma {:induction false} SimExpr(p: PollFn, e: Expr, pc: nat, brk: nat, cont: nat, saved: set<LocalId>,
                                   g: set<LocalId>, s: State, f: Frame, sh: Shared, fuel: nat) returns (k: nat)
    requires Ready0(p, g, saved, s, f, sh, fuel) && Here(p, e, pc, brk, cont, saved, g)
    requires Proper(Eval(p.pr, e, s, fuel).ctl)
    ensures Arrives(p, Run(p, Running(pc, f, sh), k), Eval(p.pr, e, s, fuel), pc + Size(e), brk, cont, g, Own(e), sh)
    decreases fuel, e, 1
  {
    hide Run, Keeps, AgreeOn, Sound, At, Fits;
    if !HasAwait(e) {
      k := SimAtom(p, e, pc, brk, cont, saved, g, s, f, sh, fuel);
    } else {
      match e
      case Await(_, _) => k := SimAwait(p, e, pc, brk, cont, saved, g, s, f, sh, fuel);
      case Adjust(_, _) => k := SimAdjust(p, e, pc, brk, cont, saved, g, s, f, sh, fuel);
      case Return(_) => k := SimReturn(p, e, pc, brk, cont, saved, g, s, f, sh, fuel);
      case Break(_) => k := SimBreak(p, e, pc, brk, cont, saved, g, s, f, sh, fuel);
      case Logic(_, _, _) => k := SimLogic(p, e, pc, brk, cont, saved, g, s, f, sh, fuel);
      case BlockExpr(b) => k := SimBlock(p, b, pc, brk, cont, saved, g, s, f, sh, fuel);
      case Loop(_) => k := SimLoop(p, e, pc, brk, cont, saved, g, s, f, sh, fuel);
      case While(_, _) => k := SimWhile(p, e, pc, brk, cont, saved, g, s, f, sh, fuel);
      case For(_, _, _, _, d) =>
        if d.AsyncIter? {
          k := SimForAwait(p, e, pc, brk, cont, saved, g, s, f, sh, fuel);
        } else {
          k := SimFor(p, e, pc, brk, cont, saved, g, s, f, sh, fuel);
        }
      case If(_, _, _) => k := SimIf(p, e, pc, brk, cont, saved, g, s, f, sh, fuel);
      case Match(_, _) => k := SimMatch(p, e, pc, brk, cont, saved, g, s, f, sh, fuel);
    }
  }

  lemma {:induction false} SimAtom(p: PollFn, e: Expr, pc: nat, brk: nat, cont: nat, saved: set<LocalId>,
                                   g: set<LocalId>, s: State, f: Frame, sh: Shared, fuel: nat) returns (k: nat)
    requires Ready0(p, g, saved, s, f, sh, fuel) && Here(p, e, pc, brk, cont, saved, g)
    requires Proper(Eval(p.pr, e, s, fuel).ctl)
    requires !HasAwait(e)
    ensures Arrives(p, Run(p, Running(pc, f, sh), k), Eval(p.pr, e, s, fuel), pc + Size(e), brk, cont, g, Own(e), sh)
    decreases fuel, e, 0
  {
    hide Eval, Run, Keeps, AgreeOn, Sound, Fits, Scoped;
    AtIs(p, pc, [Exec(e, brk, cont)], 0);
    AtomRun(p, e, pc, brk, cont, g, s, f, sh, fuel);
    k := 1;
    KeepsRefl(p, sh);
    Weaken(p, Run(p, Running(pc, f, sh), 1), Eval(p.pr, e, s, fuel), pc + 1, brk, cont, g, Own(e), sh, g, {}, sh, {});
  }

  lemma {:induction false} SimAwait(p: PollFn, e: Expr, pc: nat, brk: nat, cont: nat, saved: set<LocalId>,
                                    g: set<LocalId>, s: State, f: Frame, sh: Shared, fuel: nat) returns (k: nat)
    requires Ready0(p, g, saved, s, f, sh, fuel) && Here(p, e, pc, brk, cont, saved, g)
    requires Proper(Eval(p.pr, e, s, fuel).ctl)
    requires HasAwait(e) && e.Await?
    ensures Arrives(p, Run(p, Running(pc, f, sh), k), Eval(p.pr, e, s, fuel), pc + Size(e), brk, cont, g, Own(e), sh)
    decreases fuel, e, 0
  {
    hide Here, HereBlock, HereStmt, HereArms, Size, SizeBlock, SizeArms, SizeStmt, HasAwait, Own, OwnBlock, Keeps, Run,
         Sound, AgreeOn;
    hide Elems, Bound, BoundBlock, SameWorld, StepInstr, StepConfig, SiteNo, Is, EvalBlock, EvalArms, EvalFor, EvalArgs;
    AwaitLayout(p, e, pc, brk, cont, saved, g);
    var c := Running(pc, f, sh);
    AtomRun(p, e.fut, pc, brk, cont, g, s, f, sh, fuel);
    var r := Eval(p.pr, e.fut, s, fuel);
    k := 1;
    if r.ctl.Normal? {
      var c1 := Run(p, c, 1);
      var j := AwaitRun(p, pc + 1, SiteNo(p.cx, e.span), saved + Bound(e.fut), c1.f, c1.sh, g, r.s, brk, cont);
      RunAdd(p, c, 1, j);
      k := 1 + j;
      Weaken(p, Run(p, c, k), DoAwait(r.ctl.v, r.s), pc + 3, brk, cont, g, Own(e), sh, g, {}, c1.sh, {});
    } else {
      KeepsRefl(p, sh);
      Weaken(p, Run(p, c, 1), r, pc + 1, brk, cont, g, Own(e), sh, g, {}, sh, {});
    }
  }

  lemma {:induction false} SimAdjust(p: PollFn, e: Expr, pc: nat, brk: nat, cont: nat, saved: set<LocalId>,
                                     g: set<LocalId>, s: State, f: Frame, sh: Shared, fuel: nat) returns (k: nat)
    requires Ready0(p, g, saved, s, f, sh, fuel) && Here(p, e, pc, brk, cont, saved, g)
    requires Proper(Eval(p.pr, e, s, fuel).ctl)
    requires HasAwait(e) && e.Adjust?
    ensures Arrives(p, Run(p, Running(pc, f, sh), k), Eval(p.pr, e, s, fuel), pc + Size(e), brk, cont, g, Own(e), sh)
    decreases fuel, e, 0
  {
    hide Here, HereBlock, HereStmt, HereArms, Size, SizeBlock, SizeArms, SizeStmt, HasAwait, Own, OwnBlock, Keeps, Run,
         Sound, AgreeOn;
    WrapLayout(p, e, pc, brk, cont, saved, g);
    k := SimExpr(p, e.inner, pc, brk, cont, saved, g, s, f, sh, fuel);
    if Eval(p.pr, e.inner, s, fuel).ctl.Normal? {
      OneStep(p, Running(pc, f, sh), k);
      k := k + 1;
    }
  }

  lemma {:induction false} SimReturn(p: PollFn, e: Expr, pc: nat, brk: nat, cont: nat, saved: set<LocalId>,
                                     g: set<LocalId>, s: State, f: Frame, sh: Shared, fuel: nat) returns (k: nat)
    requires Ready0(p, g, saved, s, f, sh, fuel) && Here(p, e, pc, brk, cont, saved, g)
    requires Proper(Eval(p.pr, e, s, fuel).ctl)
    requires HasAwait(e) && e.Return?
    ensures Arrives(p, Run(p, Running(pc, f, sh), k), Eval(p.pr, e, s, fuel), pc + Size(e), brk, cont, g, Own(e), sh)
    decreases fuel, e, 0
  {
    hide Here, HereBlock, HereStmt, HereArms, Size, SizeBlock, SizeArms, SizeStmt, HasAwait, Own, OwnBlock, Keeps, Run,
         Sound, AgreeOn;
    WrapLayout(p, e, pc, brk, cont, saved, g);
    k := SimExpr(p, e.value, pc, brk, cont, saved, g, s, f, sh, fuel);
    if Eval(p.pr, e.value, s, fuel).ctl.Normal? {
      OneStep(p, Running(pc, f, sh), k);
      k := k + 1;
    }
  }

  lemma {:induction false} SimBreak(p: PollFn, e: Expr, pc: nat, brk: nat, cont: nat, saved: set<LocalId>,
                                    g: set<LocalId>, s: State, f: Frame, sh: Shared, fuel: nat) returns (k: nat)
    requires Ready0(p, g, saved, s, f, sh, fuel) && Here(p, e, pc, brk, cont, saved, g)
    requires Proper(Eval(p.pr, e, s, fuel).ctl)
    requires HasAwait(e) && e.Break?
    ensures Arrives(p, Run(p, Running(pc, f, sh), k), Eval(p.pr, e, s, fuel), pc + Size(e), brk, cont, g, Own(e), sh)
    decreases fuel, e, 0
  {
    hide Here, HereBlock, HereStmt, HereArms, Size, SizeBlock, SizeArms, SizeStmt, HasAwait, Own, OwnBlock, Keeps, Run,
         Sound, AgreeOn;
    WrapLayout(p, e, pc, brk, cont, saved, g);
    k := SimExpr(p, e.value, pc, brk, cont, saved, g, s, f, sh, fuel);
    if Eval(p.pr, e.value, s, fuel).ctl.Normal? {
      OneStep(p, Running(pc, f, sh), k);
      k := k + 1;
    }
  }

  lemma {:induction false} SimLogic(p: PollFn, e: Expr, pc: nat, brk: nat, cont: nat, saved: set<LocalId>,
                                    g: set<LocalId>, s: State, f: Frame, sh: Shared, fuel: nat) returns (k: nat)
    requires Ready0(p, g, saved, s, f, sh, fuel) && Here(p, e, pc, brk, cont, saved, g)
    requires Proper(Eval(p.pr, e, s, fuel).ctl)
    requires HasAwait(e) && e.Logic?
    ensures Arrives(p, Run(p, Running(pc, f, sh), k), Eval(p.pr, e, s, fuel), pc + Size(e), brk, cont, g, Own(e), sh)
    decreases fuel, e, 0
  {
    hide Here, HereBlock, HereStmt, HereArms, Size, SizeBlock, SizeArms, SizeStmt, HasAwait, Own, OwnBlock, Keeps, Run,
         Sound, AgreeOn;
    hide Elems, Bound, BoundBlock, SameWorld;
    LogicLayout(p, e, pc, brk, cont, saved, g);
    var c := Running(pc, f, sh);
    AtomRun(p, e.left, pc, brk, cont, g, s, f, sh, fuel);
    var r := Eval(p.pr, e.left, s, fuel);
    k := 1;
    if r.ctl.Normal? {
      OneStep(p, c, 1);
      k := 2;
      var c2 := Run(p, c, 2);
      if Truthy(r.ctl.v) == e.isAnd {
        var j := SimExpr(p, e.right, pc + 2, brk, cont, saved + Bound(e.left), g, r.s, c2.f, c2.sh, fuel);
        RunAdd(p, c, 2, j);
        k := 2 + j;
        Weaken(p, Run(p, c, k), Eval(p.pr, e.right, r.s, fuel), pc + Size(e), brk, cont, g, Own(e), sh, g, {}, c2.sh,
               Own(e.right));
      } else {
        Weaken(p, c2, r, pc + Size(e), brk, cont, g, Own(e), sh, g, {}, c2.sh, {});
      }
    } else {
      Weaken(p, Run(p, c, 1), r, pc + 1, brk, cont, g, Own(e), sh, g, {}, sh, {});
    }
  }

  lemma {:induction false} SimLoop(p: PollFn, e: Expr, pc: nat, brk: nat, cont: nat, saved: set<LocalId>,
                                   g: set<LocalId>, s: State, f: Frame, sh: Shared, fuel: nat) returns (k: nat)
    requires Ready0(p, g, saved, s, f, sh, fuel) && Here(p, e, pc, brk, cont, saved, g)
    requires Proper(Eval(p.pr, e, s, fuel).ctl)
    requires HasAwait(e) && e.Loop?
    ensures Arrives(p, Run(p, Running(pc, f, sh), k), Eval(p.pr, e, s, fuel), pc + Size(e), brk, cont, g, Own(e), sh)
    decreases fuel, e, 0
  {
    hide Here, HereBlock, HereStmt, HereArms, Size, SizeBlock, SizeArms, SizeStmt, HasAwait, Own, OwnBlock, Keeps, Run,
         Sound, AgreeOn;
    LoopLayout(p, e, pc, brk, cont, saved, g);
    var exit := pc + SizeBlock(e.body) + 1;
    var c := Running(pc, f, sh);
    k := SimBlock(p, e.body, pc, exit, pc, saved, g, s, f, sh, fuel);
    var r := EvalBlock(p.pr, e.body, s, fuel);
    if r.ctl.Normal? || r.ctl.Cont? {
      if r.ctl.Normal? {
        OneStep(p, c, k);
        k := k + 1;
      }
      var c1 := Run(p, c, k);
      var j := SimExpr(p, e, pc, brk, cont, saved, g, r.s, c1.f, c1.sh, fuel - 1);
      RunAdd(p, c, k, j);
      k := k + j;
      Weaken(p, Run(p, c, k), Eval(p.pr, e, r.s, fuel - 1), exit, brk, cont, g, Own(e), sh, g, Own(e), c1.sh, Own(e));
    }
  }

  lemma {:induction false} SimWhile(p: PollFn, e: Expr, pc: nat, brk: nat, cont: nat, saved: set<LocalId>,
                                    g: set<LocalId>, s: State, f: Frame, sh: Shared, fuel: nat) returns (k: nat)
    requires Ready0(p, g, saved, s, f, sh, fuel) && Here(p, e, pc, brk, cont, saved, g)
    requires Proper(Eval(p.pr, e, s, fuel).ctl)
    requires HasAwait(e) && e.While?
    ensures Arrives(p, Run(p, Running(pc, f, sh), k), Eval(p.pr, e, s, fuel), pc + Size(e), brk, cont, g, Own(e), sh)
    decreases fuel, e, 0
  {
    hide Here, HereBlock, HereStmt, HereArms, Size, SizeBlock, SizeArms, SizeStmt, HasAwait, Own, OwnBlock, Keeps, Run,
         Sound, AgreeOn;
    hide Elems, Bound, BoundBlock, EvalBlock, SameWorld;
    WhileLayout(p, e, pc, brk, cont, saved, g);
    var c := Running(pc, f, sh);
    k := SimExpr(p, e.cond, pc, brk, cont, saved, g, s, f, sh, fuel);
    var q := Eval(p.pr, e.cond, s, fuel);
    KeepsRefl(p, sh);
    if !q.ctl.Normal? {
      Weaken(p, Run(p, c, k), q, pc + Size(e.cond), brk, cont, g, Own(e), sh, g, {}, sh, Own(e.cond));
    } else {
      OneStep(p, c, k);
      k := k + 1;
      var c1 := Run(p, c, k);
      if !Truthy(q.ctl.v) {
        OneStep(p, c, k);
        k := k + 1;
        KeepsRefl(p, c1.sh);
        Weaken(p, Run(p, c, k), Out(Normal(Nil), q.s), pc + Size(e), brk, cont, g, Own(e), sh, g, Own(e.cond), c1.sh,
               {});
      } else {
        var j := WhileBody(p, e, pc, brk, cont, saved, g, q.s, c1.f, c1.sh, fuel);
        RunAdd(p, c, k, j);
        k := k + j;
        Weaken(p, Run(p, c, k), AfterCond(p.pr, e, q.s, fuel), pc + Size(e), brk, cont, g, Own(e), sh, g, Own(e.cond),
               c1.sh, Own(e));
      }
    }
  }

  /** The outcome of a `while` once its condition held. */
  function AfterCond(pr: Program, e: Expr, s: State, fuel: nat): Out
    requires e.While?
  {
    var r := EvalBlock(pr, e.body, s, fuel);
    if r.ctl.Brk? then Out(Normal(Nil), r.s)
    else if !r.ctl.Normal? && !r.ctl.Cont? then r
    else if fuel == 0 then Out(Timeout, r.s)
    else Eval(pr, e, r.s, fuel - 1)
  }

  lemma {:induction false} WhileBody(p: PollFn, e: Expr, pc: nat, brk: nat, cont: nat, saved: set<LocalId>,
                                     g: set<LocalId>, s: State, f: Frame, sh: Shared, fuel: nat) returns (k: nat)
    requires Ready0(p, g, saved, s, f, sh, fuel) && Here(p, e, pc, brk, cont, saved, g)
    requires HasAwait(e) && e.While? && Proper(AfterCond(p.pr, e, s, fuel).ctl)
    ensures Arrives(p, Run(p, Running(pc + Size(e.cond) + 1, f, sh), k), AfterCond(p.pr, e, s, fuel),
                    pc + Size(e), brk, cont, g, Own(e), sh)
    decreases fuel, e, -2
  {
    hide Here, HereBlock, HereStmt, HereArms, Size, SizeBlock, SizeArms, SizeStmt, HasAwait, Own, OwnBlock, Keeps, Run,
         Sound, AgreeOn;
    hide Eval;
    WhileLayout(p, e, pc, brk, cont, saved, g);
    var top := pc + Size(e.cond) + 1;
    var exit := top + SizeBlock(e.body) + 1;
    var c := Running(top, f, sh);
    k := SimBlock(p, e.body, top, exit, pc, saved + Bound(e.cond), g, s, f, sh, fuel);
    var r := EvalBlock(p.pr, e.body, s, fuel);
    KeepsRefl(p, sh);
    if r.ctl.Brk? {
      OneStep(p, c, k);
      k := k + 1;
      Weaken(p, Run(p, c, k), Out(Normal(Nil), r.s), pc + Size(e), brk, cont, g, Own(e), sh, g, {}, sh,
             OwnBlock(e.body));
    } else if r.ctl.Normal? || r.ctl.Cont? {
      if r.ctl.Normal? {
        OneStep(p, c, k);
        k := k + 1;
      }
      var c1 := Run(p, c, k);
      var j := SimExpr(p, e, pc, brk, cont, saved, g, r.s, c1.f, c1.sh, fuel - 1);
      RunAdd(p, c, k, j);
      k := k + j;
      Weaken(p, Run(p, c, k), Eval(p.pr, e, r.s, fuel - 1), pc + Size(e), brk, cont, g, Own(e), sh, g, OwnBlock(e.body),
             c1.sh, Own(e));
    } else {
      Weaken(p, Run(p, c, k), r, pc + Size(e), brk, cont, g, Own(e), sh, g, {}, sh, OwnBlock(e.body));
    }
  }

  lemma IfEval(pr: Program, e: Expr, s: State, fuel: nat)
    requires e.If?
    ensures var r := Eval(pr, e.cond, s, fuel);
            Eval(pr, e, s, fuel) ==
            if !r.ctl.Normal? then r
            else if Truthy(r.ctl.v) then EvalBlock(pr, e.thn, r.s, fuel) else Eval(pr, e.els, r.s, fuel)
  {
  }

  lemma {:induction false} SimIf(p: PollFn, e: Expr, pc: nat, brk: nat, cont: nat, saved: set<LocalId>, g: set<LocalId>,
                                   s: State, f: Frame, sh: Shared, fuel: nat) returns (k: nat)
    requires Ready0(p, g, saved, s, f, sh, fuel) && Here(p, e, pc, brk, cont, saved, g)
    requires Proper(Eval(p.pr, e, s, fuel).ctl)
    requires HasAwait(e) && e.If?
    ensures Arrives(p, Run(p, Running(pc, f, sh), k), Eval(p.pr, e, s, fuel), pc + Size(e), brk, cont, g, Own(e), sh)
    decreases fuel, e, 0
  {
    hide Here, HereBlock, HereStmt, HereArms, Size, SizeBlock, SizeArms, SizeStmt, HasAwait, Own, OwnBlock, Keeps, Run,
         Sound, AgreeOn;
    hide Elems, Bound, BoundBlock, EvalBlock, SameWorld;
    hide Eval;
    IfEval(p.pr, e, s, fuel);
    IfLayout(p, e, pc, brk, cont, saved, g);
    var other := pc + 2 + SizeBlock(e.thn) + 1;
    var c := Running(pc, f, sh);
    AtomRun(p, e.cond, pc, brk, cont, g, s, f, sh, fuel);
    var r := Eval(p.pr, e.cond, s, fuel);
    k := 1;
    if r.ctl.Normal? {
      OneStep(p, c, 1);
      k := 2;
      var c2 := Run(p, c, 2);
      if Truthy(r.ctl.v) {
        var j := SimBlock(p, e.thn, pc + 2, brk, cont, saved + Bound(e.cond), g, r.s, c2.f, c2.sh, fuel);
        RunAdd(p, c, 2, j);
        k := 2 + j;
        if EvalBlock(p.pr, e.thn, r.s, fuel).ctl.Normal? {
          OneStep(p, c, k);
          k := k + 1;
        }
        Weaken(p, Run(p, c, k), EvalBlock(p.pr, e.thn, r.s, fuel), pc + Size(e), brk, cont, g, Own(e), sh, g, {}, c2.sh,
               OwnBlock(e.thn));
      } else {
        var j := SimExpr(p, e.els, other, brk, cont, saved + Bound(e.cond) + BoundBlock(e.thn), g, r.s, c2.f, c2.sh,
                         fuel);
        RunAdd(p, c, 2, j);
        k := 2 + j;
        Weaken(p, Run(p, c, k), Eval(p.pr, e.els, r.s, fuel), pc + Size(e), brk, cont, g, Own(e), sh, g, {}, c2.sh,
               Own(e.els));
      }
    } else {
      KeepsRefl(p, sh);
      Weaken(p, Run(p, c, 1), r, pc + 1, brk, cont, g, Own(e), sh, g, {}, sh, {});
    }
  }

  lemma {:induction false} SimMatch(p: PollFn, e: Expr, pc: nat, brk: nat, cont: nat, saved: set<LocalId>,
                                    g: set<LocalId>, s: State, f: Frame, sh: Shared, fuel: nat) returns (k: nat)
    requires Ready0(p, g, saved, s, f, sh, fuel) && Here(p, e, pc, brk, cont, saved, g)
    requires Proper(Eval(p.pr, e, s, fuel).ctl)
    requires HasAwait(e) && e.Match?
    ensures Arrives(p, Run(p, Running(pc, f, sh), k), Eval(p.pr, e, s, fuel), pc + Size(e), brk, cont, g, Own(e), sh)
    decreases fuel, e, 0
  {
    hide Here, HereBlock, HereStmt, HereArms, Size, SizeBlock, SizeArms, SizeStmt, HasAwait, Own, OwnBlock, Keeps, Run,
         Sound, AgreeOn;
    MatchLayout(p, e, pc, brk, cont, saved, g);
    var end := pc + 2 + SizeArms(e.arms);
    var c := Running(pc, f, sh);
    AtomRun(p, e.scrut, pc, brk, cont, g, s, f, sh, fuel);
    var r := Eval(p.pr, e.scrut, s, fuel);
    k := 1;
    if r.ctl.Normal? {
      OneStep(p, c, 1);
      var c2 := Run(p, c, 2);
      var j := SimArms(p, e.arms, r.ctl.v, pc + 2, end, brk, cont, saved + Bound(e.scrut), g, r.s, c2.f, c2.sh, fuel);
      RunAdd(p, c, 2, j);
      k := 2 + j;
      Weaken(p, Run(p, c, k), EvalArms(p.pr, e.arms, r.ctl.v, r.s, fuel), end, brk, cont, g, Own(e), sh, g, {}, c2.sh,
             Own(e));
    } else {
      KeepsRefl(p, sh);
      Weaken(p, Run(p, c, 1), r, pc + 1, brk, cont, g, Own(e), sh, g, {}, sh, {});
    }
  }

  lemma {:induction false} SimArms(p: PollFn, arms: Arms, v: Value, pc: nat, end: nat, brk: nat, cont: nat,
                                   saved: set<LocalId>, g: set<LocalId>, s: State, f: Frame, sh: Shared,
                                     fuel: nat) returns (k: nat)
    requires Ready0(p, g, saved, s, f, sh, fuel) && HereArms(p, arms, pc, end, brk, cont, saved, g)
    requires f.scrut == v && Proper(EvalArms(p.pr, arms, v, s, fuel).ctl)
    ensures Arrives(p, Run(p, Running(pc, f, sh), k), EvalArms(p.pr, arms, v, s, fuel), end, brk, cont, g,
                    OwnArms(arms), sh)
    decreases fuel, arms, 0
  {
    hide Here, HereBlock, HereStmt, HereArms, Size, SizeBlock, SizeArms, SizeStmt, HasAwait, Own, OwnBlock, Keeps, Run,
         Sound, AgreeOn;
    hide OwnArms, Eval;
    if arms.NoArms? {
      assert false;
    } else if !Matches(arms.pat, v) {
      ArmLayout(p, arms, pc, end, brk, cont, saved, g);
      var next := pc + 1 + Size(arms.arm) + 1;
      var saved' := saved + PatSet(arms.pat) + Bound(arms.guard);
      var c := Running(pc, f, sh);
      OneStep0(p, c);
      var j := SimArms(p, arms.rest, v, next, end, brk, cont, saved' + Bound(arms.arm), g, s, f, sh, fuel);
      RunAdd(p, c, 1, j);
      k := 1 + j;
      KeepsRefl(p, sh);
      Weaken(p, Run(p, c, k), EvalArms(p.pr, arms.rest, v, s, fuel), end, brk, cont, g, OwnArms(arms), sh, g, {}, sh,
             OwnArms(arms.rest));
    } else {
      k := ArmRun(p, arms, v, pc, end, brk, cont, saved, g, s, f, sh, fuel);
    }
  }

  /** Testing an arm whose pattern matches: bind, then run the guard. */
  lemma GuardRun(p: PollFn, arms: Arms, v: Value, pc: nat, next: nat, brk: nat, cont: nat, g: set<LocalId>,
                 s: State, s1: State, f: Frame, sh: Shared, fuel: nat)
    requires Sound(p) && Rel(g, s, f, sh) && fuel <= p.fuel
    requires arms.Arm? && !HasAwait(arms.guard) && Scoped(arms.guard, g + PatSet(arms.pat))
    requires f.scrut == v && Matches(arms.pat, v) && Is(p, pc, TryArm(arms.pat, arms.guard, next, brk, cont))
    requires BindPat(s.env, s.mem, arms.pat, v).Some? && s1 == s.(env := BindPat(s.env, s.mem, arms.pat, v).value)
    requires Proper(Eval(p.pr, arms.guard, s1, fuel).ctl)
    ensures var q := Eval(p.pr, arms.guard, s1, fuel);
            var to := if q.ctl.Normal? && Truthy(q.ctl.v) then pc + 1 else next;
            var c := Run(p, Running(pc, f, sh), 1);
            Arrives(p, c, q, to, brk, cont, g + PatSet(arms.pat), {}, sh) && (c.Running? ==> c.f.scrut == v)
  {
    BindAgree(g, s.env, f.env, s.mem, arms.pat, v);
    var f1 := f.(env := BindPat(f.env, sh.mem, arms.pat, v).value);
    EvalAlike(p.pr, arms.guard, s1, AsState(f1, sh), g + PatSet(arms.pat), fuel, p.fuel);
    OneStep0(p, Running(pc, f, sh));
  }

  lemma {:induction false} ArmRun(p: PollFn, arms: Arms, v: Value, pc: nat, end: nat, brk: nat, cont: nat,
                                  saved: set<LocalId>, g: set<LocalId>, s: State, f: Frame, sh: Shared,
                                    fuel: nat) returns (k: nat)
    requires Ready0(p, g, saved, s, f, sh, fuel) && arms.Arm? && HereArms(p, arms, pc, end, brk, cont, saved, g)
    requires f.scrut == v && Matches(arms.pat, v) && Proper(EvalArms(p.pr, arms, v, s, fuel).ctl)
    ensures Arrives(p, Run(p, Running(pc, f, sh), k), EvalArms(p.pr, arms, v, s, fuel), end, brk, cont, g,
                    OwnArms(arms), sh)
    decreases fuel, arms, -1
  {
    hide Here, HereBlock, HereStmt, HereArms, Size, SizeBlock, SizeArms, SizeStmt, HasAwait, Own, OwnBlock, Keeps, Run,
         Sound, AgreeOn;
    hide OwnArms, Eval, BindPat, Elems, PatSet, Bound, SameWorld;
    ArmLayout(p, arms, pc, end, brk, cont, saved, g);
    var next := pc + 1 + Size(arms.arm) + 1;
    var saved' := saved + PatSet(arms.pat) + Bound(arms.guard);
    var g' := g + PatSet(arms.pat);
    var c := Running(pc, f, sh);
    var s1 := s.(env := BindPat(s.env, s.mem, arms.pat, v).value);
    GuardRun(p, arms, v, pc, next, brk, cont, g, s, s1, f, sh, fuel);
    var q := Eval(p.pr, arms.guard, s1, fuel);
    k := 1;
    var c1 := Run(p, c, 1);
    if q.ctl.Normal? {
      RelWeaken(g, g', q.s, c1.f, c1.sh);
      if Truthy(q.ctl.v) {
        var j := SimExpr(p, arms.arm, pc + 1, brk, cont, saved', g', q.s, c1.f, c1.sh, fuel);
        RunAdd(p, c, 1, j);
        k := 1 + j;
        if Eval(p.pr, arms.arm, q.s, fuel).ctl.Normal? {
          OneStep(p, c, k);
          k := k + 1;
        }
        Weaken(p, Run(p, c, k), Eval(p.pr, arms.arm, q.s, fuel), end, brk, cont, g, OwnArms(arms), sh, g', {}, c1.sh,
               Own(arms.arm));
      } else {
        var j := SimArms(p, arms.rest, v, next, end, brk, cont, saved' + Bound(arms.arm), g, q.s, c1.f, c1.sh, fuel);
        RunAdd(p, c, 1, j);
        k := 1 + j;
        Weaken(p, Run(p, c, k), EvalArms(p.pr, arms.rest, v, q.s, fuel), end, brk, cont, g, OwnArms(arms), sh, g, {},
               c1.sh, OwnArms(arms.rest));
      }
    } else {
      KeepsRefl(p, sh);
      Weaken(p, c1, q, end, brk, cont, g, OwnArms(arms), sh, g', {}, sh, {});
    }
  }

  /** A statement ends where the next one starts, with its bindings in scope. */
  predicate StmtArrives(p: PollFn, c: Config, r: Out, next: nat, brk: nat, cont: nat, g: set<LocalId>,
                        after: set<LocalId>, own: set<Span>, from: Shared)
  {
    if r.ctl.Normal? then c.Running? && c.pc == next && Rel(after, r.s, c.f, c.sh) && Keeps(p, own, from, c.sh)
    else Arrives(p, c, r, next, brk, cont, g, own, from)
  }

  lemma {:induction false} SimStmt(p: PollFn, st: Stmt, pc: nat, brk: nat, cont: nat, saved: set<LocalId>,
                                   g: set<LocalId>, s: State, f: Frame, sh: Shared, fuel: nat) returns (k: nat)
    requires Ready0(p, g, saved, s, f, sh, fuel) && HereStmt(p, st, pc, brk, cont, saved, g)
    requires Proper(EvalStmt(p.pr, st, s, fuel).ctl)
    ensures StmtArrives(p, Run(p, Running(pc, f, sh), k), EvalStmt(p.pr, st, s, fuel), pc + SizeStmt(st), brk, cont, g,
                        ScopeAfter(st, g), Elems(ScanForStmt(st)), sh)
    decreases fuel, st, 0
  {
    if st.ExprStmt? {
      hide Here, Run, Keeps, AgreeOn, Sound, Eval, Own;
      SubHere(p, st, pc, brk, cont, saved, g);
      k := SimExpr(p, st.e, pc, brk, cont, saved, g, s, f, sh, fuel);
    } else {
      hide Here, HereBlock, HereStmt, HereArms, Size, SizeBlock, SizeArms, SizeStmt, HasAwait, Own, OwnBlock, Keeps,
           Run, Sound, AgreeOn;
      hide Eval;
      StmtLayout(p, st, pc, brk, cont, saved, g);
      var e := if st.Let? then st.init else st.value;
      k := SimExpr(p, e, pc, brk, cont, saved, g, s, f, sh, fuel);
      var r := Eval(p.pr, e, s, fuel);
      if r.ctl.Normal? {
        FinishStmt(p, st, pc, brk, cont, g, s, f, sh, fuel, r, k);
        k := k + 1;
      }
    }
  }

  lemma SubHere(p: PollFn, st: Stmt, pc: nat, brk: nat, cont: nat, saved: set<LocalId>, g: set<LocalId>)
    requires HereStmt(p, st, pc, brk, cont, saved, g) && st.ExprStmt?
    ensures Here(p, st.e, pc, brk, cont, saved, g) && Own(st.e) == Elems(ScanForStmt(st)) && SizeStmt(st) == Size(st.e)
  {
  }

  /** Binding or storing the value that the code of the operand left. */
  lemma FinishStmt(p: PollFn, st: Stmt, pc: nat, brk: nat, cont: nat, g: set<LocalId>,
                   s: State, f: Frame, sh: Shared, fuel: nat, r: Out, k: nat)
    requires Sound(p) && fuel <= p.fuel && s.stacked == {} && !st.ExprStmt?
    requires var e := if st.Let? then st.init else st.value;
             && r == Eval(p.pr, e, s, fuel) && r.ctl.Normal?
             && Arrives(p, Run(p, Running(pc, f, sh), k), r, pc + Size(e), brk, cont, g, Elems(ScanForStmt(st)), sh)
             && SizeStmt(st) == Size(e) + 1
             && Is(p, pc + Size(e), if st.Let? then BindTo(st.pat) else StoreTo(st.target, brk, cont))
    requires st.Assign? ==> !HasAwait(st.target) && Scoped(st.target, g)
    requires Proper(EvalStmt(p.pr, st, s, fuel).ctl)
    ensures StmtArrives(p, Run(p, Running(pc, f, sh), k + 1), EvalStmt(p.pr, st, s, fuel), pc + SizeStmt(st), brk, cont,
                        g, ScopeAfter(st, g), Elems(ScanForStmt(st)), sh)
  {
    hide Run, Keeps, Size, Eval, HasAwait, Scoped, Sound, SizeStmt;
    var c1 := Run(p, Running(pc, f, sh), k);
    OneStep(p, Running(pc, f, sh), k);
    if st.Let? {
      BindAgree(g, r.s.env, c1.f.env, r.s.mem, st.pat, r.ctl.v);
    } else {
      StoreRun(p, st.target, brk, cont, g, r, c1, fuel);
      KeepsRefl(p, c1.sh);
      Weaken(p, StepConfig(p, c1), EvalStore(p.pr, st.target, r.ctl.v, r.s, fuel), c1.pc + 1, brk, cont, g,
             Elems(ScanForStmt(st)), sh, g, Elems(ScanForStmt(st)), c1.sh, {});
    }
  }

  lemma StoreRun(p: PollFn, target: Expr, brk: nat, cont: nat, g: set<LocalId>, r: Out, c: Config, fuel: nat)
    requires Sound(p) && fuel <= p.fuel && !HasAwait(target) && Scoped(target, g)
    requires r.ctl.Normal? && c.Running? && c.f.acc == r.ctl.v && Rel(g, r.s, c.f, c.sh)
             && Is(p, c.pc, StoreTo(target, brk, cont))
    requires Proper(EvalStore(p.pr, target, r.ctl.v, r.s, fuel).ctl)
    ensures Arrives(p, StepConfig(p, c), EvalStore(p.pr, target, r.ctl.v, r.s, fuel), c.pc + 1, brk, cont, g, {}, c.sh)
  {
    StoreAlike(p.pr, target, r.ctl.v, r.s, AsState(c.f, c.sh), g, fuel, p.fuel);
  }

  lemma {:induction false} SimBlock(p: PollFn, b: Block, pc: nat, brk: nat, cont: nat, saved: set<LocalId>,
                                    g: set<LocalId>, s: State, f: Frame, sh: Shared, fuel: nat) returns (k: nat)
    requires Ready0(p, g, saved, s, f, sh, fuel) && HereBlock(p, b, pc, brk, cont, saved, g)
    requires Proper(EvalBlock(p.pr, b, s, fuel).ctl)
    ensures Arrives(p, Run(p, Running(pc, f, sh), k), EvalBlock(p.pr, b, s, fuel), pc + SizeBlock(b), brk, cont, g,
                    OwnBlock(b), sh)
    decreases fuel, b, 0
  {
    match b
    case Tail(e) =>
      hide Run, Keeps, AgreeOn, Sound, Eval;
      k := SimExpr(p, e, pc, brk, cont, saved, g, s, f, sh, fuel);
    case Then(st, rest) =>
      hide Here, HereBlock, HereStmt, HereArms, Size, SizeBlock, SizeArms, SizeStmt, HasAwait, Own, OwnBlock, Keeps,
           Run, Sound, AgreeOn;
      hide Eval, EvalStmt;
      BlockLayout(p, b, pc, brk, cont, saved, g);
      var c := Running(pc, f, sh);
      k := SimStmt(p, st, pc, brk, cont, saved, g, s, f, sh, fuel);
      var r := EvalStmt(p.pr, st, s, fuel);
      if r.ctl.Normal? {
        if TermStmt(st) {
          TermStmtLeaves(p.pr, st, s, fuel);
        }
        var c1 := Run(p, c, k);
        var g' := ScopeAfter(st, g);
        var j := SimBlock(p, rest, pc + SizeStmt(st), brk, cont, saved + BoundStmt(st), g', r.s, c1.f, c1.sh, fuel);
        RunAdd(p, c, k, j);
        k := k + j;
        Weaken(p, Run(p, c, k), EvalBlock(p.pr, rest, r.s, fuel), pc + SizeBlock(b), brk, cont, g, OwnBlock(b), sh,
               g', Elems(ScanForStmt(st)), c1.sh, OwnBlock(rest));
      } else {
        KeepsRefl(p, sh);
        Weaken(p, Run(p, c, k), r, pc + SizeStmt(st), brk, cont, g, OwnBlock(b), sh, g, {}, sh, Elems(ScanForStmt(st)));
      }
  }

  lemma ForEval(pr: Program, e: Expr, s: State, fuel: nat)
    requires e.For? && !e.driver.AsyncIter?
    ensures var r := Eval(pr, e.iter, s, fuel);
            Eval(pr, e, s, fuel) ==
            if !r.ctl.Normal? then r
            else match ForInit(e.driver, r.ctl.v, r.s.mem)
                 case None => Out(Stuck, r.s)
                 case Some((cur, m)) => EvalFor(pr, e.driver, e.pat, e.body, cur, r.s.(mem := m), fuel)
  {
  }

  lemma {:induction false} SimFor(p: PollFn, e: Expr, pc: nat, brk: nat, cont: nat, saved: set<LocalId>,
                                  g: set<LocalId>, s: State, f: Frame, sh: Shared, fuel: nat) returns (k: nat)
    requires Ready0(p, g, saved, s, f, sh, fuel) && Here(p, e, pc, brk, cont, saved, g)
    requires Proper(Eval(p.pr, e, s, fuel).ctl)
    requires HasAwait(e) && e.For? && !e.driver.AsyncIter?
    ensures Arrives(p, Run(p, Running(pc, f, sh), k), Eval(p.pr, e, s, fuel), pc + Size(e), brk, cont, g, Own(e), sh)
    decreases fuel, e, 0
  {
    hide Here, HereBlock, HereStmt, HereArms, Size, SizeBlock, SizeArms, SizeStmt, HasAwait, Own, OwnBlock, Keeps, Run,
         Sound, AgreeOn;
    hide Elems, PatSet, Bound, EvalBlock, SameWorld, SlotsOf, StepConfig;
    hide Eval, EvalFor, ForInit, StepInstr, CursorAt;
    ForEval(p.pr, e, s, fuel);
    ForLayout(p, e, pc, brk, cont, saved, g);
    var c := Running(pc, f, sh);
    AtomRun(p, e.iter, pc, brk, cont, g, s, f, sh, fuel);
    var r := Eval(p.pr, e.iter, s, fuel);
    k := 1;
    if r.ctl.Normal? {
      var c1 := Run(p, c, 1);
      var (cur, m) := ForInit(e.driver, r.ctl.v, r.s.mem).value;
      OneStep(p, c, 1);
      SetupRun(p, e.driver, e.span, pc + 1, g, r.s, c1.f, c1.sh);
      var c2 := Run(p, c, 2);
      var j := SimForLoop(p, e, pc, brk, cont, saved, g, cur, r.s.(mem := m), c2.f, c2.sh, fuel);
      RunAdd(p, c, 2, j);
      k := 2 + j;
      KeepsTrans(p, {}, {e.span}, sh, c1.sh, c2.sh);
      Weaken(p, Run(p, c, k), EvalFor(p.pr, e.driver, e.pat, e.body, cur, r.s.(mem := m), fuel), pc + Size(e), brk,
             cont, g, Own(e), sh, g, {e.span}, c2.sh, Own(e));
    } else {
      KeepsRefl(p, sh);
      Weaken(p, Run(p, c, 1), r, pc + 1, brk, cont, g, Own(e), sh, g, {}, sh, {});
    }
  }

  /** Filling a cursor makes it readable and touches no other. */
  lemma FillKeeps(p: PollFn, d: ForDriver, sp: Span, cur: Cursor, sh: Shared, to: Shared)
    requires SlotsApart(p.cx) && sp in p.cx.slots && to.slots == Filled(d, SlotsOf(p.cx, sp), cur, sh.slots)
    requires (!d.MapEntries? ==> cur.secondary == Nil) && (d.Iterator? ==> cur.idx == 0)
    ensures CursorAt(d, to.slots, SlotsOf(p.cx, sp)) == Some(cur) && Keeps(p, {sp}, sh, to)
  {
  }

  /** Setting up a loop fills its own cursor and no other. */
  lemma SetupRun(p: PollFn, d: ForDriver, sp: Span, pc: nat, g: set<LocalId>, s: State, f: Frame, sh: Shared)
    requires Sound(p) && Rel(g, s, f, sh) && sp in p.cx.slots
    requires Is(p, pc, ForSetup(d, SlotsOf(p.cx, sp))) && ForInit(d, f.acc, s.mem).Some?
    ensures var (cur, m) := ForInit(d, f.acc, s.mem).value;
            var c := StepConfig(p, Running(pc, f, sh));
            && c.Running? && c.pc == pc + 1 && Rel(g, s.(mem := m), c.f, c.sh)
            && CursorAt(d, c.sh.slots, SlotsOf(p.cx, sp)) == Some(cur) && Keeps(p, {sp}, sh, c.sh)
  {
    assert SlotsApart(p.cx);
    var (cur, m) := ForInit(d, f.acc, s.mem).value;
    assert (!d.MapEntries? ==> cur.secondary == Nil) && cur.idx == 0;
    hide Sound, SlotsApart, AgreeOn, ForInit, SlotsOf, Keeps, CursorAt, Filled;
    FillKeeps(p, d, sp, cur, sh, StepConfig(p, Running(pc, f, sh)).sh);
  }

  /** Advancing a loop touches its own index only. */
  lemma LatchRun(p: PollFn, d: ForDriver, sp: Span, pc: nat, g: set<LocalId>, s: State, f: Frame, sh: Shared,
                 cur: Cursor)
    requires Sound(p) && Rel(g, s, f, sh) && sp in p.cx.slots
    requires Is(p, pc, ForLatch(d, SlotsOf(p.cx, sp))) && CursorAt(d, sh.slots, SlotsOf(p.cx, sp)) == Some(cur)
    ensures var c := StepConfig(p, Running(pc, f, sh));
            && c.Running? && c.pc == pc + 1 && Rel(g, s, c.f, c.sh)
            && CursorAt(d, c.sh.slots, SlotsOf(p.cx, sp)) == Some(Advance(d, cur)) && Keeps(p, {sp}, sh, c.sh)
  {
  }

  lemma CursorKept(p: PollFn, d: ForDriver, own: set<Span>, sp: Span, a: Shared, b: Shared)
    requires Keeps(p, own, a, b) && sp in p.cx.slots && sp !in own
    ensures CursorAt(d, a.slots, SlotsOf(p.cx, sp)) == CursorAt(d, b.slots, SlotsOf(p.cx, sp))
  {
  }

  /** The loop head: step, then leave or bind the item. */
  lemma HeadRun(p: PollFn, e: Expr, pc: nat, exit: nat, brk: nat, cont: nat, g: set<LocalId>, cur: Cursor, s: State,
                f: Frame, sh: Shared, fuel: nat)
    requires Sound(p) && Rel(g, s, f, sh) && fuel < p.fuel && e.For?
    requires Is(p, pc, ForHead(e.driver, e.pat, SlotsOf(p.cx, e.span), exit, brk, cont))
    requires CursorAt(e.driver, sh.slots, SlotsOf(p.cx, e.span)) == Some(cur)
    ensures var a := ForStep(p.pr, e.driver, cur, s, fuel);
            var c := StepConfig(p, Running(pc, f, sh));
            match a
            case Fail(ctl, s') => Proper(ctl) ==> Arrives(p, c, Out(ctl, s'), pc, brk, cont, g, {}, sh)
            case Done(s') => c.Running? && c.pc == exit && Rel(g, s', c.f, c.sh) && c.sh.slots == sh.slots
            case Item(v, s') =>
              BindPat(s'.env, s'.mem, e.pat, v).Some? ==>
                && c.Running? && c.pc == pc + 1 && c.sh.slots == sh.slots
                && Rel(g + PatSet(e.pat), s'.(env := BindPat(s'.env, s'.mem, e.pat, v).value), c.f, c.sh)
  {
    StepAlike(p.pr, e.driver, cur, s, AsState(f, sh), g, fuel, p.fuel);
    var a, b := ForStep(p.pr, e.driver, cur, s, fuel), ForStep(p.pr, e.driver, cur, AsState(f, sh), p.fuel);
    if a.Item? {
      BindAgree(g, a.s.env, b.s.env, a.s.mem, e.pat, a.v);
    } else if a.Fail? {
      FailCtl(p.pr, e.driver, cur, s, fuel);
    }
  }

  /** A step of a loop fails only by panicking, waiting, getting stuck or running out. */
  lemma FailCtl(pr: Program, d: ForDriver, cur: Cursor, s: State, fuel: nat)
    ensures var a := ForStep(pr, d, cur, s, fuel);
            a.Fail? ==> a.ctl.Panic? || a.ctl.Wait? || a.ctl.Stuck? || a.ctl.Timeout?
  {
  }

  lemma {:induction false} SimForLoop(p: PollFn, e: Expr, pc: nat, brk: nat, cont: nat, saved: set<LocalId>,
                                      g: set<LocalId>, cur: Cursor, s: State, f: Frame, sh: Shared,
                                        fuel: nat) returns (k: nat)
    requires Ready0(p, g, saved, s, f, sh, fuel) && Here(p, e, pc, brk, cont, saved, g)
    requires HasAwait(e) && e.For? && !e.driver.AsyncIter?
    requires Proper(EvalFor(p.pr, e.driver, e.pat, e.body, cur, s, fuel).ctl)
    requires CursorAt(e.driver, sh.slots, SlotsOf(p.cx, e.span)) == Some(cur)
    ensures Arrives(p, Run(p, Running(pc + 2, f, sh), k), EvalFor(p.pr, e.driver, e.pat, e.body, cur, s, fuel),
                    pc + Size(e), brk, cont, g, Own(e), sh)
    decreases fuel, e.body, 1
  {
    hide Here, HereBlock, HereStmt, HereArms, Size, SizeBlock, SizeArms, SizeStmt, HasAwait, Own, OwnBlock, Keeps, Run,
         Sound, AgreeOn;
    hide StepConfig, Is, Elems, PatSet, Bound, Eval, EvalBlock, Rel, SameWorld, SlotsOf;
    hide ForStep, BindPat, StepInstr, CursorAt;
    ForLayout(p, e, pc, brk, cont, saved, g);
    var latch := pc + 3 + SizeBlock(e.body);
    var c := Running(pc + 2, f, sh);
    var a := ForStep(p.pr, e.driver, cur, s, fuel - 1);
    HeadRun(p, e, pc + 2, latch + 2, brk, cont, g, cur, s, f, sh, fuel - 1);
    OneStep0(p, c);
    k := 1;
    var c1 := Run(p, c, 1);
    KeepsRefl(p, sh);
    if a.Done? {
      OneStep(p, c, 1);
      k := 2;
      ClearRun(p, latch + 2, brk, cont, g, a.s, c1.f, c1.sh);
      KeepsSame(p, sh, c1.sh);
      Weaken(p, Run(p, c, 2), Out(Normal(Nil), a.s), pc + Size(e), brk, cont, g, Own(e), sh, g, {}, c1.sh, {});
    } else if a.Item? {
      var s1 := a.s.(env := BindPat(a.s.env, a.s.mem, e.pat, a.v).value);
      RelWeaken(g, g + PatSet(e.pat), s1, c1.f, c1.sh);
      CursorSame(p, e.driver, e.span, sh, c1.sh);
      var j := ForBody(p, e, pc, brk, cont, saved, g, cur, s1, c1.f, c1.sh, fuel);
      RunAdd(p, c, 1, j);
      k := 1 + j;
      KeepsSame(p, sh, c1.sh);
      Weaken(p, Run(p, c, k), AfterItem(p.pr, e, cur, s1, fuel), pc + Size(e), brk, cont, g, Own(e), sh, g, {}, c1.sh,
             Own(e));
    } else {
      FailCtl(p.pr, e.driver, cur, s, fuel - 1);
      Weaken(p, c1, Out(a.ctl, a.s), pc + 2, brk, cont, g, Own(e), sh, g, {}, sh, {});
    }
  }

  lemma ClearRun(p: PollFn, pc: nat, brk: nat, cont: nat, g: set<LocalId>, s: State, f: Frame, sh: Shared)
    requires Is(p, pc, Clear) && Rel(g, s, f, sh)
    ensures Arrives(p, StepConfig(p, Running(pc, f, sh)), Out(Normal(Nil), s), pc + 1, brk, cont, g, {}, sh)
  {
  }

  lemma KeepsSame(p: PollFn, a: Shared, b: Shared)
    requires a.slots == b.slots
    ensures Keeps(p, {}, a, b)
  {
  }

  lemma CursorSame(p: PollFn, d: ForDriver, sp: Span, a: Shared, b: Shared)
    requires a.slots == b.slots
    ensures CursorAt(d, a.slots, SlotsOf(p.cx, sp)) == CursorAt(d, b.slots, SlotsOf(p.cx, sp))
  {
  }

  /** The outcome of a `for` once an item is bound. */
  function AfterItem(pr: Program, e: Expr, cur: Cursor, s: State, fuel: nat): Out
    requires e.For? && fuel > 0
  {
    var r := EvalBlock(pr, e.body, s, fuel - 1);
    if r.ctl.Brk? then Out(Normal(Nil), r.s)
    else if !r.ctl.Normal? && !r.ctl.Cont? then r
    else EvalFor(pr, e.driver, e.pat, e.body, Advance(e.driver, cur), r.s, fuel - 1)
  }

  lemma {:induction false} ForBody(p: PollFn, e: Expr, pc: nat, brk: nat, cont: nat, saved: set<LocalId>,
                                   g: set<LocalId>, cur: Cursor, s: State, f: Frame, sh: Shared,
                                     fuel: nat) returns (k: nat)
    requires Ready0(p, g, saved, s, f, sh, fuel) && Here(p, e, pc, brk, cont, saved, g)
    requires HasAwait(e) && e.For? && !e.driver.AsyncIter? && fuel > 0 && Rel(g + PatSet(e.pat), s, f, sh)
    requires Proper(AfterItem(p.pr, e, cur, s, fuel).ctl)
    requires CursorAt(e.driver, sh.slots, SlotsOf(p.cx, e.span)) == Some(cur)
    ensures Arrives(p, Run(p, Running(pc + 3, f, sh), k), AfterItem(p.pr, e, cur, s, fuel),
                    pc + Size(e), brk, cont, g, Own(e), sh)
    decreases fuel, e.body, 0
  {
    hide Here, HereBlock, HereStmt, HereArms, Size, SizeBlock, SizeArms, SizeStmt, HasAwait, Own, OwnBlock, Keeps, Run,
         Sound, AgreeOn;
    hide StepConfig, Is, Elems, PatSet, Bound, Eval, Rel, SameWorld, SlotsOf;
    hide EvalFor, EvalBlock, StepInstr, CursorAt;
    ForLayout(p, e, pc, brk, cont, saved, g);
    var latch := pc + 3 + SizeBlock(e.body);
    var saved' := saved + Bound(e.iter) + PatSet(e.pat);
    var c := Running(pc + 3, f, sh);
    k := SimBlock(p, e.body, pc + 3, latch + 2, latch, saved', g + PatSet(e.pat), s, f, sh, fuel - 1);
    var r := EvalBlock(p.pr, e.body, s, fuel - 1);
    var c1 := Run(p, c, k);
    KeepsRefl(p, sh);
    if r.ctl.Brk? || r.ctl.Normal? || r.ctl.Cont? {
      RelWeaken(g, g + PatSet(e.pat), r.s, c1.f, c1.sh);
      OneStep(p, c, k);
      if r.ctl.Brk? {
        k := k + 1;
        ClearRun(p, latch + 2, brk, cont, g, r.s, c1.f, c1.sh);
        Weaken(p, Run(p, c, k), Out(Normal(Nil), r.s), pc + Size(e), brk, cont, g, Own(e), sh, g, OwnBlock(e.body),
               c1.sh, {});
      } else {
        CursorKept(p, e.driver, OwnBlock(e.body), e.span, sh, c1.sh);
        LatchRun(p, e.driver, e.span, latch, g, r.s, c1.f, c1.sh, cur);
        var c2 := Run(p, c, k + 1);
        OneStep(p, c, k + 1);
        JumpRun(p, latch + 1, pc + 2, c2.f, c2.sh);
        k := k + 2;
        KeepsTrans(p, OwnBlock(e.body), {e.span}, sh, c1.sh, c2.sh);
        var cur' := Advance(e.driver, cur);
        var j := SimForLoop(p, e, pc, brk, cont, saved, g, cur', r.s, c2.f, c2.sh, fuel - 1);
        RunAdd(p, c, k, j);
        k := k + j;
        Weaken(p, Run(p, c, k), EvalFor(p.pr, e.driver, e.pat, e.body, cur', r.s, fuel - 1), pc + Size(e), brk, cont, g,
               Own(e), sh, g, OwnBlock(e.body) + {e.span}, c2.sh, Own(e));
      }
    } else {
      Weaken(p, c1, r, latch, latch + 2, latch, g, Own(e), sh, g + PatSet(e.pat), {}, sh, OwnBlock(e.body));
    }
  }

  lemma JumpRun(p: PollFn, pc: nat, to: nat, f: Frame, sh: Shared)
    requires Is(p, pc, Jump(to))
    ensures StepConfig(p, Running(pc, f, sh)) == Running(to, f, sh)
  {
  }

  lemma {:induction false} SimForAwait(p: PollFn, e: Expr, pc: nat, brk: nat, cont: nat, saved: set<LocalId>,
                                       g: set<LocalId>, s: State, f: Frame, sh: Shared, fuel: nat) returns (k: nat)
    requires Ready0(p, g, saved, s, f, sh, fuel) && Here(p, e, pc, brk, cont, saved, g)
    requires Proper(Eval(p.pr, e, s, fuel).ctl)
    requires HasAwait(e) && e.For? && e.driver.AsyncIter?
    ensures Arrives(p, Run(p, Running(pc, f, sh), k), Eval(p.pr, e, s, fuel), pc + Size(e), brk, cont, g, Own(e), sh)
    decreases fuel, e, 0
  {
    hide Here, HereBlock, HereStmt, HereArms, Size, SizeBlock, SizeArms, SizeStmt, HasAwait, Own, OwnBlock, Keeps, Run,
         Sound, AgreeOn;
    ForAwaitLayout(p, e, pc, brk, cont, saved, g);
    k := SimForAwaitLoop(p, e, pc, brk, cont, saved, g, s, f, sh, fuel);
  }

  /** Asking the stream for its next future. */
  lemma NextRun(p: PollFn, x: LocalId, next: DefId, pc: nat, brk: nat, cont: nat, g: set<LocalId>, s: State, f: Frame,
                sh: Shared, fuel: nat)
    requires Sound(p) && Rel(g, s, f, sh) && fuel <= p.fuel && x in g && Is(p, pc, NextAsync(x, next, brk, cont))
    requires Proper(CallFn(p.pr, next, [Get(s.env, x)], s, fuel).ctl)
    ensures Arrives(p, StepConfig(p, Running(pc, f, sh)), CallFn(p.pr, next, [Get(s.env, x)], s, fuel), pc + 1, brk,
                    cont, g, {}, sh)
  {
    CallAlike(p.pr, next, [Get(s.env, x)], s, AsState(f, sh), g, fuel, p.fuel);
  }

  lemma IsThere(p: PollFn, pc: nat, i: Instr)
    requires Is(p, pc, i)
    ensures pc < |p.code| && p.code[pc] == i
  {
  }

  lemma {:induction false} SimForAwaitLoop(p: PollFn, e: Expr, pc: nat, brk: nat, cont: nat, saved: set<LocalId>,
                                           g: set<LocalId>, s: State, f: Frame, sh: Shared, fuel: nat) returns (k: nat)
    requires Ready0(p, g, saved, s, f, sh, fuel) && Here(p, e, pc, brk, cont, saved, g)
    requires HasAwait(e) && e.For? && e.driver.AsyncIter? && e.iter.Local?
    requires Proper(EvalForAwait(p.pr, e.iter.x, e.driver, e.pat, e.body, s, fuel).ctl)
    ensures Arrives(p, Run(p, Running(pc, f, sh), k), EvalForAwait(p.pr, e.iter.x, e.driver, e.pat, e.body, s, fuel),
                    pc + Size(e), brk, cont, g, Own(e), sh)
    decreases fuel, e.body, 2
  {
    hide Here, HereBlock, HereStmt, HereArms, Size, SizeBlock, SizeArms, SizeStmt, HasAwait, Own, OwnBlock, Keeps, Run,
         Sound, AgreeOn;
    hide StepConfig, Elems, PatSet, Bound, Eval, EvalBlock, Rel, SameWorld;
    hide CallFn, StepInstr, BindPat, SiteNo, Is, EvalArgs, EvalArms, EvalFor;
    ForAwaitLayout(p, e, pc, brk, cont, saved, g);
    var n := SiteNo(p.cx, e.span);
    var c := Running(pc, f, sh);
    var r := CallFn(p.pr, e.driver.next, [Get(s.env, e.iter.x)], s, fuel - 1);
    NextRun(p, e.iter.x, e.driver.next, pc, brk, cont, g, s, f, sh, fuel - 1);
    OneStep0(p, c);
    k := 1;
    KeepsRefl(p, sh);
    if r.ctl.Normal? {
      var c1 := Run(p, c, 1);
      IsThere(p, pc + 1, Suspend(n, saved));
      IsThere(p, pc + 2, Poll(n));
      var j := AwaitRun(p, pc + 1, n, saved, c1.f, c1.sh, g, r.s, brk, cont);
      RunAdd(p, c, 1, j);
      k := 1 + j;
      var a := DoAwait(r.ctl.v, r.s);
      var c2 := Run(p, c, k);
      if a.ctl.Normal? {
        KeepsTrans(p, {}, {}, sh, c1.sh, c2.sh);
        var i := ItemRun(p, e, pc, brk, cont, saved, g, a.ctl.v, a.s, c2.f, c2.sh, fuel);
        RunAdd(p, c, k, i);
        k := k + i;
        Weaken(p, Run(p, c, k), AfterAwait(p.pr, e, a.ctl.v, a.s, fuel), pc + Size(e), brk, cont, g, Own(e), sh, g, {},
               c2.sh, Own(e));
      } else {
        Weaken(p, c2, a, pc + 3, brk, cont, g, Own(e), sh, g, {}, c1.sh, {});
      }
    } else {
      Weaken(p, Run(p, c, 1), r, pc + 1, brk, cont, g, Own(e), sh, g, {}, sh, {});
    }
  }

  /** The outcome of a `for await` once `next_async` answered `u`. */
  function AfterAwait(pr: Program, e: Expr, u: Value, s: State, fuel: nat): Out
    requires e.For? && e.driver.AsyncIter? && e.iter.Local? && fuel > 0
  {
    match ItemOf(u, e.driver.done, s.mem)
    case None => Out(Stuck, s)
    case Some(None) => Out(Normal(Nil), s)
    case Some(Some(v)) =>
      match BindPat(s.env, s.mem, e.pat, v)
      case None => Out(Stuck, s)
      case Some(env') => AfterAwaited(pr, e, s.(env := env'), fuel)
  }

  function AfterAwaited(pr: Program, e: Expr, s: State, fuel: nat): Out
    requires e.For? && e.driver.AsyncIter? && e.iter.Local? && fuel > 0
  {
    var r := EvalBlock(pr, e.body, s, fuel - 1);
    if r.ctl.Brk? then Out(Normal(Nil), r.s)
    else if !r.ctl.Normal? && !r.ctl.Cont? then r
    else EvalForAwait(pr, e.iter.x, e.driver, e.pat, e.body, r.s, fuel - 1)
  }

  /** Taking the item out of the answer, or leaving the loop. */
  lemma TakeRun(p: PollFn, done: TypeId, pat: Pattern, pc: nat, exit: nat, g: set<LocalId>, s: State, f: Frame,
                sh: Shared)
    requires Rel(g, s, f, sh) && Is(p, pc, TakeItem(done, pat, exit)) && ItemOf(f.acc, done, s.mem).Some?
    ensures var c := StepConfig(p, Running(pc, f, sh));
            match ItemOf(f.acc, done, s.mem).value
            case None => c == Running(exit, f, sh)
            case Some(v) =>
              BindPat(s.env, s.mem, pat, v).Some? ==>
                && c.Running? && c.pc == pc + 1 && c.sh == sh
                && Rel(g + PatSet(pat), s.(env := BindPat(s.env, s.mem, pat, v).value), c.f, c.sh)
  {
    if ItemOf(f.acc, done, s.mem).value.Some? {
      BindAgree(g, s.env, f.env, s.mem, pat, ItemOf(f.acc, done, s.mem).value.value);
    }
  }

  lemma {:induction false} ItemRun(p: PollFn, e: Expr, pc: nat, brk: nat, cont: nat, saved: set<LocalId>,
                                   g: set<LocalId>, u: Value, s: State, f: Frame, sh: Shared,
                                     fuel: nat) returns (k: nat)
    requires Ready0(p, g, saved, s, f, sh, fuel) && Here(p, e, pc, brk, cont, saved, g)
    requires HasAwait(e) && e.For? && e.driver.AsyncIter? && e.iter.Local? && fuel > 0
    requires f.acc == u && Proper(AfterAwait(p.pr, e, u, s, fuel).ctl)
    ensures Arrives(p, Run(p, Running(pc + 3, f, sh), k), AfterAwait(p.pr, e, u, s, fuel),
                    pc + Size(e), brk, cont, g, Own(e), sh)
    decreases fuel, e.body, 1
  {
    hide Here, HereBlock, HereStmt, HereArms, Size, SizeBlock, SizeArms, SizeStmt, HasAwait, Own, OwnBlock, Keeps, Run,
         Sound, AgreeOn;
    hide ItemOf, BindPat, StepInstr, AfterAwaited, StepConfig, SiteNo, Is, EvalBlock, EvalArms, EvalFor, EvalArgs, Eval,
         Elems;
    ForAwaitLayout(p, e, pc, brk, cont, saved, g);
    var exit := pc + 4 + SizeBlock(e.body) + 1;
    var c := Running(pc + 3, f, sh);
    TakeRun(p, e.driver.done, e.pat, pc + 3, exit, g, s, f, sh);
    OneStep0(p, c);
    k := 1;
    KeepsRefl(p, sh);
    if ItemOf(u, e.driver.done, s.mem).value.None? {
      OneStep(p, c, 1);
      ClearRun(p, exit, brk, cont, g, s, f, sh);
      k := 2;
      Weaken(p, Run(p, c, 2), Out(Normal(Nil), s), pc + Size(e), brk, cont, g, Own(e), sh, g, {}, sh, {});
    } else {
      var v := ItemOf(u, e.driver.done, s.mem).value.value;
      var s1 := s.(env := BindPat(s.env, s.mem, e.pat, v).value);
      var c1 := Run(p, c, 1);
      RelWeaken(g, g + PatSet(e.pat), s1, c1.f, c1.sh);
      var j := AwaitedBody(p, e, pc, brk, cont, saved, g, s1, c1.f, c1.sh, fuel);
      RunAdd(p, c, 1, j);
      k := 1 + j;
    }
  }

  lemma {:induction false} AwaitedBody(p: PollFn, e: Expr, pc: nat, brk: nat, cont: nat, saved: set<LocalId>,
                                       g: set<LocalId>, s: State, f: Frame, sh: Shared, fuel: nat) returns (k: nat)
    requires Ready0(p, g, saved, s, f, sh, fuel) && Here(p, e, pc, brk, cont, saved, g)
    requires HasAwait(e) && e.For? && e.driver.AsyncIter? && e.iter.Local? && fuel > 0
             && Rel(g + PatSet(e.pat), s, f, sh)
    requires Proper(AfterAwaited(p.pr, e, s, fuel).ctl)
    ensures Arrives(p, Run(p, Running(pc + 4, f, sh), k), AfterAwaited(p.pr, e, s, fuel),
                    pc + Size(e), brk, cont, g, Own(e), sh)
    decreases fuel, e.body, 0
  {
    hide Here, HereBlock, HereStmt, HereArms, Size, SizeBlock, SizeArms, SizeStmt, HasAwait, Own, OwnBlock, Keeps, Run,
         Sound, AgreeOn;
    hide EvalForAwait, EvalBlock, StepInstr, StepConfig, Is, Elems, PatSet, Bound, Eval, Rel, SameWorld;
    ForAwaitLayout(p, e, pc, brk, cont, saved, g);
    var exit := pc + 4 + SizeBlock(e.body) + 1;
    var c := Running(pc + 4, f, sh);
    k := SimBlock(p, e.body, pc + 4, exit, pc, saved + PatSet(e.pat), g + PatSet(e.pat), s, f, sh, fuel - 1);
    var r := EvalBlock(p.pr, e.body, s, fuel - 1);
    var c1 := Run(p, c, k);
    KeepsRefl(p, sh);
    if r.ctl.Brk? || r.ctl.Normal? || r.ctl.Cont? {
      RelWeaken(g, g + PatSet(e.pat), r.s, c1.f, c1.sh);
      if r.ctl.Brk? {
        OneStep(p, c, k);
        k := k + 1;
        ClearRun(p, exit, brk, cont, g, r.s, c1.f, c1.sh);
        Weaken(p, Run(p, c, k), Out(Normal(Nil), r.s), pc + Size(e), brk, cont, g, Own(e), sh, g, Own(e), c1.sh, {});
      } else {
        if r.ctl.Normal? {
          OneStep(p, c, k);
          JumpRun(p, exit - 1, pc, c1.f, c1.sh);
          k := k + 1;
        }
        var j := SimForAwaitLoop(p, e, pc, brk, cont, saved, g, r.s, c1.f, c1.sh, fuel - 1);
        RunAdd(p, c, k, j);
        k := k + j;
        Weaken(p, Run(p, c, k), EvalForAwait(p.pr, e.iter.x, e.driver, e.pat, e.body, r.s, fuel - 1), pc + Size(e), brk,
               cont, g, Own(e), sh, g, Own(e), c1.sh, Own(e));
      }
    } else {
      Weaken(p, c1, r, exit - 1, exit, pc, g, Own(e), sh, g + PatSet(e.pat), {}, sh, Own(e));
    }
  }
}
