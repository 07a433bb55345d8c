/**
 The statement about a whole async function: constructing its state and calling the
 generated `poll` until it stops gives what the body means.
 */
module PollTheorem {
  import opened Hir
  import opened Scan
  import opened Semantics
  import opened Lockstep
  import opened AsyncLayout
  import opened PollCode
  import opened PollFacts
  import opened PollProof

  /** The run of a body ends as runs of accepted programs end. */
  predicate Completes(c: Ctl)
  {
    c.Normal? || c.Ret? || c.Panic? || c.Wait?
  }

  /** Configuration `c` is the end that outcome `r` calls for: the same value, the
      same memory, the same effects in the same order, the same answers unread. */
  predicate Ends(c: Config, r: Out)
  {
    match r.ctl
    case Normal(v) => c.Finished? && c.v == v && SameWorld(r.s, c.sh)
    case Ret(v) => c.Finished? && c.v == v && SameWorld(r.s, c.sh)
    case Panic => c.Panicked? && SameWorld(r.s, c.sh)
    case Wait => c.Starved? && SameWorld(r.s, c.sh)
    case _ => false
  }

  /** The body run straight through, every await taking the next ready value. */
  function Straight(pr: Program, params: seq<LocalId>, args: seq<Value>, body: Block, mem: Mem, answers: seq<Answer>,
                    fuel: nat): Out
    requires |params| == |args|
  {
    EvalBlock(pr, body, State(SetAll(map[], params, args), mem, [], Readys(answers), {}), fuel)
  }

  lemma BuildSound(pr: Program, params: seq<LocalId>, body: Block, fuel: nat)
    requires SyncProgram(pr) && NfBlock(body) && NoDup(params) && NoDup(ScanBlock(body))
    ensures Sound(Build(pr, params, body, fuel))
  {
    var p := Build(pr, params, body, fuel);
    CollectBlockExtends(body, params);
    SpansApart(p.cx, ForSpans(body));
    forall n: nat | n > 0
      ensures Count(p.code, n) <= 1
    {
      SuspendPointsUnique(p.cx, body, 0, 0, 0, Elems(params), n);
    }
  }

  lemma SpansApart(cx: Ctx, spans: seq<Span>)
    requires cx.slots == PlaceSpans(|cx.locals|, spans)
    ensures SlotsApart(cx)
  {
    forall a, b | a in cx.slots && b in cx.slots && a != b
      ensures cx.slots[a].primary + 24 <= cx.slots[b].primary || cx.slots[b].primary + 24 <= cx.slots[a].primary
    {
      assert IndexOf(spans, a) != IndexOf(spans, b);
    }
  }

  lemma {:induction false} SetAllAt(env: Env, xs: seq<LocalId>, vs: seq<Value>, i: nat)
    requires |xs| == |vs| && NoDup(xs) && i < |xs|
    ensures Get(SetAll(env, xs, vs), xs[i]) == vs[i]
    decreases xs
  {
    if i == 0 {
      SetAllElse(env[xs[0] := vs[0]], xs[1..], vs[1..], xs[0]);
    } else {
      SetAllAt(env[xs[0] := vs[0]], xs[1..], vs[1..], i - 1);
    }
  }

  lemma {:induction false} SetAllElse(env: Env, xs: seq<LocalId>, vs: seq<Value>, x: LocalId)
    requires |xs| == |vs| && x !in xs
    ensures Get(SetAll(env, xs, vs), x) == Get(env, x)
    decreases xs
  {
    if xs != [] {
      SetAllElse(env[xs[0] := vs[0]], xs[1..], vs[1..], x);
    }
  }

  lemma {:induction false} IndexOfNoDup(xs: seq<LocalId>, i: nat)
    requires NoDup(xs) && i < |xs|
    ensures IndexOf(xs, xs[i]) == i
  {
    if i > 0 {
      assert xs[0] != xs[i];
      IndexOfNoDup(xs[1..], i - 1);
    }
  }

  /** The first call sees every argument in the parameter it was passed for. */
  lemma EntryAgrees(params: seq<LocalId>, args: seq<Value>, body: Block)
    requires NoDup(params) && |args| == |params|
    ensures var slots := StoreArgs(map[0 := Num(0)], 0, args);
            && Word(slots, 0) == Num(0)
            && AgreeOn(Elems(params), SetAll(map[], params, args), LoadEntry(slots, Locals(params, body), params))
            && forall x <- Locals(params, body) | x !in params ::
               Get(LoadEntry(slots, Locals(params, body), params), x) == Num(0)
  {
    var slots := StoreArgs(map[0 := Num(0)], 0, args);
    var locals := Locals(params, body);
    StoreArgsSpec(map[0 := Num(0)], 0, args);
    CollectBlockExtends(body, params);
    forall x | x in Elems(params)
      ensures Get(SetAll(map[], params, args), x) == Get(LoadEntry(slots, locals, params), x)
    {
      var i := IndexOf(params, x);
      SetAllAt(map[], params, args, i);
      assert locals[i] == x;
      IndexOfNoDup(locals, i);
      assert Word(slots, LocalOff(0 + i)) == args[i];
    }
  }

  /** Every part of the body fits the context that was built for the whole. */
  lemma BuildFits(pr: Program, params: seq<LocalId>, body: Block, fuel: nat)
    requires NfBlock(body) && ScopedBlock(body, Elems(params)) && NoDup(ScanForBlock(body))
    ensures HereBlock(Build(pr, params, body, fuel), body, 0, 0, 0, Elems(params), Elems(params))
    ensures var p := Build(pr, params, body, fuel);
            Elems(params) <= Elems(p.cx.locals) && |p.code| == SizeBlock(body) + 1 && p.code[SizeBlock(body)] == Finish
  {
    var p := Build(pr, params, body, fuel);
    CollectBlockExtends(body, params);
    PushAllExtends([], ScanForBlock(body));
    GenBlockSize(p.cx, body, 0, 0, 0, Elems(params));
    assert Elems(ForSpans(body)) == Elems(ScanForBlock(body));
    forall sp <- ScanForBlock(body)
      ensures sp in p.cx.slots
    {
      assert sp in Elems(ForSpans(body));
    }
    AtSplit(p.code, 0, GenBlock(p.cx, body, 0, 0, 0, Elems(params)), [Finish]);
  }

  /** For every normal-form body and every finite pattern of answers, `Pending` ones
      among them: repeated calls of `poll`, each starting from the state struct alone,
      end as the straight run ends. */
  lemma PollRefinesBody(pr: Program, params: seq<LocalId>, args: seq<Value>, body: Block, mem: Mem,
                        answers: seq<Answer>, fuel: nat, more: nat) returns (k: nat)
    requires SyncProgram(pr) && NfBlock(body) && ScopedBlock(body, Elems(params))
    requires NoDup(params) && |args| == |params| && NoDup(ScanBlock(body)) && NoDup(ScanForBlock(body))
    requires fuel <= more && Completes(Straight(pr, params, args, body, mem, answers, fuel).ctl)
    ensures Ends(Run(Build(pr, params, body, more), Construct(args, mem, answers), k),
                 Straight(pr, params, args, body, mem, answers, fuel))
  {
    hide Build, Sound, HereBlock, EvalBlock, Gen, GenBlock, AgreeOn, Run, LoadEntry, StoreArgs, SetAll, Keeps;
    hide NoDup, NfBlock, ScopedBlock, ScanBlock, ScanForBlock, Readys, Elems, SyncProgram, SizeBlock, Locals, CallPoll,
         StepInstr, StepConfig;
    var p := Build(pr, params, body, more);
    var c0 := Construct(args, mem, answers);
    var s := State(SetAll(map[], params, args), mem, [], Readys(answers), {});
    BuildSound(pr, params, body, more);
    BuildFits(pr, params, body, more);
    EntryAgrees(params, args, body);
    var g := Elems(params);
    OneStep0(p, c0);
    EntryCall(pr, params, args, body, mem, answers, more);
    var c1 := Run(p, c0, 1);
    var j := SimBlock(p, body, 0, 0, 0, g, g, s, c1.f, c1.sh, fuel);
    RunAdd(p, c0, 1, j);
    k := 1 + j;
    EndsHere(p, Run(p, c0, k), EvalBlock(p.pr, body, s, fuel), SizeBlock(body), g, OwnBlock(body), c1.sh);
    hide Arrives, Ends;
    if EvalBlock(p.pr, body, s, fuel).ctl.Normal? {
      OneStep(p, c0, k);
      k := k + 1;
    }
  }

  /** Where the body's code stops, the call is over, or one `Finish` away from it. */
  lemma EndsHere(p: PollFn, c: Config, r: Out, pc: nat, g: set<LocalId>, own: set<Span>, from: Shared)
    requires Arrives(p, c, r, pc, 0, 0, g, own, from) && Completes(r.ctl) && pc < |p.code| && p.code[pc] == Finish
    ensures if r.ctl.Normal? then Ends(StepConfig(p, c), r) else Ends(c, r)
  {
    hide Keeps, AgreeOn;
  }

  /** The first call dispatches to the start with the frame `EntryAgrees` speaks of. */
  lemma EntryCall(pr: Program, params: seq<LocalId>, args: seq<Value>, body: Block, mem: Mem, answers: seq<Answer>,
                  fuel: nat)
    requires Word(StoreArgs(map[0 := Num(0)], 0, args), 0) == Num(0)
    ensures var p := Build(pr, params, body, fuel);
            var slots := StoreArgs(map[0 := Num(0)], 0, args);
            && StepConfig(p, Construct(args, mem, answers))
               == Running(0, Frame(Nil, Nil, LoadEntry(slots, Locals(params, body), params)),
                          Shared(slots, mem, [], answers))
            && p.pr == pr && p.fuel == fuel
  {
  }
}
