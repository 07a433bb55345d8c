/**
 The poll function of an async body: flat code with absolute jump targets, and
 the machine that runs it. One call of `poll` runs until it finishes or meets a
 future that is not ready; then its frame and registers are gone, and the next
 call starts again from the state struct.
 */
module PollCode {
  import opened Hir
  import opened Scan
  import opened Semantics
  import opened AsyncLayout

  // -- instructions ------------------------------------------------------------

  datatype Instr =
    | Exec(e: Expr, brk: nat, cont: nat)                // await-free code; the value goes to the accumulator
    | BindTo(pat: Pattern)
    | StoreTo(target: Expr, brk: nat, cont: nat)
    | Coerce(adjust: Adjustment)
    | Clear
    | Jump(pc: nat)
    | BrUnless(pc: nat)
    | BrIf(pc: nat)
    | Scrut                                             // keep the scrutinee for the arm tests
    | TryArm(pat: Pattern, guard: Expr, next: nat, brk: nat, cont: nat)
    | Trap
    | ForSetup(driver: ForDriver, slots: Slots)
    | ForHead(driver: ForDriver, pat: Pattern, slots: Slots, exit: nat, brk: nat, cont: nat)
    | ForLatch(driver: ForDriver, slots: Slots)
    | NextAsync(x: LocalId, next: DefId, brk: nat, cont: nat)
    | TakeItem(done: TypeId, pat: Pattern, exit: nat)
    | Suspend(n: nat, saved: set<LocalId>)              // store the live locals, the inner future and the state
    | Poll(n: nat)                                      // ask the inner future
    | Finish

  // -- code generation -----------------------------------------------------------

  /** The state number of each registered site, the locals in slot order, and the
      slots of the loops that have them. */
  datatype Ctx = Ctx(no: map<Span, nat>, locals: seq<LocalId>, slots: map<Span, Slots>)

  function SiteNo(cx: Ctx, sp: Span): nat
  {
    if sp in cx.no then cx.no[sp] else 0
  }

  function SlotsOf(cx: Ctx, sp: Span): Slots
  {
    if sp in cx.slots then cx.slots[sp] else Slots(0, 0, 0)
  }

  /** State numbers count the registered sites from 1; 0 is the start. */
  function NumberSites(sites: seq<Span>): map<Span, nat>
  {
    map sp | sp in sites :: IndexOf(sites, sp) + 1
  }

  function PlaceSpans(nLocals: nat, spans: seq<Span>): map<Span, Slots>
  {
    map sp | sp in spans :: ForOff(nLocals, IndexOf(spans, sp))
  }

  function Size(e: Expr): nat
  {
    if !HasAwait(e) then 1
    else
      match e
      case Await(_, _) => 3
      case Adjust(_, inner) => Size(inner) + 1
      case Return(v) => Size(v) + 1
      case Break(v) => Size(v) + 1
      case Logic(_, _, r) => 2 + Size(r)
      case BlockExpr(b) => SizeBlock(b)
      case Loop(b) => SizeBlock(b) + 1
      case While(c, b) => Size(c) + 1 + SizeBlock(b) + 2
      case For(_, _, _, b, d) => (if d.AsyncIter? then 4 else 3) + SizeBlock(b) + (if d.AsyncIter? then 2 else 3)
      case If(_, t, f) => 2 + SizeBlock(t) + 1 + Size(f)
      case Match(_, arms) => 2 + SizeArms(arms)
      case _ => 0
  }

  function SizeArms(arms: Arms): nat
  {
    if arms.NoArms? then 1 else 1 + Size(arms.arm) + 1 + SizeArms(arms.rest)
  }

  function SizeStmt(s: Stmt): nat
  {
    match s
    case Let(_, init) => Size(init) + 1
    case Assign(_, v) => Size(v) + 1
    case ExprStmt(e) => Size(e)
  }

  function SizeBlock(b: Block): nat
  {
    match b
    case Tail(e) => Size(e)
    case Then(s, rest) => SizeStmt(s) + (if TermStmt(s) then 0 else SizeBlock(rest))
  }

  /** Code for `e` placed at `pc`. `brk` and `cont` are the blocks of the innermost
      loop, and `saved` the locals that already have a variable. A block stops at the
      first statement that terminates. */
  function Gen(cx: Ctx, e: Expr, pc: nat, brk: nat, cont: nat, saved: set<LocalId>): (code: seq<Instr>)
    decreases e
  {
    if !HasAwait(e) then [Exec(e, brk, cont)]
    else
      match e
      case Await(sp, f) => [Exec(f, brk, cont), Suspend(SiteNo(cx, sp), saved + Bound(f)), Poll(SiteNo(cx, sp))]
      case Adjust(a, inner) => Gen(cx, inner, pc, brk, cont, saved) + [Coerce(a)]
      case Return(v) => Gen(cx, v, pc, brk, cont, saved) + [Finish]
      case Break(v) => Gen(cx, v, pc, brk, cont, saved) + [Jump(brk)]
      case Logic(isAnd, l, r) =>
        var end := pc + 2 + Size(r);
        [Exec(l, brk, cont), if isAnd then BrUnless(end) else BrIf(end)]
        + Gen(cx, r, pc + 2, brk, cont, saved + Bound(l))
      case BlockExpr(b) => GenBlock(cx, b, pc, brk, cont, saved)
      case Loop(b) => GenBlock(cx, b, pc, pc + SizeBlock(b) + 1, pc, saved) + [Jump(pc)]
      case While(c, b) =>
        var top := pc + Size(c) + 1;
        var exit := top + SizeBlock(b) + 1;
        Gen(cx, c, pc, brk, cont, saved) + [BrUnless(exit)]
        + GenBlock(cx, b, top, exit, pc, saved + Bound(c)) + [Jump(pc), Clear]
      case For(pat, iter, sp, b, d) =>
        if d.AsyncIter? then
          var exit := pc + 4 + SizeBlock(b) + 1;
          [NextAsync(if iter.Local? then iter.x else 0, d.next, brk, cont), Suspend(SiteNo(cx, sp), saved),
           Poll(SiteNo(cx, sp)), TakeItem(d.done, pat, exit)]
          + GenBlock(cx, b, pc + 4, exit, pc, saved + PatSet(pat)) + [Jump(pc), Clear]
        else
          var latch := pc + 3 + SizeBlock(b);
          var exit := latch + 2;
          [Exec(iter, brk, cont), ForSetup(d, SlotsOf(cx, sp)), ForHead(d, pat, SlotsOf(cx, sp), exit, brk, cont)]
          + GenBlock(cx, b, pc + 3, exit, latch, saved + Bound(iter) + PatSet(pat))
          + [ForLatch(d, SlotsOf(cx, sp)), Jump(pc + 2), Clear]
      case If(c, t, f) =>
        var other := pc + 2 + SizeBlock(t) + 1;
        [Exec(c, brk, cont), BrUnless(other)]
        + GenBlock(cx, t, pc + 2, brk, cont, saved + Bound(c)) + [Jump(other + Size(f))]
        + Gen(cx, f, other, brk, cont, saved + Bound(c) + BoundBlock(t))
      case Match(sc, arms) =>
        [Exec(sc, brk, cont), Scrut]
        + GenArms(cx, arms, pc + 2, pc + 2 + SizeArms(arms), brk, cont, saved + Bound(sc))
      case _ => []
  }

  function GenArms(cx: Ctx, arms: Arms, pc: nat, end: nat, brk: nat, cont: nat, saved: set<LocalId>): (code: seq<Instr>)
    decreases arms
  {
    match arms
    case NoArms => [Trap]
    case Arm(pat, guard, body, rest) =>
      var next := pc + 1 + Size(body) + 1;
      var saved' := saved + PatSet(pat) + Bound(guard);
      [TryArm(pat, guard, next, brk, cont)]
      + Gen(cx, body, pc + 1, brk, cont, saved') + [Jump(end)]
      + GenArms(cx, rest, next, end, brk, cont, saved' + Bound(body))
  }

  function GenStmt(cx: Ctx, s: Stmt, pc: nat, brk: nat, cont: nat, saved: set<LocalId>): (code: seq<Instr>)
    decreases s
  {
    match s
    case Let(pat, init) => Gen(cx, init, pc, brk, cont, saved) + [BindTo(pat)]
    case Assign(target, v) => Gen(cx, v, pc, brk, cont, saved) + [StoreTo(target, brk, cont)]
    case ExprStmt(e) => Gen(cx, e, pc, brk, cont, saved)
  }

  function GenBlock(cx: Ctx, b: Block, pc: nat, brk: nat, cont: nat, saved: set<LocalId>): (code: seq<Instr>)
    decreases b
  {
    match b
    case Tail(e) => Gen(cx, e, pc, brk, cont, saved)
    case Then(s, rest) =>
      GenStmt(cx, s, pc, brk, cont, saved)
      + (if TermStmt(s) then [] else GenBlock(cx, rest, pc + SizeStmt(s), brk, cont, saved + BoundStmt(s)))
  }

  // -- the machine -----------------------------------------------------------------

  datatype Answer = Pending | Ready(v: Value)

  function Readys(ans: seq<Answer>): seq<Value>
  {
    if ans == [] then [] else (if ans[0].Ready? then [ans[0].v] else []) + Readys(ans[1..])
  }

  /** What one call of `poll` holds in its own frame. */
  datatype Frame = Frame(acc: Value, scrut: Value, env: Env)

  /** What outlives a call: the state struct, memory, the effects so far, and the
      answers the inner futures have still to give. */
  datatype Shared = Shared(slots: map<nat, Value>, mem: Mem, trace: seq<Event>, answers: seq<Answer>)

  datatype Config =
    | Running(pc: nat, f: Frame, sh: Shared)
    | Idle(sh: Shared)                       // between two calls
    | Finished(v: Value, sh: Shared)
    | Panicked(sh: Shared)
    | Starved(sh: Shared)                    // no further answers
    | Crashed

  /** A generated poll function and the program it belongs to. `fuel` bounds the
      await-free code of one instruction. */
  datatype PollFn = PollFn(pr: Program, cx: Ctx, entry: seq<LocalId>, code: seq<Instr>, fuel: nat)

  function Word(slots: map<nat, Value>, off: nat): Value
  {
    if off in slots then slots[off] else Num(0)
  }

  function AsState(f: Frame, sh: Shared): State
  {
    State(f.env, sh.mem, sh.trace, [], {})
  }

  /** Go on after await-free code: a value falls through, `break`, `continue` and
      `return` leave. */
  function After(r: Out, f: Frame, sh: Shared, next: nat, brk: nat, cont: nat): Config
  {
    var sh' := sh.(mem := r.s.mem, trace := r.s.trace);
    var f' := f.(env := r.s.env);
    match r.ctl
    case Normal(v) => Running(next, f'.(acc := v), sh')
    case Brk(v) => Running(brk, f'.(acc := v), sh')
    case Cont => Running(cont, f', sh')
    case Ret(v) => Finished(v, sh')
    case Panic => Panicked(sh')
    case _ => Crashed
  }

  function Rebind(env: Env, f: Frame, sh: Shared, pat: Pattern, v: Value, next: nat): Config
  {
    match BindPat(env, sh.mem, pat, v)
    case None => Crashed
    case Some(env') => Running(next, f.(env := env'), sh)
  }

  /** Store the variables into their slots; a local without a variable yet stores
      the zero its slot's variable was initialised with. */
  function SaveFrom(slots: map<nat, Value>, locals: seq<LocalId>, i: nat, env: Env,
                    saved: set<LocalId>): map<nat, Value>
    requires i <= |locals|
    decreases |locals| - i
  {
    if i == |locals| then slots
    else SaveFrom(slots[LocalOff(i) := if locals[i] in saved then Get(env, locals[i]) else Num(0)],
                  locals, i + 1, env, saved)
  }

  function LoadAll(slots: map<nat, Value>, locals: seq<LocalId>): Env
  {
    map x | x in locals :: Word(slots, LocalOff(IndexOf(locals, x)))
  }

  /** At the start only the entry locals are loaded; the others are zero. */
  function LoadEntry(slots: map<nat, Value>, locals: seq<LocalId>, entry: seq<LocalId>): Env
  {
    map x | x in locals :: if x in entry then Word(slots, LocalOff(IndexOf(locals, x))) else Num(0)
  }

  /** A loop's cursor in the struct: an iterator has no index, and only a map loop has a
      second pointer. */
  function CursorAt(d: ForDriver, slots: map<nat, Value>, q: Slots): Option<Cursor>
  {
    var second := if d.MapEntries? then Word(slots, q.secondary) else Nil;
    var i := if d.Iterator? then Num(0) else Word(slots, q.index);
    if i.Num? && i.n >= 0 then Some(Cursor(Word(slots, q.primary), second, i.n)) else None
  }

  /** The words that setting up a loop writes. */
  function Filled(d: ForDriver, q: Slots, cur: Cursor, slots: map<nat, Value>): map<nat, Value>
  {
    var first := slots[q.primary := cur.primary];
    var second := if d.MapEntries? then first[q.secondary := cur.secondary] else first;
    if d.Iterator? then second else second[q.index := Num(cur.idx)]
  }

  function PollPc(code: seq<Instr>, n: nat): Option<nat>
  {
    if code == [] then None
    else if code[0] == Poll(n) then Some(0)
    else match PollPc(code[1..], n) case None => None case Some(i) => Some(i + 1)
  }

  /** A call of `poll`: dispatch on the state word. */
  function CallPoll(p: PollFn, sh: Shared): Config
  {
    match Word(sh.slots, 0)
    case Num(n) =>
      if n == 0 then Running(0, Frame(Nil, Nil, LoadEntry(sh.slots, p.cx.locals, p.entry)), sh)
      else if n < 0 then Crashed
      else
        (match PollPc(p.code, n)
         case None => Crashed
         case Some(pc) => Running(pc, Frame(Nil, Nil, LoadAll(sh.slots, p.cx.locals)), sh))
    case _ => Crashed
  }

  function StepInstr(p: PollFn, i: Instr, pc: nat, f: Frame, sh: Shared): Config
  {
    match i
    case Exec(e, brk, cont) => After(Eval(p.pr, e, AsState(f, sh), p.fuel), f, sh, pc + 1, brk, cont)
    case BindTo(pat) => Rebind(f.env, f, sh, pat, f.acc, pc + 1)
    case StoreTo(target, brk, cont) =>
      After(EvalStore(p.pr, target, f.acc, AsState(f, sh), p.fuel), f, sh, pc + 1, brk, cont)
    case Coerce(a) =>
      (match ApplyAdjust(a, f.acc)
       case None => Crashed
       case Some(v) => Running(pc + 1, f.(acc := v), sh))
    case Clear => Running(pc + 1, f.(acc := Nil), sh)
    case Jump(to) => Running(to, f, sh)
    case BrUnless(to) => Running(if Truthy(f.acc) then pc + 1 else to, f, sh)
    case BrIf(to) => Running(if Truthy(f.acc) then to else pc + 1, f, sh)
    case Scrut => Running(pc + 1, f.(scrut := f.acc), sh)
    case TryArm(pat, guard, next, brk, cont) =>
      if !Matches(pat, f.scrut) then Running(next, f, sh)
      else
        (match BindPat(f.env, sh.mem, pat, f.scrut)
         case None => Crashed
         case Some(env') =>
           var g := Eval(p.pr, guard, AsState(f.(env := env'), sh), p.fuel);
           After(g, f, sh, if g.ctl.Normal? && Truthy(g.ctl.v) then pc + 1 else next, brk, cont))
    case Trap => Crashed
    case ForSetup(d, q) =>
      (match ForInit(d, f.acc, sh.mem)
       case None => Crashed
       case Some((c, m')) =>
         Running(pc + 1, f, sh.(mem := m', slots := Filled(d, q, c, sh.slots))))
    case ForHead(d, pat, q, exit, brk, cont) =>
      (match CursorAt(d, sh.slots, q)
       case None => Crashed
       case Some(c) =>
         (match ForStep(p.pr, d, c, AsState(f, sh), p.fuel)
          case Fail(ctl, s') => After(Out(ctl, s'), f, sh, pc + 1, brk, cont)
          case Done(s') => Running(exit, f.(env := s'.env), sh.(mem := s'.mem, trace := s'.trace))
          case Item(v, s') => Rebind(s'.env, f, sh.(mem := s'.mem, trace := s'.trace), pat, v, pc + 1)))
    case ForLatch(d, q) =>
      if d.Iterator? then Running(pc + 1, f, sh)
      else
        (match CursorAt(d, sh.slots, q)
         case None => Crashed
         case Some(c) => Running(pc + 1, f, sh.(slots := sh.slots[q.index := Num(c.idx + 1)])))
    case NextAsync(x, next, brk, cont) =>
      After(CallFn(p.pr, next, [Get(f.env, x)], AsState(f, sh), p.fuel), f, sh, pc + 1, brk, cont)
    case TakeItem(done, pat, exit) =>
      (match ItemOf(f.acc, done, sh.mem)
       case None => Crashed
       case Some(None) => Running(exit, f, sh)
       case Some(Some(v)) => Rebind(f.env, f, sh, pat, v, pc + 1))
    case Suspend(n, saved) =>
      Running(pc + 1, f,
              sh.(slots := SaveFrom(sh.slots, p.cx.locals, 0, f.env, saved)[INNER_OFF := f.acc][0 := Num(n)]))
    case Poll(_) =>
      if sh.answers == [] then Starved(sh)
      else
        (match sh.answers[0]
         case Pending => Idle(sh.(answers := sh.answers[1..]))
         case Ready(v) =>
           Running(pc + 1, f.(acc := v),
                   sh.(answers := sh.answers[1..], trace := sh.trace + [Awaited(Word(sh.slots, INNER_OFF), v)])))
    case Finish => Finished(f.acc, sh)
  }

  function StepConfig(p: PollFn, c: Config): Config
  {
    match c
    case Running(pc, f, sh) => if pc < |p.code| then StepInstr(p, p.code[pc], pc, f, sh) else Crashed
    case Idle(sh) => CallPoll(p, sh)
    case _ => c
  }

  function Run(p: PollFn, c: Config, k: nat): Config
    decreases k
  {
    if k == 0 then c else Run(p, StepConfig(p, c), k - 1)
  }

  lemma {:induction false} RunAdd(p: PollFn, c: Config, j: nat, k: nat)
    ensures Run(p, Run(p, c, j), k) == Run(p, c, j + k)
    decreases j
  {
    if j > 0 {
      RunAdd(p, StepConfig(p, c), j - 1, k);
    }
  }

  /** The whole function: the body, then `emit_return` of its value. */
  function Build(pr: Program, entry: seq<LocalId>, body: Block, fuel: nat): PollFn
  {
    var locals := Locals(entry, body);
    var cx := Ctx(NumberSites(ScanBlock(body)), locals, PlaceSpans(|locals|, ForSpans(body)));
    var code := GenBlock(cx, body, 0, 0, 0, Elems(entry)) + [Finish];
    PollFn(pr, cx, entry, code, fuel)
  }

  /** The constructor's state struct: state 0 and the arguments in their slots. */
  function StoreArgs(slots: map<nat, Value>, i: nat, args: seq<Value>): map<nat, Value>
    decreases args
  {
    if args == [] then slots else StoreArgs(slots[LocalOff(i) := args[0]], i + 1, args[1..])
  }

  function Construct(args: seq<Value>, mem: Mem, answers: seq<Answer>): Config
  {
    Idle(Shared(StoreArgs(map[0 := Num(0)], 0, args), mem, [], answers))
  }

  /** `saved` stands for the loop in `emit_await_suspend` that stores each variable
      into the struct. */
  method SaveLocals(slots: map<nat, Value>, locals: seq<LocalId>, env: Env, saved: set<LocalId>)
    returns (out: map<nat, Value>)
    ensures out == SaveFrom(slots, locals, 0, env, saved)
  {
    out := slots;
    for i := 0 to |locals|
      invariant SaveFrom(out, locals, i, env, saved) == SaveFrom(slots, locals, 0, env, saved)
    {
      out := out[LocalOff(i) := if locals[i] in saved then Get(env, locals[i]) else Num(0)];
    }
  }
}
