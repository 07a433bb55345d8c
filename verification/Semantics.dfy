/**
 A big-step reference semantics of the tree: what running a body straight
 through means. `fuel` bounds calls and loop iterations, so that the evaluator is
 total; a run that needs more ends in `Timeout`, and no theorem speaks about it.
 */
module Semantics {
  import opened Hir

  /** Machine words are `Num`, absent values `Nil`; a union box and an interface
      object are immutable, so they are values and not heap blocks. `Slot(x)` is the
      address of the stack block of local `x` in the current frame. */
  datatype Value =
    | Nil
    | Num(n: int)
    | Ptr(addr: nat)
    | Slot(local: LocalId)
    | Boxed(tid: TypeId, payload: Value)
    | Object(ty: DefId, data: Value)

  type Env = map<LocalId, Value>

  /** Field blocks, by address. `stack` holds the current frame's blocks and `next`
      is the next unused address. */
  datatype Mem = Mem(heap: map<nat, seq<Value>>, stack: map<LocalId, seq<Value>>, next: nat)

  datatype Event = Did(op: nat, args: seq<Value>) | Awaited(fut: Value, out: Value)

  /** `ins` are the values the awaited futures will produce, in order, and `stacked`
      the locals of the running function whose struct lives in its frame. */
  datatype State = State(env: Env, mem: Mem, trace: seq<Event>, ins: seq<Value>, stacked: set<LocalId>)

  datatype Ctl =
    | Normal(v: Value)
    | Brk(v: Value)
    | Cont
    | Ret(v: Value)
    | Panic
    | Wait        // an awaited future that never becomes ready
    | Stuck       // an operation on a value of the wrong shape
    | Timeout

  datatype Out = Out(ctl: Ctl, s: State)
  datatype Outs = Outs(ctl: Ctl, vs: seq<Value>, s: State)

  datatype Func = Func(params: seq<LocalId>, body: Block, stacked: set<LocalId>)

  /** `prim` interprets the scalar operations; `None` is a panic. `impls` is the
      function an interface method means for a concrete type. */
  datatype Program = Program(
    funcs: map<DefId, Func>,
    impls: map<(DefId, DefId), DefId>,
    prim: (nat, seq<Value>) -> Option<int>)

  // -- locals, blocks of memory ---------------------------------------------

  /** Reading an unset variable gives the zero value, as in the generated code. */
  function Get(env: Env, x: LocalId): Value
  {
    if x in env then env[x] else Num(0)
  }

  function SetAll(env: Env, xs: seq<LocalId>, vs: seq<Value>): (r: Env)
    requires |xs| == |vs|
    decreases xs
  {
    if xs == [] then env else SetAll(env[xs[0] := vs[0]], xs[1..], vs[1..])
  }

  predicate HasBlock(m: Mem, p: Value)
  {
    match p
    case Ptr(a) => a in m.heap
    case Slot(x) => x in m.stack
    case _ => false
  }

  function BlockAt(m: Mem, p: Value): seq<Value>
    requires HasBlock(m, p)
  {
    if p.Ptr? then m.heap[p.addr] else m.stack[p.local]
  }

  function PutBlock(m: Mem, p: Value, vs: seq<Value>): Mem
    requires HasBlock(m, p)
  {
    if p.Ptr? then m.(heap := m.heap[p.addr := vs]) else m.(stack := m.stack[p.local := vs])
  }

  /** A fresh heap block. */
  function Alloc(m: Mem, vs: seq<Value>): (Mem, Value)
  {
    (m.(heap := m.heap[m.next := vs], next := m.next + 1), Ptr(m.next))
  }

  /** The frame's block for `x`, overwritten. The address it would have had on the
      heap stays unused, so that heap addresses do not depend on the choice. */
  function AllocSlot(m: Mem, x: LocalId, vs: seq<Value>): (Mem, Value)
  {
    (m.(stack := m.stack[x := vs], next := m.next + 1), Slot(x))
  }

  /** What a closure keeps of the locals it captures. */
  function ValuesOf(env: Env, caps: seq<LocalId>): (vs: seq<Value>)
    ensures |vs| == |caps| && forall i | 0 <= i < |caps| :: vs[i] == Get(env, caps[i])
  {
    seq(|caps|, i requires 0 <= i < |caps| => Get(env, caps[i]))
  }

  predicate Truthy(v: Value)
  {
    v != Num(0) && v != Nil
  }

  // -- patterns, casts -------------------------------------------------------

  predicate Matches(p: Pattern, v: Value)
  {
    match p
    case Lit(n) => v == Num(n)
    case TypeTest(tids, _) => v.Boxed? && v.tid in tids
    case _ => true
  }

  function BindFields(env: Env, fs: seq<Option<LocalId>>, vs: seq<Value>): Env
    requires |fs| <= |vs|
    decreases fs
  {
    if fs == [] then env
    else BindFields(if fs[0].Some? then env[fs[0].value := vs[0]] else env, fs[1..], vs[1..])
  }

  /** Bind a pattern that matches; `None` when the value has the wrong shape. */
  function BindPat(env: Env, m: Mem, p: Pattern, v: Value): Option<Env>
  {
    match p
    case Bind(x) => Some(env[x := v])
    case TypeTest(_, Some(x)) => if v.Boxed? then Some(env[x := v.payload]) else None
    case Record(fs) =>
      if HasBlock(m, v) && |fs| <= |BlockAt(m, v)| then Some(BindFields(env, fs, BlockAt(m, v))) else None
    case _ => Some(env)
  }

  function ApplyAdjust(a: Adjustment, v: Value): Option<Value>
  {
    match a
    case Widen(None) => Some(v)
    case Widen(Some(t)) => Some(Boxed(t, v))
    case Unbox => if v.Boxed? then Some(v.payload) else None
    case WidenDyn(ty) => Some(Object(ty, v))
  }

  /** The type id a union box or interface object carries. */
  function TagOf(v: Value): Option<TypeId>
  {
    match v
    case Boxed(t, _) => Some(t)
    case Object(ty, _) => Some(1000 + ty)
    case _ => None
  }

  function ApplyCast(op: CastOp, tids: seq<TypeId>, unbox: bool, v: Value): Ctl
  {
    match TagOf(v)
    case None => Stuck
    case Some(t) =>
      if op.Is? then Normal(Num(if t in tids then 1 else 0))
      else if t !in tids then Panic
      else if !unbox then Normal(v)
      else Normal(if v.Boxed? then v.payload else v.data)
  }

  // -- for loops -------------------------------------------------------------

  /** The even positions of a map block: its keys, in order. */
  function MapKeys(kvs: seq<Value>): seq<Value>
  {
    if |kvs| < 2 then [] else [kvs[0]] + MapKeys(kvs[2..])
  }

  function MapIndex(kvs: seq<Value>, k: Value): Option<Value>
  {
    if |kvs| < 2 then None
    else if kvs[0] == k then Some(kvs[1])
    else MapIndex(kvs[2..], k)
  }

  /** Iteration state of an ordinary `for`: what must survive from one step to the
      next. */
  datatype Cursor = Cursor(primary: Value, secondary: Value, idx: nat)

  /** On to the next round; an iterator keeps its own place. */
  function Advance(d: ForDriver, c: Cursor): Cursor
  {
    if d.Iterator? then c else c.(idx := c.idx + 1)
  }

  function ForInit(d: ForDriver, v: Value, m: Mem): Option<(Cursor, Mem)>
  {
    match d
    case MapEntries =>
      if !HasBlock(m, v) then None
      else
        var (m', keys) := Alloc(m, MapKeys(BlockAt(m, v)));
        Some((Cursor(keys, v, 0), m'))
    case _ => Some((Cursor(v, Nil, 0), m))
  }

  /** Whether `u`, the answer of an iterator's `next`, is an item, and which. */
  function ItemOf(u: Value, done: TypeId, m: Mem): Option<Option<Value>>
  {
    if !u.Boxed? then None
    else if u.tid == done then Some(None)
    else if HasBlock(m, u.payload) && |BlockAt(m, u.payload)| > 0 then Some(Some(BlockAt(m, u.payload)[0]))
    else None
  }

  datatype Step = Item(v: Value, s: State) | Done(s: State) | Fail(ctl: Ctl, s: State)

  /** A callee frame starts from its parameters only; the caller's comes back. */
  function Enter(s: State, f: Func, vs: seq<Value>): State
    requires |f.params| == |vs|
  {
    s.(env := SetAll(map[], f.params, vs), mem := s.mem.(stack := map[]), stacked := f.stacked)
  }

  function Leave(caller: State, callee: State): State
  {
    callee.(env := caller.env, mem := callee.mem.(stack := caller.mem.stack), stacked := caller.stacked)
  }

  // -- the evaluator ---------------------------------------------------------

  function CallFn(pr: Program, def: DefId, vs: seq<Value>, s: State, fuel: nat): (r: Out)
    decreases fuel, ENil, 1
  {
    if def !in pr.funcs || |pr.funcs[def].params| != |vs| then Out(Stuck, s)
    else if fuel == 0 then Out(Timeout, s)
    else
      var f := pr.funcs[def];
      var r := EvalBlock(pr, f.body, Enter(s, f, vs), fuel - 1);
      var back := Leave(s, r.s);
      match r.ctl
      case Ret(v) => Out(Normal(v), back)
      case Brk(_) => Out(Stuck, back)
      case Cont => Out(Stuck, back)
      case _ => Out(r.ctl, back)
  }

  function Dispatch(pr: Program, c: Callee, vs: seq<Value>): Option<(DefId, seq<Value>)>
  {
    match c
    case Direct(d) => Some((d, vs))
    case Virtual(m) =>
      if |vs| > 0 && vs[0].Object? && (vs[0].ty, m) in pr.impls
      then Some((pr.impls[(vs[0].ty, m)], [vs[0].data] + vs[1..]))
      else None
    case Known(d) => if |vs| > 0 && vs[0].Object? then Some((d, [vs[0].data] + vs[1..])) else None
  }

  function ForStep(pr: Program, d: ForDriver, c: Cursor, s: State, fuel: nat): (r: Step)
    decreases fuel, ENil, 2
  {
    match d
    case ListFast =>
      if !HasBlock(s.mem, c.primary) then Fail(Stuck, s)
      else if c.idx < |BlockAt(s.mem, c.primary)| then Item(BlockAt(s.mem, c.primary)[c.idx], s)
      else Done(s)
    case MapEntries =>
      if !HasBlock(s.mem, c.primary) || !HasBlock(s.mem, c.secondary) then Fail(Stuck, s)
      else if c.idx >= |BlockAt(s.mem, c.primary)| then Done(s)
      else
        var key := BlockAt(s.mem, c.primary)[c.idx];
        (match MapIndex(BlockAt(s.mem, c.secondary), key)
         case None => Fail(Panic, s)
         case Some(v) =>
           var (m', entry) := Alloc(s.mem, [key, v]);
           Item(entry, s.(mem := m')))
    case Iterator(next, done) =>
      var r := CallFn(pr, next, [c.primary], s, fuel);
      if !r.ctl.Normal? then Fail(r.ctl, r.s)
      else
        (match ItemOf(r.ctl.v, done, r.s.mem)
         case None => Fail(Stuck, r.s)
         case Some(None) => Done(r.s)
         case Some(Some(v)) => Item(v, r.s))
    case AsyncIter(_, _) => Fail(Stuck, s)
  }

  function DoAwait(fut: Value, s: State): (r: Out)
  {
    if s.ins == [] then Out(Wait, s)
    else Out(Normal(s.ins[0]), s.(trace := s.trace + [Awaited(fut, s.ins[0])], ins := s.ins[1..]))
  }

  function Eval(pr: Program, e: Expr, s: State, fuel: nat): (r: Out)
    decreases fuel, e, 0
  {
    match e
    case Int(n) => Out(Normal(Num(n)), s)
    case Null => Out(Normal(Nil), s)
    case Local(x) => Out(Normal(Get(s.env, x)), s)
    case Closure(caps) =>
      var (m', p) := Alloc(s.mem, ValuesOf(s.env, caps));
      Out(Normal(p), s.(mem := m'))
    case Prim(op, args) =>
      var r := EvalArgs(pr, args, s, fuel);
      if !r.ctl.Normal? then Out(r.ctl, r.s)
      else
        var s' := r.s.(trace := r.s.trace + [Did(op, r.vs)]);
        (match pr.prim(op, r.vs)
         case None => Out(Panic, s')
         case Some(n) => Out(Normal(Num(n)), s'))
    case Logic(isAnd, l, rt) =>
      var r := Eval(pr, l, s, fuel);
      if !r.ctl.Normal? || Truthy(r.ctl.v) != isAnd then r
      else Eval(pr, rt, r.s, fuel)
    case Call(callee, args) =>
      var r := EvalArgs(pr, args, s, fuel);
      if !r.ctl.Normal? then Out(r.ctl, r.s)
      else
        (match Dispatch(pr, callee, r.vs)
         case None => Out(Stuck, r.s)
         case Some((d, vs)) => if fuel == 0 then Out(Timeout, r.s) else CallFn(pr, d, vs, r.s, fuel - 1))
    case Struct(_, fields) =>
      var r := EvalArgs(pr, fields, s, fuel);
      if !r.ctl.Normal? then Out(r.ctl, r.s)
      else
        var (m', p) := Alloc(r.s.mem, r.vs);
        Out(Normal(p), r.s.(mem := m'))
    case Field(recv, idx) =>
      var r := Eval(pr, recv, s, fuel);
      if !r.ctl.Normal? then r
      else if HasBlock(r.s.mem, r.ctl.v) && idx < |BlockAt(r.s.mem, r.ctl.v)|
      then Out(Normal(BlockAt(r.s.mem, r.ctl.v)[idx]), r.s)
      else Out(Stuck, r.s)
    case Append(list, item) =>
      var r := Eval(pr, list, s, fuel);
      if !r.ctl.Normal? then r
      else
        var q := Eval(pr, item, r.s, fuel);
        if !q.ctl.Normal? then q
        else if HasBlock(q.s.mem, r.ctl.v)
        then Out(Normal(Nil), q.s.(mem := PutBlock(q.s.mem, r.ctl.v, BlockAt(q.s.mem, r.ctl.v) + [q.ctl.v])))
        else Out(Stuck, q.s)
    case Adjust(a, inner) =>
      var r := Eval(pr, inner, s, fuel);
      if !r.ctl.Normal? then r
      else
        (match ApplyAdjust(a, r.ctl.v)
         case None => Out(Stuck, r.s)
         case Some(v) => Out(Normal(v), r.s))
    case Cast(op, inner, tids, unbox) =>
      var r := Eval(pr, inner, s, fuel);
      if !r.ctl.Normal? then r else Out(ApplyCast(op, tids, unbox, r.ctl.v), r.s)
    case Await(_, fut) =>
      var r := Eval(pr, fut, s, fuel);
      if !r.ctl.Normal? then r else DoAwait(r.ctl.v, r.s)
    case If(cond, thn, els) =>
      var r := Eval(pr, cond, s, fuel);
      if !r.ctl.Normal? then r
      else if Truthy(r.ctl.v) then EvalBlock(pr, thn, r.s, fuel)
      else Eval(pr, els, r.s, fuel)
    case Match(scrut, arms) =>
      var r := Eval(pr, scrut, s, fuel);
      if !r.ctl.Normal? then r else EvalArms(pr, arms, r.ctl.v, r.s, fuel)
    case BlockExpr(b) => EvalBlock(pr, b, s, fuel)
    case Loop(body) =>
      var r := EvalBlock(pr, body, s, fuel);
      if r.ctl.Brk? then Out(Normal(r.ctl.v), r.s)
      else if !r.ctl.Normal? && !r.ctl.Cont? then r
      else if fuel == 0 then Out(Timeout, r.s)
      else Eval(pr, e, r.s, fuel - 1)
    case While(cond, body) =>
      var c := Eval(pr, cond, s, fuel);
      if !c.ctl.Normal? then c
      else if !Truthy(c.ctl.v) then Out(Normal(Nil), c.s)
      else
        var r := EvalBlock(pr, body, c.s, fuel);
        if r.ctl.Brk? then Out(Normal(Nil), r.s)
        else if !r.ctl.Normal? && !r.ctl.Cont? then r
        else if fuel == 0 then Out(Timeout, r.s)
        else Eval(pr, e, r.s, fuel - 1)
    case For(pat, iter, _, body, driver) =>
      if driver.AsyncIter? then
        if !iter.Local? then Out(Stuck, s)
        else EvalForAwait(pr, iter.x, driver, pat, body, s, fuel)
      else
        var r := Eval(pr, iter, s, fuel);
        if !r.ctl.Normal? then r
        else
          (match ForInit(driver, r.ctl.v, r.s.mem)
           case None => Out(Stuck, r.s)
           case Some((c, m')) => EvalFor(pr, driver, pat, body, c, r.s.(mem := m'), fuel))
    case Return(v) =>
      var r := Eval(pr, v, s, fuel);
      if !r.ctl.Normal? then r else Out(Ret(r.ctl.v), r.s)
    case Break(v) =>
      var r := Eval(pr, v, s, fuel);
      if !r.ctl.Normal? then r else Out(Brk(r.ctl.v), r.s)
    case Continue => Out(Cont, s)
  }

  function EvalArgs(pr: Program, es: Exprs, s: State, fuel: nat): (r: Outs)
    decreases fuel, es, 0
  {
    match es
    case ENil => Outs(Normal(Nil), [], s)
    case ECons(head, tail) =>
      var h := Eval(pr, head, s, fuel);
      if !h.ctl.Normal? then Outs(h.ctl, [], h.s)
      else
        var t := EvalArgs(pr, tail, h.s, fuel);
        if !t.ctl.Normal? then t else Outs(t.ctl, [h.ctl.v] + t.vs, t.s)
  }

  function EvalArms(pr: Program, arms: Arms, v: Value, s: State, fuel: nat): (r: Out)
    decreases fuel, arms, 0
  {
    match arms
    case NoArms => Out(Stuck, s)
    case Arm(pat, guard, body, rest) =>
      if !Matches(pat, v) then EvalArms(pr, rest, v, s, fuel)
      else
        (match BindPat(s.env, s.mem, pat, v)
         case None => Out(Stuck, s)
         case Some(env') =>
           var g := Eval(pr, guard, s.(env := env'), fuel);
           if !g.ctl.Normal? then g
           else if Truthy(g.ctl.v) then Eval(pr, body, g.s, fuel)
           else EvalArms(pr, rest, v, g.s, fuel))
  }

  /** Store into an assignment target; the value was evaluated before it. */
  function EvalStore(pr: Program, target: Expr, v: Value, s: State, fuel: nat): (r: Out)
    decreases fuel, target, 1
  {
    match target
    case Local(x) => Out(Normal(Nil), s.(env := s.env[x := v]))
    case Field(recv, idx) =>
      var r := Eval(pr, recv, s, fuel);
      if !r.ctl.Normal? then r
      else if HasBlock(r.s.mem, r.ctl.v) && idx < |BlockAt(r.s.mem, r.ctl.v)|
      then Out(Normal(Nil), r.s.(mem := PutBlock(r.s.mem, r.ctl.v, BlockAt(r.s.mem, r.ctl.v)[idx := v])))
      else Out(Stuck, r.s)
    case Null => Out(Normal(Nil), s)               // `_ = v`
    case _ => Out(Stuck, s)
  }

  /** A `let` of a record literal into a local of `stacked` zeroes the frame's block,
      evaluates the fields and fills it. */
  function EvalInit(pr: Program, pat: Pattern, init: Expr, s: State, fuel: nat): (r: Out)
    decreases fuel, init, 1
  {
    if pat.Bind? && init.Struct? && pat.local in s.stacked then
      var blank := seq(Length(init.fields), _ => Num(0));
      var r := EvalArgs(pr, init.fields, s.(mem := s.mem.(stack := s.mem.stack[pat.local := blank])), fuel);
      if !r.ctl.Normal? then Out(r.ctl, r.s)
      else
        var (m', p) := AllocSlot(r.s.mem, pat.local, r.vs);
        Out(Normal(p), r.s.(mem := m'))
    else Eval(pr, init, s, fuel)
  }

  function EvalStmt(pr: Program, st: Stmt, s: State, fuel: nat): (r: Out)
    decreases fuel, st, 0
  {
    match st
    case Let(pat, init) =>
      var r := EvalInit(pr, pat, init, s, fuel);
      if !r.ctl.Normal? then r
      else
        (match BindPat(r.s.env, r.s.mem, pat, r.ctl.v)
         case None => Out(Stuck, r.s)
         case Some(env') => Out(Normal(Nil), r.s.(env := env')))
    case Assign(target, value) =>
      var r := Eval(pr, value, s, fuel);
      if !r.ctl.Normal? then r else EvalStore(pr, target, r.ctl.v, r.s, fuel)
    case ExprStmt(e) => Eval(pr, e, s, fuel)
  }

  function EvalBlock(pr: Program, b: Block, s: State, fuel: nat): (r: Out)
    decreases fuel, b, 0
  {
    match b
    case Tail(e) => Eval(pr, e, s, fuel)
    case Then(st, rest) =>
      var r := EvalStmt(pr, st, s, fuel);
      if !r.ctl.Normal? then r else EvalBlock(pr, rest, r.s, fuel)
  }

  function EvalFor(pr: Program, d: ForDriver, pat: Pattern, body: Block, c: Cursor, s: State, fuel: nat): (r: Out)
    decreases fuel, body, 1
  {
    if fuel == 0 then Out(Timeout, s)
    else
      match ForStep(pr, d, c, s, fuel - 1)
      case Fail(ctl, s') => Out(ctl, s')
      case Done(s') => Out(Normal(Nil), s')
      case Item(v, s') =>
        match BindPat(s'.env, s'.mem, pat, v)
        case None => Out(Stuck, s')
        case Some(env') =>
          var r := EvalBlock(pr, body, s'.(env := env'), fuel - 1);
          if r.ctl.Brk? then Out(Normal(Nil), r.s)
          else if !r.ctl.Normal? && !r.ctl.Cont? then r
          else EvalFor(pr, d, pat, body, Advance(d, c), r.s, fuel - 1)
  }

  /** `for await`: the stream variable is read again and its `next_async` awaited at
      every step. */
  function EvalForAwait(pr: Program, x: LocalId, d: ForDriver, pat: Pattern, body: Block, s: State, fuel: nat): (r: Out)
    requires d.AsyncIter?
    decreases fuel, body, 1
  {
    if fuel == 0 then Out(Timeout, s)
    else
      var f := CallFn(pr, d.next, [Get(s.env, x)], s, fuel - 1);
      if !f.ctl.Normal? then f
      else
        var a := DoAwait(f.ctl.v, f.s);
        if !a.ctl.Normal? then a
        else
          match ItemOf(a.ctl.v, d.done, a.s.mem)
          case None => Out(Stuck, a.s)
          case Some(None) => Out(Normal(Nil), a.s)
          case Some(Some(v)) =>
            match BindPat(a.s.env, a.s.mem, pat, v)
            case None => Out(Stuck, a.s)
            case Some(env') =>
              var r := EvalBlock(pr, body, a.s.(env := env'), fuel - 1);
              if r.ctl.Brk? then Out(Normal(Nil), r.s)
              else if !r.ctl.Normal? && !r.ctl.Cont? then r
              else EvalForAwait(pr, x, d, pat, body, r.s, fuel - 1)
  }
}
