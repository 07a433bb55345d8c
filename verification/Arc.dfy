/**
 Strong counts of `@RefCounted` structs, as code generation maintains them: a run of
 the tree in which every retain and release is an explicit step, and touching a freed
 object is the outcome `Bad`.
 */
module Arc {
  import opened Hir
  import opened Scan

  /** `Ref` points to a `@RefCounted` struct and `Gc` to an ordinary one, so a value
      shows whether its static type is reference counted. */
  datatype Value = Nil | Num(n: int) | Ref(a: nat) | Gc(g: nat)

  /** An ordinary struct is left to the collector and never freed here. */
  datatype Obj = Counted(count: nat, fields: seq<Value>) | Plain(fields: seq<Value>) | Freed

  type Env = map<LocalId, Value>

  datatype State = State(env: Env, objs: seq<Obj>)

  datatype Ctl = Normal(v: Value) | Brk(v: Value) | Cont | Ret(v: Value) | Panic | Stuck | Timeout | Bad

  datatype Out = Out(ctl: Ctl, st: State)
  datatype Outs = Outs(ctl: Ctl, vs: seq<Value>, st: State)

  datatype Func = Func(params: seq<LocalId>, body: Block)

  datatype Program = Program(funcs: map<DefId, Func>, counted: set<DefId>, prim: (nat, seq<Value>) -> Option<int>)

  // -- the runtime ---------------------------------------------------------------

  function Get(env: Env, x: LocalId): Value
  {
    if x in env then env[x] else Num(0)
  }

  function Bindings(env: Env, xs: seq<LocalId>, vs: seq<Value>): Env
    requires |xs| == |vs|
    decreases xs
  {
    if xs == [] then env else Bindings(env[xs[0] := vs[0]], xs[1..], vs[1..])
  }

  function FieldsOf(o: Obj): seq<Value>
  {
    if o.Freed? then [] else o.fields
  }

  datatype Look = Fields(vs: seq<Value>) | Dangling | NoBlock

  function Deref(objs: seq<Obj>, v: Value): Look
  {
    match v
    case Ref(a) => if a < |objs| && objs[a].Counted? then Fields(objs[a].fields) else Dangling
    case Gc(a) => if a < |objs| && objs[a].Plain? then Fields(objs[a].fields) else NoBlock
    case _ => NoBlock
  }

  /** `lang_rc_retain`: `None` when the object is gone. */
  function Retain(objs: seq<Obj>, v: Value): Option<seq<Obj>>
  {
    if !v.Ref? then Some(objs)
    else if v.a < |objs| && objs[v.a].Counted? then Some(objs[v.a := objs[v.a].(count := objs[v.a].count + 1)])
    else None
  }

  function LiveObjs(objs: seq<Obj>): nat
  {
    if objs == [] then 0 else LiveObjs(objs[..|objs| - 1]) + (if objs[|objs| - 1].Counted? then 1 else 0)
  }

  lemma {:induction false} LiveUpdate(objs: seq<Obj>, i: nat, o: Obj)
    requires i < |objs| && objs[i].Counted?
    ensures LiveObjs(objs[i := o]) == LiveObjs(objs) - (if o.Counted? then 0 else 1)
    decreases |objs|
  {
    var n := |objs| - 1;
    if i < n {
      assert objs[i := o][..n] == objs[..n][i := o];
      LiveUpdate(objs[..n], i, o);
    } else {
      assert objs[i := o][..n] == objs[..n];
    }
  }

  /** `lang_rc_release`: the last reference frees the object and releases what its
      fields hold. `None` when the object is gone already. */
  function Release(objs: seq<Obj>, v: Value): (r: Option<seq<Obj>>)
    ensures r.Some? ==> |r.value| == |objs| && LiveObjs(r.value) <= LiveObjs(objs)
    decreases LiveObjs(objs), 0, 0
  {
    if !v.Ref? then Some(objs)
    else if v.a >= |objs| || !objs[v.a].Counted? || objs[v.a].count == 0 then None
    else
      var o := objs[v.a];
      if o.count > 1 then
        LiveUpdate(objs, v.a, o.(count := o.count - 1));
        Some(objs[v.a := o.(count := o.count - 1)])
      else
        LiveUpdate(objs, v.a, Freed);
        ReleaseAll(objs[v.a := Freed], o.fields)
  }

  function ReleaseAll(objs: seq<Obj>, vs: seq<Value>): (r: Option<seq<Obj>>)
    ensures r.Some? ==> |r.value| == |objs| && LiveObjs(r.value) <= LiveObjs(objs)
    decreases LiveObjs(objs), 1, |vs|
  {
    if vs == [] then Some(objs)
    else
      match Release(objs, vs[0])
      case None => None
      case Some(objs') => ReleaseAll(objs', vs[1..])
  }

  // -- what code generation knows ------------------------------------------------------

  /** Constructions and calls yield a fresh `+1`; everything else is a borrow. */
  predicate Owned(e: Expr)
  {
    e.Struct? || e.Call?
  }

  /** The owned-locals list after generating `e`, in generation order. */
  function Own(e: Expr, o: seq<LocalId>): seq<LocalId>
    decreases e
  {
    match e
    case Prim(_, args) => OwnArgs(args, o)
    case Logic(_, l, r) => Own(r, Own(l, o))
    case Call(_, args) => OwnArgs(args, o)
    case Struct(_, fields) => OwnArgs(fields, o)
    case Field(recv, _) => Own(recv, o)
    case Append(l, i) => Own(i, Own(l, o))
    case If(c, t, f) => Own(f, OwnBlock(t, Own(c, o)))
    case Match(sc, arms) => OwnArms(arms, Own(sc, o))
    case BlockExpr(b) => OwnBlock(b, o)
    case Loop(b) => OwnBlock(b, o)
    case While(c, b) => OwnBlock(b, Own(c, o))
    case For(pat, iter, _, b, _) => OwnBlock(b, PushAll(Own(iter, o), PatLocals(pat)))
    case Return(v) => Own(v, o)
    case Break(v) => Own(v, o)
    case _ => o
  }

  function OwnArgs(es: Exprs, o: seq<LocalId>): seq<LocalId>
    decreases es
  {
    if es.ENil? then o else OwnArgs(es.tail, Own(es.head, o))
  }

  function OwnArms(arms: Arms, o: seq<LocalId>): seq<LocalId>
    decreases arms
  {
    if arms.NoArms? then o else OwnArms(arms.rest, Own(arms.arm, Own(arms.guard, ArmOwn(arms.pat, o))))
  }

  /** A destructuring arm takes its fields as a `let` does; an arm that binds the whole value
      only borrows it. */
  function ArmOwn(pat: Pattern, o: seq<LocalId>): seq<LocalId>
  {
    if pat.Record? then PushAll(o, PatLocals(pat)) else o
  }

  function OwnStmt(st: Stmt, o: seq<LocalId>): seq<LocalId>
    decreases st
  {
    match st
    case Let(pat, init) => PushAll(Own(init, o), PatLocals(pat))
    case Assign(t, v) => Own(t, Own(v, o))
    case ExprStmt(e) => Own(e, o)
  }

  /** Generation stops at the first statement that terminates. */
  function OwnBlock(b: Block, o: seq<LocalId>): seq<LocalId>
    decreases b
  {
    match b
    case Tail(e) => Own(e, o)
    case Then(st, rest) => if TermStmt(st) then OwnStmt(st, o) else OwnBlock(rest, OwnStmt(st, o))
  }

  /** The expression whose value the block has. */
  function LastOf(b: Block): Expr
  {
    if b.Tail? then b.e else LastOf(b.rest)
  }

  // -- the instrumented run -----------------------------------------------------------------

  predicate Truthy(v: Value)
  {
    v != Num(0) && v != Nil
  }

  predicate Matches(p: Pattern, v: Value)
  {
    p.Lit? ==> v == Num(p.value)
  }

  function Lift(r: Option<seq<Obj>>, c: Ctl, st: State): Out
  {
    match r
    case None => Out(Bad, st)
    case Some(objs) => Out(c, st.(objs := objs))
  }

  /** Take a value that is about to be stored: a borrowed one is retained. */
  function Take(owned: bool, v: Value, st: State): Out
  {
    if owned then Out(Normal(v), st) else Lift(Retain(st.objs, v), Normal(v), st)
  }

  /** `rc_manage_bind` and `bind_local`; `o` tells whether the local is bound again. */
  function BindLocal(x: LocalId, v: Value, owned: bool, o: seq<LocalId>, st: State): Out
  {
    var t := Take(owned, v, st);
    if !t.ctl.Normal? then t
    else
      match if x in o then Release(t.st.objs, Get(t.st.env, x)) else Some(t.st.objs)
      case None => Out(Bad, t.st)
      case Some(objs) => Out(Normal(Nil), State(t.st.env[x := v], objs))
  }

  /** Destructuring from field `i` on: each field is loaded and bound as a borrow. */
  function BindRecord(fs: seq<Option<LocalId>>, i: nat, p: Value, o: seq<LocalId>, st: State): Out
    requires i <= |fs|
    decreases |fs| - i
  {
    if i == |fs| then Out(Normal(Nil), st)
    else
      match Deref(st.objs, p)
      case Dangling => Out(Bad, st)
      case NoBlock => Out(Stuck, st)
      case Fields(vs) =>
        if i >= |vs| then Out(Stuck, st)
        else if fs[i].None? then BindRecord(fs, i + 1, p, o, st)
        else
          var r := BindLocal(fs[i].value, vs[i], false, o, st);
          if !r.ctl.Normal? then r else BindRecord(fs, i + 1, p, Push(o, fs[i].value), r.st)
  }

  /** `h_bind_pattern`. */
  function BindPat(pat: Pattern, v: Value, owned: bool, o: seq<LocalId>, st: State): Out
  {
    match pat
    case Bind(x) => BindLocal(x, v, owned, o, st)
    case Wild => Out(Normal(Nil), st)
    case Record(fs) => BindRecord(fs, 0, v, o, st)
    case _ => Out(Stuck, st)
  }

  /** `h_bind_match_pattern`: the whole value is bound without a reference. */
  function ArmBind(pat: Pattern, v: Value, o: seq<LocalId>, st: State): Out
  {
    match pat
    case Bind(x) => Out(Normal(Nil), st.(env := st.env[x := v]))
    case Lit(_) => Out(Normal(Nil), st)
    case _ => BindPat(pat, v, false, o, st)
  }

  /** Lists are left to the collector, like ordinary structs. */
  function ListAt(objs: seq<Obj>, p: Value): Option<seq<Value>>
  {
    if p.Gc? && p.g < |objs| && objs[p.g].Plain? then Some(objs[p.g].fields) else None
  }

  /** `elem_to_i64` and the push: the item is retained, whether it is a borrow or not. */
  function AppendTo(p: Value, v: Value, st: State): Out
  {
    match ListAt(st.objs, p)
    case None => Out(Stuck, st)
    case Some(vs) =>
      match Retain(st.objs, v)
      case None => Out(Bad, st)
      case Some(objs) => Out(Normal(Nil), st.(objs := objs[p.g := Obj.Plain(vs + [v])]))
  }

  function ReleaseLocals(o: seq<LocalId>, st: State): Option<seq<Obj>>
    decreases o
  {
    if o == [] then Some(st.objs)
    else
      match Release(st.objs, Get(st.env, o[|o| - 1]))
      case None => None
      case Some(objs) => ReleaseLocals(o[..|o| - 1], st.(objs := objs))
  }

  /** `rc_return_value` and `emit_return`: a borrowed result is retained, then the owned
      locals are released in reverse and the frame is gone. */
  function Leave(owned: bool, v: Value, o: seq<LocalId>, st: State): Out
  {
    var t := Take(owned, v, st);
    if !t.ctl.Normal? then t else Lift(ReleaseLocals(o, t.st), Ret(v), t.st.(env := map[]))
  }

  function CallFn(pr: Program, d: DefId, vs: seq<Value>, st: State, fuel: nat): Out
    decreases fuel, ENil, 1
  {
    if d !in pr.funcs || |pr.funcs[d].params| != |vs| then Out(Stuck, st)
    else if fuel == 0 then Out(Timeout, st)
    else
      var f := pr.funcs[d];
      var b := EvalBlock(pr, f.body, [], st.(env := Bindings(map[], f.params, vs)), fuel - 1);
      var r := if b.ctl.Normal? then Leave(Owned(LastOf(f.body)), b.ctl.v, OwnBlock(f.body, []), b.st) else b;
      var back := State(st.env, r.st.objs);
      match r.ctl
      case Ret(v) => Out(Normal(v), back)
      case Brk(_) => Out(Stuck, back)
      case Cont => Out(Stuck, back)
      case _ => Out(r.ctl, back)
  }

  function Eval(pr: Program, e: Expr, o: seq<LocalId>, st: State, fuel: nat): Out
    decreases fuel, e, 0
  {
    match e
    case Int(n) => Out(Normal(Num(n)), st)
    case Null => Out(Normal(Nil), st)
    case Local(x) => Out(Normal(Get(st.env, x)), st)
    case Prim(op, args) =>
      var r := EvalArgs(pr, args, o, st, fuel);
      if !r.ctl.Normal? then Out(r.ctl, r.st)
      else
        (match pr.prim(op, r.vs)
         case None => Out(Panic, r.st)
         case Some(n) => Out(Normal(Num(n)), r.st))
    case Logic(isAnd, l, rt) =>
      var r := Eval(pr, l, o, st, fuel);
      if !r.ctl.Normal? || Truthy(r.ctl.v) != isAnd then r else Eval(pr, rt, Own(l, o), r.st, fuel)
    case Call(callee, args) =>
      var r := EvalArgs(pr, args, o, st, fuel);
      if !r.ctl.Normal? then Out(r.ctl, r.st)
      else if !callee.Direct? then Out(Stuck, r.st)
      else if fuel == 0 then Out(Timeout, r.st)
      else CallFn(pr, callee.def, r.vs, r.st, fuel - 1)
    case Struct(def, fields) =>
      var r := EvalFields(pr, fields, o, st, fuel);
      if !r.ctl.Normal? then Out(r.ctl, r.st)
      else if def in pr.counted then Out(Normal(Ref(|r.st.objs|)), r.st.(objs := r.st.objs + [Counted(1, r.vs)]))
      else Out(Normal(Gc(|r.st.objs|)), r.st.(objs := r.st.objs + [Plain(r.vs)]))
    case Field(recv, idx) =>
      var r := Eval(pr, recv, o, st, fuel);
      if !r.ctl.Normal? then r
      else
        (match Deref(r.st.objs, r.ctl.v)
         case Dangling => Out(Bad, r.st)
         case NoBlock => Out(Stuck, r.st)
         case Fields(vs) => if idx < |vs| then Out(Normal(vs[idx]), r.st) else Out(Stuck, r.st))
    case Append(l, item) =>
      var r := Eval(pr, l, o, st, fuel);
      if !r.ctl.Normal? then r
      else
        var q := Eval(pr, item, Own(l, o), r.st, fuel);
        if !q.ctl.Normal? then q else AppendTo(r.ctl.v, q.ctl.v, q.st)
    case If(c, t, f) =>
      var r := Eval(pr, c, o, st, fuel);
      if !r.ctl.Normal? then r
      else if Truthy(r.ctl.v) then EvalBlock(pr, t, Own(c, o), r.st, fuel)
      else Eval(pr, f, OwnBlock(t, Own(c, o)), r.st, fuel)
    case Match(sc, arms) =>
      var r := Eval(pr, sc, o, st, fuel);
      if !r.ctl.Normal? then r else EvalArms(pr, arms, r.ctl.v, Own(sc, o), r.st, fuel)
    case BlockExpr(b) => EvalBlock(pr, b, o, st, fuel)
    case Loop(b) =>
      var r := EvalBlock(pr, b, o, st, fuel);
      if r.ctl.Brk? then Out(Normal(r.ctl.v), r.st)
      else if !r.ctl.Normal? && !r.ctl.Cont? then r
      else if fuel == 0 then Out(Timeout, r.st)
      else Eval(pr, e, o, r.st, fuel - 1)
    case While(c, b) =>
      var q := Eval(pr, c, o, st, fuel);
      if !q.ctl.Normal? then q
      else if !Truthy(q.ctl.v) then Out(Normal(Nil), q.st)
      else
        var r := EvalBlock(pr, b, Own(c, o), q.st, fuel);
        if r.ctl.Brk? then Out(Normal(Nil), r.st)
        else if !r.ctl.Normal? && !r.ctl.Cont? then r
        else if fuel == 0 then Out(Timeout, r.st)
        else Eval(pr, e, o, r.st, fuel - 1)
    case For(pat, iter, _, b, d) =>
      var r := Eval(pr, iter, o, st, fuel);
      if !r.ctl.Normal? then r
      else if !d.ListFast? then Out(Stuck, r.st)
      else EvalFor(pr, pat, b, r.ctl.v, 0, Own(iter, o), r.st, fuel)
    case Return(v) =>
      var r := Eval(pr, v, o, st, fuel);
      if !r.ctl.Normal? then r else Leave(Owned(v), r.ctl.v, Own(v, o), r.st)
    case Break(v) =>
      var r := Eval(pr, v, o, st, fuel);
      if !r.ctl.Normal? then r else Out(Brk(r.ctl.v), r.st)
    case Continue => Out(Cont, st)
    case _ => Out(Stuck, st)
  }

  /** `h_for_list` from item `i` of list `p` on: each item is bound as a borrow. */
  function EvalFor(pr: Program, pat: Pattern, body: Block, p: Value, i: nat, o: seq<LocalId>, st: State,
                   fuel: nat): Out
    decreases fuel, body, 1
  {
    match ListAt(st.objs, p)
    case None => Out(Stuck, st)
    case Some(vs) =>
      if i >= |vs| then Out(Normal(Nil), st)
      else
        var b := BindPat(pat, vs[i], false, o, st);
        if !b.ctl.Normal? then b
        else
          var r := EvalBlock(pr, body, PushAll(o, PatLocals(pat)), b.st, fuel);
          if r.ctl.Brk? then Out(Normal(Nil), r.st)
          else if !r.ctl.Normal? && !r.ctl.Cont? then r
          else if fuel == 0 then Out(Timeout, r.st)
          else EvalFor(pr, pat, body, p, i + 1, o, r.st, fuel - 1)
  }

  /** Call arguments are passed as they are. */
  function EvalArgs(pr: Program, es: Exprs, o: seq<LocalId>, st: State, fuel: nat): Outs
    decreases fuel, es, 0
  {
    match es
    case ENil => Outs(Normal(Nil), [], st)
    case ECons(head, tail) =>
      var h := Eval(pr, head, o, st, fuel);
      if !h.ctl.Normal? then Outs(h.ctl, [], h.st)
      else
        var t := EvalArgs(pr, tail, Own(head, o), h.st, fuel);
        if !t.ctl.Normal? then t else Outs(t.ctl, [h.ctl.v] + t.vs, t.st)
  }

  /** Each field initialiser of a literal is taken as soon as it is evaluated. */
  function EvalFields(pr: Program, es: Exprs, o: seq<LocalId>, st: State, fuel: nat): Outs
    decreases fuel, es, 0
  {
    match es
    case ENil => Outs(Normal(Nil), [], st)
    case ECons(head, tail) =>
      var h := Eval(pr, head, o, st, fuel);
      if !h.ctl.Normal? then Outs(h.ctl, [], h.st)
      else
        var k := Take(Owned(head), h.ctl.v, h.st);
        if !k.ctl.Normal? then Outs(k.ctl, [], k.st)
        else
          var t := EvalFields(pr, tail, Own(head, o), k.st, fuel);
          if !t.ctl.Normal? then t else Outs(t.ctl, [h.ctl.v] + t.vs, t.st)
  }

  function EvalArms(pr: Program, arms: Arms, v: Value, o: seq<LocalId>, st: State, fuel: nat): Out
    decreases fuel, arms, 0
  {
    match arms
    case NoArms => Out(Stuck, st)
    case Arm(pat, guard, body, rest) =>
      var o1 := ArmOwn(pat, o);
      var o2 := Own(body, Own(guard, o1));
      var b := ArmBind(pat, v, o, st);
      if !Matches(pat, v) then EvalArms(pr, rest, v, o2, st, fuel)
      else if !b.ctl.Normal? then b
      else
        var g := Eval(pr, guard, o1, b.st, fuel);
        if !g.ctl.Normal? then g
        else if Truthy(g.ctl.v) then Eval(pr, body, Own(guard, o1), g.st, fuel)
        else EvalArms(pr, rest, v, o2, g.st, fuel)
  }

  /** `h_field_store` after the receiver: load the old value, retain a borrowed new one,
      release the old, store. */
  function StoreField(p: Value, idx: nat, v: Value, owned: bool, st: State): Out
  {
    match Deref(st.objs, p)
    case Dangling => Out(Bad, st)
    case NoBlock => Out(Stuck, st)
    case Fields(vs) =>
      if idx >= |vs| then Out(Stuck, st)
      else
        var t := Take(owned, v, st);
        if !t.ctl.Normal? then t
        else
          match Release(t.st.objs, vs[idx])
          case None => Out(Bad, t.st)
          case Some(objs) =>
            var a := if p.Ref? then p.a else p.g;
            if Deref(objs, p).Fields? && idx < |objs[a].fields|
            then Out(Normal(Nil), t.st.(objs := objs[a := objs[a].(fields := objs[a].fields[idx := v])]))
            else Out(Bad, t.st)
  }

  /** `h_assign`: the value comes first, then the receiver of a field target. */
  function EvalStore(pr: Program, target: Expr, v: Value, owned: bool, o: seq<LocalId>, st: State, fuel: nat): Out
    decreases fuel, target, 1
  {
    match target
    case Local(x) =>
      var t := Take(owned, v, st);
      if !t.ctl.Normal? then t
      else Lift(Release(t.st.objs, Get(st.env, x)), Normal(Nil), t.st.(env := st.env[x := v]))
    case Field(recv, idx) =>
      var r := Eval(pr, recv, o, st, fuel);
      if !r.ctl.Normal? then r else StoreField(r.ctl.v, idx, v, owned, r.st)
    case Null => Out(Normal(Nil), st)
    case _ => Out(Stuck, st)
  }

  function EvalStmt(pr: Program, s: Stmt, o: seq<LocalId>, st: State, fuel: nat): Out
    decreases fuel, s, 0
  {
    match s
    case Let(pat, init) =>
      var r := Eval(pr, init, o, st, fuel);
      if !r.ctl.Normal? then r else BindPat(pat, r.ctl.v, Owned(init), Own(init, o), r.st)
    case Assign(target, value) =>
      var r := Eval(pr, value, o, st, fuel);
      if !r.ctl.Normal? then r else EvalStore(pr, target, r.ctl.v, Owned(value), Own(value, o), r.st, fuel)
    case ExprStmt(e) =>
      var r := Eval(pr, e, o, st, fuel);
      if !r.ctl.Normal? || !Owned(e) then r else Lift(Release(r.st.objs, r.ctl.v), Normal(Nil), r.st)
  }

  function EvalBlock(pr: Program, b: Block, o: seq<LocalId>, st: State, fuel: nat): Out
    decreases fuel, b, 0
  {
    match b
    case Tail(e) => Eval(pr, e, o, st, fuel)
    case Then(s, rest) =>
      var r := EvalStmt(pr, s, o, st, fuel);
      if !r.ctl.Normal? then r else EvalBlock(pr, rest, OwnStmt(s, o), r.st, fuel)
  }
}
