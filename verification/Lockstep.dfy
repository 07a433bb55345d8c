/**
 Await-free code cannot see which future values are left, nor any local outside
 its scope, nor how much fuel is left when it ends: two runs that agree on the
 locals in scope and on memory stay in agreement and leave the inputs alone. This
 is why code between two suspend points may run on a frame whose out-of-scope
 locals were lost.
 */
module Lockstep {
  import opened Hir
  import opened Scan
  import opened Semantics

  predicate AgreeOn(g: set<LocalId>, a: Env, b: Env)
  {
    forall x <- g :: Get(a, x) == Get(b, x)
  }

  /** Equal up to the inputs and the locals outside `g`. */
  predicate Alike(g: set<LocalId>, s: State, t: State)
  {
    s.mem == t.mem && s.trace == t.trace && s.stacked == t.stacked && AgreeOn(g, s.env, t.env)
  }

  /** What the two runs end with, unless the first one runs out of fuel. */
  predicate Same(g: set<LocalId>, s: State, t: State, r: Out, q: Out)
  {
    || r.ctl.Timeout?
    || (&& r.ctl == q.ctl && !r.ctl.Wait? && Alike(g, r.s, q.s)
        && r.s.ins == s.ins && q.s.ins == t.ins && r.s.stacked == s.stacked)
  }

  /** Functions that can be called are synchronous and scoped: an async function's
      symbol only builds its future. */
  predicate SyncProgram(pr: Program)
  {
    forall d <- pr.funcs ::
      !HasAwaitBlock(pr.funcs[d].body) && ScopedBlock(pr.funcs[d].body, set x | x in pr.funcs[d].params)
  }

  lemma {:induction false} BindFieldsAgree(g: set<LocalId>, a: Env, b: Env, fs: seq<Option<LocalId>>, vs: seq<Value>)
    requires AgreeOn(g, a, b) && |fs| <= |vs|
    ensures AgreeOn(g + (set x | x in FieldLocals(fs)), BindFields(a, fs, vs), BindFields(b, fs, vs))
    decreases fs
  {
    if fs != [] {
      var h := if fs[0].Some? then {fs[0].value} else {};
      var a' := if fs[0].Some? then a[fs[0].value := vs[0]] else a;
      var b' := if fs[0].Some? then b[fs[0].value := vs[0]] else b;
      BindFieldsAgree(g + h, a', b', fs[1..], vs[1..]);
      assert g + (set x | x in FieldLocals(fs)) == g + h + (set x | x in FieldLocals(fs[1..]));
    }
  }

  lemma BindAgree(g: set<LocalId>, a: Env, b: Env, m: Mem, p: Pattern, v: Value)
    requires AgreeOn(g, a, b)
    ensures BindPat(a, m, p, v).Some? == BindPat(b, m, p, v).Some?
    ensures BindPat(a, m, p, v).Some? ==>
              AgreeOn(g + PatSet(p), BindPat(a, m, p, v).value, BindPat(b, m, p, v).value)
  {
    match p
    case Record(fs) =>
      if HasBlock(m, v) && |fs| <= |BlockAt(m, v)| {
        BindFieldsAgree(g, a, b, fs, BlockAt(m, v));
      }
    case _ =>
  }

  /** Running the same await-free expression from alike states. */
  lemma {:induction false} EvalAlike(pr: Program, e: Expr, s: State, t: State, g: set<LocalId>, fuel: nat, more: nat)
    requires SyncProgram(pr) && Scoped(e, g) && !HasAwait(e) && Alike(g, s, t) && fuel <= more
    ensures Same(g, s, t, Eval(pr, e, s, fuel), Eval(pr, e, t, more))
    decreases fuel, e, 0
  {
    match e
    case Call(_, _) => CallExprAlike(pr, e, s, t, g, fuel, more);
    case If(_, _, _) => IfAlike(pr, e, s, t, g, fuel, more);
    case Match(_, _) => MatchAlike(pr, e, s, t, g, fuel, more);
    case BlockExpr(b) => BlockAlike(pr, b, s, t, g, fuel, more);
    case Loop(b) => LoopAlike(pr, e, s, t, g, fuel, more);
    case While(_, _) => WhileAlike(pr, e, s, t, g, fuel, more);
    case For(_, _, _, _, _) => ForExprAlike(pr, e, s, t, g, fuel, more);
    case Logic(_, _, _) => LogicAlike(pr, e, s, t, g, fuel, more);
    case Append(_, _) => AppendAlike(pr, e, s, t, g, fuel, more);
    case Field(_, _) => WrapAlike(pr, e, s, t, g, fuel, more);
    case Adjust(_, _) => WrapAlike(pr, e, s, t, g, fuel, more);
    case Cast(_, _, _, _) => WrapAlike(pr, e, s, t, g, fuel, more);
    case Return(_) => WrapAlike(pr, e, s, t, g, fuel, more);
    case Break(_) => WrapAlike(pr, e, s, t, g, fuel, more);
    case _ => OperandAlike(pr, e, s, t, g, fuel, more);
  }

  /** Leaves and the forms that only evaluate operands. */
  lemma {:induction false} OperandAlike(pr: Program, e: Expr, s: State, t: State, g: set<LocalId>, fuel: nat, more: nat)
    requires SyncProgram(pr) && Scoped(e, g) && !HasAwait(e) && Alike(g, s, t) && fuel <= more
    requires !e.Call? && !e.If? && !e.Match? && !e.BlockExpr? && !e.Loop? && !e.While? && !e.For?
    requires !e.Logic? && !e.Append? && !e.Field? && !e.Adjust? && !e.Cast? && !e.Return? && !e.Break?
    ensures Same(g, s, t, Eval(pr, e, s, fuel), Eval(pr, e, t, more))
    decreases fuel, e, -1
  {
    hide EvalBlock, EvalArms, EvalFor, EvalArgs, CallFn, ScopedBlock, SyncProgram;
    match e
    case Prim(_, args) => ArgsAlike(pr, args, s, t, g, fuel, more);
    case Struct(_, fields) => ArgsAlike(pr, fields, s, t, g, fuel, more);
    case Closure(caps) => assert ValuesOf(s.env, caps) == ValuesOf(t.env, caps);
    case _ =>
  }

  /** The forms that finish the value of one operand. */
  lemma {:induction false} WrapAlike(pr: Program, e: Expr, s: State, t: State, g: set<LocalId>, fuel: nat, more: nat)
    requires SyncProgram(pr) && Scoped(e, g) && !HasAwait(e) && Alike(g, s, t) && fuel <= more
    requires e.Field? || e.Adjust? || e.Cast? || e.Return? || e.Break?
    ensures Same(g, s, t, Eval(pr, e, s, fuel), Eval(pr, e, t, more))
    decreases fuel, e, -1
  {
    hide EvalBlock, EvalArms, EvalFor, EvalArgs, CallFn, ScopedBlock, SyncProgram;
    match e
    case Field(recv, _) => EvalAlike(pr, recv, s, t, g, fuel, more);
    case Adjust(_, inner) => EvalAlike(pr, inner, s, t, g, fuel, more);
    case Cast(_, inner, _, _) => EvalAlike(pr, inner, s, t, g, fuel, more);
    case Return(v) => EvalAlike(pr, v, s, t, g, fuel, more);
    case Break(v) => EvalAlike(pr, v, s, t, g, fuel, more);
  }

  lemma {:induction false} LogicAlike(pr: Program, e: Expr, s: State, t: State, g: set<LocalId>, fuel: nat, more: nat)
    requires SyncProgram(pr) && Scoped(e, g) && !HasAwait(e) && Alike(g, s, t) && fuel <= more && e.Logic?
    ensures Same(g, s, t, Eval(pr, e, s, fuel), Eval(pr, e, t, more))
    decreases fuel, e, -1
  {
    EvalAlike(pr, e.left, s, t, g, fuel, more);
    var r, q := Eval(pr, e.left, s, fuel), Eval(pr, e.left, t, more);
    if r.ctl.Normal? {
      EvalAlike(pr, e.right, r.s, q.s, g, fuel, more);
    }
  }

  lemma {:induction false} AppendAlike(pr: Program, e: Expr, s: State, t: State, g: set<LocalId>, fuel: nat, more: nat)
    requires SyncProgram(pr) && Scoped(e, g) && !HasAwait(e) && Alike(g, s, t) && fuel <= more && e.Append?
    ensures Same(g, s, t, Eval(pr, e, s, fuel), Eval(pr, e, t, more))
    decreases fuel, e, -1
  {
    EvalAlike(pr, e.list, s, t, g, fuel, more);
    var r, q := Eval(pr, e.list, s, fuel), Eval(pr, e.list, t, more);
    if r.ctl.Normal? {
      EvalAlike(pr, e.item, r.s, q.s, g, fuel, more);
    }
  }

  lemma {:induction false} CallExprAlike(pr: Program, e: Expr, s: State, t: State, g: set<LocalId>, fuel: nat,
                                         more: nat)
    requires SyncProgram(pr) && Scoped(e, g) && !HasAwait(e) && Alike(g, s, t) && fuel <= more && e.Call?
    ensures Same(g, s, t, Eval(pr, e, s, fuel), Eval(pr, e, t, more))
    decreases fuel, e, -1
  {
    ArgsAlike(pr, e.args, s, t, g, fuel, more);
    var r, q := EvalArgs(pr, e.args, s, fuel), EvalArgs(pr, e.args, t, more);
    if r.ctl.Normal? && Dispatch(pr, e.callee, r.vs).Some? && fuel > 0 {
      var (d, vs) := Dispatch(pr, e.callee, r.vs).value;
      CallAlike(pr, d, vs, r.s, q.s, g, fuel - 1, more - 1);
    }
  }

  lemma {:induction false} IfAlike(pr: Program, e: Expr, s: State, t: State, g: set<LocalId>, fuel: nat, more: nat)
    requires SyncProgram(pr) && Scoped(e, g) && !HasAwait(e) && Alike(g, s, t) && fuel <= more && e.If?
    ensures Same(g, s, t, Eval(pr, e, s, fuel), Eval(pr, e, t, more))
    decreases fuel, e, -1
  {
    EvalAlike(pr, e.cond, s, t, g, fuel, more);
    var r, q := Eval(pr, e.cond, s, fuel), Eval(pr, e.cond, t, more);
    if r.ctl.Normal? {
      if Truthy(r.ctl.v) {
        BlockAlike(pr, e.thn, r.s, q.s, g, fuel, more);
      } else {
        EvalAlike(pr, e.els, r.s, q.s, g, fuel, more);
      }
    }
  }

  lemma {:induction false} MatchAlike(pr: Program, e: Expr, s: State, t: State, g: set<LocalId>, fuel: nat, more: nat)
    requires SyncProgram(pr) && Scoped(e, g) && !HasAwait(e) && Alike(g, s, t) && fuel <= more && e.Match?
    ensures Same(g, s, t, Eval(pr, e, s, fuel), Eval(pr, e, t, more))
    decreases fuel, e, -1
  {
    EvalAlike(pr, e.scrut, s, t, g, fuel, more);
    var r, q := Eval(pr, e.scrut, s, fuel), Eval(pr, e.scrut, t, more);
    if r.ctl.Normal? {
      ArmsAlike(pr, e.arms, r.ctl.v, r.s, q.s, g, fuel, more);
    }
  }

  lemma {:induction false} ForExprAlike(pr: Program, e: Expr, s: State, t: State, g: set<LocalId>, fuel: nat, more: nat)
    requires SyncProgram(pr) && Scoped(e, g) && !HasAwait(e) && Alike(g, s, t) && fuel <= more && e.For?
    ensures Same(g, s, t, Eval(pr, e, s, fuel), Eval(pr, e, t, more))
    decreases fuel, e, -1
  {
    EvalAlike(pr, e.iter, s, t, g, fuel, more);
    var r, q := Eval(pr, e.iter, s, fuel), Eval(pr, e.iter, t, more);
    if r.ctl.Normal? && ForInit(e.driver, r.ctl.v, r.s.mem).Some? {
      var (c, m) := ForInit(e.driver, r.ctl.v, r.s.mem).value;
      ForAlike(pr, e.driver, e.pat, e.body, c, r.s.(mem := m), q.s.(mem := m), g, fuel, more);
    }
  }

  lemma {:induction false} LoopAlike(pr: Program, e: Expr, s: State, t: State, g: set<LocalId>, fuel: nat, more: nat)
    requires SyncProgram(pr) && Scoped(e, g) && !HasAwait(e) && Alike(g, s, t) && fuel <= more && e.Loop?
    ensures Same(g, s, t, Eval(pr, e, s, fuel), Eval(pr, e, t, more))
    decreases fuel, e, -1
  {
    BlockAlike(pr, e.body, s, t, g, fuel, more);
    var r, q := EvalBlock(pr, e.body, s, fuel), EvalBlock(pr, e.body, t, more);
    if (r.ctl.Normal? || r.ctl.Cont?) && fuel > 0 {
      EvalAlike(pr, e, r.s, q.s, g, fuel - 1, more - 1);
    }
  }

  lemma {:induction false} WhileAlike(pr: Program, e: Expr, s: State, t: State, g: set<LocalId>, fuel: nat, more: nat)
    requires SyncProgram(pr) && Scoped(e, g) && !HasAwait(e) && Alike(g, s, t) && fuel <= more && e.While?
    ensures Same(g, s, t, Eval(pr, e, s, fuel), Eval(pr, e, t, more))
    decreases fuel, e, -1
  {
    EvalAlike(pr, e.cond, s, t, g, fuel, more);
    var c, k := Eval(pr, e.cond, s, fuel), Eval(pr, e.cond, t, more);
    if c.ctl.Normal? && Truthy(c.ctl.v) {
      BlockAlike(pr, e.body, c.s, k.s, g, fuel, more);
      var r, q := EvalBlock(pr, e.body, c.s, fuel), EvalBlock(pr, e.body, k.s, more);
      if (r.ctl.Normal? || r.ctl.Cont?) && fuel > 0 {
        EvalAlike(pr, e, r.s, q.s, g, fuel - 1, more - 1);
      }
    }
  }

  lemma {:induction false} ArgsAlike(pr: Program, es: Exprs, s: State, t: State, g: set<LocalId>, fuel: nat, more: nat)
    requires SyncProgram(pr) && ScopedArgs(es, g) && !HasAwaitArgs(es) && Alike(g, s, t) && fuel <= more
    ensures var r, q := EvalArgs(pr, es, s, fuel), EvalArgs(pr, es, t, more);
            r.ctl.Timeout? ||
            (&& r.ctl == q.ctl && !r.ctl.Wait? && r.vs == q.vs && Alike(g, r.s, q.s)
             && r.s.ins == s.ins && q.s.ins == t.ins && r.s.stacked == s.stacked)
    decreases fuel, es, 0
  {
    if es.ECons? {
      EvalAlike(pr, es.head, s, t, g, fuel, more);
      var r, q := Eval(pr, es.head, s, fuel), Eval(pr, es.head, t, more);
      if r.ctl.Normal? {
        ArgsAlike(pr, es.tail, r.s, q.s, g, fuel, more);
      }
    }
  }

  lemma {:induction false} ArmsAlike(pr: Program, arms: Arms, v: Value, s: State, t: State, g: set<LocalId>, fuel: nat,
                                     more: nat)
    requires SyncProgram(pr) && ScopedArms(arms, g) && !HasAwaitArms(arms) && Alike(g, s, t) && fuel <= more
    ensures Same(g, s, t, EvalArms(pr, arms, v, s, fuel), EvalArms(pr, arms, v, t, more))
    decreases fuel, arms, 0
  {
    if arms.Arm? {
      if !Matches(arms.pat, v) {
        ArmsAlike(pr, arms.rest, v, s, t, g, fuel, more);
      } else {
        BindAgree(g, s.env, t.env, s.mem, arms.pat, v);
        if BindPat(s.env, s.mem, arms.pat, v).Some? {
          var s1 := s.(env := BindPat(s.env, s.mem, arms.pat, v).value);
          var t1 := t.(env := BindPat(t.env, t.mem, arms.pat, v).value);
          var g' := g + PatSet(arms.pat);
          EvalAlike(pr, arms.guard, s1, t1, g', fuel, more);
          var r, q := Eval(pr, arms.guard, s1, fuel), Eval(pr, arms.guard, t1, more);
          if r.ctl.Normal? {
            if Truthy(r.ctl.v) {
              EvalAlike(pr, arms.arm, r.s, q.s, g', fuel, more);
            } else {
              ArmsAlike(pr, arms.rest, v, r.s, q.s, g, fuel, more);
            }
          }
        }
      }
    }
  }

  lemma {:induction false} StoreAlike(pr: Program, target: Expr, v: Value, s: State, t: State, g: set<LocalId>,
                                      fuel: nat, more: nat)
    requires SyncProgram(pr) && Scoped(target, g) && !HasAwait(target) && Alike(g, s, t) && fuel <= more
    ensures Same(g, s, t, EvalStore(pr, target, v, s, fuel), EvalStore(pr, target, v, t, more))
    decreases fuel, target, 1
  {
    if target.Field? {
      EvalAlike(pr, target.recv, s, t, g, fuel, more);
    }
  }

  lemma {:induction false} StmtAlike(pr: Program, st: Stmt, s: State, t: State, g: set<LocalId>, fuel: nat, more: nat)
    requires SyncProgram(pr) && ScopedStmt(st, g) && !HasAwaitStmt(st) && Alike(g, s, t) && fuel <= more
    ensures var r, q := EvalStmt(pr, st, s, fuel), EvalStmt(pr, st, t, more);
            Same(if r.ctl.Normal? then ScopeAfter(st, g) else g, s, t, r, q)
    decreases fuel, st, 0
  {
    match st
    case Let(pat, init) =>
      InitAlike(pr, pat, init, s, t, g, fuel, more);
      var r, q := EvalInit(pr, pat, init, s, fuel), EvalInit(pr, pat, init, t, more);
      if r.ctl.Normal? {
        BindAgree(g, r.s.env, q.s.env, r.s.mem, pat, r.ctl.v);
      }
    case Assign(target, value) =>
      EvalAlike(pr, value, s, t, g, fuel, more);
      var r, q := Eval(pr, value, s, fuel), Eval(pr, value, t, more);
      if r.ctl.Normal? {
        StoreAlike(pr, target, r.ctl.v, r.s, q.s, g, fuel, more);
      }
    case ExprStmt(e) => EvalAlike(pr, e, s, t, g, fuel, more);
  }

  lemma {:induction false} InitAlike(pr: Program, pat: Pattern, init: Expr, s: State, t: State, g: set<LocalId>,
                                     fuel: nat, more: nat)
    requires SyncProgram(pr) && Scoped(init, g) && !HasAwait(init) && Alike(g, s, t) && fuel <= more
    ensures Same(g, s, t, EvalInit(pr, pat, init, s, fuel), EvalInit(pr, pat, init, t, more))
    decreases fuel, init, 1
  {
    if pat.Bind? && init.Struct? && pat.local in s.stacked {
      var blank := seq(Length(init.fields), _ => Num(0));
      var s0 := s.(mem := s.mem.(stack := s.mem.stack[pat.local := blank]));
      var t0 := t.(mem := t.mem.(stack := t.mem.stack[pat.local := blank]));
      ArgsAlike(pr, init.fields, s0, t0, g, fuel, more);
    } else {
      EvalAlike(pr, init, s, t, g, fuel, more);
    }
  }

  lemma {:induction false} BlockAlike(pr: Program, b: Block, s: State, t: State, g: set<LocalId>, fuel: nat, more: nat)
    requires SyncProgram(pr) && ScopedBlock(b, g) && !HasAwaitBlock(b) && Alike(g, s, t) && fuel <= more
    ensures Same(g, s, t, EvalBlock(pr, b, s, fuel), EvalBlock(pr, b, t, more))
    decreases fuel, b, 0
  {
    match b
    case Tail(e) => EvalAlike(pr, e, s, t, g, fuel, more);
    case Then(st, rest) =>
      StmtAlike(pr, st, s, t, g, fuel, more);
      var r, q := EvalStmt(pr, st, s, fuel), EvalStmt(pr, st, t, more);
      if r.ctl.Normal? {
        BlockAlike(pr, rest, r.s, q.s, ScopeAfter(st, g), fuel, more);
      }
  }

  lemma {:induction false} ForAlike(pr: Program, d: ForDriver, pat: Pattern, body: Block, c: Cursor,
                                    s: State, t: State, g: set<LocalId>, fuel: nat, more: nat)
    requires SyncProgram(pr) && ScopedBlock(body, g + PatSet(pat)) && !HasAwaitBlock(body) && Alike(g, s, t)
             && fuel <= more
    ensures Same(g, s, t, EvalFor(pr, d, pat, body, c, s, fuel), EvalFor(pr, d, pat, body, c, t, more))
    decreases fuel, body, 1
  {
    hide ForStep, CallFn, BindPat, Scoped, ScopedBlock, HasAwaitBlock;
    if fuel > 0 {
      StepAlike(pr, d, c, s, t, g, fuel - 1, more - 1);
      var a, b := ForStep(pr, d, c, s, fuel - 1), ForStep(pr, d, c, t, more - 1);
      if a.Item? {
        BindAgree(g, a.s.env, b.s.env, a.s.mem, pat, a.v);
        if BindPat(a.s.env, a.s.mem, pat, a.v).Some? {
          var s1 := a.s.(env := BindPat(a.s.env, a.s.mem, pat, a.v).value);
          var t1 := b.s.(env := BindPat(b.s.env, b.s.mem, pat, a.v).value);
          BlockAlike(pr, body, s1, t1, g + PatSet(pat), fuel - 1, more - 1);
          var r, q := EvalBlock(pr, body, s1, fuel - 1), EvalBlock(pr, body, t1, more - 1);
          if r.ctl.Normal? || r.ctl.Cont? {
            assert Alike(g, r.s, q.s);
            ForAlike(pr, d, pat, body, Advance(d, c), r.s, q.s, g, fuel - 1, more - 1);
          }
        }
      }
    }
  }

  /** One step of an ordinary `for`, in both runs. */
  predicate SameStep(g: set<LocalId>, s: State, t: State, a: Step, b: Step)
  {
    || (a.Fail? && a.ctl.Timeout?)
    || (&& a.Item? == b.Item? && a.Done? == b.Done? && Alike(g, a.s, b.s)
        && a.s.ins == s.ins && b.s.ins == t.ins && a.s.stacked == s.stacked
        && (a.Item? ==> a.v == b.v) && (a.Fail? ==> a.ctl == b.ctl && !a.ctl.Wait?))
  }

  lemma {:induction false} StepAlike(pr: Program, d: ForDriver, c: Cursor, s: State, t: State, g: set<LocalId>,
                                     fuel: nat, more: nat)
    requires SyncProgram(pr) && Alike(g, s, t) && fuel <= more
    ensures SameStep(g, s, t, ForStep(pr, d, c, s, fuel), ForStep(pr, d, c, t, more))
    decreases fuel, ENil, 2
  {
    if d.Iterator? {
      CallAlike(pr, d.next, [c.primary], s, t, g, fuel, more);
    }
  }

  lemma {:induction false} CallAlike(pr: Program, def: DefId, vs: seq<Value>, s: State, t: State, g: set<LocalId>,
                                     fuel: nat, more: nat)
    requires SyncProgram(pr) && Alike(g, s, t) && fuel <= more
    ensures Same(g, s, t, CallFn(pr, def, vs, s, fuel), CallFn(pr, def, vs, t, more))
    decreases fuel, ENil, 1
  {
    if def in pr.funcs && |pr.funcs[def].params| == |vs| && fuel > 0 {
      var f := pr.funcs[def];
      BlockAlike(pr, f.body, Enter(s, f, vs), Enter(t, f, vs), (set x | x in f.params), fuel - 1, more - 1);
    }
  }
}
