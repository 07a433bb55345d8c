/**
 The run that keeps chosen structs in frames simulates the run that allocates every
 struct on the heap.
 */
module StackProof {
  import opened Hir
  import opened Scan
  import opened Semantics
  import opened Lockstep
  import opened StackStructs

  /** Synchronous, scoped functions, none of which uses its frame for structs. */
  predicate HeapProgram(pr: Program)
  {
    SyncProgram(pr) && forall d <- pr.funcs :: pr.funcs[d].stacked == {}
  }

  /** The captured locals are known. */
  ghost predicate Analysed(fx: Facts, pr: Program)
  {
    forall d <- pr.funcs :: CapturesBlock(pr.funcs[d].body) <= fx.captured
  }

  ghost predicate Pre(fx: Facts, pr: Program, cs: set<LocalId>, k: Link, g: set<LocalId>, s: State, t: State)
  {
    HeapProgram(pr) && Analysed(fx, pr) && Linked(k, g, s, t) && t.stacked <= cs
  }

  lemma StackifyKeeps(fx: Facts, pr: Program, d: DefId)
    ensures var sp := Stackify(fx, pr);
            && sp.prim == pr.prim && sp.impls == pr.impls && (d in sp.funcs <==> d in pr.funcs)
            && (d in pr.funcs ==> sp.funcs[d] == pr.funcs[d].(stacked := Chosen(fx, pr.funcs[d].body)))
  {
  }

  /** Finishing a field read. */
  function FieldOut(v: Value, idx: nat, s: State): Out
  {
    if HasBlock(s.mem, v) && idx < |BlockAt(s.mem, v)| then Out(Normal(BlockAt(s.mem, v)[idx]), s) else Out(Stuck, s)
  }

  function PutOut(p: Value, idx: nat, v: Value, s: State): Out
  {
    if HasBlock(s.mem, p) && idx < |BlockAt(s.mem, p)|
    then Out(Normal(Nil), s.(mem := PutBlock(s.mem, p, BlockAt(s.mem, p)[idx := v]))) else Out(Stuck, s)
  }

  function AppendOut(p: Value, v: Value, s: State): Out
  {
    if HasBlock(s.mem, p) then Out(Normal(Nil), s.(mem := PutBlock(s.mem, p, BlockAt(s.mem, p) + [v])))
    else Out(Stuck, s)
  }

  lemma FieldAgree(k: Link, g: set<LocalId>, s: State, t: State, v: Value, idx: nat)
    requires Linked(k, g, s, t) && Clean(v, k.dead, s.mem.next)
    ensures Agree(k, g, s, t, FieldOut(v, idx, s), FieldOut(v, idx, t), k)
  {
    ReadAgree(k, g, s, t, v);
    AgreeCtl(k, g, s, t, FieldOut(v, idx, s).ctl);
  }

  lemma OwnField(k: Link, g: set<LocalId>, s: State, t: State, x: LocalId, idx: nat)
    requires Linked(k, g, s, t) && x in k.own
    ensures Get(s.env, x) == Ptr(k.own[x]) && Get(t.env, x) == Slot(x)
    ensures Agree(k, g, s, t, FieldOut(Ptr(k.own[x]), idx, s), FieldOut(Slot(x), idx, t), k)
  {
    assert Owned(k, x, s, t);
    AgreeCtl(k, g, s, t, FieldOut(Ptr(k.own[x]), idx, s).ctl);
  }

  lemma PutAgree(k: Link, g: set<LocalId>, s: State, t: State, p: Value, idx: nat, v: Value)
    requires Linked(k, g, s, t) && Clean(p, k.dead, s.mem.next) && Clean(v, k.dead, s.mem.next)
    ensures Agree(k, g, s, t, PutOut(p, idx, v, s), PutOut(p, idx, v, t), k)
  {
    ReadAgree(k, g, s, t, p);
    if HasBlock(s.mem, p) && idx < |BlockAt(s.mem, p)| {
      WriteAgree(k, g, s, t, p, BlockAt(s.mem, p)[idx := v]);
    } else {
      AgreeCtl(k, g, s, t, Stuck);
    }
  }

  lemma OwnPut(k: Link, g: set<LocalId>, s: State, t: State, x: LocalId, idx: nat, v: Value)
    requires Linked(k, g, s, t) && x in k.own && Clean(v, k.dead, s.mem.next)
    ensures Get(s.env, x) == Ptr(k.own[x]) && Get(t.env, x) == Slot(x)
    ensures Agree(k, g, s, t, PutOut(Ptr(k.own[x]), idx, v, s), PutOut(Slot(x), idx, v, t), k)
  {
    assert Owned(k, x, s, t);
    var vs := t.mem.stack[x];
    if idx < |vs| {
      OwnWrite(k, g, s, t, x, vs[idx := v]);
    } else {
      AgreeCtl(k, g, s, t, Stuck);
    }
  }

  lemma AppendAgree(k: Link, g: set<LocalId>, s: State, t: State, p: Value, v: Value)
    requires Linked(k, g, s, t) && Clean(p, k.dead, s.mem.next) && Clean(v, k.dead, s.mem.next)
    ensures Agree(k, g, s, t, AppendOut(p, v, s), AppendOut(p, v, t), k)
  {
    ReadAgree(k, g, s, t, p);
    if HasBlock(s.mem, p) {
      WriteAgree(k, g, s, t, p, BlockAt(s.mem, p) + [v]);
    } else {
      AgreeCtl(k, g, s, t, Stuck);
    }
  }

  lemma TraceAgree(k: Link, g: set<LocalId>, s: State, t: State, ev: Event, c: Ctl)
    requires Linked(k, g, s, t) && CtlClean(c, k.dead, s.mem.next)
    ensures Agree(k, g, s, t, Out(c, s.(trace := s.trace + [ev])), Out(c, t.(trace := t.trace + [ev])), k)
  {
    var s', t' := s.(trace := s.trace + [ev]), t.(trace := t.trace + [ev]);
    forall x <- k.own ensures Owned(k, x, s', t') { assert Owned(k, x, s, t); }
  }

  /** Reading a local that is not a chosen one. */
  lemma LocalAgree(k: Link, g: set<LocalId>, s: State, t: State, x: LocalId)
    requires Linked(k, g, s, t) && x in g && x !in t.stacked
    ensures Get(s.env, x) == Get(t.env, x)
    ensures Agree(k, g, s, t, Out(Normal(Get(s.env, x)), s), Out(Normal(Get(s.env, x)), t), k)
  {
    assert x in k.own ==> Owned(k, x, s, t);
    AgreeCtl(k, g, s, t, Normal(Get(s.env, x)));
  }

  /** A closure keeps what its captured locals hold, and none of them is a chosen one. */
  lemma ClosureAgree(k: Link, g: set<LocalId>, s: State, t: State, caps: seq<LocalId>)
    requires Linked(k, g, s, t) && forall x <- caps :: x in g && x !in t.stacked
    ensures var (sm, p) := Alloc(s.mem, ValuesOf(s.env, caps)); var (tm, p') := Alloc(t.mem, ValuesOf(t.env, caps));
            p == p' && Agree(k, g, s, t, Out(Normal(p), s.(mem := sm)), Out(Normal(p), t.(mem := tm)), k)
  {
    var vs := ValuesOf(s.env, caps);
    forall i | 0 <= i < |caps|
      ensures vs[i] == ValuesOf(t.env, caps)[i] && Clean(vs[i], k.dead, s.mem.next)
    {
      assert caps[i] in g;
      assert caps[i] in k.own ==> Owned(k, caps[i], s, t);
    }
    assert vs == ValuesOf(t.env, caps);
    AllocAgree(k, g, s, t, vs);
  }

  /** Evaluating the same expression in both runs. */
  lemma {:induction false} SimExpr(fx: Facts, pr: Program, cs: set<LocalId>, e: Expr, k: Link, g: set<LocalId>,
                                   s: State, t: State, fuel: nat)
    returns (k': Link)
    requires Pre(fx, pr, cs, k, g, s, t) && Scoped(e, g) && !HasAwait(e)
             && Escapes(cs, e, false) + Captures(e) !! t.stacked
    ensures Agree(k, g, s, t, Eval(pr, e, s, fuel), Eval(Stackify(fx, pr), e, t, fuel), k')
    decreases fuel, e, 1
  {
    hide Linked, Kept, HeapLinked, Owned, CleanAll, Stackify, SyncProgram, Cands, CandsBlock, EscapesTarget, Chosen;
    var sp := Stackify(fx, pr);
    match e
    case Local(x) =>
      LocalAgree(k, g, s, t, x);
      k' := k;
    case Prim(_, _) => k' := SimPrim(fx, pr, cs, e, k, g, s, t, fuel);
    case Logic(_, _, _) => k' := SimLogic(fx, pr, cs, e, k, g, s, t, fuel);
    case Call(_, _) => k' := SimCall(fx, pr, cs, e, k, g, s, t, fuel);
    case Struct(_, _) => k' := SimStruct(fx, pr, cs, e, k, g, s, t, fuel);
    case Field(_, _) => k' := SimField(fx, pr, cs, e, k, g, s, t, fuel);
    case Append(_, _) => k' := SimAppend(fx, pr, cs, e, k, g, s, t, fuel);
    case Adjust(_, _) => k' := SimWrap(fx, pr, cs, e, k, g, s, t, fuel);
    case Cast(_, _, _, _) => k' := SimWrap(fx, pr, cs, e, k, g, s, t, fuel);
    case Return(_) => k' := SimWrap(fx, pr, cs, e, k, g, s, t, fuel);
    case Break(_) => k' := SimWrap(fx, pr, cs, e, k, g, s, t, fuel);
    case If(_, _, _) => k' := SimIf(fx, pr, cs, e, k, g, s, t, fuel);
    case Match(_, _) => k' := SimMatch(fx, pr, cs, e, k, g, s, t, fuel);
    case Loop(_) => k' := SimLoop(fx, pr, cs, e, k, g, s, t, fuel);
    case While(_, _) => k' := SimWhile(fx, pr, cs, e, k, g, s, t, fuel);
    case For(_, _, _, _, _) => k' := SimFor(fx, pr, cs, e, k, g, s, t, fuel);
    case BlockExpr(b) => k' := SimBlock(fx, pr, cs, b, k, g, s, t, fuel);
    case Closure(caps) =>
      k' := k;
      ClosureAgree(k, g, s, t, caps);
    case _ =>
      k' := k;
      AgreeCtl(k, g, s, t, Eval(pr, e, s, fuel).ctl);
  }

  lemma {:induction false} SimPrim(fx: Facts, pr: Program, cs: set<LocalId>, e: Expr, k: Link, g: set<LocalId>,
                                   s: State, t: State, fuel: nat)
    returns (k': Link)
    requires Pre(fx, pr, cs, k, g, s, t) && Scoped(e, g) && !HasAwait(e)
             && Escapes(cs, e, false) + Captures(e) !! t.stacked
    requires e.Prim?
    ensures Agree(k, g, s, t, Eval(pr, e, s, fuel), Eval(Stackify(fx, pr), e, t, fuel), k')
    decreases fuel, e, 0
  {
    hide Linked, Kept, HeapLinked, Owned, CleanAll, Stackify, SyncProgram, Cands, CandsBlock, EscapesTarget, Chosen;
    var sp := Stackify(fx, pr);
    k' := SimArgs(fx, pr, cs, e.args, k, g, s, t, fuel);
    var r, q := EvalArgs(pr, e.args, s, fuel), EvalArgs(sp, e.args, t, fuel);
    if r.ctl.Normal? {
      StackifyKeeps(fx, pr, 0);
      var c := match pr.prim(e.op, r.vs) case None => Panic case Some(n) => Normal(Num(n));
      TraceAgree(k', g, r.s, q.s, Did(e.op, r.vs), c);
      AgreeSeq(k, g, s, t, Out(r.ctl, r.s), Out(q.ctl, q.s), k', Eval(pr, e, s, fuel), Eval(sp, e, t, fuel), k');
    }
  }

  lemma {:induction false} SimLogic(fx: Facts, pr: Program, cs: set<LocalId>, e: Expr, k: Link, g: set<LocalId>,
                                    s: State, t: State, fuel: nat)
    returns (k': Link)
    requires Pre(fx, pr, cs, k, g, s, t) && Scoped(e, g) && !HasAwait(e)
             && Escapes(cs, e, false) + Captures(e) !! t.stacked
    requires e.Logic?
    ensures Agree(k, g, s, t, Eval(pr, e, s, fuel), Eval(Stackify(fx, pr), e, t, fuel), k')
    decreases fuel, e, 0
  {
    hide Linked, Kept, HeapLinked, Owned, CleanAll, Stackify, SyncProgram, Cands, CandsBlock, EscapesTarget, Chosen;
    var sp := Stackify(fx, pr);
    k' := SimExpr(fx, pr, cs, e.left, k, g, s, t, fuel);
    var r, q := Eval(pr, e.left, s, fuel), Eval(sp, e.left, t, fuel);
    if r.ctl.Normal? && Truthy(r.ctl.v) == e.isAnd {
      var k1 := k';
      k' := SimExpr(fx, pr, cs, e.right, k1, g, r.s, q.s, fuel);
      AgreeSeq(k, g, s, t, r, q, k1, Eval(pr, e.right, r.s, fuel), Eval(sp, e.right, q.s, fuel), k');
    }
  }

  lemma {:induction false} SimCall(fx: Facts, pr: Program, cs: set<LocalId>, e: Expr, k: Link, g: set<LocalId>,
                                   s: State, t: State, fuel: nat)
    returns (k': Link)
    requires Pre(fx, pr, cs, k, g, s, t) && Scoped(e, g) && !HasAwait(e)
             && Escapes(cs, e, false) + Captures(e) !! t.stacked
    requires e.Call?
    ensures Agree(k, g, s, t, Eval(pr, e, s, fuel), Eval(Stackify(fx, pr), e, t, fuel), k')
    decreases fuel, e, 0
  {
    hide Linked, Kept, HeapLinked, Owned, CleanAll, Stackify, SyncProgram, Cands, CandsBlock, EscapesTarget, Chosen;
    var sp := Stackify(fx, pr);
    k' := SimArgs(fx, pr, cs, e.args, k, g, s, t, fuel);
    var r, q := EvalArgs(pr, e.args, s, fuel), EvalArgs(sp, e.args, t, fuel);
    if r.ctl.Normal? {
      StackifyKeeps(fx, pr, 0);
      var k1 := k';
      DispatchClean(pr, e.callee, r.vs, k1.dead, r.s.mem.next);
      if Dispatch(pr, e.callee, r.vs).Some? && fuel > 0 {
        var (d, vs) := Dispatch(pr, e.callee, r.vs).value;
        k' := CallAgree(fx, pr, cs, d, vs, k1, g, r.s, q.s, fuel - 1);
        AgreeSeq(k, g, s, t, Out(r.ctl, r.s), Out(q.ctl, q.s), k1, CallFn(pr, d, vs, r.s, fuel - 1),
                 CallFn(sp, d, vs, q.s, fuel - 1), k');
      } else {
        AgreeCtl(k1, g, r.s, q.s, Eval(pr, e, s, fuel).ctl);
        AgreeSeq(k, g, s, t, Out(r.ctl, r.s), Out(q.ctl, q.s), k1, Eval(pr, e, s, fuel), Eval(sp, e, t, fuel), k');
      }
    }
  }

  lemma {:induction false} SimStruct(fx: Facts, pr: Program, cs: set<LocalId>, e: Expr, k: Link, g: set<LocalId>,
                                     s: State, t: State, fuel: nat)
    returns (k': Link)
    requires Pre(fx, pr, cs, k, g, s, t) && Scoped(e, g) && !HasAwait(e)
             && Escapes(cs, e, false) + Captures(e) !! t.stacked
    requires e.Struct?
    ensures Agree(k, g, s, t, Eval(pr, e, s, fuel), Eval(Stackify(fx, pr), e, t, fuel), k')
    decreases fuel, e, 0
  {
    hide Linked, Kept, HeapLinked, Owned, CleanAll, Stackify, SyncProgram, Cands, CandsBlock, EscapesTarget, Chosen;
    var sp := Stackify(fx, pr);
    k' := SimArgs(fx, pr, cs, e.fields, k, g, s, t, fuel);
    var r, q := EvalArgs(pr, e.fields, s, fuel), EvalArgs(sp, e.fields, t, fuel);
    if r.ctl.Normal? {
      AllocAgree(k', g, r.s, q.s, r.vs);
      AgreeSeq(k, g, s, t, Out(r.ctl, r.s), Out(q.ctl, q.s), k', Eval(pr, e, s, fuel), Eval(sp, e, t, fuel), k');
    }
  }

  lemma {:induction false} SimField(fx: Facts, pr: Program, cs: set<LocalId>, e: Expr, k: Link, g: set<LocalId>,
                                    s: State, t: State, fuel: nat)
    returns (k': Link)
    requires Pre(fx, pr, cs, k, g, s, t) && Scoped(e, g) && !HasAwait(e)
             && Escapes(cs, e, false) + Captures(e) !! t.stacked
    requires e.Field?
    ensures Agree(k, g, s, t, Eval(pr, e, s, fuel), Eval(Stackify(fx, pr), e, t, fuel), k')
    decreases fuel, e, 0
  {
    hide Linked, Kept, HeapLinked, Owned, CleanAll, Stackify, SyncProgram, Cands, CandsBlock, EscapesTarget, Chosen;
    var sp := Stackify(fx, pr);
    if e.recv.Local? && e.recv.x in k.own {
      OwnField(k, g, s, t, e.recv.x, e.idx);
      k' := k;
    } else {
      NotOwned(cs, k, g, s, t, e.recv);
      k' := SimRecv(fx, pr, cs, e.recv, k, g, s, t, fuel);
      var r, q := Eval(pr, e.recv, s, fuel), Eval(sp, e.recv, t, fuel);
      if r.ctl.Normal? {
        FieldAgree(k', g, r.s, q.s, r.ctl.v, e.idx);
        AgreeSeq(k, g, s, t, r, q, k', FieldOut(r.ctl.v, e.idx, r.s), FieldOut(r.ctl.v, e.idx, q.s), k');
      }
    }
  }

  lemma NotOwned(cs: set<LocalId>, k: Link, g: set<LocalId>, s: State, t: State, e: Expr)
    requires Linked(k, g, s, t) && Scoped(e, g) && !(e.Local? && e.x in k.own)
    ensures e.Local? ==> Get(s.env, e.x) == Get(t.env, e.x) && Clean(Get(s.env, e.x), k.dead, s.mem.next)
    ensures !e.Local? ==> Escapes(cs, e, true) == Escapes(cs, e, false)
  {
  }

  /** A receiver that is not a bound chosen local. */
  lemma {:induction false} SimRecv(fx: Facts, pr: Program, cs: set<LocalId>, e: Expr, k: Link, g: set<LocalId>,
                                   s: State, t: State, fuel: nat)
    returns (k': Link)
    requires Pre(fx, pr, cs, k, g, s, t) && Scoped(e, g) && !HasAwait(e)
             && Escapes(cs, e, true) + Captures(e) !! t.stacked
    requires e.Local? ==> Get(s.env, e.x) == Get(t.env, e.x) && Clean(Get(s.env, e.x), k.dead, s.mem.next)
    requires !e.Local? ==> Escapes(cs, e, true) == Escapes(cs, e, false)
    ensures Agree(k, g, s, t, Eval(pr, e, s, fuel), Eval(Stackify(fx, pr), e, t, fuel), k')
    decreases fuel, e, 2
  {
    hide Linked, Kept, HeapLinked, Owned, CleanAll, Stackify, SyncProgram, Escapes;
    if e.Local? {
      k' := k;
      AgreeCtl(k, g, s, t, Normal(Get(s.env, e.x)));
    } else {
      k' := SimExpr(fx, pr, cs, e, k, g, s, t, fuel);
    }
  }

  lemma DispatchClean(pr: Program, c: Callee, vs: seq<Value>, dead: set<nat>, next: nat)
    requires CleanAll(vs, dead, next)
    ensures Dispatch(pr, c, vs).Some? ==> CleanAll(Dispatch(pr, c, vs).value.1, dead, next)
  {
    if !c.Direct? && Dispatch(pr, c, vs).Some? {
      assert Clean(vs[0], dead, next);
    }
  }

  lemma {:induction false} SimAppend(fx: Facts, pr: Program, cs: set<LocalId>, e: Expr, k: Link, g: set<LocalId>,
                                     s: State, t: State, fuel: nat)
    returns (k': Link)
    requires Pre(fx, pr, cs, k, g, s, t) && Scoped(e, g) && !HasAwait(e)
             && Escapes(cs, e, false) + Captures(e) !! t.stacked
    requires e.Append?
    ensures Agree(k, g, s, t, Eval(pr, e, s, fuel), Eval(Stackify(fx, pr), e, t, fuel), k')
    decreases fuel, e, 0
  {
    hide Linked, Kept, HeapLinked, Owned, CleanAll, Stackify, SyncProgram, Cands, CandsBlock, EscapesTarget, Chosen;
    var sp := Stackify(fx, pr);
    var k1 := SimExpr(fx, pr, cs, e.list, k, g, s, t, fuel);
    k' := k1;
    var r, q := Eval(pr, e.list, s, fuel), Eval(sp, e.list, t, fuel);
    if r.ctl.Normal? {
      k' := SimExpr(fx, pr, cs, e.item, k1, g, r.s, q.s, fuel);
      var r2, q2 := Eval(pr, e.item, r.s, fuel), Eval(sp, e.item, q.s, fuel);
      AgreeSeq(k, g, s, t, r, q, k1, r2, q2, k');
      if r2.ctl.Normal? {
        CleanMono(r.ctl.v, k1, k', r.s.mem, r2.s.mem);
        AppendAgree(k', g, r2.s, q2.s, r.ctl.v, r2.ctl.v);
        AgreeSeq(k, g, s, t, r2, q2, k', AppendOut(r.ctl.v, r2.ctl.v, r2.s), AppendOut(r.ctl.v, r2.ctl.v, q2.s), k');
      }
    }
  }

  /** The forms that act on the value of their operand only. */
  lemma {:induction false} SimWrap(fx: Facts, pr: Program, cs: set<LocalId>, e: Expr, k: Link, g: set<LocalId>,
                                   s: State, t: State, fuel: nat)
    returns (k': Link)
    requires Pre(fx, pr, cs, k, g, s, t) && Scoped(e, g) && !HasAwait(e)
             && Escapes(cs, e, false) + Captures(e) !! t.stacked
    requires e.Adjust? || e.Cast? || e.Return? || e.Break?
    ensures Agree(k, g, s, t, Eval(pr, e, s, fuel), Eval(Stackify(fx, pr), e, t, fuel), k')
    decreases fuel, e, 0
  {
    hide Linked, Kept, HeapLinked, Owned, CleanAll, Stackify, SyncProgram, Cands, CandsBlock, EscapesTarget, Chosen;
    var sp := Stackify(fx, pr);
    var inner := if e.Adjust? || e.Cast? then e.inner else e.value;
    k' := SimExpr(fx, pr, cs, inner, k, g, s, t, fuel);
    var r, q := Eval(pr, inner, s, fuel), Eval(sp, inner, t, fuel);
    if r.ctl.Normal? {
      var c := Eval(pr, e, s, fuel).ctl;
      AgreeCtl(k', g, r.s, q.s, c);
      AgreeSeq(k, g, s, t, r, q, k', Out(c, r.s), Out(c, q.s), k');
    }
  }

  lemma {:induction false} SimIf(fx: Facts, pr: Program, cs: set<LocalId>, e: Expr, k: Link, g: set<LocalId>, s: State,
                                 t: State, fuel: nat)
    returns (k': Link)
    requires Pre(fx, pr, cs, k, g, s, t) && Scoped(e, g) && !HasAwait(e)
             && Escapes(cs, e, false) + Captures(e) !! t.stacked
    requires e.If?
    ensures Agree(k, g, s, t, Eval(pr, e, s, fuel), Eval(Stackify(fx, pr), e, t, fuel), k')
    decreases fuel, e, 0
  {
    hide Linked, Kept, HeapLinked, Owned, CleanAll, Stackify, SyncProgram, Cands, CandsBlock, EscapesTarget, Chosen;
    var sp := Stackify(fx, pr);
    var k1 := SimExpr(fx, pr, cs, e.cond, k, g, s, t, fuel);
    k' := k1;
    var r, q := Eval(pr, e.cond, s, fuel), Eval(sp, e.cond, t, fuel);
    if r.ctl.Normal? {
      if Truthy(r.ctl.v) {
        k' := SimBlock(fx, pr, cs, e.thn, k1, g, r.s, q.s, fuel);
      } else {
        k' := SimExpr(fx, pr, cs, e.els, k1, g, r.s, q.s, fuel);
      }
      AgreeSeq(k, g, s, t, r, q, k1, Eval(pr, e, s, fuel), Eval(sp, e, t, fuel), k');
    }
  }

  lemma {:induction false} SimMatch(fx: Facts, pr: Program, cs: set<LocalId>, e: Expr, k: Link, g: set<LocalId>,
                                    s: State, t: State, fuel: nat)
    returns (k': Link)
    requires Pre(fx, pr, cs, k, g, s, t) && Scoped(e, g) && !HasAwait(e)
             && Escapes(cs, e, false) + Captures(e) !! t.stacked
    requires e.Match?
    ensures Agree(k, g, s, t, Eval(pr, e, s, fuel), Eval(Stackify(fx, pr), e, t, fuel), k')
    decreases fuel, e, 0
  {
    hide Linked, Kept, HeapLinked, Owned, CleanAll, Stackify, SyncProgram, Cands, CandsBlock, EscapesTarget, Chosen;
    var sp := Stackify(fx, pr);
    var k1 := SimExpr(fx, pr, cs, e.scrut, k, g, s, t, fuel);
    k' := k1;
    var r, q := Eval(pr, e.scrut, s, fuel), Eval(sp, e.scrut, t, fuel);
    if r.ctl.Normal? {
      k' := SimArms(fx, pr, cs, e.arms, r.ctl.v, k1, g, r.s, q.s, fuel);
      AgreeSeq(k, g, s, t, r, q, k1, Eval(pr, e, s, fuel), Eval(sp, e, t, fuel), k');
    }
  }

  lemma {:induction false} SimLoop(fx: Facts, pr: Program, cs: set<LocalId>, e: Expr, k: Link, g: set<LocalId>,
                                   s: State, t: State, fuel: nat)
    returns (k': Link)
    requires Pre(fx, pr, cs, k, g, s, t) && Scoped(e, g) && !HasAwait(e)
             && Escapes(cs, e, false) + Captures(e) !! t.stacked
    requires e.Loop?
    ensures Agree(k, g, s, t, Eval(pr, e, s, fuel), Eval(Stackify(fx, pr), e, t, fuel), k')
    decreases fuel, e, 0
  {
    hide Linked, Kept, HeapLinked, Owned, CleanAll, Stackify, SyncProgram, Cands, CandsBlock, EscapesTarget, Chosen;
    var sp := Stackify(fx, pr);
    var k1 := SimBlock(fx, pr, cs, e.body, k, g, s, t, fuel);
    k' := k1;
    var r, q := EvalBlock(pr, e.body, s, fuel), EvalBlock(sp, e.body, t, fuel);
    if (r.ctl.Normal? || r.ctl.Cont?) && fuel > 0 {
      k' := SimExpr(fx, pr, cs, e, k1, g, r.s, q.s, fuel - 1);
    } else {
      AgreeCtl(k1, g, r.s, q.s, Eval(pr, e, s, fuel).ctl);
    }
    AgreeSeq(k, g, s, t, r, q, k1, Eval(pr, e, s, fuel), Eval(sp, e, t, fuel), k');
  }

  lemma {:induction false} SimWhile(fx: Facts, pr: Program, cs: set<LocalId>, e: Expr, k: Link, g: set<LocalId>,
                                    s: State, t: State, fuel: nat)
    returns (k': Link)
    requires Pre(fx, pr, cs, k, g, s, t) && Scoped(e, g) && !HasAwait(e)
             && Escapes(cs, e, false) + Captures(e) !! t.stacked
    requires e.While?
    ensures Agree(k, g, s, t, Eval(pr, e, s, fuel), Eval(Stackify(fx, pr), e, t, fuel), k')
    decreases fuel, e, 0
  {
    hide Linked, Kept, HeapLinked, Owned, CleanAll, Stackify, SyncProgram, Cands, CandsBlock, EscapesTarget, Chosen;
    var sp := Stackify(fx, pr);
    var k1 := SimExpr(fx, pr, cs, e.cond, k, g, s, t, fuel);
    k' := k1;
    var c, d := Eval(pr, e.cond, s, fuel), Eval(sp, e.cond, t, fuel);
    if c.ctl.Normal? {
      if Truthy(c.ctl.v) {
        k' := SimWhileBody(fx, pr, cs, e, k1, g, c.s, d.s, fuel);
      } else {
        AgreeCtl(k1, g, c.s, d.s, Normal(Nil));
      }
      AgreeSeq(k, g, s, t, c, d, k1, Eval(pr, e, s, fuel), Eval(sp, e, t, fuel), k');
    }
  }

  /** A `while` whose condition just held. */
  function BodyOut(pr: Program, e: Expr, s: State, fuel: nat): Out
    requires e.While?
  {
    var r := EvalBlock(pr, e.body, s, fuel);
    if r.ctl.Brk? then Out(Normal(Nil), r.s)
    else if !r.ctl.Normal? && !r.ctl.Cont? then r
    else if fuel == 0 then Out(Timeout, r.s)
    else Eval(pr, e, r.s, fuel - 1)
  }

  lemma {:induction false} SimWhileBody(fx: Facts, pr: Program, cs: set<LocalId>, e: Expr, k: Link, g: set<LocalId>,
                                        s: State, t: State, fuel: nat)
    returns (k': Link)
    requires Pre(fx, pr, cs, k, g, s, t) && Scoped(e, g) && !HasAwait(e)
             && Escapes(cs, e, false) + Captures(e) !! t.stacked && e.While?
    ensures Agree(k, g, s, t, BodyOut(pr, e, s, fuel), BodyOut(Stackify(fx, pr), e, t, fuel), k')
    decreases fuel, e.body, 1
  {
    hide Linked, Kept, HeapLinked, Owned, CleanAll, Stackify, SyncProgram, Eval;
    var sp := Stackify(fx, pr);
    var k1 := SimBlock(fx, pr, cs, e.body, k, g, s, t, fuel);
    k' := k1;
    var r, q := EvalBlock(pr, e.body, s, fuel), EvalBlock(sp, e.body, t, fuel);
    if (r.ctl.Normal? || r.ctl.Cont?) && fuel > 0 {
      k' := SimExpr(fx, pr, cs, e, k1, g, r.s, q.s, fuel - 1);
    } else {
      AgreeCtl(k1, g, r.s, q.s, BodyOut(pr, e, s, fuel).ctl);
    }
    AgreeSeq(k, g, s, t, r, q, k1, BodyOut(pr, e, s, fuel), BodyOut(sp, e, t, fuel), k');
  }

  lemma {:induction false} SimFor(fx: Facts, pr: Program, cs: set<LocalId>, e: Expr, k: Link, g: set<LocalId>, s: State,
                                  t: State, fuel: nat)
    returns (k': Link)
    requires Pre(fx, pr, cs, k, g, s, t) && Scoped(e, g) && !HasAwait(e)
             && Escapes(cs, e, false) + Captures(e) !! t.stacked
    requires e.For?
    ensures Agree(k, g, s, t, Eval(pr, e, s, fuel), Eval(Stackify(fx, pr), e, t, fuel), k')
    decreases fuel, e, 0
  {
    hide Linked, Kept, HeapLinked, Owned, CleanAll, Stackify, SyncProgram, Cands, CandsBlock, EscapesTarget, Chosen;
    var sp := Stackify(fx, pr);
    var k1 := SimExpr(fx, pr, cs, e.iter, k, g, s, t, fuel);
    k' := k1;
    var r, q := Eval(pr, e.iter, s, fuel), Eval(sp, e.iter, t, fuel);
    if r.ctl.Normal? {
      var a, b := ForInit(e.driver, r.ctl.v, r.s.mem), ForInit(e.driver, r.ctl.v, q.s.mem);
      InitAgree(k1, g, r.s, q.s, e.driver, r.ctl.v);
      if a.Some? {
        var (cur, m) := a.value;
        var (_, m2) := b.value;
        var s1, t1 := r.s.(mem := m), q.s.(mem := m2);
        AgreeSeq(k, g, s, t, r, q, k1, Out(Normal(Nil), s1), Out(Normal(Nil), t1), k1);
        k' := SimForLoop(fx, pr, cs, e, cur, k1, g, s1, t1, fuel);
        AgreeSeq(k, g, s, t, Out(Normal(Nil), s1), Out(Normal(Nil), t1), k1, Eval(pr, e, s, fuel), Eval(sp, e, t, fuel),
                 k');
      } else {
        AgreeCtl(k1, g, r.s, q.s, Stuck);
        AgreeSeq(k, g, s, t, r, q, k1, Eval(pr, e, s, fuel), Eval(sp, e, t, fuel), k');
      }
    }
  }

  predicate CursorClean(c: Cursor, dead: set<nat>, next: nat)
  {
    Clean(c.primary, dead, next) && Clean(c.secondary, dead, next)
  }

  lemma {:induction false} KeysClean(kvs: seq<Value>, dead: set<nat>, next: nat)
    requires CleanAll(kvs, dead, next)
    ensures CleanAll(MapKeys(kvs), dead, next)
    decreases |kvs|
  {
    if |kvs| >= 2 {
      KeysClean(kvs[2..], dead, next);
    }
  }

  lemma {:induction false} IndexClean(kvs: seq<Value>, key: Value, dead: set<nat>, next: nat)
    requires CleanAll(kvs, dead, next)
    ensures MapIndex(kvs, key).Some? ==> Clean(MapIndex(kvs, key).value, dead, next)
    decreases |kvs|
  {
    if |kvs| >= 2 {
      IndexClean(kvs[2..], key, dead, next);
    }
  }

  lemma InitAgree(k: Link, g: set<LocalId>, s: State, t: State, d: ForDriver, v: Value)
    requires Linked(k, g, s, t) && Clean(v, k.dead, s.mem.next)
    ensures ForInit(d, v, s.mem).Some? == ForInit(d, v, t.mem).Some?
    ensures ForInit(d, v, s.mem).Some? ==>
              var (c, m) := ForInit(d, v, s.mem).value; var (c', m') := ForInit(d, v, t.mem).value;
              && c == c' && CursorClean(c, k.dead, m.next)
              && Agree(k, g, s, t, Out(Normal(Nil), s.(mem := m)), Out(Normal(Nil), t.(mem := m')), k)
  {
    if d.MapEntries? {
      ReadAgree(k, g, s, t, v);
      if HasBlock(s.mem, v) {
        var keys := MapKeys(BlockAt(s.mem, v));
        KeysClean(BlockAt(s.mem, v), k.dead, s.mem.next);
        AllocAgree(k, g, s, t, keys);
        CleanMono(v, k, k, s.mem, Alloc(s.mem, keys).0);
      }
    } else {
      AgreeCtl(k, g, s, t, Normal(Nil));
      assert s.(mem := s.mem) == s && t.(mem := t.mem) == t;
    }
  }

  lemma ItemAgree(k: Link, g: set<LocalId>, s: State, t: State, u: Value, done: TypeId)
    requires Linked(k, g, s, t) && Clean(u, k.dead, s.mem.next)
    ensures ItemOf(u, done, s.mem) == ItemOf(u, done, t.mem)
    ensures match ItemOf(u, done, s.mem) case Some(Some(v)) => Clean(v, k.dead, s.mem.next) case _ => true
  {
    if u.Boxed? {
      ReadAgree(k, g, s, t, u.payload);
    }
  }

  /** A step of an ordinary `for` as an outcome: an item is `Normal`, the end `Cont`. */
  function StepOut(a: Step): Out
  {
    match a
    case Item(v, s) => Out(Normal(v), s)
    case Done(s) => Out(Cont, s)
    case Fail(c, s) => Out(c, s)
  }

  predicate StepAgree(k: Link, g: set<LocalId>, s: State, t: State, a: Step, b: Step, k': Link)
  {
    a.Item? == b.Item? && a.Done? == b.Done? && Agree(k, g, s, t, StepOut(a), StepOut(b), k')
  }

  lemma {:induction false} SimStep(fx: Facts, pr: Program, cs: set<LocalId>, d: ForDriver, c: Cursor, k: Link,
                                   g: set<LocalId>, s: State, t: State, fuel: nat)
    returns (k': Link)
    requires Pre(fx, pr, cs, k, g, s, t) && CursorClean(c, k.dead, s.mem.next)
    ensures StepAgree(k, g, s, t, ForStep(pr, d, c, s, fuel), ForStep(Stackify(fx, pr), d, c, t, fuel), k')
    decreases fuel, ENil, 2
  {
    hide Linked, Kept, HeapLinked, Owned, CleanAll, Stackify, SyncProgram, CallFn;
    var sp := Stackify(fx, pr);
    k' := k;
    match d
    case ListFast => ListStep(fx, pr, c, k, g, s, t, fuel);
    case MapEntries => MapStep(fx, pr, c, k, g, s, t, fuel);
    case Iterator(next, done) =>
      assert CleanAll([c.primary], k.dead, s.mem.next) by { OneClean(c.primary, k.dead, s.mem.next); }
      k' := CallAgree(fx, pr, cs, next, [c.primary], k, g, s, t, fuel);
      var r, q := CallFn(pr, next, [c.primary], s, fuel), CallFn(sp, next, [c.primary], t, fuel);
      if r.ctl.Normal? {
        ItemAgree(k', g, r.s, q.s, r.ctl.v, done);
        var a, b := ForStep(pr, d, c, s, fuel), ForStep(sp, d, c, t, fuel);
        AgreeCtl(k', g, r.s, q.s, StepOut(a).ctl);
        AgreeSeq(k, g, s, t, r, q, k', StepOut(a), StepOut(b), k');
      }
    case AsyncIter(_, _) => AgreeCtl(k, g, s, t, Stuck);
  }

  lemma OneClean(v: Value, dead: set<nat>, next: nat)
    requires Clean(v, dead, next)
    ensures CleanAll([v], dead, next)
  {
  }

  lemma ListStep(fx: Facts, pr: Program, c: Cursor, k: Link, g: set<LocalId>, s: State, t: State, fuel: nat)
    requires Linked(k, g, s, t) && CursorClean(c, k.dead, s.mem.next)
    ensures StepAgree(k, g, s, t, ForStep(pr, ListFast, c, s, fuel), ForStep(Stackify(fx, pr), ListFast, c, t, fuel), k)
  {
    ReadAgree(k, g, s, t, c.primary);
    AgreeCtl(k, g, s, t, StepOut(ForStep(pr, ListFast, c, s, fuel)).ctl);
  }

  lemma MapStep(fx: Facts, pr: Program, c: Cursor, k: Link, g: set<LocalId>, s: State, t: State, fuel: nat)
    requires Linked(k, g, s, t) && CursorClean(c, k.dead, s.mem.next)
    ensures StepAgree(k, g, s, t, ForStep(pr, MapEntries, c, s, fuel),
                      ForStep(Stackify(fx, pr), MapEntries, c, t, fuel), k)
  {
    ReadAgree(k, g, s, t, c.primary);
    ReadAgree(k, g, s, t, c.secondary);
    var a := ForStep(pr, MapEntries, c, s, fuel);
    if a.Item? {
      var key := BlockAt(s.mem, c.primary)[c.idx];
      IndexClean(BlockAt(s.mem, c.secondary), key, k.dead, s.mem.next);
      AllocAgree(k, g, s, t, [key, MapIndex(BlockAt(s.mem, c.secondary), key).value]);
    } else {
      AgreeCtl(k, g, s, t, StepOut(a).ctl);
    }
  }

  lemma {:induction false} SimForLoop(fx: Facts, pr: Program, cs: set<LocalId>, e: Expr, c: Cursor, k: Link,
                                      g: set<LocalId>, s: State, t: State, fuel: nat)
    returns (k': Link)
    requires Pre(fx, pr, cs, k, g, s, t) && CursorClean(c, k.dead, s.mem.next) && e.For?
    requires ScopedBlock(e.body, g + PatSet(e.pat)) && !HasAwaitBlock(e.body)
             && EscapesBlock(cs, e.body) + CapturesBlock(e.body) !! t.stacked
    ensures Agree(k, g, s, t, EvalFor(pr, e.driver, e.pat, e.body, c, s, fuel),
                  EvalFor(Stackify(fx, pr), e.driver, e.pat, e.body, c, t, fuel), k')
    decreases fuel, e.body, 3
  {
    hide Linked, Kept, HeapLinked, Owned, CleanAll, Stackify, SyncProgram, ForStep, BindPat, EvalBlock;
    var sp := Stackify(fx, pr);
    if fuel == 0 {
      k' := k;
      AgreeCtl(k, g, s, t, Timeout);
    } else {
      var k1 := SimStep(fx, pr, cs, e.driver, c, k, g, s, t, fuel - 1);
      var a, b := ForStep(pr, e.driver, c, s, fuel - 1), ForStep(sp, e.driver, c, t, fuel - 1);
      k' := k1;
      if a.Item? {
        CursorMono(c, k, k1, s.mem, a.s.mem);
        k' := SimItem(fx, pr, cs, e, c, a.v, k1, g, a.s, b.s, fuel);
      } else {
        AgreeCtl(k1, g, a.s, b.s, if a.Done? then Normal(Nil) else a.ctl);
      }
      AgreeSeq(k, g, s, t, StepOut(a), StepOut(b), k1, EvalFor(pr, e.driver, e.pat, e.body, c, s, fuel),
               EvalFor(sp, e.driver, e.pat, e.body, c, t, fuel), k');
    }
  }

  lemma CursorMono(c: Cursor, k: Link, k': Link, m: Mem, m': Mem)
    requires CursorClean(c, k.dead, m.next) && Kept(k, k', m, m')
    ensures CursorClean(c, k'.dead, m'.next)
  {
    CleanMono(c.primary, k, k', m, m');
    CleanMono(c.secondary, k, k', m, m');
  }

  /** What a `for` does with an item. */
  function ItemOut(pr: Program, e: Expr, c: Cursor, v: Value, s: State, fuel: nat): Out
    requires e.For? && fuel > 0
  {
    match BindPat(s.env, s.mem, e.pat, v)
    case None => Out(Stuck, s)
    case Some(env') =>
      var r := EvalBlock(pr, e.body, s.(env := env'), fuel - 1);
      if r.ctl.Brk? then Out(Normal(Nil), r.s)
      else if !r.ctl.Normal? && !r.ctl.Cont? then r
      else EvalFor(pr, e.driver, e.pat, e.body, Advance(e.driver, c), r.s, fuel - 1)
  }

  lemma {:induction false} SimItem(fx: Facts, pr: Program, cs: set<LocalId>, e: Expr, c: Cursor, v: Value, k: Link,
                                   g: set<LocalId>, s: State, t: State, fuel: nat)
    returns (k': Link)
    requires Pre(fx, pr, cs, k, g, s, t) && CursorClean(c, k.dead, s.mem.next) && Clean(v, k.dead, s.mem.next) && e.For?
             && fuel > 0
    requires ScopedBlock(e.body, g + PatSet(e.pat)) && !HasAwaitBlock(e.body)
             && EscapesBlock(cs, e.body) + CapturesBlock(e.body) !! t.stacked
    ensures Agree(k, g, s, t, ItemOut(pr, e, c, v, s, fuel), ItemOut(Stackify(fx, pr), e, c, v, t, fuel), k')
    decreases fuel, e.body, 2
  {
    hide Linked, Kept, HeapLinked, Owned, CleanAll, Stackify, SyncProgram, BindPat, EvalBlock, EvalFor;
    var sp := Stackify(fx, pr);
    var k1 := BindPatAgree(k, g, s, t, e.pat, v);
    k' := k;
    if BindPat(s.env, s.mem, e.pat, v).None? {
      AgreeCtl(k, g, s, t, Stuck);
    } else {
      var g' := g + PatSet(e.pat);
      var s1, t1 := s.(env := BindPat(s.env, s.mem, e.pat, v).value), t.(env := BindPat(t.env, t.mem, e.pat, v).value);
      Narrow(k, g, g', s, t, Out(Normal(Nil), s1), Out(Normal(Nil), t1), k1);
      var k2 := SimBlock(fx, pr, cs, e.body, k1, g', s1, t1, fuel - 1);
      var r, q := EvalBlock(pr, e.body, s1, fuel - 1), EvalBlock(sp, e.body, t1, fuel - 1);
      Narrow(k1, g, g', s1, t1, r, q, k2);
      AgreeSeq(k, g, s, t, Out(Normal(Nil), s1), Out(Normal(Nil), t1), k1, r, q, k2);
      k' := k2;
      if r.ctl.Normal? || r.ctl.Cont? {
        CursorMono(c, k, k2, s.mem, r.s.mem);
        k' := SimForLoop(fx, pr, cs, e, Advance(e.driver, c), k2, g, r.s, q.s, fuel - 1);
      } else {
        AgreeCtl(k2, g, r.s, q.s, ItemOut(pr, e, c, v, s, fuel).ctl);
      }
      AgreeSeq(k, g, s, t, r, q, k2, ItemOut(pr, e, c, v, s, fuel), ItemOut(sp, e, c, v, t, fuel), k');
    }
  }

  lemma {:induction false} SimArgs(fx: Facts, pr: Program, cs: set<LocalId>, es: Exprs, k: Link, g: set<LocalId>,
                                   s: State, t: State, fuel: nat)
    returns (k': Link)
    requires Pre(fx, pr, cs, k, g, s, t) && ScopedArgs(es, g) && !HasAwaitArgs(es)
             && EscapesArgs(cs, es) + CapturesArgs(es) !! t.stacked
    ensures AgreeArgs(k, g, s, t, EvalArgs(pr, es, s, fuel), EvalArgs(Stackify(fx, pr), es, t, fuel), k')
    decreases fuel, es, 0
  {
    hide Linked, Kept, HeapLinked, Owned, Stackify, SyncProgram, Eval;
    var sp := Stackify(fx, pr);
    match es
    case ENil =>
      k' := k;
      AgreeCtl(k, g, s, t, Normal(Nil));
    case ECons(head, tail) =>
      var k1 := SimExpr(fx, pr, cs, head, k, g, s, t, fuel);
      k' := k1;
      var r, q := Eval(pr, head, s, fuel), Eval(sp, head, t, fuel);
      if r.ctl.Normal? {
        k' := SimArgs(fx, pr, cs, tail, k1, g, r.s, q.s, fuel);
        var r2, q2 := EvalArgs(pr, tail, r.s, fuel), EvalArgs(sp, tail, q.s, fuel);
        CleanMono(r.ctl.v, k1, k', r.s.mem, r2.s.mem);
        AgreeSeq(k, g, s, t, r, q, k1, Out(r2.ctl, r2.s), Out(q2.ctl, q2.s), k');
      }
  }

  lemma {:induction false} SimArms(fx: Facts, pr: Program, cs: set<LocalId>, arms: Arms, v: Value, k: Link,
                                   g: set<LocalId>, s: State, t: State, fuel: nat)
    returns (k': Link)
    requires Pre(fx, pr, cs, k, g, s, t) && ScopedArms(arms, g) && !HasAwaitArms(arms)
             && EscapesArms(cs, arms) + CapturesArms(arms) !! t.stacked
    requires Clean(v, k.dead, s.mem.next)
    ensures Agree(k, g, s, t, EvalArms(pr, arms, v, s, fuel), EvalArms(Stackify(fx, pr), arms, v, t, fuel), k')
    decreases fuel, arms, 1
  {
    hide Linked, Kept, HeapLinked, Owned, CleanAll, Stackify, SyncProgram, Eval, BindPat;
    var sp := Stackify(fx, pr);
    k' := k;
    if arms.NoArms? {
      AgreeCtl(k, g, s, t, Stuck);
    } else if !Matches(arms.pat, v) {
      k' := SimArms(fx, pr, cs, arms.rest, v, k, g, s, t, fuel);
    } else {
      var k1 := BindPatAgree(k, g, s, t, arms.pat, v);
      if BindPat(s.env, s.mem, arms.pat, v).None? {
        AgreeCtl(k, g, s, t, Stuck);
      } else {
        var g' := g + PatSet(arms.pat);
        var s1 := s.(env := BindPat(s.env, s.mem, arms.pat, v).value);
        var t1 := t.(env := BindPat(t.env, t.mem, arms.pat, v).value);
        Narrow(k, g, g', s, t, Out(Normal(Nil), s1), Out(Normal(Nil), t1), k1);
        CleanMono(v, k, k1, s.mem, s1.mem);
        k' := SimArm(fx, pr, cs, arms, v, k1, g, s1, t1, fuel);
        AgreeSeq(k, g, s, t, Out(Normal(Nil), s1), Out(Normal(Nil), t1), k1, ArmOut(pr, arms, v, s1, fuel),
                 ArmOut(sp, arms, v, t1, fuel), k');
      }
    }
  }

  /** An arm whose pattern matched: guard, then body or the next arm. */
  function ArmOut(pr: Program, arms: Arms, v: Value, s: State, fuel: nat): Out
    requires arms.Arm?
  {
    var r := Eval(pr, arms.guard, s, fuel);
    if !r.ctl.Normal? then r
    else if Truthy(r.ctl.v) then Eval(pr, arms.arm, r.s, fuel)
    else EvalArms(pr, arms.rest, v, r.s, fuel)
  }

  lemma {:induction false} SimArm(fx: Facts, pr: Program, cs: set<LocalId>, arms: Arms, v: Value, k: Link,
                                  g: set<LocalId>, s: State, t: State, fuel: nat)
    returns (k': Link)
    requires arms.Arm? && Pre(fx, pr, cs, k, g + PatSet(arms.pat), s, t) && Linked(k, g, s, t)
    requires ScopedArms(arms, g) && !HasAwaitArms(arms) && EscapesArms(cs, arms) + CapturesArms(arms) !! t.stacked
    requires Clean(v, k.dead, s.mem.next)
    ensures Agree(k, g, s, t, ArmOut(pr, arms, v, s, fuel), ArmOut(Stackify(fx, pr), arms, v, t, fuel), k')
    decreases fuel, arms, 0
  {
    hide Linked, Kept, HeapLinked, Owned, CleanAll, Stackify, SyncProgram, Eval, BindPat, EvalArms;
    var sp := Stackify(fx, pr);
    var g' := g + PatSet(arms.pat);
    var k1 := SimExpr(fx, pr, cs, arms.guard, k, g', s, t, fuel);
    var r, q := Eval(pr, arms.guard, s, fuel), Eval(sp, arms.guard, t, fuel);
    Narrow(k, g, g', s, t, r, q, k1);
    k' := k1;
    if r.ctl.Normal? {
      if Truthy(r.ctl.v) {
        k' := SimExpr(fx, pr, cs, arms.arm, k1, g', r.s, q.s, fuel);
        Narrow(k1, g, g', r.s, q.s, Eval(pr, arms.arm, r.s, fuel), Eval(sp, arms.arm, q.s, fuel), k');
      } else {
        CleanMono(v, k, k1, s.mem, r.s.mem);
        k' := SimArms(fx, pr, cs, arms.rest, v, k1, g, r.s, q.s, fuel);
      }
      AgreeSeq(k, g, s, t, r, q, k1, ArmOut(pr, arms, v, s, fuel), ArmOut(sp, arms, v, t, fuel), k');
    }
  }

  lemma {:induction false} SimStore(fx: Facts, pr: Program, cs: set<LocalId>, target: Expr, v: Value, k: Link,
                                    g: set<LocalId>, s: State, t: State, fuel: nat)
    returns (k': Link)
    requires Pre(fx, pr, cs, k, g, s, t) && Scoped(target, g) && !HasAwait(target)
             && EscapesTarget(cs, target) + Captures(target) !! t.stacked
    requires Clean(v, k.dead, s.mem.next)
    ensures Agree(k, g, s, t, EvalStore(pr, target, v, s, fuel), EvalStore(Stackify(fx, pr), target, v, t, fuel), k')
    decreases fuel, target, 1
  {
    hide Linked, Kept, HeapLinked, Owned, CleanAll, Stackify, SyncProgram, Eval;
    var sp := Stackify(fx, pr);
    k' := k;
    match target
    case Local(x) =>
      SetAgree(k, g, s, t, x, v);
      k' := Link(k.own - {x}, k.dead);
      Narrow(k, g, g + {x}, s, t, EvalStore(pr, target, v, s, fuel), EvalStore(sp, target, v, t, fuel), k');
    case Field(_, _) => k' := SimFieldStore(fx, pr, cs, target, v, k, g, s, t, fuel);
    case _ => AgreeCtl(k, g, s, t, EvalStore(pr, target, v, s, fuel).ctl);
  }

  lemma {:induction false} SimFieldStore(fx: Facts, pr: Program, cs: set<LocalId>, target: Expr, v: Value, k: Link,
                                         g: set<LocalId>, s: State, t: State, fuel: nat)
    returns (k': Link)
    requires Pre(fx, pr, cs, k, g, s, t) && Scoped(target, g) && !HasAwait(target)
             && EscapesTarget(cs, target) + Captures(target) !! t.stacked
    requires Clean(v, k.dead, s.mem.next) && target.Field?
    ensures Agree(k, g, s, t, EvalStore(pr, target, v, s, fuel), EvalStore(Stackify(fx, pr), target, v, t, fuel), k')
    decreases fuel, target, 0
  {
    hide Linked, Kept, HeapLinked, Owned, CleanAll, Stackify, SyncProgram, Eval;
    var sp := Stackify(fx, pr);
    k' := k;
    var recv, idx := target.recv, target.idx;
    if recv.Local? && recv.x in k.own {
      OwnPut(k, g, s, t, recv.x, idx, v);
      LocalEval(pr, recv, s, fuel);
      LocalEval(sp, recv, t, fuel);
    } else {
      NotOwned(cs, k, g, s, t, recv);
      k' := SimRecv(fx, pr, cs, recv, k, g, s, t, fuel);
      var r, q := Eval(pr, recv, s, fuel), Eval(sp, recv, t, fuel);
      if r.ctl.Normal? {
        CleanMono(v, k, k', s.mem, r.s.mem);
        PutAgree(k', g, r.s, q.s, r.ctl.v, idx, v);
        AgreeSeq(k, g, s, t, r, q, k', PutOut(r.ctl.v, idx, v, r.s), PutOut(r.ctl.v, idx, v, q.s), k');
      }
    }
  }

  lemma LocalEval(pr: Program, e: Expr, s: State, fuel: nat)
    requires e.Local?
    ensures Eval(pr, e, s, fuel) == Out(Normal(Get(s.env, e.x)), s)
  {
  }

  lemma HeapLetEval(pr: Program, st: Stmt, s: State, fuel: nat)
    requires st.Let? && st.pat.Bind? && st.init.Struct? && st.pat.local !in s.stacked
    ensures var r := EvalArgs(pr, st.init.fields, s, fuel);
            EvalStmt(pr, st, s, fuel)
            == if r.ctl.Normal? then Out(Normal(Nil), HeapLet(r.s, st.pat.local, r.vs)) else Out(r.ctl, r.s)
  {
    hide EvalArgs;
    assert EvalInit(pr, st.pat, st.init, s, fuel) == Eval(pr, st.init, s, fuel);
  }

  lemma SlotLetEval(pr: Program, st: Stmt, t: State, t0: State, fuel: nat)
    requires st.Let? && st.pat.Bind? && st.init.Struct? && st.pat.local in t.stacked
    requires t0 == t.(mem := t.mem.(stack := t.mem.stack[st.pat.local := seq(Length(st.init.fields), _ => Num(0))]))
    ensures var r := EvalArgs(pr, st.init.fields, t0, fuel);
            EvalStmt(pr, st, t, fuel)
            == if r.ctl.Normal? then Out(Normal(Nil), SlotLet(r.s, st.pat.local, r.vs)) else Out(r.ctl, r.s)
  {
    hide EvalArgs;
  }

  /** A `let` that fills a frame block, against the same `let` on the heap. */
  lemma {:induction false} SimSlotLet(fx: Facts, pr: Program, cs: set<LocalId>, st: Stmt, k: Link, g: set<LocalId>,
                                      s: State, t: State, fuel: nat)
    returns (k': Link)
    requires Pre(fx, pr, cs, k, g, s, t) && ScopedStmt(st, g) && !HasAwaitStmt(st)
             && EscapesStmt(cs, st) + CapturesStmt(st) !! t.stacked
    requires st.Let? && st.pat.Bind? && st.init.Struct? && st.pat.local in t.stacked
    ensures Agree(k, g, s, t, EvalStmt(pr, st, s, fuel), EvalStmt(Stackify(fx, pr), st, t, fuel), k')
    ensures EvalStmt(pr, st, s, fuel).ctl.Normal? ==>
              Linked(k', g + {st.pat.local}, EvalStmt(pr, st, s, fuel).s, EvalStmt(Stackify(fx, pr), st, t, fuel).s)
    decreases fuel, st.init, 2
  {
    var sp := Stackify(fx, pr);
    var x, fields := st.pat.local, st.init.fields;
    var blank := seq(Length(fields), _ => Num(0));
    var t0 := t.(mem := t.mem.(stack := t.mem.stack[x := blank]));
    var k0 := Link(k.own - {x}, k.dead);
    assert x !in g by { assert x in PatSet(st.pat); }
    HeapLetEval(pr, st, s, fuel);
    SlotLetEval(sp, st, t, t0, fuel);
    hide Linked, Kept, HeapLinked, Owned, CleanAll, Stackify, SyncProgram, EvalArgs, EvalStmt, HeapLet, SlotLet, Extend;
    BlankAgree(k, g, s, t, x, blank);
    AgreeCtl(k0, g, s, t0, Normal(Nil));
    var k1 := SimArgs(fx, pr, cs, fields, k0, g, s, t0, fuel);
    var r, q := EvalArgs(pr, fields, s, fuel), EvalArgs(sp, fields, t0, fuel);
    k' := k1;
    BlankSeq(k, k0, k1, g, s, t, t0, Out(r.ctl, r.s), Out(q.ctl, q.s));
    if r.ctl.Normal? {
      SlotAgree(k1, g, r.s, q.s, x, r.vs);
      k' := Extend(k1, x, r.s.mem.next);
      var a, b := Out(Normal(Nil), HeapLet(r.s, x, r.vs)), Out(Normal(Nil), SlotLet(q.s, x, r.vs));
      Narrow(k1, g, g + {x}, r.s, q.s, a, b, k');
      AgreeSeq(k, g, s, t, Out(r.ctl, r.s), Out(q.ctl, q.s), k1, a, b, k');
    }
  }

  lemma BlankSeq(k: Link, k0: Link, k1: Link, g: set<LocalId>, s: State, t: State, t0: State, r: Out, q: Out)
    requires Linked(k, g, s, t) && Kept(k, k0, s.mem, s.mem) && Agree(k0, g, s, t0, r, q, k1) && t0.stacked == t.stacked
    ensures Agree(k, g, s, t, r, q, k1)
  {
    KeptTrans(k, k0, k1, s.mem, s.mem, r.s.mem);
  }

  lemma {:induction false} SimStmt(fx: Facts, pr: Program, cs: set<LocalId>, st: Stmt, k: Link, g: set<LocalId>,
                                   s: State, t: State, fuel: nat)
    returns (k': Link)
    requires Pre(fx, pr, cs, k, g, s, t) && ScopedStmt(st, g) && !HasAwaitStmt(st)
             && EscapesStmt(cs, st) + CapturesStmt(st) !! t.stacked
    ensures Agree(k, g, s, t, EvalStmt(pr, st, s, fuel), EvalStmt(Stackify(fx, pr), st, t, fuel), k')
    ensures EvalStmt(pr, st, s, fuel).ctl.Normal? ==>
              Linked(k', ScopeAfter(st, g), EvalStmt(pr, st, s, fuel).s, EvalStmt(Stackify(fx, pr), st, t, fuel).s)
    decreases fuel, st, 1
  {
    assert s.stacked == {};
    hide Linked, Kept, HeapLinked, Owned, CleanAll, Stackify, SyncProgram, Eval, EvalArgs, BindPat;
    var sp := Stackify(fx, pr);
    match st
    case Let(pat, init) =>
      if pat.Bind? && init.Struct? && pat.local in t.stacked {
        k' := SimSlotLet(fx, pr, cs, st, k, g, s, t, fuel);
        assert PatSet(pat) == {pat.local};
      } else {
        var k1 := SimExpr(fx, pr, cs, init, k, g, s, t, fuel);
        k' := k1;
        var r, q := Eval(pr, init, s, fuel), Eval(sp, init, t, fuel);
        if r.ctl.Normal? {
          k' := SimBind(pat, r.ctl.v, k1, g, r.s, q.s);
          AgreeSeq(k, g, s, t, r, q, k1, BindOut(pat, r.ctl.v, r.s), BindOut(pat, r.ctl.v, q.s), k');
        }
      }
    case Assign(target, value) =>
      var k1 := SimExpr(fx, pr, cs, value, k, g, s, t, fuel);
      k' := k1;
      var r, q := Eval(pr, value, s, fuel), Eval(sp, value, t, fuel);
      if r.ctl.Normal? {
        k' := SimStore(fx, pr, cs, target, r.ctl.v, k1, g, r.s, q.s, fuel);
        AgreeSeq(k, g, s, t, r, q, k1, EvalStore(pr, target, r.ctl.v, r.s, fuel),
                 EvalStore(sp, target, r.ctl.v, q.s, fuel), k');
      }
    case ExprStmt(e) => k' := SimExpr(fx, pr, cs, e, k, g, s, t, fuel);
  }

  function BindOut(pat: Pattern, v: Value, s: State): Out
  {
    match BindPat(s.env, s.mem, pat, v)
    case None => Out(Stuck, s)
    case Some(env') => Out(Normal(Nil), s.(env := env'))
  }

  lemma SimBind(pat: Pattern, v: Value, k: Link, g: set<LocalId>, s: State, t: State) returns (k': Link)
    requires Linked(k, g, s, t) && Clean(v, k.dead, s.mem.next)
    ensures Agree(k, g, s, t, BindOut(pat, v, s), BindOut(pat, v, t), k')
    ensures BindOut(pat, v, s).ctl.Normal? ==> Linked(k', g + PatSet(pat), BindOut(pat, v, s).s, BindOut(pat, v, t).s)
  {
    hide Linked, Kept, CleanAll, Clean;
    var k1 := BindPatAgree(k, g, s, t, pat, v);
    if BindPat(s.env, s.mem, pat, v).Some? {
      k' := k1;
      Narrow(k, g, g + PatSet(pat), s, t, BindOut(pat, v, s), BindOut(pat, v, t), k1);
    } else {
      k' := k;
      AgreeCtl(k, g, s, t, Stuck);
    }
  }

  lemma {:induction false} SimBlock(fx: Facts, pr: Program, cs: set<LocalId>, b: Block, k: Link, g: set<LocalId>,
                                    s: State, t: State, fuel: nat)
    returns (k': Link)
    requires Pre(fx, pr, cs, k, g, s, t) && ScopedBlock(b, g) && !HasAwaitBlock(b)
             && EscapesBlock(cs, b) + CapturesBlock(b) !! t.stacked
    ensures Agree(k, g, s, t, EvalBlock(pr, b, s, fuel), EvalBlock(Stackify(fx, pr), b, t, fuel), k')
    decreases fuel, b, 0
  {
    hide Linked, Kept, HeapLinked, Owned, CleanAll, Stackify, SyncProgram, Eval, EvalStmt;
    var sp := Stackify(fx, pr);
    match b
    case Tail(e) => k' := SimExpr(fx, pr, cs, e, k, g, s, t, fuel);
    case Then(st, rest) =>
      var k1 := SimStmt(fx, pr, cs, st, k, g, s, t, fuel);
      k' := k1;
      var r, q := EvalStmt(pr, st, s, fuel), EvalStmt(sp, st, t, fuel);
      if r.ctl.Normal? {
        var g' := ScopeAfter(st, g);
        k' := SimBlock(fx, pr, cs, rest, k1, g', r.s, q.s, fuel);
        var r2, q2 := EvalBlock(pr, rest, r.s, fuel), EvalBlock(sp, rest, q.s, fuel);
        Narrow(k1, g, g', r.s, q.s, r2, q2, k');
        AgreeSeq(k, g, s, t, r, q, k1, r2, q2, k');
      }
  }

  /** Calling the same function in both runs: the caller's frame blocks are out of the
      callee's reach, and the callee's are gone when it returns. */
  lemma {:induction false} CallAgree(fx: Facts, pr: Program, cs: set<LocalId>, d: DefId, vs: seq<Value>, k: Link,
                                     g: set<LocalId>, s: State, t: State, fuel: nat)
    returns (k': Link)
    requires Pre(fx, pr, cs, k, g, s, t) && CleanAll(vs, k.dead, s.mem.next)
    ensures Agree(k, g, s, t, CallFn(pr, d, vs, s, fuel), CallFn(Stackify(fx, pr), d, vs, t, fuel), k')
    decreases fuel, ENil, 1
  {
    StackifyKeeps(fx, pr, d);
    hide Linked, Kept, HeapLinked, Owned, CleanAll, Stackify;
    var sp := Stackify(fx, pr);
    k' := k;
    if d !in pr.funcs || |pr.funcs[d].params| != |vs| || fuel == 0 {
      AgreeCtl(k, g, s, t, CallFn(pr, d, vs, s, fuel).ctl);
    } else {
      var f := pr.funcs[d];
      var h := set x | x in f.params;
      var cs' := CandsBlock(fx, f.body);
      EnterAgree(k, g, s, t, f, Chosen(fx, f.body), vs, h);
      ChosenStays(fx, f.body);
      var k1 := SimBlock(fx, pr, cs', f.body, Link(map[], k.dead), h, Enter(s, f, vs), Enter(t, sp.funcs[d], vs),
                         fuel - 1);
      var r, q := EvalBlock(pr, f.body, Enter(s, f, vs), fuel - 1),
          EvalBlock(sp, f.body, Enter(t, sp.funcs[d], vs), fuel - 1);
      LeaveAgree(k, g, s, t, r.s, q.s, k1, h);
      k' := Link(k.own, k1.dead);
    }
  }

  lemma ChosenStays(fx: Facts, body: Block)
    requires CapturesBlock(body) <= fx.captured
    ensures Chosen(fx, body) <= CandsBlock(fx, body)
    ensures EscapesBlock(CandsBlock(fx, body), body) + CapturesBlock(body) !! Chosen(fx, body)
  {
    forall x <- Chosen(fx, body) ensures x !in fx.captured {
      CandsBlockExactly(fx, body, x);
    }
  }

  /** A state without frame blocks whose pointers all lead below `next`. */
  predicate Closed(s: State, vs: seq<Value>)
  {
    && s.stacked == {} && CleanAll(vs, {}, s.mem.next)
    && (forall a <- s.mem.heap :: a < s.mem.next && CleanAll(s.mem.heap[a], {}, s.mem.next))
  }

  /** Keeping the chosen structs of every function in its frame changes no outcome, no
      effect, and no heap block that the outcome or another surviving block leads to. */
  lemma StackingPreserves(types: set<DefId>, pr: Program, d: DefId, vs: seq<Value>, s: State,
                          fuel: nat) returns (k: Link)
    requires HeapProgram(pr) && Closed(s, vs)
    ensures var sp := Stackify(Facts(types, CapturedIn(pr)), pr);
            var r, q := CallFn(pr, d, vs, s, fuel), CallFn(sp, d, vs, s, fuel);
            && r.ctl == q.ctl && r.s.trace == q.s.trace
            && q.s.mem.heap.Keys == r.s.mem.heap.Keys - k.dead
            && (forall a <- q.s.mem.heap ::
                q.s.mem.heap[a] == r.s.mem.heap[a] && CleanAll(q.s.mem.heap[a], k.dead, r.s.mem.next))
            && CtlClean(r.ctl, k.dead, r.s.mem.next)
  {
    var fx, k0 := Facts(types, CapturedIn(pr)), Link(map[], {});
    assert Analysed(fx, pr);
    assert Linked(k0, {}, s, s);
    k := CallAgree(fx, pr, {}, d, vs, k0, {}, s, s, fuel);
    hide CallFn, Kept, Stackify;
    var r, q := CallFn(pr, d, vs, s, fuel), CallFn(Stackify(fx, pr), d, vs, s, fuel);
    assert HeapLinked(k.dead, r.s.mem, q.s.mem);
    assert q.s.mem.heap.Keys == r.s.mem.heap.Keys - k.dead;
  }
}
