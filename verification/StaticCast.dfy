/**
 `is` and `as` over an `if` or `match` whose branches are scalars: the answer chosen per
 branch at compile time against boxing the branch and testing the box's type id.
 */
module StaticCast {
  import opened Hir
  import opened Semantics

  datatype IntKind = I8 | I16 | I32 | I64 | U8 | U16 | U32 | U64 | Isize | Usize

  datatype Ty =
    | IntTy(kind: IntKind)
    | F32 | F64 | BoolTy | CharTy | StrTy | NullTy
    | Named(def: DefId, args: seq<Ty>)
    | Union(members: seq<Ty>)
    | Param(p: nat)                     // a generic parameter
    | OtherTy(n: nat)                   // tuples, functions and the rest

  /** What an instance substitutes for its parameters. */
  type Subst = map<nat, Ty>

  /** `resolve_shallow`: a parameter is replaced, the inside of a type is not. */
  function Shallow(sub: Subst, t: Ty): Ty
  {
    if t.Param? && t.p in sub then sub[t.p] else t
  }

  function IntId(k: IntKind): TypeId
  {
    match k
    case I8 => 1 case I16 => 2 case I32 => 3 case I64 => 4
    case U8 => 5 case U16 => 6 case U32 => 7 case U64 => 8
    case Isize => 9 case Usize => 10
  }

  /** The tag a union box carries. */
  function TypeIdOf(t: Ty): TypeId
  {
    match t
    case IntTy(k) => IntId(k)
    case F32 => 11 case F64 => 12 case BoolTy => 13 case CharTy => 14 case StrTy => 15 case NullTy => 16
    case Named(d, _) => 1000 + d
    case _ => -1
  }

  function Variants(t: Ty): seq<Ty>
  {
    if t.Union? then t.members else [t]
  }

  function Ids(ts: seq<Ty>): seq<TypeId>
  {
    if ts == [] then [] else [TypeIdOf(ts[0])] + Ids(ts[1..])
  }

  /** The members of a target as the run-time test sees them: listed first, resolved one by
      one. */
  function Tested(sub: Subst, target: Ty): seq<Ty>
  {
    var vs := Variants(target);
    seq(|vs|, i requires 0 <= i < |vs| => Shallow(sub, vs[i]))
  }

  function TargetIds(sub: Subst, target: Ty): seq<TypeId>
  {
    Ids(Tested(sub, target))
  }

  /** The run-time test, folded over the variants as `tag_in_target` emits it. */
  method TagInTarget(sub: Subst, id: TypeId, to: Ty) returns (ok: bool)
    ensures ok == (id in TargetIds(sub, to))
  {
    ok := false;
    var vs := Variants(to);
    ghost var ts := Tested(sub, to);
    for i := 0 to |vs|
      invariant ok || id in Ids(ts[i..]) <==> id in Ids(ts)
    {
      assert ts[i..][1..] == ts[i + 1..];
      ok := ok || id == TypeIdOf(Shallow(sub, vs[i]));
    }
  }

  // -- type ids ------------------------------------------------------------------------

  predicate NoId(t: Ty)
  {
    t.Union? || t.Param? || t.OtherTy?
  }

  /** Two types share an id exactly when they are equal, are instances of one definition,
      or both have no id of their own. */
  predicate SameId(a: Ty, b: Ty)
  {
    a == b || (a.Named? && b.Named? && a.def == b.def) || (NoId(a) && NoId(b))
  }

  lemma SameIdExact(a: Ty, b: Ty)
    ensures TypeIdOf(a) == TypeIdOf(b) <==> SameId(a, b)
  {
  }

  lemma {:induction false} IdsHave(ts: seq<Ty>, id: TypeId)
    ensures id in Ids(ts) <==> exists i :: 0 <= i < |ts| && TypeIdOf(ts[i]) == id
  {
    if ts != [] {
      IdsHave(ts[1..], id);
      if id in Ids(ts[1..]) {
        var j :| 0 <= j < |ts[1..]| && TypeIdOf(ts[1..][j]) == id;
        assert TypeIdOf(ts[j + 1]) == id;
      }
      if i :| 0 <= i < |ts| && TypeIdOf(ts[i]) == id {
        if i > 0 {
          assert TypeIdOf(ts[1..][i - 1]) == id;
        }
      }
    }
  }

  /** The compile-time test: the resolved branch type among the members of the resolved
      target, which are not resolved themselves. */
  predicate Hit(sub: Subst, from: Ty, target: Ty)
  {
    Shallow(sub, from) in Variants(Shallow(sub, target))
  }

  /** The tag in the box of a branch of type `from`. */
  function Tag(sub: Subst, from: Ty): TypeId
  {
    TypeIdOf(Shallow(sub, from))
  }

  /** The compile-time answer for a branch of type `from` and the run-time answer for its
      box are the same. */
  predicate Agrees(sub: Subst, from: Ty, target: Ty)
  {
    Hit(sub, from, target) <==> Tag(sub, from) in TargetIds(sub, target)
  }

  /** They agree exactly when the branch type is a member at compile time if and only if
      some resolved member shares its id. */
  lemma AgreesExactly(sub: Subst, from: Ty, target: Ty)
    ensures var ts := Tested(sub, target);
            Agrees(sub, from, target) <==>
              (Hit(sub, from, target) <==> exists i :: 0 <= i < |ts| && SameId(Shallow(sub, from), ts[i]))
  {
    var f, ts := Shallow(sub, from), Tested(sub, target);
    IdsHave(ts, TypeIdOf(f));
    forall i | 0 <= i < |ts| ensures TypeIdOf(f) == TypeIdOf(ts[i]) <==> SameId(f, ts[i]) { SameIdExact(f, ts[i]); }
    if i :| 0 <= i < |ts| && SameId(f, ts[i]) {
      assert TypeIdOf(ts[i]) == TypeIdOf(f);
    }
  }

  /** Outside generic code: exactly when the branch type is a member of the target, or
      shares its id with none. */
  lemma AgreesOutsideGenerics(from: Ty, target: Ty)
    ensures Agrees(map[], from, target) <==>
            (from in Variants(target) || forall i | 0 <= i < |Variants(target)| :: !SameId(from, Variants(target)[i]))
  {
    AgreesExactly(map[], from, target);
    assert Tested(map[], target) == Variants(target);
    if from in Variants(target) {
      var i :| 0 <= i < |Variants(target)| && Variants(target)[i] == from;
      assert SameId(from, Tested(map[], target)[i]);
    }
  }

  /** In the instance `T = i32`, a branch of type `T` is not found in `T | null` at compile
      time, where `T` is not resolved, but its box is. */
  lemma GenericMemberMissed(p: nat)
    ensures var sub, from, target := map[p := IntTy(I32)], Param(p), Union([Param(p), NullTy]);
            !Hit(sub, from, target) && Tag(sub, from) in TargetIds(sub, target)
  {
    var sub, target := map[p := IntTy(I32)], Union([Param(p), NullTy]);
    assert Shallow(sub, Param(p)) == IntTy(I32);
    assert Tested(sub, target) == [IntTy(I32), NullTy];
    assert Ids([IntTy(I32), NullTy])[0] == 3;
  }

  /** In the instance `T = i32 | null`, a branch of type `i32` is found in `T` at compile
      time, but the run-time test compares its tag with that of the whole union. */
  lemma GenericUnionMissed(p: nat)
    ensures var sub, from, target := map[p := Union([IntTy(I32), NullTy])], IntTy(I32), Param(p);
            Hit(sub, from, target) && Tag(sub, from) !in TargetIds(sub, target)
  {
    var u := Union([IntTy(I32), NullTy]);
    var sub := map[p := u];
    assert Variants(Shallow(sub, Param(p)))[0] == IntTy(I32);
    assert Tested(sub, Param(p)) == [u];
    assert Ids([u]) == [-1];
  }

  /** Two instances of one generic newtype: a branch of the first is not the second, but
      its box says so. */
  lemma InstancesCollide(d: DefId)
    ensures var from, target := Named(d, [IntTy(I32)]), Named(d, [IntTy(I64)]);
            && !Agrees(map[], from, target)
            && Finish(map[], Is, Nil, from, target)
               != ApplyCast(Is, TargetIds(map[], target), true, Boxed(Tag(map[], from), Nil))
  {
    var from, target := Named(d, [IntTy(I32)]), Named(d, [IntTy(I64)]);
    assert from.args[0] != target.args[0];
    assert Tested(map[], target) == [target];
    assert Ids([target]) == [1000 + d];
  }

  // -- the two ways to answer ----------------------------------------------------------------

  /** `finish_static_union_cast_branch`. */
  function Finish(sub: Subst, op: CastOp, v: Value, from: Ty, target: Ty): Ctl
  {
    var hit := Hit(sub, from, target);
    if op.Is? then Normal(Num(if hit then 1 else 0)) else if hit then Normal(v) else Panic
  }

  /** For every value, the static answer is the boxed one exactly when the types agree. */
  lemma FinishExactly(sub: Subst, op: CastOp, v: Value, from: Ty, target: Ty)
    ensures Finish(sub, op, v, from, target) == ApplyCast(op, TargetIds(sub, target), true, Boxed(Tag(sub, from), v))
       <==> Agrees(sub, from, target)
  {
  }

  /** `e` ends in one widening, whose box carries `tag`. */
  predicate Widens(e: Expr, tag: TypeId)
    decreases e
  {
    match e
    case Adjust(Widen(Some(id)), _) => id == tag
    case BlockExpr(b) => WidensBlock(b, tag)
    case _ => false
  }

  predicate WidensBlock(b: Block, tag: TypeId)
    decreases b
  {
    match b
    case Tail(e) => Widens(e, tag)
    case Then(_, rest) => WidensBlock(rest, tag)
  }

  /** `e` without that widening. */
  function Bare(e: Expr): Expr
    decreases e
  {
    match e
    case Adjust(Widen(Some(_)), inner) => inner
    case BlockExpr(b) => BlockExpr(BareBlock(b))
    case _ => e
  }

  function BareBlock(b: Block): Block
    decreases b
  {
    match b
    case Tail(e) => Tail(Bare(e))
    case Then(st, rest) => Then(st, BareBlock(rest))
  }

  function BoxOut(r: Out, tag: TypeId): Out
  {
    if r.ctl.Normal? then Out(Normal(Boxed(tag, r.ctl.v)), r.s) else r
  }

  lemma {:induction false} BareBoxes(pr: Program, e: Expr, tag: TypeId, s: State, fuel: nat)
    requires Widens(e, tag)
    ensures Eval(pr, e, s, fuel) == BoxOut(Eval(pr, Bare(e), s, fuel), tag)
    decreases e
  {
    if e.BlockExpr? {
      BareBlockBoxes(pr, e.block, tag, s, fuel);
      assert Eval(pr, e, s, fuel) == EvalBlock(pr, e.block, s, fuel);
      assert Eval(pr, Bare(e), s, fuel) == EvalBlock(pr, BareBlock(e.block), s, fuel);
    }
  }

  lemma {:induction false} BareBlockBoxes(pr: Program, b: Block, tag: TypeId, s: State, fuel: nat)
    requires WidensBlock(b, tag)
    ensures EvalBlock(pr, b, s, fuel) == BoxOut(EvalBlock(pr, BareBlock(b), s, fuel), tag)
    decreases b
  {
    match b
    case Tail(e) =>
      BareBoxes(pr, e, tag, s, fuel);
      assert EvalBlock(pr, b, s, fuel) == Eval(pr, e, s, fuel);
      assert EvalBlock(pr, BareBlock(b), s, fuel) == Eval(pr, Bare(e), s, fuel);
    case Then(st, rest) =>
      var r := EvalStmt(pr, st, s, fuel);
      assert BareBlock(b) == Then(st, BareBlock(rest));
      hide EvalStmt;
      if r.ctl.Normal? {
        BareBlockBoxes(pr, rest, tag, r.s, fuel);
      }
  }

  /** Answering a branch that was evaluated without its box. */
  function FinishOut(sub: Subst, op: CastOp, r: Out, from: Ty, target: Ty): Out
  {
    if r.ctl.Normal? then Out(Finish(sub, op, r.ctl.v, from, target), r.s) else r
  }

  function CastOut(sub: Subst, op: CastOp, r: Out, target: Ty): Out
  {
    if r.ctl.Normal? then Out(ApplyCast(op, TargetIds(sub, target), true, r.ctl.v), r.s) else r
  }

  lemma BranchSame(sub: Subst, op: CastOp, r: Out, from: Ty, target: Ty)
    requires Agrees(sub, from, target)
    ensures CastOut(sub, op, BoxOut(r, Tag(sub, from)), target) == FinishOut(sub, op, r, from, target)
  {
  }

  // -- if ------------------------------------------------------------------------------------------

  /** `h_if` for a union result: each branch is coerced to it, which boxes a branch of type
      `thn` or `els`. */
  function CoercedIf(sub: Subst, pr: Program, e: Expr, thn: Ty, els: Ty, s: State, fuel: nat): Out
    requires e.If?
  {
    var r := Eval(pr, e.cond, s, fuel);
    if !r.ctl.Normal? then r
    else if Truthy(r.ctl.v) then BoxOut(EvalBlock(pr, e.thn, r.s, fuel), Tag(sub, thn))
    else BoxOut(Eval(pr, e.els, r.s, fuel), Tag(sub, els))
  }

  /** `h_static_union_if_cast`. */
  function StaticIf(sub: Subst, pr: Program, op: CastOp, e: Expr, thn: Ty, els: Ty, target: Ty, s: State,
                    fuel: nat): Out
    requires e.If?
  {
    var r := Eval(pr, e.cond, s, fuel);
    if !r.ctl.Normal? then r
    else if Truthy(r.ctl.v) then FinishOut(sub, op, EvalBlock(pr, e.thn, r.s, fuel), thn, target)
    else FinishOut(sub, op, Eval(pr, e.els, r.s, fuel), els, target)
  }

  /** The cast of an `if` that boxes its branches is the static cast: the same answer, the
      same panics, the same effects. */
  lemma StaticIfSame(sub: Subst, pr: Program, op: CastOp, e: Expr, thn: Ty, els: Ty, target: Ty, s: State, fuel: nat)
    requires e.If? && Agrees(sub, thn, target) && Agrees(sub, els, target)
    ensures CastOut(sub, op, CoercedIf(sub, pr, e, thn, els, s, fuel), target)
            == StaticIf(sub, pr, op, e, thn, els, target, s, fuel)
  {
    var r := Eval(pr, e.cond, s, fuel);
    hide Eval, EvalBlock, Agrees, Finish;
    if r.ctl.Normal? {
      BranchSame(sub, op, EvalBlock(pr, e.thn, r.s, fuel), thn, target);
      BranchSame(sub, op, Eval(pr, e.els, r.s, fuel), els, target);
      hide BoxOut, FinishOut, CastOut;
    }
  }

  /** The implicit coercion means the `if` whose branches widen explicitly, so `Cast` over
      that one is the static cast too. */
  lemma CoercionIsWidening(sub: Subst, pr: Program, op: CastOp, e: Expr, thn: Ty, els: Ty, target: Ty, s: State,
                           fuel: nat)
    requires e.If? && WidensBlock(e.thn, Tag(sub, thn)) && Widens(e.els, Tag(sub, els))
    ensures var bare := If(e.cond, BareBlock(e.thn), Bare(e.els));
            && Eval(pr, e, s, fuel) == CoercedIf(sub, pr, bare, thn, els, s, fuel)
            && Eval(pr, Cast(op, e, TargetIds(sub, target), true), s, fuel)
               == CastOut(sub, op, CoercedIf(sub, pr, bare, thn, els, s, fuel), target)
  {
    var r := Eval(pr, e.cond, s, fuel);
    assert Eval(pr, Cast(op, e, TargetIds(sub, target), true), s, fuel)
           == CastOut(sub, op, Eval(pr, e, s, fuel), target);
    if r.ctl.Normal? {
      if Truthy(r.ctl.v) {
        BareBlockBoxes(pr, e.thn, Tag(sub, thn), r.s, fuel);
        assert Eval(pr, e, s, fuel) == EvalBlock(pr, e.thn, r.s, fuel);
      } else {
        BareBoxes(pr, e.els, Tag(sub, els), r.s, fuel);
        assert Eval(pr, e, s, fuel) == Eval(pr, e.els, r.s, fuel);
      }
    }
  }

  // -- match ---------------------------------------------------------------------------------------

  /** `h_static_union_match_cast`, with the arms' source types in order. */
  function StaticArms(sub: Subst, pr: Program, op: CastOp, arms: Arms, tys: seq<Ty>, v: Value, target: Ty, s: State,
                      fuel: nat): Out
    decreases arms
  {
    match arms
    case NoArms => Out(Stuck, s)
    case Arm(pat, guard, body, rest) =>
      if tys == [] then Out(Stuck, s)
      else if !Matches(pat, v) then StaticArms(sub, pr, op, rest, tys[1..], v, target, s, fuel)
      else
        match BindPat(s.env, s.mem, pat, v)
        case None => Out(Stuck, s)
        case Some(env') =>
          var g := Eval(pr, guard, s.(env := env'), fuel);
          if !g.ctl.Normal? then g
          else if Truthy(g.ctl.v) then FinishOut(sub, op, Eval(pr, Bare(body), g.s, fuel), tys[0], target)
          else StaticArms(sub, pr, op, rest, tys[1..], v, target, g.s, fuel)
  }

  function StaticMatch(sub: Subst, pr: Program, op: CastOp, e: Expr, tys: seq<Ty>, target: Ty, s: State, fuel: nat): Out
    requires e.Match?
  {
    var r := Eval(pr, e.scrut, s, fuel);
    if !r.ctl.Normal? then r else StaticArms(sub, pr, op, e.arms, tys, r.ctl.v, target, r.s, fuel)
  }

  predicate WidensArms(sub: Subst, arms: Arms, tys: seq<Ty>, target: Ty)
    decreases arms
  {
    match arms
    case NoArms => tys == []
    case Arm(_, _, body, rest) =>
      tys != [] && Widens(body, Tag(sub, tys[0])) && Agrees(sub, tys[0], target)
        && WidensArms(sub, rest, tys[1..], target)
  }

  /** Testing the first arm: not taken, with the state to go on from, or the end. */
  function FirstArm(pr: Program, arms: Arms, v: Value, s: State, fuel: nat): (Option<State>, Out)
    requires arms.Arm?
  {
    if !Matches(arms.pat, v) then (Some(s), Out(Stuck, s))
    else
      match BindPat(s.env, s.mem, arms.pat, v)
      case None => (None, Out(Stuck, s))
      case Some(env') =>
        var g := Eval(pr, arms.guard, s.(env := env'), fuel);
        if g.ctl.Normal? && !Truthy(g.ctl.v) then (Some(g.s), g) else (None, g)
  }

  lemma ArmsUnfold(sub: Subst, pr: Program, op: CastOp, arms: Arms, tys: seq<Ty>, v: Value, target: Ty, s: State,
                   fuel: nat)
    requires arms.Arm? && tys != []
    ensures var (go, g) := FirstArm(pr, arms, v, s, fuel);
            EvalArms(pr, arms, v, s, fuel) == if go.Some? then EvalArms(pr, arms.rest, v, go.value, fuel)
                                              else if g.ctl.Normal? then Eval(pr, arms.arm, g.s, fuel) else g
    ensures var (go, g) := FirstArm(pr, arms, v, s, fuel);
            (StaticArms(sub, pr, op, arms, tys, v, target, s, fuel)
             == if go.Some? then StaticArms(sub, pr, op, arms.rest, tys[1..], v, target, go.value, fuel)
                else if g.ctl.Normal? then FinishOut(sub, op, Eval(pr, Bare(arms.arm), g.s, fuel), tys[0], target)
                else g)
  {
    hide FinishOut;
  }

  lemma {:induction false} StaticArmsSame(sub: Subst, pr: Program, op: CastOp, arms: Arms, tys: seq<Ty>, v: Value,
                                          target: Ty, s: State, fuel: nat)
    requires WidensArms(sub, arms, tys, target)
    ensures CastOut(sub, op, EvalArms(pr, arms, v, s, fuel), target)
            == StaticArms(sub, pr, op, arms, tys, v, target, s, fuel)
    decreases arms
  {
    if arms.Arm? {
      ArmsUnfold(sub, pr, op, arms, tys, v, target, s, fuel);
      hide ApplyCast, Agrees, Tag, TargetIds, EvalArms, StaticArms, FirstArm, Eval, Finish, Widens;
      var (go, g) := FirstArm(pr, arms, v, s, fuel);
      if go.Some? {
        StaticArmsSame(sub, pr, op, arms.rest, tys[1..], v, target, go.value, fuel);
      } else if g.ctl.Normal? {
        BareBoxes(pr, arms.arm, Tag(sub, tys[0]), g.s, fuel);
        BranchSame(sub, op, Eval(pr, Bare(arms.arm), g.s, fuel), tys[0], target);
      }
    }
  }

  lemma StaticMatchSame(sub: Subst, pr: Program, op: CastOp, e: Expr, tys: seq<Ty>, target: Ty, s: State, fuel: nat)
    requires e.Match? && WidensArms(sub, e.arms, tys, target)
    ensures Eval(pr, Cast(op, e, TargetIds(sub, target), true), s, fuel)
            == StaticMatch(sub, pr, op, e, tys, target, s, fuel)
  {
    var r := Eval(pr, e.scrut, s, fuel);
    assert Eval(pr, Cast(op, e, TargetIds(sub, target), true), s, fuel)
           == CastOut(sub, op, Eval(pr, e, s, fuel), target);
    if r.ctl.Normal? {
      StaticArmsSame(sub, pr, op, e.arms, tys, r.ctl.v, target, r.s, fuel);
      assert Eval(pr, e, s, fuel) == EvalArms(pr, e.arms, r.ctl.v, r.s, fuel);
    }
  }
}
