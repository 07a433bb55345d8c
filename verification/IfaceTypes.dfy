/**
 The concrete type behind an interface value, where the expression that makes it shows it.
 */
module IfaceTypes {
  import opened Hir
  import opened Semantics

  /** The concrete type behind an interface value, where the expression shows it. */
  function Concrete(e: Expr): Option<DefId>
    decreases e
  {
    match e
    case Adjust(WidenDyn(ty), _) => Some(ty)
    case If(_, t, f) => if ConcreteBlock(t).Some? && ConcreteBlock(t) == Concrete(f) then Concrete(f) else None
    case Match(_, arms) => ConcreteArms(arms)
    case BlockExpr(b) => ConcreteBlock(b)
    case _ => None
  }

  function ConcreteBlock(b: Block): Option<DefId>
    decreases b
  {
    if b.Tail? then Concrete(b.e) else ConcreteBlock(b.rest)
  }

  /** All arms the same; `None` without arms. */
  function ConcreteArms(arms: Arms): Option<DefId>
    decreases arms
  {
    if arms.NoArms? then None
    else if arms.rest.NoArms? then Concrete(arms.arm)
    else if Concrete(arms.arm).Some? && Concrete(arms.arm) == ConcreteArms(arms.rest) then Concrete(arms.arm)
    else None
  }

  lemma {:induction false} ConcreteRight(pr: Program, e: Expr, s: State, fuel: nat)
    requires Concrete(e).Some? && Eval(pr, e, s, fuel).ctl.Normal?
    ensures var v := Eval(pr, e, s, fuel).ctl.v; v.Object? && v.ty == Concrete(e).value
    decreases e
  {
    match e
    case Adjust(_, _) =>
    case If(c, t, f) =>
      var r := Eval(pr, c, s, fuel);
      if Truthy(r.ctl.v) {
        ConcreteBlockRight(pr, t, r.s, fuel);
      } else {
        ConcreteRight(pr, f, r.s, fuel);
      }
    case Match(sc, arms) =>
      var r := Eval(pr, sc, s, fuel);
      ConcreteArmsRight(pr, arms, r.ctl.v, r.s, fuel);
    case BlockExpr(b) => ConcreteBlockRight(pr, b, s, fuel);
  }

  lemma {:induction false} ConcreteBlockRight(pr: Program, b: Block, s: State, fuel: nat)
    requires ConcreteBlock(b).Some? && EvalBlock(pr, b, s, fuel).ctl.Normal?
    ensures var v := EvalBlock(pr, b, s, fuel).ctl.v; v.Object? && v.ty == ConcreteBlock(b).value
    decreases b
  {
    match b
    case Tail(e) => ConcreteRight(pr, e, s, fuel);
    case Then(st, rest) => ConcreteBlockRight(pr, rest, EvalStmt(pr, st, s, fuel).s, fuel);
  }

  lemma {:induction false} ConcreteArmsRight(pr: Program, arms: Arms, v: Value, s: State, fuel: nat)
    requires ConcreteArms(arms).Some? && EvalArms(pr, arms, v, s, fuel).ctl.Normal?
    ensures var u := EvalArms(pr, arms, v, s, fuel).ctl.v; u.Object? && u.ty == ConcreteArms(arms).value
    decreases arms
  {
    if !Matches(arms.pat, v) {
      RestRight(pr, arms, v, s, fuel);
    } else {
      var s1 := s.(env := BindPat(s.env, s.mem, arms.pat, v).value);
      var g := Eval(pr, arms.guard, s1, fuel);
      hide BindPat;
      if Truthy(g.ctl.v) {
        ConcreteRight(pr, arms.arm, g.s, fuel);
      } else {
        RestRight(pr, arms, v, g.s, fuel);
      }
    }
  }

  lemma {:induction false} RestRight(pr: Program, arms: Arms, v: Value, s: State, fuel: nat)
    requires ConcreteArms(arms).Some? && EvalArms(pr, arms.rest, v, s, fuel).ctl.Normal?
    ensures var u := EvalArms(pr, arms.rest, v, s, fuel).ctl.v; u.Object? && u.ty == ConcreteArms(arms).value
    decreases arms, 0
  {
    hide Eval;
    ConcreteArmsRight(pr, arms.rest, v, s, fuel);
  }
}
