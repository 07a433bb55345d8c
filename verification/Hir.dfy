/**
 The typed tree that code generation consumes, cut down to the forms whose
 lowering the project reasons about.

 Three spellings are normalised, because code generation gives them one value:
 an absent trailing expression, `else` branch, `return` operand or `break`
 operand is the literal `Null`, and an absent match guard is the literal `Int(1)`.
 An expression keeps its source span only where the span is used as a key: at an
 `await` and at the iterable of a `for`.
 */
module Hir {
  type LocalId = nat
  type DefId = nat
  type Span = nat
  type TypeId = int

  datatype Option<+T> = None | Some(value: T)

  datatype Pattern =
    | Wild
    | Bind(local: LocalId)
    | Lit(value: int)
    | TypeTest(tids: seq<TypeId>, bind: Option<LocalId>)
    | Record(fields: seq<Option<LocalId>>)

  /** `Direct` names a function. `Virtual` names an interface method and takes its receiver
      as the first argument; `Known` is such a call for which code generation has chosen
      the function. */
  datatype Callee = Direct(def: DefId) | Virtual(name: DefId) | Known(def: DefId)

  /** Coercions. `Widen(None)` widens a value that is already a union box. */
  datatype Adjustment = Widen(tid: Option<TypeId>) | Unbox | WidenDyn(ty: DefId)

  datatype CastOp = Is | As

  /** How a `for` loop steps. `AsyncIter` is `for await`. */
  datatype ForDriver =
    | ListFast
    | MapEntries
    | Iterator(next: DefId, done: TypeId)
    | AsyncIter(next: DefId, done: TypeId)

  datatype Expr =
    | Int(n: int)
    | Null
    | Local(x: LocalId)
    | Closure(caps: seq<LocalId>)                    // a closure or `async { }` block and what it captures
    | Prim(op: nat, args: Exprs)                     // operators, numeric intrinsics, runtime calls
    | Logic(isAnd: bool, left: Expr, right: Expr)    // `&&` and `||`
    | Call(callee: Callee, args: Exprs)
    | Struct(def: DefId, fields: Exprs)              // record literal, tuple, list literal
    | Field(recv: Expr, idx: nat)
    | Append(list: Expr, item: Expr)                 // `xs.push(x)`
    | Adjust(adjust: Adjustment, inner: Expr)
    | Cast(cast: CastOp, inner: Expr, tids: seq<TypeId>, unbox: bool)
    | Await(span: Span, fut: Expr)
    | If(cond: Expr, thn: Block, els: Expr)
    | Match(scrut: Expr, arms: Arms)
    | BlockExpr(block: Block)
    | Loop(body: Block)
    | While(cond: Expr, body: Block)
    | For(pat: Pattern, iter: Expr, span: Span, body: Block, driver: ForDriver)
    | Return(value: Expr)
    | Break(value: Expr)
    | Continue

  datatype Exprs = ENil | ECons(head: Expr, tail: Exprs)

  function Length(es: Exprs): nat
  {
    if es.ENil? then 0 else 1 + Length(es.tail)
  }

  datatype Arms = NoArms | Arm(pat: Pattern, guard: Expr, arm: Expr, rest: Arms)

  datatype Stmt =
    | Let(pat: Pattern, init: Expr)
    | Assign(target: Expr, value: Expr)
    | ExprStmt(e: Expr)

  datatype Block = Tail(e: Expr) | Then(s: Stmt, rest: Block)

  /** The locals a pattern binds, in the order the collector visits them. */
  function PatLocals(p: Pattern): (out: seq<LocalId>)
  {
    match p
    case Bind(x) => [x]
    case TypeTest(_, Some(x)) => [x]
    case Record(fs) => FieldLocals(fs)
    case _ => []
  }

  function FieldLocals(fs: seq<Option<LocalId>>): (out: seq<LocalId>)
  {
    if fs == [] then []
    else (if fs[0].Some? then [fs[0].value] else []) + FieldLocals(fs[1..])
  }

  function PatSet(p: Pattern): set<LocalId>
  {
    set x | x in PatLocals(p)
  }
}
