# A verified model of the backend's transformations

The backend lowers the typed tree of a checked program to machine code. Most of what can go
wrong there is not in one function: an `async` body becomes a poll function that loses its
frame at every suspension, reference counts are inserted at binds, stores and returns,
structs move from the heap to the stack, virtual calls become direct ones, casts are decided
per branch, small calls are expanded in place, and instances are declared, queued and defined
by a loop over several queues. This project gives those passes a common reference meaning and
proves that each of them keeps it, or, where the code does not, shows the input and proves the
condition under which it does.

`Hir` is the tree, `Semantics` its big-step meaning: locals, heap and frame blocks, effects,
awaited values, calls, loops of all four drivers, panics. `Scan` holds the syntactic walks.
Everything about control flow is stated against `Semantics`; `Arc` has a semantics of its own
in which every retain and release is a step and touching a freed object is an outcome.

* **Async lowering** (`Scan`, `Sites`, `AsyncLayout`, `PollCode`, `Lockstep`, `PollFacts`,
  `PollProof`, `PollTheorem`). `PollCode` is the generated code (flat, with jumps, suspend
  points and dispatch on the state word) and the machine that runs it. `PollRefinesBody` is
  the main theorem: for every normal-form body and every finite pattern of `Pending` and ready
  answers, calling `poll` again and again ends as the body run straight through ends, with the
  same value, memory, effects and unread answers. Only the state struct lives from one call to
  the next, so this rules out lost loop cursors and lost locals in any nesting of loops.
* **Reference counting** (`Arc`, `ArcLedger`, `ArcGuards`, `ArcFragment`, `ArcInv`, `ArcSoft`,
  `ArcProof`, `ArcUnsafe`, and `ArcBalance`, `ArcExits`, `ArcExact`, `ArcLeaks`).
  `CountsCoverOwners`: in every run, through any recursion, each object's count is at least
  its number of owners, so nothing is used after it is freed. `CountsExact` is the other half:
  in tidy code each count is exactly that number, so what nobody owns is freed at once.
  `ArcFragment` says which programs: what a match arm borrows must be kept for it, and a value
  that a field store evaluates first must outlive the receiver. `ArcUnsafe` holds programs
  just outside, whose runs touch a freed object.
* **Stack structs** (`StackStructs`, `StackProof`). `StackingPreserves`: the program that keeps
  the chosen structs in frames and the one that allocates all of them on the heap have the same
  outcome, the same effects and the same reachable heap.
* **Facts about locals** (`IfaceTypes`, `FrameLocals`, `Devirt`, `Vtables`, `DevirtCalls`,
  `DevirtRuns`). A frame theorem for every construct, soundness of the concrete-type facts on
  exit, the direct call against the slot of the emitted method table in generic and other
  code, and `DevirtPreserves`: a program in which interface calls became direct ones means the
  same when the facts are right at every call site. Where they are not is shown inside loops,
  after conditions, in `else` branches and in generic code.
* **Inlining and static casts** (`Inline`, `StaticCast`), each equal to the plain form.
* **Instances and finalizers** (`Mangle`, `Worklist`, `Drops`). The class `Worklist.Codegen`
  is the mutable generator with its five queues.
* **Arithmetic, layouts, bytes** (`Powers`, `IntArith`, `Layouts`, `LayoutTrees`, `Blocks`,
  `Descriptor`).
* **Front end** (`Lines`, `Imports`): the line index against counting newlines, import paths
  against walking their components.

Conventions. Integers are unbounded except where a width is the point (`IntArith`,
`Descriptor`). `fuel` bounds calls and loop rounds so that the evaluators are total; a run that
needs more ends in `Timeout`, about which no theorem claims anything, and since every theorem
holds for all `fuel` it speaks about every run that ends. Where the code and its comments
disagree the model follows the code; the places where the code falls short of what one would
expect are `DevirtCalls.LoopBodyFactsWrong`, `DevirtCalls.ConditionNotKilled`,
`DevirtCalls.GenericReceiverMissed` and `DevirtRuns.ElseBranchWrong`,
`ArcUnsafe.ReceiverCallIsUnsafe` and `ArcUnsafe.ArmBorrowIsUnsafe`, `ArcLeaks.LoopLocalLeaks`,
`StaticCast.InstancesCollide`, `StaticCast.GenericMemberMissed` and
`StaticCast.GenericUnionMissed`, `Mangle.SymbolsCollide`, and `Layouts.CountedByte`.

## Model

| member | source | states |
|---|---|---|
| `PollTheorem.PollRefinesBody` | crates/backend/src/lib.rs:2712-2872 | for every normal-form body with distinct await and loop spans, arguments and finite answer pattern, repeated calls of the built poll function from the constructor's state end Ready with the body's value, panic where it panics, or wait where it waits, with equal memory, effects in equal order and equal unread answers |
| `PollTheorem.BuildSound` | crates/backend/src/lib.rs:2725-2756 | the built function has duplicate-free locals, one suspend point per resume state and loop cursors that do not overlap |
| `PollTheorem.BuildFits` | crates/backend/src/lib.rs:2817-2845 | the code of the body stands at its place, every awaiting loop in it has its slots, and the return of the body's value follows |
| `PollTheorem.EntryAgrees` | crates/backend/src/lib.rs:2805-2816 | the first call sees every argument in the parameter it was passed for |
| `PollProof.SimExpr` | crates/backend/src/gen_hir.rs:685-921 | the code of any normal-form expression, started in a frame that agrees on the locals in scope, reaches the end the evaluation calls for (fall-through, break, continue, return, panic or wait) and disturbs no cursor of an enclosing loop |
| `PollProof.SimBlock` | crates/backend/src/gen_hir.rs:34-131 | the same for blocks, which stop generating after a terminating statement |
| `PollProof.SimForLoop` | crates/backend/src/gen_hir.rs:3843-3913 | an ordinary `for` whose body awaits goes on from its cursor in the state struct exactly as the uninterrupted loop does, in any nesting |
| `PollProof.SetupRun` | crates/backend/src/gen_hir.rs:3843-3860 | setting up a loop writes the words its driver uses, makes its own cursor readable and touches no other |
| `PollProof.LatchRun` | crates/backend/src/gen_hir.rs:3895-3913 | advancing a loop moves its own index, none for an iterator, and touches no other cursor |
| `PollProof.HeadRun` | crates/backend/src/gen_hir.rs:4009-4132 | the loop head takes the same step as the uninterrupted list, map or iterator loop: item, end, or failure |
| `PollProof.SimForAwaitLoop` | crates/backend/src/gen_hir.rs:3684-3790 | `for await` asks the stream, suspends and takes the item as the uninterrupted loop does |
| `PollProof.AwaitRun` | crates/backend/src/gen_expr.rs:473-543 | saving and polling until ready is the await: the same value and effect, every local in scope preserved over any number of lost frames |
| `PollProof.PollRun` | crates/backend/src/gen_expr.rs:522-543 | each `Pending` answer ends the call, and the next call comes back to the same suspend point with the parked locals |
| `PollProof.SuspendParks` | crates/backend/src/gen_expr.rs:507-520 | after saving, the struct holds the state number, the inner future and every local in scope, and all loop cursors are as before |
| `PollFacts.SuspendPointsUnique` | crates/backend/src/lib.rs:2752-2756 | with distinct await spans, each resume state names at most one suspend point |
| `PollFacts.GenBlockPolls` | crates/backend/src/gen_expr.rs:473-496 | generated code holds each suspend point exactly as often as code generation reaches its site |
| `PollFacts.PollPcFound` | crates/backend/src/lib.rs:2792-2804 | dispatch on a state number goes to that number's suspend point |
| `PollFacts.SaveFromSpec` | crates/backend/src/gen_expr.rs:507-520 | saving writes each local's value (zero for one without a variable yet) to its own word and changes no other word |
| `PollCode.SaveLocals` | crates/backend/src/gen_expr.rs:507-513 | the store loop computes the saved struct that `SaveFromSpec` describes |
| `Lockstep.EvalAlike` | crates/backend/src/gen_hir.rs:685-921 | await-free code gives equal outcomes from states that agree on the locals in scope, whatever the other locals, the unread inputs and the additional fuel |
| `Sites.ScanImpliesAwait` | crates/backend/src/gen_hir.rs:6276-6413 | for every expression, a registered site implies has-await |
| `Sites.ScanBlockImpliesAwait` | crates/backend/src/gen_hir.rs:6259-6413 | the same for every body |
| `Sites.AwaitImpliesScan` | crates/backend/src/gen_hir.rs:6276-6413 | in normal form, has-await implies a registered site |
| `Sites.AwaitBlockImpliesScan` | crates/backend/src/gen_hir.rs:6259-6413 | the same for every normal-form body |
| `Sites.ReachedAreRegistered` | crates/backend/src/gen_hir.rs:6345-6413 | in normal form every site that code generation reaches is registered as often as it is reached, and the lists are equal exactly when no registered site is dead code |
| `Sites.BlockReached` | crates/backend/src/gen_hir.rs:6345-6413 | the same for every normal-form body, so the unregistered-site error cannot fire |
| `AsyncLayout.StateLayout` | crates/backend/src/support.rs:187-249 | the layout pass gives every entry and bound local its word, every awaiting loop its three words, the size and the trace map, for every body |
| `AsyncLayout.PlaceLocals` | crates/backend/src/support.rs:195-221 | the local loop places the locals in order, lists the live ones and collects the managed offsets |
| `AsyncLayout.PlaceLoops` | crates/backend/src/support.rs:222-241 | the loop-slot loop gives each span once three adjacent words and collects its two pointers |
| `AsyncLayout.LocalSlotsDisjoint` | crates/backend/src/support.rs:187-249 | local words are aligned, inside the struct, clear of the state word and inner future, and pairwise disjoint |
| `AsyncLayout.LoopSlotsDisjoint` | crates/backend/src/support.rs:187-249 | loop words are adjacent, aligned, inside the struct, after every local and disjoint from other loops' |
| `AsyncLayout.SlotsCover` | crates/backend/src/gen_hir.rs:6422-6683 | exactly the entry locals, the locals the body binds and the awaiting ordinary loops have slots |
| `AsyncLayout.TraceMapExact` | crates/backend/src/support.rs:187-249 | the trace map is increasing and lists exactly the inner future, the managed locals and each loop's two pointers |
| `AsyncLayout.SlotTraced` | crates/backend/src/support.rs:195-221 | a local captured other than by value is saved and traced, whatever its type; any other local is saved exactly if its type has a word and traced exactly if that is a managed pointer |
| `AsyncLayout.SlotLive` | crates/backend/src/support.rs:195-221 | the saved locals are listed once each, in slot order, and are those with a word |
| `AsyncLayout.CollectExtends` | crates/backend/src/gen_hir.rs:6570-6683 | the collector keeps what it had, adds exactly the locals the expression binds, each once |
| `AsyncLayout.CollectBlockExtends` | crates/backend/src/gen_hir.rs:6490-6525 | the same for blocks |
| `StackProof.StackingPreserves` | crates/backend/src/gen_hir.rs:133-288 | for every program without frame structs, with closures that keep what they capture, every set of types, call and state: keeping the chosen structs of every function in its frame gives the same outcome and effects, and the heap is the all-heap one less blocks that nothing surviving leads to |
| `StackProof.ClosureAgree` | crates/backend/src/gen_hir.rs:236-240 | a closure keeps the same values in both runs, because no local it captures is a chosen one |
| `StackStructs.ChosenExactly` | crates/backend/src/gen_hir.rs:133-288 | a local is kept in the frame if and only if some `let` binds it to a literal of an eligible type, no closure captures it, and everywhere else it is written as the receiver of a field access or the target of an assignment |
| `StackProof.CallAgree` | crates/backend/src/gen_hir.rs:133-150 | a call in both runs agrees: the caller's frame blocks are out of the callee's reach and the callee's are gone on return |
| `StackProof.SimExpr` | crates/backend/src/gen_hir.rs:6069-6121 | evaluating an expression in which no chosen local escapes keeps the two runs linked, with equal outcomes |
| `StackProof.SimBlock` | crates/backend/src/gen_hir.rs:6030-6054 | the same for blocks |
| `StackProof.SimSlotLet` | crates/backend/src/gen_hir.rs:47-116 | a `let` that zeroes and fills the frame block matches the `let` that allocates, also when a loop reuses the block |
| `StackProof.SimStore` | crates/backend/src/gen_hir.rs:6055-6068 | assignments through the allowed targets keep the runs linked |
| `StackStructs.OnlyOwnerRefers` | crates/backend/src/gen_hir.rs:6030-6121 | while a chosen local is bound, no other local in scope, no heap field and no frame field leads to its block, in either run |
| `StackStructs.SlotAgree` | crates/backend/src/gen_hir.rs:151-236 | filling the frame block on one side and a new heap block on the other keeps the runs linked |
| `ArcProof.CountsCoverOwners` | crates/backend/src/gen_struct.rs:336-401 | for every program of the fragment, every call with scalars from an empty heap, through any recursion: no freed object is touched, and at the end every owned object is live with a count that covers its owners; destructuring, binding arms, list pushes and list loops included; left out are field stores whose value is a borrow no local holds before a receiver that can release, and arms that assign the local they bind or can release what it borrows |
| `ArcProof.CallSafe` | crates/backend/src/lib.rs:3541-3553 | a call whose arguments are owned outside returns a reference of its own and keeps every count at or above its owners |
| `ArcProof.EvalSafe` | crates/backend/src/gen_hir.rs:685-921 | evaluating any expression of the fragment keeps counts covering owners and yields a live value, with a reference of its own where it is owned |
| `ArcProof.BlockSafe` | crates/backend/src/gen_hir.rs:34-46 | the same for blocks |
| `ArcProof.ArmsSafe` | crates/backend/src/gen_hir.rs:3341-3500 | running the arms of a match keeps counts covering owners, whether they bind the whole value without a reference, take it apart or bind nothing, and whatever guards run before |
| `ArcProof.BoundArmSafe` | crates/backend/src/gen_hir.rs:3341-3380 | an arm that borrows the whole value is safe when it does not assign its local and the value has a reference of its own, sits in a local that guard and body leave alone, or guard and body release nothing |
| `ArcProof.StillAtHand` | crates/backend/src/gen_hir.rs:3341-3380 | the scrutinee outlives an arm that is not taken, so the next arm may still bind it |
| `ArcSoft.SoftEval` | crates/backend/src/gen_hir.rs:685-921 | code that releases nothing keeps every object that was reached, reachable and counted, also while borrowed locals have no owner of their own |
| `ArcInv.RecordSafe` | crates/backend/src/gen_hir.rs:429-530 | destructuring a live object takes a reference for each field it binds and keeps counts covering owners |
| `ArcProof.RoundsSafe` | crates/backend/src/gen_hir.rs:3843-3913 | a list loop binds each item with a reference of its own and keeps counts covering owners, whatever its body stores, releases or pushes meanwhile |
| `ArcInv.AppendSafe` | crates/backend/src/gen_collections.rs:71-91 | pushing a live value retains it for the list and keeps counts covering owners |
| `ArcInv.BindSafe` | crates/backend/src/gen_struct.rs:358-376 | binding retains a borrowed value, releases what a local bound again held, and keeps counts covering owners |
| `ArcInv.LeaveSafe` | crates/backend/src/gen_struct.rs:377-401 | returning a live value retains a borrow, releases the owned locals and leaves the caller one reference to the result |
| `ArcInv.DropSafe` | crates/backend/src/gen_hir.rs:117-128 | a discarded owned temporary is released without touching a freed object |
| `ArcInv.StoreLocalSafe` | crates/backend/src/gen_hir.rs:544-570 | assigning a local takes the new reference, releases the old one and keeps counts covering owners |
| `ArcInv.StoreFieldSafe` | crates/backend/src/gen_hir.rs:611-656 | a field store of a live value, owned or borrowed, into whatever object the receiver yields keeps counts covering owners, in the order load, retain, release, store |
| `ArcInv.StoreBadExactly` | crates/backend/src/gen_hir.rs:637-656 | a field store into a reached object goes wrong if and only if its value is a borrow that did not outlive the evaluation of the receiver |
| `ArcProof.StillAlive` | crates/backend/src/gen_hir.rs:544-656 | the value outlives the receiver when it has its own reference, is a scalar, sits in a local the receiver neither assigns nor binds, or the receiver releases nothing |
| `ArcGuards.LocalStays` | crates/backend/src/gen_hir.rs:6127-6247 | a local that an expression neither assigns nor binds still holds its reference while the frame goes on |
| `ArcGuards.GentleSpares` | crates/backend/src/gen_hir.rs:47-128 | code without calls, assignments, binds, list loops and discarded temporaries frees nothing |
| `ArcGuards.ScalarYields` | crates/backend/src/gen_hir.rs:685-921 | expressions that are scalars by their form never yield a counted reference |
| `ArcInv.ReceiverSurvives` | crates/backend/src/gen_hir.rs:637-656 | an object reached from an owner is still live after what its field held was released, even in cycles |
| `ArcInv.ReleaseCommutes` | crates/backend/src/gen_hir.rs:637-656 | releasing before the store and after it give the same memory while the receiver survives |
| `ArcProof.FieldsSafe` | crates/backend/src/gen_hir.rs:2623-2705 | when a record literal's object is built, every counted field holds a reference of its own |
| `ArcUnsafe.ReceiverCallIsUnsafe` | crates/backend/src/gen_hir.rs:544-656 | for `@RefCounted` `M { x }` and `N { f: M }`, `clear(y).f = y.f` retains a freed object, because the borrowed `y.f` is read before the call frees it; all else in the program is in the fragment |
| `ArcUnsafe.ArmBorrowIsUnsafe` | crates/backend/src/gen_hir.rs:3341-3380 | `match y { z => { z = N { .. }; y.f } }` and `match y.f { z => { clear(y); z.x } }` read a freed object, in any program that holds them, although arguments are locals and no parameter is assigned |
| `ArcUnsafe.ArmsOutside` | crates/backend/src/gen_hir.rs:3341-3380 | both programs are outside the fragment, for every choice of the locals that borrow |
| `ArcUnsafe.ArmsInside` | crates/backend/src/gen_hir.rs:3341-3380 | the same arms on a scrutinee that sits in a local, or with a body that releases nothing, are in it |
| `ArcExact.CountsExact` | crates/backend/src/gen_struct.rs:336-401 | for every tidy program, every function and every argument list from an empty heap, through any recursion: when the call returns, an object is live if and only if the result or a field of some object refers to it, and its count is how often |
| `ArcExact.AllFreed` | crates/backend/src/gen_struct.rs:394-401 | if then the result is no reference and no field holds one, every counted object was freed |
| `ArcExact.EvalExact` | crates/backend/src/gen_hir.rs:685-921 | evaluating any tidy expression, in any caller and on every way out, keeps each count equal to the number of owners |
| `ArcExact.CallExact` | crates/backend/src/lib.rs:3541-3553 | a call leaves one reference to its result and every other count equal to the number of owners |
| `ArcExact.DroppedExact` | crates/backend/src/gen_hir.rs:117-128 | a discarded owned temporary gives up exactly its own reference |
| `ArcBalance.LeaveExact` | crates/backend/src/gen_struct.rs:377-401 | at the end of a frame each listed local gives up the reference it holds, once, and only the result keeps one: all counts are again the numbers of owners without the frame |
| `ArcBalance.ReleaseExact` | crates/runtime/src/gc.rs:898-963 | giving up a reference lowers the count by one and frees the object, with all that only it owned, exactly when it was the last |
| `ArcBalance.BindExactly` | crates/backend/src/gen_struct.rs:354-376 | a bind keeps counts exact if and only if the local is listed already or holds no reference |
| `ArcBalance.StoreLocalExact` | crates/backend/src/gen_hir.rs:544-570 | assigning a local takes one reference and gives up exactly the one it held |
| `ArcBalance.StoreFieldExact` | crates/backend/src/gen_hir.rs:637-656 | a field store takes one reference and gives up exactly the one the field held, in the order of the code |
| `ArcLeaks.LoopLocalLeaks` | crates/backend/src/gen_struct.rs:354-376 | `loop { let x = M { .. }; .. }` run twice: the first object stays behind with a count of one and no owner, although a local bound again in a loop is documented to release what it held |
| `ArcLeaks.LocalIsFreed` | crates/backend/src/gen_struct.rs:394-401 | `let x = M { .. }; 0` is tidy, and its object is freed when the call returns |
| `ArcLedger.ReleaseCovers` | crates/runtime/src/gc.rs:868-963 | releasing a pending reference, with all it frees in turn, succeeds and leaves every count at or above its owners |
| `ArcLedger.RetainCovers` | crates/runtime/src/gc.rs:868-896 | retaining a live object adds one pending reference that its count covers |
| `ArcLedger.FreeCovers` | crates/runtime/src/gc.rs:934-963 | when the last count goes, nobody owns the object, and its fields' references become pending |
| `ArcLedger.SetCovers` | crates/backend/src/gen_hir.rs:544-570 | a local takes a pending reference and its old one becomes pending |
| `ArcLedger.StoreCovers` | crates/backend/src/gen_hir.rs:637-656 | a field takes a pending reference and its old one becomes pending |
| `ArcLedger.PushCovers` | crates/backend/src/gen_collections.rs:71-91 | a list takes a pending reference as its last item |
| `ArcLedger.AllocCovers` | crates/backend/src/gen_hir.rs:2623-2705 | a new object owns what its fields were given; a counted one starts at one |
| `ArcLedger.EndCovers` | crates/backend/src/gen_struct.rs:394-401 | at the end of a frame its owned locals' references become pending, once each |
| `FrameLocals.FrameExpr` | crates/backend/src/gen_hir.rs:6147-6247 | a run of any expression, whatever its outcome, leaves every local alone that the expression neither assigns nor binds |
| `FrameLocals.FrameBlock` | crates/backend/src/gen_hir.rs:6127-6146 | the same for blocks |
| `FrameLocals.KeptExpr` | crates/backend/src/gen_hir.rs:6147-6247 | a local that an expression does not bind and assigns only objects of one shown type keeps holding such an object, whatever the outcome |
| `FrameLocals.UnassignedOnly` | crates/backend/src/gen_hir.rs:6147-6247 | a local outside the assigned set is assigned nothing of another type |
| `IfaceTypes.ConcreteRight` | crates/backend/src/gen_hir.rs:377-427 | the concrete type read off an expression is the type of the interface object it yields; what its arguments stand for in an instance is in `DevirtCalls` |
| `Devirt.ExitFacts` | crates/backend/src/gen_hir.rs:732-782 | facts right on entry are right on normal exit, for every local in scope, whenever conditions and scrutinees assign fact locals only objects of the noted type, and a right operand or `for` body adds and changes no fact |
| `Devirt.ExitRestored` | crates/backend/src/gen_hir.rs:838-853 | for `if`, `match`, `while` and `loop` under that condition the restored-minus-assigned map is right on every exit, not only the normal one |
| `Devirt.QuietIsCalm` | crates/backend/src/gen_hir.rs:732-782 | a condition or scrutinee that assigns nothing meets the condition for every map of facts |
| `Devirt.AgreeKeeps` | crates/backend/src/gen_hir.rs:353-375 | code that assigns fact locals only objects of the noted type keeps the facts right, however it ends |
| `Devirt.ExitStmt` | crates/backend/src/gen_hir.rs:301-375 | after a `let` or an assignment the facts, with the newly noted one, are right for the locals then in scope |
| `Devirt.ExitBlock` | crates/backend/src/gen_hir.rs:34-46 | the same for blocks |
| `Devirt.ExitFor` | crates/backend/src/gen_hir.rs:854-860 | `for` neither saves nor kills facts; those it goes on with are right when the body adds none and assigns their locals only the noted type |
| `DevirtCalls.LoopBodyFacts` | crates/backend/src/gen_hir.rs:761-771 | the facts a `while` body is generated from are right before every round when every assignment to a local they speak about, in condition or body, notes the same type |
| `DevirtCalls.LoopBodyFactsWrong` | crates/backend/src/gen_hir.rs:761-782 | `while true { x.m(); x = B {} }`, in every run that reaches round two: the fact is right there if and only if `B` is `A`, and the function generated from it is the one in the table if and only if both types implement `m` by the same one |
| `DevirtCalls.SecondRoundDiffers` | crates/backend/src/gen_hir.rs:761-782 | such runs, for any two types whose methods do different effects: round two is reached and the generated call does the effect of `A` where the program means that of `B` |
| `DevirtCalls.SecondRoundOfTwo` | crates/backend/src/gen_hir.rs:761-782 | a closed program with two types, one interface and two effects in which that happens |
| `DevirtCalls.TwoWired` | crates/backend/src/gen_expr.rs:59-144 | in that program every interface method is the function in the emitted table |
| `DevirtCalls.ConditionNotKilled` | crates/backend/src/gen_hir.rs:732-749 | a condition that assigns the local: the fact outlives it, is right if and only if the types are equal, and a call made under it names the function in the table if and only if both types implement it by the same one |
| `DevirtCalls.DirectCallSame` | crates/backend/src/gen_hir.rs:4220-4256 | under a right fact about a type whose `extend` is not generic or whose arguments mention no parameter, the call of the function that name lookup finds for the noted type equals the call through the slot of the table emitted for the object's type: same function, data pointer, outcome and effects |
| `DevirtCalls.LoadedIsFound` | crates/backend/src/gen_call.rs:1541-1614 | for every such type and interface method with an emitted table, the function loaded from the slot is the one found by name |
| `DevirtCalls.LoadedExactly` | crates/backend/src/gen_call.rs:1589-1614 | in any instance of generic code, slot and name lookup give the same compiled function if and only if the `extend` is not generic or every argument of the noted type is already resolved |
| `DevirtCalls.GenericReceiverMissed` | crates/backend/src/gen_hir.rs:4345-4365 | `extend<T> Box<T>: I`, `fn f<T>(v: T) { var x: I = Box<T> { v }; x.m() }`, `T = i32`: the slot holds the instance of `m` for `i32`, the direct call names the one for `T`, under a right fact |
| `DevirtCalls.VirtualIsTableCall` | crates/backend/src/gen_call.rs:1553-1585 | an interface call of the reference semantics is the call through the table, for programs wired by their tables |
| `DevirtRuns.DevirtPreserves` | crates/backend/src/gen_hir.rs:4220-4256 | for every program that is fine at each call site, every function, arguments and state: the program whose interface calls became direct ones has the same outcome, memory and effects |
| `DevirtRuns.SameExpr` | crates/backend/src/gen_hir.rs:685-921 | the same for every expression generated from facts that are right on entry |
| `DevirtRuns.SameBlock` | crates/backend/src/gen_hir.rs:34-46 | the same for blocks |
| `DevirtRuns.ElseBranchWrong` | crates/backend/src/gen_hir.rs:732-749 | `if c { x = B {} } else { x.m() }` under the fact that `x` holds an `A`: the `else` branch calls the method of `B` on the `A`, and the site condition holds if and only if `B` is `A` |
| `Vtables.EmitVtable` | crates/backend/src/gen_expr.rs:59-144 | the loops resolve the type and each of its arguments and emit, per interface method in order, its instance; refused only when the type is not nominal or the interface or a method of it is not implemented |
| `Vtables.SlotExactly` | crates/backend/src/gen_call.rs:1541-1614 | each interface method has a slot of its own, and in every emitted table that slot holds the method the direct call resolves to, in the same instance if and only if the `extend` is not generic or the type's arguments are resolved |
| `Vtables.EntryExactly` | crates/backend/src/gen_expr.rs:59-144 | the same for every entry of a table |
| `Vtables.SlotIs` | crates/backend/src/gen_expr.rs:59-144 | a method's slot number is how many methods its interface declares before it; in the table of a type the slot holds the first method of that name in the `extend` block registered for type and interface, with the type's resolved arguments, in order, if the block is generic and none otherwise |
| `Vtables.ResolveIs` | crates/backend/src/gen_call.rs:1589-1614 | a direct call names the first method with the interface method's name in the registered `extend` block, at the type's arguments in order or at none, and is refused exactly if there is no such block or method |
| `Vtables.FindImplFirst` | crates/backend/src/gen_call.rs:1589-1614 | lookup finds the first method of that name in that very `extend` block, or none exists |
| `Inline.Decide` | crates/backend/src/gen_hir.rs:2110-2212 | the statement-by-statement decision is the acceptance predicate the theorems are about |
| `Inline.AcceptedExactly` | crates/backend/src/gen_hir.rs:2110-2180 | a call is accepted if and only if the callee is plain, its parameters and `let`s are scalars, every initialiser and the tail are built from constants, numeric operations, `as`, parameters and earlier `let`s, and nodes and `let`s together are at most 3, or at most 20 for the only call |
| `Inline.CostExactly` | crates/backend/src/gen_hir.rs:5888-5934 | an expression has a cost if and only if all its parts are of these kinds, and then it is the number of its nodes |
| `Inline.InPlaceIsCall` | crates/backend/src/gen_hir.rs:2110-2212 | whenever a call is accepted, evaluating in place gives the call's value or panic and effects, and leaves the caller's locals and memory as they were |
| `Inline.CostPure` | crates/backend/src/gen_hir.rs:5884-5934 | an expression with a cost reads only allowed locals, stores nothing and never needs fuel |
| `Inline.AcceptedHasNoCall` | crates/backend/src/gen_hir.rs:5884-5934 | an accepted body holds no call, so acceptance never leads to another expansion |
| `StaticCast.StaticIfSame` | crates/backend/src/gen_hir.rs:1220-1311 | the per-branch answer over an `if` equals coercing the branch to the union, which boxes it, and testing the tag: same value, same panics, same effects, in every instance of generic code |
| `StaticCast.CoercionIsWidening` | crates/backend/src/gen_hir.rs:1150-1218 | the implicit coercion of branches means the `if` whose branches widen explicitly |
| `StaticCast.StaticMatchSame` | crates/backend/src/gen_hir.rs:3145-3240 | the same over a `match` with any number of arms |
| `StaticCast.BareBoxes` | crates/backend/src/gen_expr.rs:254-336 | a branch that widens is its bare form with the result boxed under the branch type's id |
| `StaticCast.FinishExactly` | crates/backend/src/gen_cast.rs:225-253 | for every value and pair of types the static answer is the boxed one if and only if the types agree |
| `StaticCast.AgreesExactly` | crates/backend/src/gen_cast.rs:206-253 | they agree if and only if the branch type is a member of the target at compile time exactly when some member, resolved for the instance, shares its id |
| `StaticCast.AgreesOutsideGenerics` | crates/backend/src/gen_cast.rs:291-330 | outside generic code: if and only if the branch type is a member of the target or shares its id with none |
| `StaticCast.GenericMemberMissed` | crates/backend/src/gen_hir.rs:1353-1377 | in the instance `T = i32` a branch of type `T` is missed in the union of `T` and null at compile time and found at run time |
| `StaticCast.GenericUnionMissed` | crates/backend/src/gen_cast.rs:206-224 | in the instance where `T` is the union of `i32` and null, a branch of type `i32` is found in `T` at compile time and missed at run time |
| `StaticCast.SameIdExact` | crates/backend/src/support.rs:399-426 | two types get one id exactly when they are the same builtin or instances of one definition |
| `StaticCast.InstancesCollide` | crates/backend/src/support.rs:399-426 | two instances of one generic type on which the static and the boxed answer differ |
| `StaticCast.TagInTarget` | crates/backend/src/gen_cast.rs:206-224 | the folded comparison is membership of the tag among the ids of the target's variants |
| `Mangle.SymbolExact` | crates/backend/src/support.rs:267-274 | two instances get one symbol if and only if definition and argument type ids agree, whatever characters names hold |
| `Mangle.SymbolsCollide` | crates/backend/src/support.rs:267-274 | two different instances with one symbol |
| `Worklist.Codegen.DeclareInstance` | crates/backend/src/support.rs:324-347 | declaring is idempotent, refuses an instance without a signature and a symbol declared with another signature, changing nothing, and otherwise adds and queues exactly the new instance |
| `Worklist.Codegen.Emit` | crates/backend/src/gen_call.rs:1617-1639 | generating a unit declares every instance it calls and queues every lifted function, keeping the invariant |
| `Worklist.Codegen.DefineInstance` | crates/backend/src/lib.rs:2046-2165 | an instance whose item has no body is passed over and nothing else changes; otherwise it is defined, for the first time, and the invariant kept, or a body was not checked, a callee has no signature, or symbols are confused or refused |
| `Worklist.Codegen.Seed` | crates/backend/src/lib.rs:1943-2008 | exactly the lowerable roots are declared in addition, and nothing is defined yet, or a root shares its symbol with an instance of another signature |
| `Worklist.Codegen.Run` | crates/backend/src/lib.rs:2013-2036 | the loop terminates; it succeeds if and only if no declared function lacks its checked body, no emitted callee lacks a signature or shares its symbol with an instance of another one, and no two instances with bodies are confused; then all five queues are empty; what it declares stays inside every self-contained universe, and in a compilable one it succeeds |
| `Worklist.IdleIsComplete` | crates/backend/src/lib.rs:2013-2078 | with empty queues, nothing was defined twice; a declared instance is defined if and only if its item has a body; everything a defined unit asks for is declared, and its lifted functions are defined |
| `Worklist.CompilableIsFine` | crates/backend/src/lib.rs:2013-2036 | inside a universe in which every function with a body was checked, every callee has a signature, no two instances with bodies are confused and confused ones without bodies agree in signature, no reason to fail arises |
| `Worklist.Compile` | crates/backend/src/lib.rs:1943-2036 | seeding and running: success for every compilable universe that holds the roots, failure only for one of the stated reasons, and on success every root with a signature is declared and the queues are empty |
| `Worklist.ExternStaysUndefined` | crates/backend/src/lib.rs:2046-2078 | a program whose `main` calls an extern: the run succeeds, the extern is declared and never defined |
| `Worklist.DeclareKeeps` | crates/backend/src/support.rs:324-347 | declaring keeps the invariant: each declared instance is queued once, defined, or without a body |
| `Worklist.PushKeeps` | crates/backend/src/lib.rs:2013-2036 | queuing a lifted function keeps the invariant: each is asked for once, queued once and not yet defined |
| `Worklist.IdsExact` | crates/backend/src/support.rs:324-347 | two declared instances share a function id if and only if definition and argument type ids agree |
| `Drops.CollectDrops` | crates/backend/src/lib.rs:1902-1941 | the registry holds, in the order of their ids, exactly 1000 and the type for each non-generic finalizer that was compiled, and an id above all those, from the function, for each compiled generic instance; each id once if the function ids are distinct |
| `Drops.StampedIsRegistered` | crates/backend/src/gen_struct.rs:121-203 | when different drop instances have different function ids, a stamped id is not zero, lies in the generic range exactly for generic types, and is registered once with that type's own drop if and only if a generic type carries arguments |
| `Drops.DropIs` | crates/backend/src/gen_struct.rs:121-203 | a type's finalizer is the method of its `extend` block at the type's own arguments, in order, if the block is generic and at none otherwise |
| `Drops.RunKeepsDropsApart` | crates/backend/src/lib.rs:1902-2036 | after a successful run of the worklist, different drop instances have different function ids |
| `Drops.RegisterAfterRun` | crates/backend/src/lib.rs:1902-2036 | collecting after a successful run registers every stamped id once with that type's own drop, if and only if a generic type carries arguments |
| `Drops.StampsApart` | crates/backend/src/support.rs:387-396 | types carry one id exactly when their drop instances are the same |
| `IntArith.FamiliesMeant` | crates/backend/src/gen_call.rs:93-390 | for all widths, signs, operands and add, sub, mul, div, rem, neg: wrapping is the residue in range, overflowing flags exactly the unrepresentable results and MIN by -1, saturating clamps, checked is null exactly on the flag or a zero divisor |
| `IntArith.PlainAnswers` | crates/backend/src/gen_call.rs:93-227 | add, sub, mul and neg in plain arithmetic: wrapping is the value in range congruent to the exact result, saturating the nearest value in range, checked the result or null, overflowing the wrapped value with the flag that the result does not fit |
| `IntArith.DivisionAnswers` | crates/backend/src/gen_call.rs:228-301 | the same for div and rem, with the quotient truncated toward zero and the remainder of the dividend's sign, whatever pair satisfies that; a zero divisor panics or is null |
| `IntArith.AddSubMulMeant` | crates/backend/src/gen_call.rs:178-227 | the emitted selects for add, sub and mul give that meaning |
| `IntArith.DivRemMeant` | crates/backend/src/gen_call.rs:228-301 | the emitted selects for div and rem give that meaning, zero divisors and MIN by -1 included |
| `IntArith.NegMeant` | crates/backend/src/gen_call.rs:302-336 | the emitted selects for neg give that meaning |
| `IntArith.ShiftsMeant` | crates/backend/src/gen_call.rs:337-390 | in every family a left shift by k is the value in range congruent to `a * 2^k` modulo 2^bits, a right shift `a / 2^k` rounded down, signed and unsigned; the count is taken modulo the width, also after narrowing, flagged when it reaches the width, and capped by saturation |
| `IntArith.ShiftUnique` | crates/backend/src/gen_call.rs:370-374 | only one value is the shift by that count |
| `IntArith.OperatorsMeant` | crates/backend/src/gen_expr.rs:723-820 | release operators wrap; debug add, sub and mul panic exactly where the checked family is null; signed division is the wrapping one |
| `IntArith.MinMaxRead` | crates/backend/src/support.rs:429-443 | the emitted bound patterns read back as the type's bounds |
| `IntArith.WrapIs` | crates/backend/src/gen_call.rs:178-227 | wrapping fits, differs from its argument by a multiple of the modulus, and is the identity in range |
| `IntArith.WrapUnique` | crates/backend/src/gen_call.rs:178-227 | no other value in range has the same residue |
| `Layouts.CLayout` | crates/backend/src/support.rs:759-816 | offsets are aligned, fields in bounds, disjoint and tightly packed (all at 0 for a union), the alignment covers every field and the requested minimum, the size is the rounded end |
| `Layouts.ManagedLayout` | crates/backend/src/support.rs:611-650 | the same for managed structs, with the trace map and the counted-field map |
| `Layouts.SizeMultiple` | crates/backend/src/support.rs:800-816 | the size is a multiple of the alignment if and only if the struct is not empty or the alignment is 1 |
| `Layouts.FieldsStayAligned` | crates/backend/src/support.rs:735-753 | a block at a multiple of its alignment has every field at a multiple of its own, in nested structs and arrays alike |
| `LayoutTrees.EveryDepthAligned` | crates/backend/src/support.rs:735-816 | in any nesting of structs, unions and arrays without packing below a field's alignment and without empty over-aligned elements, every part at every depth is at a multiple of its own alignment and inside the whole |
| `LayoutTrees.ScalarsAligned` | crates/backend/src/support.rs:735-816 | so a scalar of n bytes, at any depth, is at a multiple of n and inside the whole |
| `LayoutTrees.SecondElementExactly` | crates/backend/src/support.rs:735-816 | the second element of an array of structs is aligned if and only if the struct is not empty or not over-aligned |
| `LayoutTrees.PackedFieldExactly` | crates/backend/src/support.rs:781-800 | a field is at a multiple of its own alignment in every struct or union with the decorator, wherever it is put, if and only if the decorator does not pack below that alignment or, on a union, asks for at least as much |
| `Layouts.ElementsAligned` | crates/backend/src/support.rs:735-753 | array elements of a size that is a multiple of the alignment stay aligned |
| `Layouts.PickExact` | crates/backend/src/support.rs:611-650 | the trace map lists exactly the offsets of managed (or counted) fields |
| `Layouts.CountingKeeps` | crates/backend/src/support.rs:819-870 | the shift for the count keeps fields aligned, disjoint and in bounds, both pointer maps exact and bytes 0 to 7 free |
| `Layouts.CountedTotalExactly` | crates/backend/src/support.rs:850-870 | the counted size is a multiple of the counted alignment if and only if the size before the shift is a multiple of 8, which it is when some field takes 8 bytes |
| `Layouts.CountedByte` | crates/backend/src/support.rs:850-870 | one field of one byte: 9 bytes with alignment 8 |
| `Layouts.AlignUpLeast` | crates/backend/src/support.rs:488-490 | rounding up gives the least multiple not below the offset |
| `Blocks.Chunks` | crates/backend/src/gen_struct.rs:576-600 | for every n the chunks of 8, 4, 2 and 1 bytes tile the n bytes |
| `Blocks.TilesWriteOnce` | crates/backend/src/gen_struct.rs:576-600 | each of the n bytes is written exactly once and no other byte |
| `Blocks.CopyBytes` | crates/backend/src/gen_struct.rs:576-600 | the chunks in order copy the n bytes and leave the rest of the target alone |
| `Blocks.CopyFits` | crates/backend/src/gen_struct.rs:602-611 | the heap home is a multiple of 8, holds the copy and wastes less than a word |
| `Blocks.StackBlock` | crates/backend/src/gen_struct.rs:250-288 | the block's address is a multiple of its alignment, its words are zeroed and stay inside the slot, and no other byte changes |
| `Descriptor.Write` | crates/backend/src/gen_struct.rs:21-55 | the emitting loops produce the blob that `ParseBlob` reads |
| `Descriptor.ParseBlob` | crates/runtime/src/gc.rs:66-150 | reading by position gives back size, kind, type id and both offset lists, and uses exactly the bytes written, whatever follows |
| `Lines.ComputeLineStarts` | crates/compiler/src/span.rs:155-164 | the loop finds byte 0 and every byte after a newline, in order |
| `Lines.LineCol` | crates/compiler/src/span.rs:141-152 | the line equals the newline-counting line, line start plus column is the clamped offset, and no newline lies between |
| `Lines.StartsSplit` | crates/compiler/src/span.rs:141-152 | the starts up to an offset are a prefix of all starts, and the others lie beyond it |
| `Lines.LinesGrow` | crates/backend/src/dwarf.rs:26-32 | lines never decrease along the text, and a newline ends its line |
| `Imports.DisplayIsSource` | crates/compiler/src/imports.rs:95-97 | printing an accepted path gives the spelling it came from |
| `Imports.ClassifiedExactly` | crates/compiler/src/imports.rs:179-282 | which spelling is accepted, with which scheme, and which error any other gets, in terms of scheme word and components |
| `Imports.ClassifiedIs` | crates/compiler/src/imports.rs:179-282 | accepted absolute paths have segments and no hops; accepted relative ones, from any base deep enough, are the walk along the raw components |
| `Imports.RelativeIsWalk` | crates/compiler/src/imports.rs:286-313 | popping `up` and pushing the segments equals walking the components one by one |
| `Imports.RefusedExactly` | crates/compiler/src/imports.rs:286-313 | a relative path is refused if and only if a `..` follows a real segment |
| `Imports.SplitRelative` | crates/compiler/src/imports.rs:286-313 | the loop over the components gives that normal form or that refusal |
| `Imports.AbsoluteLoop` | crates/compiler/src/imports.rs:223-246 | the loop refuses dot components and empty paths and keeps the other components in order |
| `Imports.SplitJoin` | crates/compiler/src/imports.rs:223-246 | joining the components gives the text back, and no component holds a separator |

## Left out

- PollTheorem.PollRefinesBody: speaks about bodies whose straight run yields a value, returns, panics or waits; a stray `break` or `continue` and an operation on a value of the wrong shape are what the type checker excludes.
- PollTheorem.PollRefinesBody: called functions are synchronous, the stream of `for await` is a local (the code refuses others), every local is one saved word; zero-sized locals, cells of captured locals, the safepoint flush at loop heads, string and channel `for` loops are not modelled.
- PollProof.SimExpr: assumes name resolution (each use after its binding, each `let` with locals of its own), stated as `Scoped`.
- StackProof.ClosureAgree: a closure keeps the values of what it captures; the cells that captured locals share with it, and what its body does when called, are not modelled.
- Lockstep.EvalAlike: `Prim` stands for every operator and runtime call that takes values and gives a scalar or panics.
- StackProof.StackingPreserves: the set of types safe for the frame is a parameter; interior pointers into nested extern structs and the collector's view of frame blocks are not modelled; functions that await have no frame structs.
- ArcProof.CountsCoverOwners: call arguments are locals, parameters or scalars and parameters are not assigned, which keeps every parameter's object owned by the caller for the whole call; a field read counts as a borrow whatever its type, since the tree carries no types.
- ArcProof.EvalSafe: `for` over maps and iterators, type-test patterns, user `Drop` code, spread literals, tuple constructors and unions holding counted values are not in the fragment; a list literal counts as a record, where the code retains an owned item once more; atomicity of counts and cycles are left to the collector.
- ArcProof.BoundArmSafe: the conditions on an arm are sufficient; an assignment or a release in dead code also falls outside them.
- ArcExact.CountsExact: tidy code is a sufficient condition; values with a reference of their own stand only where code generation sees it, nothing leaves while such a value waits, and loops bind no new local. That a bind outside it leaks is exact in `ArcBalance.BindExactly`.
- ArcLedger.FreeCovers: the object is marked freed before its fields are released, where the runtime does it after; no step in between can tell.
- Devirt.ExitFacts: the condition is sufficient; an assignment that disagrees can also stand in dead code, so the converse does not hold.
- DevirtCalls.LoopBodyFacts: likewise sufficient; the exact condition is given for the body that assigns the local, in `LoopBodyFactsWrong`.
- DevirtCalls.DirectCallSame: the table of the object's type was emitted when the object was built; that it was is a precondition, as is the exact condition of `LoadedExactly`.
- DevirtRuns.DevirtPreserves: the condition at call sites is sufficient; a wrong fact can also stand at a call that never runs.
- IfaceTypes.ConcreteRight: types are numbers there, one for each place where an object is made; `as Interface` is treated as the widening it performs; the static interface casts and branch method calls are not modelled.
- Vtables.EmitVtable: emission of the data section and the caching of tables.
- StaticCast.StaticMatchSame: one widening per arm; unions with a null-pointer representation are not modelled.
- Worklist.Codegen.Run: a body is the list of instances it calls and functions it lifts; which those are is given, each lifted function is asked for at one place, and there are finitely many, where polymorphic recursion in the source could declare instances without end.
- Drops.CollectDrops: definition indices stay below the generic id base.
- IntArith.FamiliesMeant: the machine's add, mul, compare and select are taken as exact; float-to-integer guards and float arithmetic are not modelled.
- Layouts.CLayout: 32-bit overflow and saturation of sizes are not modelled.
- Blocks.StackBlock: rounding by mask is modelled as rounding to a multiple, and the slot's own alignment is a precondition.
- Runtime symbol registration and the I/O, channel, thread, task, list, map and string intrinsics: calls into the runtime.
- Cranelift, DWARF sections, object files, the JIT, foreign calling conventions and variadic marshalling.
- The collector, the scheduler and the lock runtimes.
- Type checker, parser, await hoisting, macros, package manager, formatter, language server, REPL and command line; the results they guarantee appear as predicates.
- `SourceMap`, diagnostics and identifier tables: they would only add easy members.
