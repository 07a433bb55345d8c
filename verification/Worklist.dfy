/**
 The monomorphisation worklist: instances and lifted functions are declared on demand,
 queued, and defined until every queue is empty.
 */
module Worklist {
  import opened Hir
  import opened AsyncLayout
  import opened Mangle

  /** What gets defined: function instances, lifted closures, lock-body clone thunks,
      primitive debug wrappers, and `poll` functions. */
  datatype Unit = Body(inst: Instance) | ClosureJob(n: nat) | ThunkJob(n: nat) | WrapperJob(n: nat) | PollJob(n: nat)

  /** What generating one unit asks for, in order. */
  datatype Refs = Refs(calls: seq<Instance>, jobs: seq<Unit>)

  /** `sigs` are the signatures of the instances that have one, by number, and `present` the
      definitions whose item is a test or a function with a body; `bodies` holds what was
      checked. */
  datatype Prog = Prog(bodies: map<Unit, Refs>, sigs: map<Instance, nat>, present: set<DefId>, names: DefId -> string)

  /** A job is created at one place, by the unit that holds it, and carries its code. */
  predicate JobsUnique(p: Prog)
  {
    && (forall u <- p.bodies :: NoDup(p.bodies[u].jobs) && forall j <- p.bodies[u].jobs :: !j.Body? && j in p.bodies)
    && (forall u, v | u in p.bodies && v in p.bodies && u != v ::
          forall j <- p.bodies[u].jobs :: j !in p.bodies[v].jobs)
  }

  /** The queues and tables: `symbols` and `types` are the id and the signature under which a
      symbol was declared, and `ids` the function ids that have a definition. */
  datatype Snap = Snap(
    funcs: map<Instance, nat>,
    symbols: map<string, nat>,
    types: map<string, nat>,
    worklist: seq<Instance>,
    closures: seq<Unit>, thunks: seq<Unit>, wrappers: seq<Unit>, polls: seq<Unit>,
    defined: seq<Unit>,
    ids: set<nat>)

  function Jobs(s: Snap): seq<Unit>
  {
    s.closures + s.thunks + s.wrappers + s.polls
  }

  // -- the invariant --------------------------------------------------------------------------

  /** Every declared instance has a signature and is queued once, or defined, or was taken
      off the queue because its item has no body. */
  predicate QueueOk(p: Prog, s: Snap)
  {
    && NoDup(s.worklist)
    && (forall i <- s.worklist :: i in s.funcs && Body(i) !in s.defined)
    && (forall i <- s.funcs :: i in p.sigs && (i in s.worklist || (Body(i) in s.defined <==> i.def in p.present)))
    && (forall u <- s.defined | u.Body? :: u.inst in s.funcs && u.inst.def in p.present)
  }

  predicate KindsOk(s: Snap)
  {
    && (forall j <- s.closures :: j.ClosureJob?) && (forall j <- s.thunks :: j.ThunkJob?)
    && (forall j <- s.wrappers :: j.WrapperJob?) && (forall j <- s.polls :: j.PollJob?)
  }

  predicate JobsOk(s: Snap)
  {
    && NoDup(s.closures) && NoDup(s.thunks) && NoDup(s.wrappers) && NoDup(s.polls) && KindsOk(s)
    && (forall j <- Jobs(s) :: j !in s.defined)
  }

  /** The jobs unit `u` has asked for; `busy` has got to its job number `done`. */
  function Asked(p: Prog, u: Unit, busy: Option<Unit>, done: nat): seq<Unit>
  {
    if u !in p.bodies then []
    else if busy == Some(u) && done <= |p.bodies[u].jobs| then p.bodies[u].jobs[..done]
    else p.bodies[u].jobs
  }

  /** Jobs come from units that asked for them. */
  ghost predicate Provenance(p: Prog, s: Snap, busy: Option<Unit>, done: nat)
  {
    forall j: Unit | !j.Body? && (j in Jobs(s) || j in s.defined) :: exists u ::
      u in s.defined && j in Asked(p, u, busy, done)
  }

  /** What a finished unit asked for is declared, and its jobs queued or defined. */
  predicate Closed(p: Prog, s: Snap, busy: Option<Unit>)
  {
    forall u <- s.defined | Some(u) != busy ::
      && u in p.bodies
      && (forall i <- p.bodies[u].calls :: i in s.funcs)
      && (forall j <- p.bodies[u].jobs :: j in Jobs(s) || j in s.defined)
  }

  predicate LogOk(p: Prog, s: Snap)
  {
    NoDup(s.defined) && forall u <- s.defined :: u in p.bodies
  }

  /** Instances share an id exactly when they share a symbol, and then also a signature. */
  predicate SymbolsOk(p: Prog, s: Snap)
  {
    && s.types.Keys == s.symbols.Keys
    && (forall i <- s.funcs :: i in p.sigs && Symbol(p.names, i) in s.types && s.types[Symbol(p.names, i)] == p.sigs[i])
    && (forall i <- s.funcs :: Symbol(p.names, i) in s.symbols && s.symbols[Symbol(p.names, i)] == s.funcs[i])
    && (forall a, b | a in s.symbols && b in s.symbols && a != b :: s.symbols[a] != s.symbols[b])
    && (forall a <- s.symbols :: s.symbols[a] < |s.symbols|)
  }

  /** Every symbol is that of a declared instance. */
  ghost predicate Taken(p: Prog, s: Snap)
  {
    forall a <- s.symbols :: exists i :: i in s.funcs && Symbol(p.names, i) == a
  }

  /** The ids with a definition, each of one instance. */
  ghost predicate IdsOk(s: Snap)
  {
    && (forall i, j | i in s.funcs && j in s.funcs && i != j && Body(i) in s.defined && Body(j) in s.defined ::
        s.funcs[i] != s.funcs[j])
    && (forall n <- s.ids :: exists i :: i in s.funcs && s.funcs[i] == n && Body(i) in s.defined)
    && (forall i <- s.funcs | Body(i) in s.defined :: s.funcs[i] in s.ids)
  }

  ghost predicate Inv(p: Prog, s: Snap, busy: Option<Unit>, done: nat)
  {
    QueueOk(p, s) && JobsOk(s) && Provenance(p, s, busy, done) && Closed(p, s, busy) && LogOk(p, s) && SymbolsOk(p, s)
      && Taken(p, s) && IdsOk(s)
  }

  // -- the transitions ---------------------------------------------------------------------------

  /** The symbol of `i` is free, or was declared with the signature of `i`. */
  predicate Declarable(p: Prog, s: Snap, i: Instance)
  {
    var name := Symbol(p.names, i);
    i in p.sigs && (name in s.types ==> s.types[name] == p.sigs[i])
  }

  /** `declare_instance` for an instance that can be declared. */
  function Declare(p: Prog, s: Snap, i: Instance): Snap
    requires Declarable(p, s, i)
  {
    if i in s.funcs then s
    else
      var name := Symbol(p.names, i);
      var id := if name in s.symbols then s.symbols[name] else |s.symbols|;
      s.(funcs := s.funcs[i := id], symbols := s.symbols[name := id], types := s.types[name := p.sigs[i]],
         worklist := s.worklist + [i])
  }

  function Push(s: Snap, j: Unit): Snap
  {
    match j
    case Body(_) => s
    case ClosureJob(_) => s.(closures := s.closures + [j])
    case ThunkJob(_) => s.(thunks := s.thunks + [j])
    case WrapperJob(_) => s.(wrappers := s.wrappers + [j])
    case PollJob(_) => s.(polls := s.polls + [j])
  }

  lemma DeclareKeeps(p: Prog, s: Snap, i: Instance, busy: Option<Unit>, done: nat)
    requires Inv(p, s, busy, done) && Declarable(p, s, i)
    ensures Inv(p, Declare(p, s, i), busy, done) && i in Declare(p, s, i).funcs
            && s.funcs.Keys <= Declare(p, s, i).funcs.Keys
    ensures Declare(p, s, i).defined == s.defined && Jobs(Declare(p, s, i)) == Jobs(s)
  {
    DeclareShape(p, s, i);
    hide Symbol, Jobs, QueueOk, SymbolsOk, Taken, IdsOk, JobsOk, Closed, Provenance, LogOk, Declarable, Declare;
    var t := Declare(p, s, i);
    JobsSame(s, t);
    if i !in s.funcs {
      DeclareQueue(p, s, t, i);
      NewSymbol(p, s, i);
      NewTaken(p, s, i);
      DeclareIds(s, t, i);
      DeclareRest(p, s, t, busy, done);
    }
  }

  /** What declaring changes. */
  lemma DeclareShape(p: Prog, s: Snap, i: Instance)
    requires Declarable(p, s, i)
    ensures var t := Declare(p, s, i);
            && i in p.sigs && (i in s.funcs ==> t == s)
            && t == s.(funcs := t.funcs, symbols := t.symbols, types := t.types, worklist := t.worklist)
            && (i !in s.funcs ==>
                  && t.funcs.Keys == s.funcs.Keys + {i} && t.funcs == s.funcs[i := t.funcs[i]]
                  && t.worklist == s.worklist + [i])
  {
    hide Symbol, QueueOk, SymbolsOk, JobsOk;
    if i in s.funcs {
      assert Declare(p, s, i) == s;
    }
  }

  lemma JobsSame(s: Snap, t: Snap)
    requires t.closures == s.closures && t.thunks == s.thunks && t.wrappers == s.wrappers && t.polls == s.polls
    ensures Jobs(t) == Jobs(s)
  {
  }

  lemma DeclareQueue(p: Prog, s: Snap, t: Snap, i: Instance)
    requires QueueOk(p, s) && i in p.sigs && i !in s.funcs
    requires t.funcs.Keys == s.funcs.Keys + {i} && t.worklist == s.worklist + [i] && t.defined == s.defined
    ensures QueueOk(p, t) && Body(i) !in s.defined
  {
    assert Body(i) !in s.defined;
  }

  lemma DeclareRest(p: Prog, s: Snap, t: Snap, busy: Option<Unit>, done: nat)
    requires JobsOk(s) && Provenance(p, s, busy, done) && Closed(p, s, busy) && LogOk(p, s)
    requires t == s.(funcs := t.funcs, symbols := t.symbols, types := t.types, worklist := t.worklist)
             && s.funcs.Keys <= t.funcs.Keys
    ensures JobsOk(t) && Provenance(p, t, busy, done) && Closed(p, t, busy) && LogOk(p, t)
  {
    assert Jobs(t) == Jobs(s);
    hide Jobs, NoDup;
    LogSame(p, s, t);
    hide LogOk;
  }

  lemma DeclareIds(s: Snap, t: Snap, i: Instance)
    requires IdsOk(s) && i !in s.funcs && Body(i) !in s.defined && t.ids == s.ids && t.defined == s.defined
    requires i in t.funcs && t.funcs == s.funcs[i := t.funcs[i]]
    ensures IdsOk(t)
  {
    forall n <- t.ids ensures exists k :: k in t.funcs && t.funcs[k] == n && Body(k) in t.defined {
      var k :| k in s.funcs && s.funcs[k] == n && Body(k) in s.defined;
      assert k in t.funcs && t.funcs[k] == n;
    }
  }

  lemma NewSymbol(p: Prog, s: Snap, i: Instance)
    requires SymbolsOk(p, s) && i !in s.funcs && Declarable(p, s, i)
    ensures SymbolsOk(p, Declare(p, s, i))
  {
    hide Symbol, QueueOk, JobsOk;
    var t, name := Declare(p, s, i), Symbol(p.names, i);
    if name in s.symbols {
      assert t.symbols == s.symbols && t.types == s.types;
    } else {
      GrowSymbols(s.symbols, name);
      forall j <- t.funcs
        ensures j in p.sigs && Symbol(p.names, j) in t.types && t.types[Symbol(p.names, j)] == p.sigs[j]
        ensures Symbol(p.names, j) in t.symbols && t.symbols[Symbol(p.names, j)] == t.funcs[j]
      {
        if j != i {
          assert j in s.funcs && Symbol(p.names, j) != name;
        }
      }
    }
  }

  lemma NewTaken(p: Prog, s: Snap, i: Instance)
    requires Taken(p, s) && i !in s.funcs && Declarable(p, s, i)
    ensures Taken(p, Declare(p, s, i))
  {
    hide Symbol;
    var t := Declare(p, s, i);
    forall a <- t.symbols ensures exists j :: j in t.funcs && Symbol(p.names, j) == a {
      if a == Symbol(p.names, i) {
        assert i in t.funcs;
      } else {
        var j :| j in s.funcs && Symbol(p.names, j) == a;
        assert j in t.funcs;
      }
    }
  }

  lemma GrowSymbols(m: map<string, nat>, name: string)
    requires name !in m && (forall a, b | a in m && b in m && a != b :: m[a] != m[b]) && (forall a <- m :: m[a] < |m|)
    ensures var m' := m[name := |m|];
            && (forall a, b | a in m' && b in m' && a != b :: m'[a] != m'[b]) && (forall a <- m' :: m'[a] < |m'|)
  {
    var m' := m[name := |m|];
    assert m'.Keys == m.Keys + {name};
    assert |m'| == |m| + 1;
  }

  /** The next job of the busy unit is new: it was asked for nowhere else and not before. */
  lemma PushKeeps(p: Prog, s: Snap, u: Unit, done: nat)
    requires Inv(p, s, Some(u), done) && JobsUnique(p) && u in s.defined && u in p.bodies && done < |p.bodies[u].jobs|
    ensures var j := p.bodies[u].jobs[done];
            Inv(p, Push(s, j), Some(u), done + 1) && Push(s, j).funcs == s.funcs && Push(s, j).defined == s.defined
    ensures forall k <- Jobs(s) + [p.bodies[u].jobs[done]] :: k in Jobs(Push(s, p.bodies[u].jobs[done]))
  {
    hide Jobs, JobsOk, Provenance, SymbolsOk, Taken, LogOk, QueueOk, IdsOk, Closed;
    var j := p.bodies[u].jobs[done];
    assert !j.Body?;
    hide JobsUnique;
    NotAskedYet(p, s, u, done);
    PushQueues(s, j);
    PushProvenance(p, s, u, done);
    SameElsewhere(p, s, Push(s, j), Some(u));
  }

  /** A change to the job queues that loses no job. */
  lemma SameElsewhere(p: Prog, s: Snap, t: Snap, busy: Option<Unit>)
    requires QueueOk(p, s) && SymbolsOk(p, s) && Taken(p, s) && LogOk(p, s) && IdsOk(s) && Closed(p, s, busy)
    requires t == s.(closures := t.closures, thunks := t.thunks, wrappers := t.wrappers, polls := t.polls)
    requires forall k <- Jobs(s) :: k in Jobs(t)
    ensures QueueOk(p, t) && SymbolsOk(p, t) && Taken(p, t) && LogOk(p, t) && IdsOk(t) && Closed(p, t, busy)
  {
    hide Jobs, NoDup, Symbol, SymbolsOk, Taken, LogOk;
    SymbolsSame(p, s, t);
    LogSame(p, s, t);
  }

  lemma SymbolsSame(p: Prog, s: Snap, t: Snap)
    requires SymbolsOk(p, s) && Taken(p, s) && t.funcs == s.funcs && t.symbols == s.symbols && t.types == s.types
    ensures SymbolsOk(p, t) && Taken(p, t)
  {
    hide Symbol;
  }

  lemma LogSame(p: Prog, s: Snap, t: Snap)
    requires LogOk(p, s) && t.defined == s.defined
    ensures LogOk(p, t)
  {
  }

  lemma AppendNew(a: seq<Unit>, j: Unit)
    requires NoDup(a) && j !in a
    ensures NoDup(a + [j]) && forall k :: k in a + [j] <==> k in a || k == j
  {
  }

  lemma JobsAre(s: Snap, k: Unit)
    ensures k in Jobs(s) <==> k in s.closures || k in s.thunks || k in s.wrappers || k in s.polls
  {
  }

  lemma PushQueues(s: Snap, j: Unit)
    requires JobsOk(s) && !j.Body? && j !in Jobs(s) && j !in s.defined
    ensures JobsOk(Push(s, j)) && (forall k :: k in Jobs(Push(s, j)) <==> k in Jobs(s) || k == j)
  {
    var t := Push(s, j);
    forall k: Unit ensures k in Jobs(t) <==> k in Jobs(s) || k == j { JobsAre(s, k); JobsAre(t, k); }
    JobsAre(s, j);
    var q := match j
      case ClosureJob(_) => s.closures
      case ThunkJob(_) => s.thunks
      case WrapperJob(_) => s.wrappers
      case PollJob(_) => s.polls;
    AppendNew(q, j);
    hide Jobs, NoDup;
  }

  lemma PushProvenance(p: Prog, s: Snap, u: Unit, done: nat)
    requires Provenance(p, s, Some(u), done) && u in s.defined && u in p.bodies && done < |p.bodies[u].jobs|
    requires var t := Push(s, p.bodies[u].jobs[done]);
             forall k :: k in Jobs(t) <==> k in Jobs(s) || k == p.bodies[u].jobs[done]
    ensures Provenance(p, Push(s, p.bodies[u].jobs[done]), Some(u), done + 1)
  {
    var jobs := p.bodies[u].jobs;
    var j := jobs[done];
    var t := Push(s, j);
    hide Jobs;
    forall k: Unit | !k.Body? && (k in Jobs(t) || k in t.defined)
      ensures exists v :: v in t.defined && k in Asked(p, v, Some(u), done + 1)
    {
      if k == j {
        assert k in jobs[..done + 1];
        assert k in Asked(p, u, Some(u), done + 1);
      } else {
        var v :| v in s.defined && k in Asked(p, v, Some(u), done);
        assert k in Asked(p, v, Some(u), done + 1);
      }
    }
  }

  lemma NotAskedYet(p: Prog, s: Snap, u: Unit, done: nat)
    requires Provenance(p, s, Some(u), done) && LogOk(p, s) && JobsUnique(p) && u in s.defined && u in p.bodies
             && done < |p.bodies[u].jobs|
    ensures p.bodies[u].jobs[done] !in Jobs(s) && p.bodies[u].jobs[done] !in s.defined
  {
    var jobs := p.bodies[u].jobs;
    AskedBefore(p, s, u, done, jobs[done]);
    NotEarlier(jobs, done);
  }

  lemma AskedBefore(p: Prog, s: Snap, u: Unit, done: nat, j: Unit)
    requires Provenance(p, s, Some(u), done) && LogOk(p, s) && JobsUnique(p) && u in p.bodies
             && done <= |p.bodies[u].jobs| && j in p.bodies[u].jobs
    ensures j in Jobs(s) || j in s.defined ==> j in p.bodies[u].jobs[..done]
  {
    if j in Jobs(s) || j in s.defined {
      var v :| v in s.defined && j in Asked(p, v, Some(u), done);
      assert j in p.bodies[v].jobs;
      assert v == u;
    }
  }

  lemma NotEarlier(jobs: seq<Unit>, n: nat)
    requires NoDup(jobs) && n < |jobs|
    ensures jobs[n] !in jobs[..n]
  {
  }

  /** Starting on a unit. */
  lemma BeginJobs(p: Prog, s: Snap, t: Snap, u: Unit)
    requires Provenance(p, s, None, 0) && Closed(p, s, None) && LogOk(p, s) && u !in s.defined && u in p.bodies
    requires t.defined == s.defined + [u] && t.funcs == s.funcs && (!u.Body? ==> u in Jobs(s))
    requires (forall j <- Jobs(s) :: j in Jobs(t) || j == u) && (forall j <- Jobs(t) :: j in Jobs(s))
    ensures Provenance(p, t, Some(u), 0) && Closed(p, t, Some(u)) && LogOk(p, t)
  {
    forall j: Unit | !j.Body? && (j in Jobs(t) || j in t.defined)
      ensures exists v :: v in t.defined && j in Asked(p, v, Some(u), 0)
    {
      assert j in Jobs(s) || j in s.defined;
      var v :| v in s.defined && j in Asked(p, v, None, 0);
      assert v != u;
      assert v in t.defined && j in Asked(p, v, Some(u), 0);
    }
  }

  /** A unit that has asked for everything is finished. */
  lemma EndKeeps(p: Prog, s: Snap, u: Unit)
    requires u in p.bodies && Inv(p, s, Some(u), |p.bodies[u].jobs|)
    requires (forall i <- p.bodies[u].calls :: i in s.funcs)
             && (forall j <- p.bodies[u].jobs :: j in Jobs(s) || j in s.defined)
    ensures Inv(p, s, None, 0)
  {
    EndProvenance(p, s, u);
    hide QueueOk, JobsOk, LogOk, SymbolsOk, Taken, IdsOk, Provenance, Jobs;
  }

  lemma EndProvenance(p: Prog, s: Snap, u: Unit)
    requires u in p.bodies && Provenance(p, s, Some(u), |p.bodies[u].jobs|)
    ensures Provenance(p, s, None, 0)
  {
    hide Jobs;
    forall j: Unit | !j.Body? && (j in Jobs(s) || j in s.defined)
      ensures exists v :: v in s.defined && j in Asked(p, v, None, 0)
    {
      var v :| v in s.defined && j in Asked(p, v, Some(u), |p.bodies[u].jobs|);
      assert j in Asked(p, v, None, 0);
    }
  }

  // -- the goal -------------------------------------------------------------------------------------

  predicate Idle(s: Snap)
  {
    s.worklist == [] && s.closures == [] && s.thunks == [] && s.wrappers == [] && s.polls == []
  }

  /** With all queues empty: every unit was defined at most once; a declared instance has
      its definition if and only if its item has a body; and all that a defined unit asks
      for is declared or defined. */
  lemma IdleIsComplete(p: Prog, s: Snap)
    requires Inv(p, s, None, 0) && Idle(s)
    ensures NoDup(s.defined)
    ensures forall i <- s.funcs :: Body(i) in s.defined <==> i.def in p.present
    ensures forall u <- s.defined ::
              && u in p.bodies && (forall j <- p.bodies[u].jobs :: j in s.defined)
              && (forall i <- p.bodies[u].calls :: i in s.funcs && (Body(i) in s.defined <==> i.def in p.present))
    ensures !Faulty(p, s)
  {
    hide SymbolsOk, Taken, IdsOk, Symbol, Clash, Refused, Provenance;
    assert Jobs(s) == [];
    NoClash(p, s);
    NoRefusal(p, s);
  }

  lemma NoClash(p: Prog, s: Snap)
    requires SymbolsOk(p, s) && IdsOk(s) && QueueOk(p, s) && s.worklist == []
    ensures !Clash(p, s)
  {
    forall i, j | i in s.funcs && j in s.funcs && i != j && i.def in p.present
      ensures !Confusable(i, j)
    {
      if i.def == j.def {
        assert Body(i) in s.defined && Body(j) in s.defined;
        assert s.funcs[i] != s.funcs[j];
        IdsExact(p, s, i, j);
      }
    }
  }

  lemma NoRefusal(p: Prog, s: Snap)
    requires SymbolsOk(p, s) && Closed(p, s, None)
    ensures !Refused(p, s)
  {
    forall u, i, j | u in s.defined && u in p.bodies && i in p.bodies[u].calls && j in s.funcs && Confusable(i, j)
      ensures i in p.sigs && j in p.sigs && p.sigs[i] == p.sigs[j]
    {
      assert i in s.funcs;
      SymbolExact(p.names, i, j);
    }
  }

  /** Function ids of declared instances are equal exactly when definition and argument
      type ids are. */
  lemma IdsExact(p: Prog, s: Snap, i: Instance, j: Instance)
    requires SymbolsOk(p, s) && i in s.funcs && j in s.funcs
    ensures s.funcs[i] == s.funcs[j] <==> i.def == j.def && StaticCast.Ids(i.args) == StaticCast.Ids(j.args)
  {
    SymbolExact(p.names, i, j);
    hide Symbol;
  }

  /** Two declared instances with bodies that their type ids confuse. */
  ghost predicate Clash(p: Prog, s: Snap)
  {
    exists i, j :: i in s.funcs && j in s.funcs && i != j && i.def in p.present && Confusable(i, j)
  }

  predicate Confusable(i: Instance, j: Instance)
  {
    i.def == j.def && StaticCast.Ids(i.args) == StaticCast.Ids(j.args)
  }

  /** A declared function whose body was not checked, or a callee without a signature. */
  ghost predicate Missing(p: Prog, s: Snap)
  {
    || (exists i :: i in s.funcs && i.def in p.present && Body(i) !in p.bodies)
    || (exists u :: u in s.defined && u in p.bodies && exists i :: i in p.bodies[u].calls && i !in p.sigs)
  }

  /** An emitted callee whose symbol was declared with another signature. */
  ghost predicate Refused(p: Prog, s: Snap)
  {
    exists u, i, j ::
      && u in s.defined && u in p.bodies && i in p.bodies[u].calls && j in s.funcs
      && Confusable(i, j) && i in p.sigs && j in p.sigs && p.sigs[i] != p.sigs[j]
  }

  /** Why a run can fail. */
  ghost predicate Faulty(p: Prog, s: Snap)
  {
    Missing(p, s) || Clash(p, s) || Refused(p, s)
  }

  // -- what a run can reach -----------------------------------------------------------------------------

  /** Units that generation emits code for. */
  predicate Emitted(p: Prog, u: Unit)
  {
    u in p.bodies && (u.Body? ==> u.inst.def in p.present)
  }

  /** A set of units that asks for nothing outside itself. */
  predicate SelfContained(p: Prog, universe: set<Unit>)
  {
    forall u <- universe | Emitted(p, u) ::
      (forall i <- p.bodies[u].calls :: Body(i) in universe) && (forall j <- p.bodies[u].jobs :: j in universe)
  }

  ghost predicate Inside(p: Prog, s: Snap, universe: set<Unit>)
  {
    && SelfContained(p, universe)
    && (forall i <- s.funcs :: Body(i) in universe) && (forall u <- s.defined :: u in universe && Emitted(p, u))
       && (forall j <- Jobs(s) :: j in universe)
  }

  /** Every unit of the universe can be compiled, and no two are confused. */
  predicate Compilable(p: Prog, universe: set<Unit>)
  {
    && (forall u <- universe | u.Body? && u.inst.def in p.present :: u in p.bodies)
    && (forall u <- universe | Emitted(p, u) :: forall i <- p.bodies[u].calls :: i in p.sigs)
    && (forall u, v | u in universe && v in universe && u.Body? && v.Body? && u != v && Confusable(u.inst, v.inst) ::
          u.inst.def !in p.present && (u.inst in p.sigs && v.inst in p.sigs ==> p.sigs[u.inst] == p.sigs[v.inst]))
  }

  /** Nothing goes wrong inside a compilable universe. */
  lemma CompilableIsFine(p: Prog, s: Snap, universe: set<Unit>)
    requires Inside(p, s, universe) && Compilable(p, universe)
    ensures !Faulty(p, s)
  {
    forall i, j | i in s.funcs && j in s.funcs && i != j && i.def in p.present ensures !Confusable(i, j) {
      assert Body(i) in universe && Body(j) in universe;
    }
    forall u, i, j | u in s.defined && u in p.bodies && i in p.bodies[u].calls && j in s.funcs && Confusable(i, j)
      ensures i in p.sigs && j in p.sigs ==> p.sigs[i] == p.sigs[j]
    {
      assert u in universe && Emitted(p, u);
      assert Body(i) in universe && Body(j) in universe;
    }
  }

  lemma DeclareInside(p: Prog, s: Snap, universe: set<Unit>, u: Unit, i: Instance)
    requires Inside(p, s, universe) && u in universe && Emitted(p, u) && i in p.bodies[u].calls && Declarable(p, s, i)
    ensures Inside(p, Declare(p, s, i), universe)
  {
    assert Jobs(Declare(p, s, i)) == Jobs(s);
    hide Jobs, Symbol;
  }

  lemma PushInside(p: Prog, s: Snap, universe: set<Unit>, u: Unit, j: Unit)
    requires Inside(p, s, universe) && u in universe && Emitted(p, u) && j in p.bodies[u].jobs
    ensures Inside(p, Push(s, j), universe)
  {
    forall k <- Jobs(Push(s, j)) ensures k in Jobs(s) || k == j {
      JobsAre(s, k);
      JobsAre(Push(s, j), k);
    }
    hide Jobs;
  }

  // -- the generator -----------------------------------------------------------------------------------

  datatype Declaration = Declared(id: nat) | NoSignature | OtherSignature

  class Codegen {
    const prog: Prog
    var funcs: map<Instance, nat>
    var symbols: map<string, nat>
    var types: map<string, nat>
    var worklist: seq<Instance>
    var closures: seq<Unit>
    var thunks: seq<Unit>
    var wrappers: seq<Unit>
    var polls: seq<Unit>
    var defined: seq<Unit>
    var ids: set<nat>

    ghost function Now(): Snap
      reads this
    {
      Snap(funcs, symbols, types, worklist, closures, thunks, wrappers, polls, defined, ids)
    }

    ghost predicate Valid()
      reads this
    {
      JobsUnique(prog) && Inv(prog, Now(), None, 0)
    }

    constructor (p: Prog)
      requires JobsUnique(p)
      ensures Valid() && prog == p && Idle(Now()) && defined == [] && funcs == map[]
    {
      prog := p;
      funcs, symbols, types, worklist := map[], map[], map[], [];
      closures, thunks, wrappers, polls, defined, ids := [], [], [], [], [], {};
      new;
      assert Jobs(Now()) == [];
    }

    /** `declare_instance`: idempotent; `None` without a signature, an error for a symbol that
        has another one, and otherwise queues a new instance. */
    method DeclareInstance(i: Instance) returns (r: Declaration)
      modifies this
      ensures i in old(funcs) ==> r == Declared(old(funcs)[i]) && Now() == old(Now())
      ensures i !in old(funcs) && i !in prog.sigs ==> r == NoSignature && Now() == old(Now())
      ensures i !in old(funcs) && i in prog.sigs && !Declarable(prog, old(Now()), i) ==>
                r == OtherSignature && Now() == old(Now())
      ensures i !in old(funcs) && Declarable(prog, old(Now()), i) ==>
                Now() == Declare(prog, old(Now()), i) && r == Declared(funcs[i])
    {
      if i in funcs {
        return Declared(funcs[i]);
      }
      if i !in prog.sigs {
        return NoSignature;
      }
      var name := Symbol(prog.names, i);
      if name in types && types[name] != prog.sigs[i] {
        return OtherSignature;
      }
      var fid := if name in symbols then symbols[name] else |symbols|;
      symbols := symbols[name := fid];
      types := types[name := prog.sigs[i]];
      funcs := funcs[i := fid];
      worklist := worklist + [i];
      return Declared(fid);
    }

    method PushJob(j: Unit)
      modifies this
      ensures Now() == Push(old(Now()), j)
    {
      match j
      case Body(_) =>
      case ClosureJob(_) => closures := closures + [j];
      case ThunkJob(_) => thunks := thunks + [j];
      case WrapperJob(_) => wrappers := wrappers + [j];
      case PollJob(_) => polls := polls + [j];
    }

    /** Generating a unit: every call declares its instance, every lifted function is
        queued. */
    method Emit(u: Unit, ghost universe: set<Unit>) returns (ok: bool)
      requires JobsUnique(prog) && Inv(prog, Now(), Some(u), 0) && u in defined && Emitted(prog, u)
               && Inside(prog, Now(), universe)
      modifies this
      ensures ok ==> Inv(prog, Now(), None, 0)
      ensures defined == old(defined) && old(funcs.Keys) <= funcs.Keys && Inside(prog, Now(), universe)
      ensures !ok ==> Faulty(prog, Now())
    {
      assert u in universe;
      hide Inv, JobsUnique, Jobs, Inside;
      ok := EmitCalls(u, universe);
      if ok {
        EmitJobs(u, universe);
        EndKeeps(prog, Now(), u);
      }
    }

    method EmitCalls(u: Unit, ghost universe: set<Unit>) returns (ok: bool)
      requires Inv(prog, Now(), Some(u), 0) && u in defined && u in universe && Emitted(prog, u)
               && Inside(prog, Now(), universe)
      modifies this
      ensures defined == old(defined) && old(funcs.Keys) <= funcs.Keys && Inside(prog, Now(), universe)
      ensures ok ==> Inv(prog, Now(), Some(u), 0) && forall i <- prog.bodies[u].calls :: i in funcs
      ensures !ok ==> Faulty(prog, Now())
    {
      hide Inv, Jobs, Declare, Inside, Faulty, Declarable;
      var calls := prog.bodies[u].calls;
      for n := 0 to |calls|
        invariant Inv(prog, Now(), Some(u), 0) && defined == old(defined) && old(funcs.Keys) <= funcs.Keys
                  && Inside(prog, Now(), universe)
        invariant forall k | 0 <= k < n :: calls[k] in funcs
      {
        ghost var was := Now();
        var d := DeclareInstance(calls[n]);
        if !d.Declared? {
          assert calls[n] in prog.bodies[u].calls;
          NotDeclared(prog, was, u, calls[n]);
          return false;
        }
        if calls[n] !in was.funcs {
          DeclareKeeps(prog, was, calls[n], Some(u), 0);
          DeclareInside(prog, was, universe, u, calls[n]);
        }
      }
      return true;
    }

    method EmitJobs(u: Unit, ghost universe: set<Unit>)
      requires JobsUnique(prog) && Inv(prog, Now(), Some(u), 0) && u in defined && u in universe && Emitted(prog, u)
               && Inside(prog, Now(), universe)
      modifies this
      ensures defined == old(defined) && funcs == old(funcs) && Inside(prog, Now(), universe)
      ensures Inv(prog, Now(), Some(u), |prog.bodies[u].jobs|) && forall j <- prog.bodies[u].jobs :: j in Jobs(Now())
    {
      hide Inv, JobsUnique, Jobs, Push, Inside;
      var jobs := prog.bodies[u].jobs;
      for n := 0 to |jobs|
        invariant Inv(prog, Now(), Some(u), n) && defined == old(defined) && funcs == old(funcs)
                  && Inside(prog, Now(), universe)
        invariant forall k | 0 <= k < n :: jobs[k] in Jobs(Now())
      {
        PushKeeps(prog, Now(), u, n);
        PushInside(prog, Now(), universe, u, jobs[n]);
        PushJob(jobs[n]);
      }
    }

    /** `define_instance`: nothing for an item without a body, an error for a body that was
        not checked, and the module's refusal to define an id twice. */
    method DefineInstance(ghost universe: set<Unit>) returns (ok: bool)
      requires Valid() && |worklist| > 0 && Inside(prog, Now(), universe)
      modifies this
      ensures var i := old(worklist)[|old(worklist)| - 1];
              if i.def !in prog.present then
                ok && Valid() && Now() == old(Now()).(worklist := old(worklist)[..|old(worklist)| - 1])
              else
                ok ==>
                  && Valid() && defined == old(defined) + [Body(i)]
                  && Body(i) in prog.bodies && Body(i) !in old(defined)
      ensures old(funcs.Keys) <= funcs.Keys && Inside(prog, Now(), universe)
      ensures !ok ==> Faulty(prog, Now())
    {
      hide Inv, JobsUnique, Jobs, IdsOk, SymbolsOk, Taken, QueueOk, Clash, Missing, Refused, Inside;
      var i := worklist[|worklist| - 1];
      var u := Body(i);
      assert i in worklist;
      QueuedIs(prog, Now(), i);
      ghost var was := Now();
      if i.def !in prog.present {
        worklist := worklist[..|worklist| - 1];
        SkipKeeps(prog, was, Now(), universe, i);
        return true;
      }
      if u !in prog.bodies {
        NoBody(prog, Now(), i);
        return false;
      }
      if funcs[i] in ids {
        Confused(prog, Now(), i);
        return false;
      }
      worklist := worklist[..|worklist| - 1];
      defined := defined + [u];
      ids := ids + {funcs[i]};
      BeginBody(prog, was, Now(), i);
      BodyInside(prog, was, Now(), universe, i);
      ok := Emit(u, universe);
    }

    /** `define_closure` and its like, for a job just taken off its queue. */
    method DefineJob(ghost was: Snap, u: Unit, ghost universe: set<Unit>) returns (ok: bool)
      requires JobsUnique(prog) && Inv(prog, was, None, 0) && !u.Body? && u in Jobs(was) && JobsOk(Now())
               && u !in Jobs(Now())
      requires Now() == was.(closures := closures, thunks := thunks, wrappers := wrappers, polls := polls)
      requires (forall j <- Jobs(was) :: j in Jobs(Now()) || j == u) && (forall j <- Jobs(Now()) :: j in Jobs(was))
      requires Inside(prog, was, universe)
      modifies this
      ensures ok ==> Valid() && defined == old(defined) + [u] && u in prog.bodies && u !in old(defined)
      ensures old(funcs.Keys) <= funcs.Keys && Inside(prog, Now(), universe)
      ensures !ok ==> Faulty(prog, Now())
    {
      JobHasBody(prog, was, u);
      JobNotDefined(prog, was, u);
      hide Inv, JobsUnique, JobsOk, Inside;
      defined := defined + [u];
      BeginJob(prog, was, Now(), u);
      JobInside(prog, was, Now(), universe, u);
      ok := Emit(u, universe);
    }

    /** `seed_with`: the roots are declared before the run, or one is refused. */
    method Seed(roots: seq<Instance>) returns (ok: bool)
      requires Valid()
      modifies this
      ensures Valid() && defined == old(defined) && Jobs(Now()) == old(Jobs(Now()))
      ensures forall i :: i in funcs ==> i in old(funcs) || (i in roots && i in prog.sigs)
      ensures ok ==> forall i :: i in funcs <==> i in old(funcs) || (i in roots && i in prog.sigs)
      ensures !ok ==> exists i, j ::
                i in roots && j in funcs && Confusable(i, j) && i in prog.sigs && prog.sigs[i] != prog.sigs[j]
    {
      hide Inv, JobsUnique, Symbol;
      for n := 0 to |roots|
        invariant Valid() && defined == old(defined) && Jobs(Now()) == old(Jobs(Now()))
        invariant forall i :: i in funcs <==> i in old(funcs) || (i in roots[..n] && i in prog.sigs)
      {
        ghost var was := Now();
        var d := DeclareInstance(roots[n]);
        assert roots[..n + 1] == roots[..n] + [roots[n]];
        if d == OtherSignature {
          OtherExists(prog, was, roots[n]);
          return false;
        }
        if d.Declared? && roots[n] !in was.funcs {
          DeclareKeeps(prog, was, roots[n], None, 0);
        }
      }
      assert roots[..|roots|] == roots;
      return true;
    }

    /** `run`: instances first, then one job at a time. It succeeds exactly if nothing was
        found missing and no two instances are confused, and always so in a compilable
        universe; whatever it declares stays inside every self-contained one. */
    method Run(ghost universe: set<Unit>) returns (ok: bool)
      requires Valid() && Inside(prog, Now(), universe)
      modifies this
      ensures ok ==> Valid() && Idle(Now()) && old(funcs.Keys) <= funcs.Keys
      ensures ok <==> !Faulty(prog, Now())
      ensures Inside(prog, Now(), universe) && (Compilable(prog, universe) ==> ok)
    {
      hide Inv, JobsUnique, Jobs, JobsOk, Elems, Inside, Faulty, Compilable;
      while true
        invariant Valid() && old(funcs.Keys) <= funcs.Keys && Inside(prog, Now(), universe)
        decreases prog.bodies.Keys - Elems(defined)
      {
        ghost var start := defined;
        while worklist != []
          invariant Valid() && old(funcs.Keys) <= funcs.Keys && Inside(prog, Now(), universe)
          invariant prog.bodies.Keys - Elems(defined) <= prog.bodies.Keys - Elems(start)
          decreases prog.bodies.Keys - Elems(defined), |worklist|
        {
          ghost var before := defined;
          var present := worklist[|worklist| - 1].def in prog.present;
          var done := DefineInstance(universe);
          if !done {
            Decided(prog, Now(), universe);
            return false;
          }
          if present {
            FewerLeft(prog, before, defined);
          }
        }
        ghost var before, was := defined, Now();
        var u;
        if closures != [] {
          u := closures[|closures| - 1];
          closures := closures[..|closures| - 1];
        } else if thunks != [] {
          u := thunks[|thunks| - 1];
          thunks := thunks[..|thunks| - 1];
        } else if wrappers != [] {
          u := wrappers[|wrappers| - 1];
          wrappers := wrappers[..|wrappers| - 1];
        } else if polls != [] {
          u := polls[|polls| - 1];
          polls := polls[..|polls| - 1];
        } else {
          IdleIsComplete(prog, Now());
          return true;
        }
        JobsAreOk(prog, was);
        TakeKeeps(was, Now(), u);
        var done := DefineJob(was, u, universe);
        if !done {
          Decided(prog, Now(), universe);
          return false;
        }
        FewerLeft(prog, before, defined);
      }
    }
  }

  lemma Decided(p: Prog, s: Snap, universe: set<Unit>)
    requires Inside(p, s, universe) && Faulty(p, s)
    ensures !Compilable(p, universe)
  {
    hide Inside, Faulty;
    if Compilable(p, universe) {
      CompilableIsFine(p, s, universe);
    }
  }

  // -- whole compilations ------------------------------------------------------------------------------

  /** Two of the roots, or what they lead to, with one symbol and different signatures. */
  ghost predicate RootRefused(p: Prog, s: Snap, roots: seq<Instance>)
  {
    exists i, j ::
      i in roots && j in s.funcs && Confusable(i, j) && i in p.sigs && j in p.sigs && p.sigs[i] != p.sigs[j]
  }

  /** Seeding and running: for a self-contained universe that holds the roots, compilation
      succeeds if the universe is compilable, fails only for a stated reason, and on success
      every root with a signature is declared and `IdleIsComplete` applies. */
  method Compile(p: Prog, roots: seq<Instance>, ghost universe: set<Unit>) returns (g: Codegen, ok: bool)
    requires JobsUnique(p) && SelfContained(p, universe) && forall i <- roots :: Body(i) in universe
    ensures g.prog == p && (Compilable(p, universe) ==> ok)
    ensures !ok ==> Faulty(p, g.Now()) || RootRefused(p, g.Now(), roots)
    ensures ok ==>
              && !Faulty(p, g.Now()) && Inv(p, g.Now(), None, 0) && Idle(g.Now())
              && forall i <- roots | i in p.sigs :: i in g.funcs
    ensures forall i <- g.funcs :: Body(i) in universe
  {
    g := new Codegen(p);
    assert Jobs(g.Now()) == [];
    ok := g.Seed(roots);
    if ok {
      hide Inv, Faulty;
      ok := g.Run(universe);
    } else {
      SigsKnown(p, g.Now());
      RootsNotCompilable(p, g.Now(), roots, universe);
    }
  }

  lemma SigsKnown(p: Prog, s: Snap)
    requires Inv(p, s, None, 0)
    ensures forall i <- s.funcs :: i in p.sigs
  {
  }

  lemma RootsNotCompilable(p: Prog, s: Snap, roots: seq<Instance>, universe: set<Unit>)
    requires (forall i <- roots :: Body(i) in universe) && (forall i <- s.funcs :: Body(i) in universe)
             && RootRefused(p, s, roots)
    ensures !Compilable(p, universe)
  {
    var i, j :| i in roots && j in s.funcs && Confusable(i, j) && i in p.sigs && j in p.sigs && p.sigs[i] != p.sigs[j];
    assert Body(i) in universe && Body(j) in universe && Body(i) != Body(j);
  }

  /** A symbol that is taken belongs to a declared instance. */
  lemma OtherExists(p: Prog, s: Snap, i: Instance)
    requires Inv(p, s, None, 0) && i in p.sigs && !Declarable(p, s, i)
    ensures exists j :: j in s.funcs && Confusable(i, j) && j in p.sigs && p.sigs[i] != p.sigs[j]
  {
    assert Symbol(p.names, i) in s.symbols;
    var j :| j in s.funcs && Symbol(p.names, j) == Symbol(p.names, i);
    SymbolExact(p.names, i, j);
  }

  function OneExtern(names: DefId -> string): Prog
  {
    Prog(map[Body(Instance(0, [])) := Refs([Instance(1, [])], [])], map[Instance(0, []) := 0, Instance(1, []) := 1],
         {0}, names)
  }

  lemma OneExternFine(names: DefId -> string)
    ensures var p, main, ext := OneExtern(names), Instance(0, []), Instance(1, []);
            && JobsUnique(p) && SelfContained(p, {Body(main), Body(ext)}) && Compilable(p, {Body(main), Body(ext)})
            && main in p.sigs && 0 in p.present && 1 !in p.present && Body(main) in p.bodies
               && ext in p.bodies[Body(main)].calls
  {
  }

  /** `main` calls the extern function `ext`: the run succeeds, `ext` is declared, and it is
      never defined. */
  method ExternStaysUndefined(names: DefId -> string) returns (g: Codegen, ok: bool)
    ensures var main, ext := Instance(0, []), Instance(1, []);
            ok && Idle(g.Now()) && main in g.funcs && ext in g.funcs && Body(main) in g.defined
              && Body(ext) !in g.defined
  {
    var main, ext := Instance(0, []), Instance(1, []);
    var p := OneExtern(names);
    OneExternFine(names);
    hide OneExtern, JobsUnique, SelfContained, Compilable, Missing, Clash, Inv;
    g, ok := Compile(p, [main], {Body(main), Body(ext)});
    IdleIsComplete(p, g.Now());
  }

  /** A callee that could not be declared. */
  lemma NotDeclared(p: Prog, s: Snap, u: Unit, i: Instance)
    requires Inv(p, s, Some(u), 0) && u in s.defined && u in p.bodies && i in p.bodies[u].calls && i !in s.funcs
             && !Declarable(p, s, i)
    ensures Faulty(p, s)
  {
    if i in p.sigs {
      assert Symbol(p.names, i) in s.symbols;
      var j :| j in s.funcs && Symbol(p.names, j) == Symbol(p.names, i);
      SymbolExact(p.names, i, j);
      assert Refused(p, s);
    } else {
      assert Missing(p, s);
    }
  }

  lemma NoBody(p: Prog, s: Snap, i: Instance)
    requires i in s.funcs && i.def in p.present && Body(i) !in p.bodies
    ensures Missing(p, s)
  {
  }

  lemma SymbolsHold(p: Prog, s: Snap)
    requires Inv(p, s, None, 0)
    ensures SymbolsOk(p, s)
  {
    hide SymbolsOk, Taken, Symbol, IdsOk, QueueOk, JobsOk, Provenance, Closed;
  }

  lemma QueuedIs(p: Prog, s: Snap, i: Instance)
    requires Inv(p, s, None, 0) && i in s.worklist
    ensures i in s.funcs && Body(i) !in s.defined && IdsOk(s) && SymbolsOk(p, s) && QueueOk(p, s)
  {
  }

  lemma JobsAreOk(p: Prog, s: Snap)
    requires Inv(p, s, None, 0)
    ensures JobsOk(s)
  {
  }

  lemma JobNotDefined(p: Prog, s: Snap, u: Unit)
    requires Inv(p, s, None, 0) && u in Jobs(s)
    ensures u !in s.defined
  {
  }

  lemma BeginBody(p: Prog, s: Snap, t: Snap, i: Instance)
    requires Inv(p, s, None, 0) && Body(i) in p.bodies && |s.worklist| > 0 && s.worklist[|s.worklist| - 1] == i
             && i in s.funcs
    requires i.def in p.present && s.funcs[i] !in s.ids
    requires t == s.(worklist := s.worklist[..|s.worklist| - 1], defined := s.defined + [Body(i)],
                     ids := s.ids + {s.funcs[i]})
    ensures Inv(p, t, Some(Body(i)), 0)
  {
    hide Jobs, JobsOk, QueueOk, IdsOk, SymbolsOk, Taken, Provenance, Closed, LogOk;
    var u := Body(i);
    assert i in s.worklist;
    assert s.worklist == t.worklist + [i];
    QueuedIs(p, s, i);
    NoBodyJobs(s, i);
    JobsMore(s, t, u);
    BeginQueue(p, s, t, i);
    BeginJobs(p, s, t, u);
    BeginIds(s, t, u);
    SymbolsSame(p, s, t);
  }

  lemma JobsMore(s: Snap, t: Snap, u: Unit)
    requires JobsOk(s) && u !in Jobs(s) && t == s.(worklist := t.worklist, defined := s.defined + [u], ids := t.ids)
    ensures JobsOk(t) && Jobs(t) == Jobs(s)
  {
    assert Jobs(t) == Jobs(s);
    hide Jobs, NoDup;
  }

  lemma BeginJob(p: Prog, s: Snap, t: Snap, u: Unit)
    requires Inv(p, s, None, 0) && u in p.bodies && !u.Body? && u in Jobs(s) && u !in s.defined && u !in Jobs(t)
    requires t == s.(closures := t.closures, thunks := t.thunks, wrappers := t.wrappers, polls := t.polls,
                     defined := s.defined + [u])
    requires JobsOk(t.(defined := s.defined))
    requires (forall j <- Jobs(s) :: j in Jobs(t) || j == u) && (forall j <- Jobs(t) :: j in Jobs(s))
    ensures Inv(p, t, Some(u), 0)
  {
    BeginJobs(p, s, t, u);
    BeginIds(s, t, u);
    SymbolsSame(p, s, t);
    StillOk(p, s, t, u);
    hide Jobs, JobsOk, NoDup, SymbolsOk, Taken, LogOk, Provenance, Closed, IdsOk, QueueOk;
  }

  lemma StillOk(p: Prog, s: Snap, t: Snap, u: Unit)
    requires QueueOk(p, s) && JobsOk(t.(defined := s.defined)) && u !in Jobs(t) && !u.Body?
    requires t.defined == s.defined + [u] && t.funcs == s.funcs && t.worklist == s.worklist
    ensures QueueOk(p, t) && JobsOk(t)
  {
    assert Jobs(t.(defined := s.defined)) == Jobs(t);
    hide Jobs, NoDup;
  }

  lemma NoBodyJobs(s: Snap, i: Instance)
    requires JobsOk(s)
    ensures Body(i) !in Jobs(s)
  {
    JobsAre(s, Body(i));
  }

  lemma BeginQueue(p: Prog, s: Snap, t: Snap, i: Instance)
    requires i.def in p.present && QueueOk(p, s) && s.worklist == t.worklist + [i] && t.funcs == s.funcs
             && t.defined == s.defined + [Body(i)]
    ensures QueueOk(p, t)
  {
    assert s.worklist[|t.worklist|] == i;
    forall k | 0 <= k < |t.worklist| ensures t.worklist[k] == s.worklist[k] {}
    assert forall x <- t.worklist :: x in s.worklist && x != i;
  }

  lemma BeginIds(s: Snap, t: Snap, u: Unit)
    requires IdsOk(s) && t.funcs == s.funcs && t.defined == s.defined + [u]
    requires if u.Body? then u.inst in s.funcs && s.funcs[u.inst] !in s.ids && t.ids == s.ids + {s.funcs[u.inst]}
             else t.ids == s.ids
    ensures IdsOk(t)
  {
    forall n <- t.ids ensures exists k :: k in t.funcs && t.funcs[k] == n && Body(k) in t.defined {
      if n in s.ids {
        var k :| k in s.funcs && s.funcs[k] == n && Body(k) in s.defined;
        assert Body(k) in t.defined;
      } else {
        assert Body(u.inst) in t.defined;
      }
    }
  }

  lemma FewerLeft(p: Prog, a: seq<Unit>, b: seq<Unit>)
    requires |b| == |a| + 1 && a == b[..|a|] && b[|a|] in p.bodies && b[|a|] !in a
    ensures p.bodies.Keys - Elems(b) < p.bodies.Keys - Elems(a)
  {
    assert b[|a|] in Elems(b);
    forall x <- a ensures x in b { var k :| 0 <= k < |a| && a[k] == x; assert b[k] == x; }
    assert b[|a|] in p.bodies.Keys - Elems(a);
  }

  /** An id defined already belongs to another instance with the same symbol. */
  lemma Confused(p: Prog, s: Snap, i: Instance)
    requires IdsOk(s) && SymbolsOk(p, s) && QueueOk(p, s) && i in s.worklist && s.funcs[i] in s.ids
             && i.def in p.present
    ensures Clash(p, s)
  {
    assert i in s.funcs && Body(i) !in s.defined;
    var j :| j in s.funcs && s.funcs[j] == s.funcs[i] && Body(j) in s.defined;
    hide QueueOk, IdsOk;
    IdsExact(p, s, i, j);
    hide SymbolsOk, Taken, Symbol;
    assert i != j && Confusable(i, j);
  }

  lemma JobHasBody(p: Prog, s: Snap, u: Unit)
    requires JobsUnique(p) && Inv(p, s, None, 0) && !u.Body? && u in Jobs(s)
    ensures u in p.bodies
  {
    hide Jobs;
    var v :| v in s.defined && u in Asked(p, v, None, 0);
    assert v in p.bodies && u in p.bodies[v].jobs;
  }

  /** Passing over an instance without a body. */
  lemma SkipKeeps(p: Prog, s: Snap, t: Snap, universe: set<Unit>, i: Instance)
    requires Inv(p, s, None, 0) && Inside(p, s, universe) && |s.worklist| > 0 && s.worklist[|s.worklist| - 1] == i
             && i.def !in p.present
    requires t == s.(worklist := s.worklist[..|s.worklist| - 1])
    ensures Inv(p, t, None, 0) && Inside(p, t, universe)
  {
    hide Jobs, NoDup, SymbolsOk, Taken, LogOk, QueueOk, JobsOk, IdsOk, Closed, Provenance, SelfContained;
    JobsSame(s, t);
    assert s.worklist == t.worklist + [i];
    SkipQueue(p, s, t, i);
    SymbolsSame(p, s, t);
    LogSame(p, s, t);
    SkipRest(p, s, t);
  }

  lemma SkipRest(p: Prog, s: Snap, t: Snap)
    requires JobsOk(s) && IdsOk(s) && Closed(p, s, None) && Provenance(p, s, None, 0) && t == s.(worklist := t.worklist)
    ensures JobsOk(t) && IdsOk(t) && Closed(p, t, None) && Provenance(p, t, None, 0)
  {
    assert Jobs(t) == Jobs(s);
    hide Jobs, NoDup;
  }

  lemma SkipQueue(p: Prog, s: Snap, t: Snap, i: Instance)
    requires QueueOk(p, s) && s.worklist == t.worklist + [i] && t.funcs == s.funcs && t.defined == s.defined
             && i.def !in p.present
    ensures QueueOk(p, t)
  {
    forall k | 0 <= k < |t.worklist| ensures t.worklist[k] == s.worklist[k] {}
    assert forall x <- t.worklist :: x in s.worklist;
    forall x <- t.funcs ensures x in t.worklist || (Body(x) in t.defined <==> x.def in p.present) {
      if x == i {
        assert Body(i) !in t.defined;
      } else if x in s.worklist {
        assert x in t.worklist;
      }
    }
  }

  lemma BodyInside(p: Prog, s: Snap, t: Snap, universe: set<Unit>, i: Instance)
    requires Inside(p, s, universe) && i in s.funcs && Emitted(p, Body(i))
    requires t == s.(worklist := t.worklist, defined := s.defined + [Body(i)], ids := t.ids)
    ensures Inside(p, t, universe)
  {
    assert Jobs(t) == Jobs(s);
    hide Jobs;
  }

  lemma JobInside(p: Prog, s: Snap, t: Snap, universe: set<Unit>, u: Unit)
    requires Inside(p, s, universe) && u in Jobs(s) && Emitted(p, u) && t.funcs == s.funcs
             && t.defined == s.defined + [u]
    requires forall j <- Jobs(t) :: j in Jobs(s)
    ensures Inside(p, t, universe)
  {
    hide Jobs;
  }

  predicate Popped(a: seq<Unit>, b: seq<Unit>, u: Unit)
  {
    a == b + [u]
  }

  lemma PoppedElems(a: seq<Unit>, b: seq<Unit>, u: Unit)
    requires Popped(a, b, u) && NoDup(a)
    ensures NoDup(b) && u !in b && (forall j :: j in a <==> j in b || j == u)
  {
    forall i | 0 <= i < |b| ensures b[i] == a[i] {}
    assert a[|b|] == u;
  }

  /** Taking the last job off one queue. */
  lemma TakeKeeps(s: Snap, t: Snap, u: Unit)
    requires JobsOk(s) && t == s.(closures := t.closures, thunks := t.thunks, wrappers := t.wrappers, polls := t.polls)
    requires
      || (Popped(s.closures, t.closures, u) && t.thunks == s.thunks && t.wrappers == s.wrappers && t.polls == s.polls)
      || (Popped(s.thunks, t.thunks, u) && t.closures == s.closures && t.wrappers == s.wrappers && t.polls == s.polls)
      || (Popped(s.wrappers, t.wrappers, u) && t.closures == s.closures && t.thunks == s.thunks && t.polls == s.polls)
      || (Popped(s.polls, t.polls, u) && t.closures == s.closures && t.thunks == s.thunks && t.wrappers == s.wrappers)
    ensures JobsOk(t) && !u.Body? && u in Jobs(s) && u !in Jobs(t)
    ensures (forall j <- Jobs(s) :: j in Jobs(t) || j == u) && (forall j <- Jobs(t) :: j in Jobs(s))
  {
    if Popped(s.closures, t.closures, u) {
      PoppedElems(s.closures, t.closures, u);
    } else if Popped(s.thunks, t.thunks, u) {
      PoppedElems(s.thunks, t.thunks, u);
    } else if Popped(s.wrappers, t.wrappers, u) {
      PoppedElems(s.wrappers, t.wrappers, u);
    } else {
      PoppedElems(s.polls, t.polls, u);
    }
  }
}
