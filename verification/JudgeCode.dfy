/**
 The code of the judge processes over the shared Redis keys: `_consume_from_list` and `run` of a worker,
 `spawn_worker`, `stop_worker`, `check_heartbeat`, `scale` and `shutdown` of the orchestrator, and
 the enqueueing half of `create_submission`. The other processes may act between any two operations on
 shared state (`env` lists what they try). `trace` records every operation of every process, and `Valid`
 says that it is a run of the job protocol; so what is proved about runs holds of the code.
 */
module JudgeCode {
  import opened JudgeTypes
  import opened Records
  import opened Interleaving
  import opened JobProtocol
  import opened JobConservation
  import opened JobLifecycle
  import opened JobShutdown
  import opened Scaling
  import Pipeline

  type Schedule = seq<seq<Step>>

  /** The process whose code a method describes. */
  datatype Process = WorkerProcess(w: nat) | OrchestratorProcess | ApiProcess(id: Id)

  predicate By(a: Step, who: Process) {
    match who
    case WorkerProcess(w) => a.Worker? && a.w == w
    case OrchestratorProcess => a.Orch? && a.orchOp != ManagerExit
    case ApiProcess(x) => a.Api? && (a.apiOp == Commit(x) || a.apiOp == Enqueue(x))
  }

  function OwnedBy(who: Process): Step -> bool { a => By(a, who) }

  // ----- what the others leave alone -----

  /** A process that is over stays as it is. */
  ghost predicate OverStays(ps: seq<Proc>, ps': seq<Proc>) {
    |ps| <= |ps'| && forall v | 0 <= v < |ps| && Over(ps[v].pc) :: ps'[v] == ps[v]
  }

  /** With the shutdown key set nobody gets further from the end. */
  ghost predicate WindsDown(ps: seq<Proc>, ps': seq<Proc>) {
    |ps| == |ps'| && forall v | 0 <= v < |ps| :: StepsLeft(ps'[v].pc) <= StepsLeft(ps[v].pc)
  }

  /** What no other process does to this one while it runs; being killed would only cut its code short. */
  ghost predicate Undisturbed(s: State, s': State, who: Process) {
    match who
    case WorkerProcess(w) => w < |s.procs| ==> w < |s'.procs| && s'.procs[w] == s.procs[w]
    case OrchestratorProcess =>
      && s'.orch == s.orch && s'.listed == s.listed && |s'.procs| == |s.procs|
      && OverStays(s.procs, s'.procs) && (s.flag ==> s'.flag && WindsDown(s.procs, s'.procs))
    case ApiProcess(x) =>
      x in s.awaiting ==> x in s'.awaiting && (x in s'.rows ==> x in s.rows && s'.rows[x] == s.rows[x])
  }

  /** Another process may do this now: it is not ours, and it does not end the worker being described. */
  predicate Foreign(s: State, a: Step, who: Process) {
    && !By(a, who) && Enabled(s, a)
    && (who.WorkerProcess? && a.Orch? && (a.orchOp == StopKill || a.orchOp == ReapKill) ==> s.orch.worker != who.w)
  }

  lemma WorkerHarmless(judge: Evaluation, s: State, w: nat, op: WorkerOp, who: Process)
    requires Known(s) && WorkerEnabled(s, w, op) && who != WorkerProcess(w)
    ensures Undisturbed(s, ApplyWorker(judge, s, w, op), who)
  {
    WorkerFrame(judge, s, w, op);
    match who
    case WorkerProcess(_) => hide ApplyWorker, WorkerEnabled;
    case OrchestratorProcess =>
      if s.flag {
        OwnStepCounts(judge, s, w, op);
      }
      hide ApplyWorker, WorkerEnabled, StepsLeft;
    case ApiProcess(x) =>
      if x in s.awaiting {
        WriteElsewhere(judge, s, w, op, x);
      }
      hide ApplyWorker, WorkerEnabled;
  }

  /** A worker has no hand in an id that is not enqueued yet. */
  lemma WriteElsewhere(judge: Evaluation, s: State, w: nat, op: WorkerOp, x: Id)
    requires Known(s) && WorkerEnabled(s, w, op) && x in s.awaiting
    ensures var s' := ApplyWorker(judge, s, w, op);
            x in s'.awaiting && (x in s'.rows ==> x in s.rows && s'.rows[x] == s.rows[x])
  {
    if op.Write? {
      KnownJob(s, w, op);
    }
    hide NextProc, ProcsKnown;
  }

  lemma OrchHarmless(s: State, op: OrchOp, who: Process)
    requires OrchEnabled(s, op) && Foreign(s, Orch(op), who)
    ensures Undisturbed(s, ApplyOrch(s, op), who)
  {
    match who
    case WorkerProcess(w) => hide NextOrch, NextListed;
    case OrchestratorProcess => assert op == ManagerExit;
    case ApiProcess(x) => SameRows(s, op); hide NextOrch, NextListed;
  }

  lemma ForeignIsHarmless(judge: Evaluation, s: State, a: Step, who: Process)
    requires Known(s) && Foreign(s, a, who)
    ensures Undisturbed(s, Apply(judge, s, a), who)
  {
    hide ApplyWorker, ApplyOrch, Known;
    match a
    case Worker(w, op) => WorkerHarmless(judge, s, w, op, who);
    case Orch(op) => OrchHarmless(s, op, who);
    case Api(op) =>
  }

  lemma UndisturbedTwice(s: State, m: State, e: State, who: Process)
    requires Undisturbed(s, m, who) && Undisturbed(m, e, who)
    ensures Undisturbed(s, e, who)
  {
  }

  class Judge {
    const judge: Evaluation
    const minWorkers: int
    const maxWorkers: int
    const start: State
    // Redis
    var jobs: seq<Id>
    var shutdownFlag: bool
    var stopKeys: set<nat>
    var beats: set<nat>
    var current: map<nat, Id>
    // PostgreSQL
    var rows: map<Id, Recorded>
    var deleted: set<Id>
    // processes
    var procs: seq<Proc>
    var workers: seq<nat>
    var orch: Orchestrator
    var managerGone: bool
    var awaiting: set<Id>
    // history
    var enqueued: set<Id>
    var dropped: set<Id>
    var pushed: seq<Id>
    var popped: seq<Id>
    var reaped: multiset<Id>
    var stale: multiset<Id>
    var loads: seq<Loading>
    ghost var trace: seq<Step>

    function View(): State reads this {
      State(jobs, shutdownFlag, procs, stopKeys, beats, current, workers, orch, managerGone, rows, deleted, awaiting,
            enqueued, dropped, pushed, popped, reaped, stale, loads)
    }

    /** Everything done since the start is a run of the protocol. */
    ghost predicate Valid() reads this { Start(start) && Known(start) && Run(judge, start, trace, View()) }

    /** What one process has done so far. */
    ghost function Did(who: Process): seq<Step> reads this { Part(trace, OwnedBy(who)) }

    /** `leftovers` is what an earlier life has left in Redis and the database, with its histories. */
    constructor (judge: Evaluation, minWorkers: int, maxWorkers: int, leftovers: State)
      requires Start(leftovers) && Known(leftovers)
      ensures Valid() && View() == start == leftovers && trace == []
      ensures this.judge == judge && this.minWorkers == minWorkers && this.maxWorkers == maxWorkers
    {
      this.judge, this.minWorkers, this.maxWorkers, start := judge, minWorkers, maxWorkers, leftovers;
      jobs, shutdownFlag, stopKeys, beats, current := leftovers.jobs, false, leftovers.stopKeys, leftovers.beats, leftovers.current;
      rows, deleted := leftovers.rows, leftovers.deleted;
      procs, workers, orch, managerGone, awaiting := [], [], Free, false, leftovers.awaiting;
      enqueued, dropped, pushed, popped := leftovers.enqueued, leftovers.dropped, leftovers.pushed, leftovers.popped;
      reaped, stale, loads := leftovers.reaped, leftovers.stale, leftovers.loads;
      trace := [];
    }

    // ----- operations -----

    method BecomeShared(s: State)
      modifies this`jobs, this`shutdownFlag, this`stopKeys, this`beats, this`current, this`rows, this`deleted
      ensures jobs == s.jobs && shutdownFlag == s.flag && stopKeys == s.stopKeys && beats == s.beats
      ensures current == s.current && rows == s.rows && deleted == s.deleted
    {
      jobs, shutdownFlag, stopKeys, beats, current := s.jobs, s.flag, s.stopKeys, s.beats, s.current;
      rows, deleted := s.rows, s.deleted;
    }

    method BecomeProcesses(s: State)
      modifies this`procs, this`workers, this`orch, this`managerGone, this`awaiting
      ensures procs == s.procs && workers == s.listed && orch == s.orch && managerGone == s.managerGone && awaiting == s.awaiting
    {
      procs, workers, orch, managerGone, awaiting := s.procs, s.listed, s.orch, s.managerGone, s.awaiting;
    }

    method BecomeHistory(s: State)
      modifies this`enqueued, this`dropped, this`pushed, this`popped, this`reaped, this`stale, this`loads
      ensures enqueued == s.enqueued && dropped == s.dropped && pushed == s.pushed && popped == s.popped
      ensures reaped == s.reaped && stale == s.stale && loads == s.loads
    {
      enqueued, dropped, pushed, popped := s.enqueued, s.dropped, s.pushed, s.popped;
      reaped, stale, loads := s.reaped, s.stale, s.loads;
    }

    method Become(s: State)
      modifies this
      ensures View() == s && trace == old(trace)
    {
      BecomeShared(s);
      BecomeProcesses(s);
      BecomeHistory(s);
    }

    /** One atomic operation of any process. */
    method Perform(a: Step)
      requires Valid() && Enabled(View(), a)
      modifies this
      ensures Valid() && View() == Apply(judge, old(View()), a) && trace == old(trace) + [a]
    {
      ghost var s := View();
      Become(Apply(judge, View(), a));
      trace := trace + [a];
      assert Run(judge, View(), [], View());
      hide Run, Apply, Enabled;
      FirstStep(judge, s, a, View(), [], View());
      RunConcat(judge, start, old(trace), s, [a] + [], View());
      assert old(trace) + ([a] + []) == trace;
    }

    /** One operation of this process. */
    method Own(a: Step, ghost who: Process)
      requires Valid() && Enabled(View(), a) && By(a, who)
      modifies this
      ensures Valid() && View() == Apply(judge, old(View()), a) && trace == old(trace) + [a]
      ensures Did(who) == old(Did(who)) + [a]
    {
      hide Apply, Enabled, Run;
      Perform(a);
      PartOne(old(trace), a, OwnedBy(who));
    }

    /** The other processes do whatever they can of `wishes`, in that order. */
    method Others(wishes: seq<Step>, who: Process)
      requires Valid()
      modifies this
      ensures Valid() && Did(who) == old(Did(who)) && old(trace) <= trace
      ensures Undisturbed(old(View()), View(), who)
      ensures forall w | w in stopKeys && w !in old(stopKeys) :: Orch(StopSignal(w)) in trace[|old(trace)|..]
    {
      hide Run, Apply, Undisturbed, Foreign, Known, Part;
      UndisturbedAtFirst(View(), who);
      for k := 0 to |wishes|
        invariant Valid() && Did(who) == old(Did(who)) && old(trace) <= trace
        invariant Undisturbed(old(View()), View(), who)
        invariant forall w | w in stopKeys && w !in old(stopKeys) :: Orch(StopSignal(w)) in trace[|old(trace)|..]
      {
        if Foreign(View(), wishes[k], who) {
          Other(wishes[k], who, old(View()), |old(trace)|);
        }
      }
    }

    method Other(a: Step, ghost who: Process, ghost since: State, ghost mark: nat)
      requires Valid() && Foreign(View(), a, who) && mark <= |trace| && Undisturbed(since, View(), who)
      modifies this
      ensures Valid() && View() == Apply(judge, old(View()), a) && trace == old(trace) + [a]
      ensures Did(who) == old(Did(who)) && Undisturbed(since, View(), who)
      ensures forall w | w in stopKeys && w !in old(stopKeys) :: Orch(StopSignal(w)) in trace[mark..]
      ensures old(trace)[mark..] <= trace[mark..]
    {
      ghost var s := View();
      KnownRun(judge, start, trace, s);
      ForeignIsHarmless(judge, s, a, who);
      hide Run, Apply, Undisturbed, Known;
      Perform(a);
      UndisturbedTwice(since, s, View(), who);
      PartOne(old(trace), a, OwnedBy(who));
      forall w | w in stopKeys && w !in old(stopKeys)
        ensures Orch(StopSignal(w)) in trace[mark..]
      {
        KeySetBySignal(judge, s, a, w);
        assert trace[mark..][|old(trace)| - mark] == a;
      }
    }

    // ----- a worker -----

    /** The id at the left end of the list is the one this worker popped last. */
    predicate PushedBack(w: nat)
      reads this
    {
      w < |procs| && jobs != [] && procs[w].local == Some(jobs[0])
    }

    /** One statement of worker `w`. */
    method Do(w: nat, op: WorkerOp)
      requires Valid() && WorkerEnabled(View(), w, op)
      modifies this
      ensures Valid() && Did(WorkerProcess(w)) == old(Did(WorkerProcess(w))) + OpsOf(w, [op])
      ensures w < |procs| && procs[w].pc == NextPc(judge, old(View()), w, op)
      ensures trace == old(trace) + [Worker(w, op)]
      ensures w in stopKeys ==> w in old(stopKeys) && !op.LeaveStop?
      ensures op.LeaveBeat? ==> w !in beats
      ensures !op.Pop? ==> procs[w].local == old(procs)[w].local
      ensures op.Repush? ==> jobs == [old(procs)[w].pc.job] + old(jobs)
    {
      KeysGo(judge, View(), w, op);
      hide WorkerEffect, NextPc, WorkerEnabled, Run, Part;
      Own(Worker(w, op), WorkerProcess(w));
    }

    /** The loop condition: go on, or leave. */
    method MayContinue(w: nat, env: Schedule) returns (go: bool, ghost ops: seq<WorkerOp>)
      requires Valid() && w < |procs| && procs[w].pc == Head
      modifies this
      ensures Valid() && Did(WorkerProcess(w)) == old(Did(WorkerProcess(w))) + OpsOf(w, ops)
      ensures w < |procs| && procs[w].pc == (if go then Beating else Leaving)
      ensures ops == [ReadFlag, ReadStop] || (!go && ops == [ReadFlag])
      ensures procs[w].local == old(procs)[w].local
    {
      hide Run, Part;
      ops := [ReadFlag];
      Do(w, ReadFlag);
      go := procs[w].pc != Leaving;
      if go {
        Others(Slot(env, 0), WorkerProcess(w));
        Do(w, ReadStop);
        OpsConcat(old(Did(WorkerProcess(w))), w, ops, [ReadStop]);
        ops := ops + [ReadStop];
        go := procs[w].pc != Leaving;
      }
    }

    /** Heartbeat, then brpop with its one-second timeout, which may raise. */
    method TakeJob(w: nat, faults: Faults, env: Schedule) returns (ghost last: WorkerOp)
      requires Valid() && w < |procs| && procs[w].pc == Beating
      modifies this
      ensures Valid() && Did(WorkerProcess(w)) == old(Did(WorkerProcess(w))) + OpsOf(w, [SetBeat, last])
      ensures if faults.pop then last == PopError else last == Pop || last == PopEmpty
      ensures w < |procs| &&
              match last
              case Pop => procs[w].pc.Popped?
              case PopEmpty => procs[w].pc == Head
              case _ => if procs[w].local.None? then procs[w].pc == Dead else procs[w].pc.Retrying?
      ensures last != Pop ==> procs[w].local == old(procs)[w].local
    {
      hide Run, Part;
      Do(w, SetBeat);
      Others(Slot(env, 1), WorkerProcess(w));
      var op := if faults.pop then PopError else if jobs != [] then Pop else PopEmpty;
      last := op;
      Do(w, op);
      OpsConcat(old(Did(WorkerProcess(w))), w, [SetBeat], [op]);
    }

    /** The body of `except Exception`. If the push raises as well, so does the handler: the process ends. */
    method Retry(w: nat, faults: Faults, env: Schedule)
      requires Valid() && w < |procs| && procs[w].pc.Retrying?
      modifies this
      ensures Valid() && Did(WorkerProcess(w)) == old(Did(WorkerProcess(w))) + OpsOf(w, [Again(faults)])
      ensures w < |procs| && procs[w].pc == EndOf(Again(faults))
      ensures procs[w].local == old(procs)[w].local && (!faults.push ==> PushedBack(w))
    {
      hide Run, Part;
      Others(Slot(env, 5), WorkerProcess(w));
      RememberRun(judge, start, trace, View());
      assert Remembers(procs[w]);
      Do(w, Again(faults));
    }

    /** Any other exception than ValueError on the way, and its handler. */
    method RaiseAndRetry(w: nat, faults: Faults, env: Schedule)
      requires Valid() && WorkerEnabled(View(), w, RaiseOther)
      modifies this
      ensures Valid() && Did(WorkerProcess(w)) == old(Did(WorkerProcess(w))) + OpsOf(w, [RaiseOther, Again(faults)])
      ensures w < |procs| && procs[w].pc == EndOf(Again(faults))
      ensures procs[w].local == old(procs)[w].local && (!faults.push ==> PushedBack(w))
    {
      hide Run, Part;
      Do(w, RaiseOther);
      Retry(w, faults, env);
      OpsConcat(old(Did(WorkerProcess(w))), w, [RaiseOther], [Again(faults)]);
      assert [RaiseOther] + [Again(faults)] == [RaiseOther, Again(faults)];
    }

    /** Judge what was loaded, record it, delete the submission key; or raise on the way. */
    method FinishJob(w: nat, world: Pipeline.World, faults: Faults, env: Schedule) returns (ghost ops: seq<WorkerOp>)
      requires Valid() && w < |procs| && procs[w].pc.Judging?
      modifies this
      ensures Valid() && Did(WorkerProcess(w)) == old(Did(WorkerProcess(w))) + OpsOf(w, ops)
      ensures ops == AfterLoad(old(procs)[w].pc.outcome, world, faults)
      ensures w < |procs| && procs[w].pc == EndOf(ops[|ops| - 1])
      ensures procs[w].local == old(procs)[w].local && (ops[|ops| - 1].Repush? ==> PushedBack(w))
    {
      hide Run, Part;
      var outcome := procs[w].pc.outcome;
      var error := if outcome.Raised? then Some(outcome.error) else world.commitError;
      if error == Some(ValueError) {
        ops := [RaiseValueError];
        Do(w, RaiseValueError);
      } else if error.Some? {
        RaiseAndRetry(w, faults, env);
        ops := [RaiseOther, Again(faults)];
      } else {
        ops := RecordAndForget(w, faults, env);
      }
    }

    /** The commit, then _delete_submission. */
    method RecordAndForget(w: nat, faults: Faults, env: Schedule) returns (ghost ops: seq<WorkerOp>)
      requires Valid() && WorkerEnabled(View(), w, Write)
      modifies this
      ensures Valid() && Did(WorkerProcess(w)) == old(Did(WorkerProcess(w))) + OpsOf(w, ops)
      ensures ops == if faults.clearKey then [Write, ClearKeyError, Again(faults)] else [Write, ClearKey]
      ensures w < |procs| && procs[w].pc == EndOf(ops[|ops| - 1])
      ensures procs[w].local == old(procs)[w].local && (ops[|ops| - 1].Repush? ==> PushedBack(w))
    {
      hide Run, Part;
      Do(w, Write);
      Others(Slot(env, 4), WorkerProcess(w));
      if faults.clearKey {
        Do(w, ClearKeyError);
        Retry(w, faults, env);
        OpsConcat(old(Did(WorkerProcess(w))), w, [Write], [ClearKeyError]);
        OpsConcat(old(Did(WorkerProcess(w))), w, [Write] + [ClearKeyError], [Again(faults)]);
        ops := [Write] + [ClearKeyError] + [Again(faults)];
      } else {
        Do(w, ClearKey);
        OpsConcat(old(Did(WorkerProcess(w))), w, [Write], [ClearKey]);
        ops := [Write] + [ClearKey];
      }
    }

    /** process_submission and what follows it. */
    method JudgeNamed(w: nat, world: Pipeline.World, faults: Faults, env: Schedule) returns (ghost ops: seq<WorkerOp>)
      requires Valid() && w < |procs| && procs[w].pc.Running?
      modifies this
      ensures Valid() && Did(WorkerProcess(w)) == old(Did(WorkerProcess(w))) + OpsOf(w, ops)
      ensures ops != [] && AfterKey(judge, old(procs)[w].pc.job, ops, world, faults)
      ensures w < |procs| && procs[w].pc == EndOf(ops[|ops| - 1])
      ensures procs[w].local == old(procs)[w].local && (ops[|ops| - 1].Repush? ==> PushedBack(w))
    {
      hide Run, Part, AfterLoad;
      if world.loadError == Some(ValueError) {
        ops := [RaiseValueError];
        Do(w, RaiseValueError);
      } else if world.loadError.Some? {
        RaiseAndRetry(w, faults, env);
        ops := [RaiseOther, Again(faults)];
      } else if procs[w].pc.job !in rows {
        ops := [MissingRow];
        Do(w, MissingRow);
      } else {
        Do(w, Load(world));
        Others(Slot(env, 3), WorkerProcess(w));
        ops := FinishJob(w, world, faults, env);
        OpsConcat(old(Did(WorkerProcess(w))), w, [Load(world)], ops);
        ops := [Load(world)] + ops;
      }
    }

    /** From a popped job to the end of the iteration. */
    method JudgeJob(w: nat, world: Pipeline.World, faults: Faults, env: Schedule) returns (ghost ops: seq<WorkerOp>)
      requires Valid() && w < |procs| && procs[w].pc.Popped?
      modifies this
      ensures Valid() && Did(WorkerProcess(w)) == old(Did(WorkerProcess(w))) + OpsOf(w, ops)
      ensures ops != [] && AfterPop(judge, old(procs)[w].pc.job, ops, world, faults)
      ensures w < |procs| && procs[w].pc == EndOf(ops[|ops| - 1])
      ensures procs[w].local == old(procs)[w].local && (ops[|ops| - 1].Repush? ==> PushedBack(w))
    {
      hide Run, Part, AfterKey;
      if faults.setKey {
        Do(w, SetKeyError);
        Retry(w, faults, env);
        OpsConcat(old(Did(WorkerProcess(w))), w, [SetKeyError], [Again(faults)]);
        ops := [SetKeyError] + [Again(faults)];
      } else {
        Do(w, SetKey);
        Others(Slot(env, 2), WorkerProcess(w));
        ghost var rest := JudgeNamed(w, world, faults, env);
        OpsConcat(old(Did(WorkerProcess(w))), w, [SetKey], rest);
        ops := [SetKey] + rest;
        assert ops[1..] == rest;
      }
    }

    /** One iteration of `_consume_from_list`, whichever of its Redis calls raise. The contract lists every way
        through the loop body, and where each ends: at the loop head, out of the loop, or with the process. What
        it pushes back is the id it has popped, or if the pop raises the one it popped before; if there is no
        such id, the process ends. */
    method ConsumeOnce(w: nat, world: Pipeline.World, faults: Faults, env: Schedule) returns (ghost ops: seq<WorkerOp>)
      requires Valid() && w < |procs| && procs[w].pc == Head
      modifies this
      ensures Valid() && Did(WorkerProcess(w)) == old(Did(WorkerProcess(w))) + OpsOf(w, ops)
      ensures Iteration(judge, old(procs)[w].local, ops, world, faults)
      ensures w < |procs| && procs[w].pc == EndOf(ops[|ops| - 1])
      ensures ops[|ops| - 1].Repush? ==> PushedBack(w)
      ensures faults.pop ==> procs[w].local == old(procs)[w].local
    {
      hide Run, Part, WorkerEnabled, NextPc, AfterPop;
      var go;
      ghost var first, last, rest;
      go, first := MayContinue(w, env);
      ops := first;
      if go {
        Others(Slot(env, 0), WorkerProcess(w));
        last := TakeJob(w, faults, env);
        OpsConcat(old(Did(WorkerProcess(w))), w, first, [SetBeat, last]);
        ops := first + [SetBeat, last];
        rest := AfterTaking(w, last, world, faults, env);
        OpsConcat(old(Did(WorkerProcess(w))), w, ops, rest);
        assert (ops + rest)[..3] == [ReadFlag, ReadStop, SetBeat] && (ops + rest)[3] == last && (ops + rest)[4..] == rest;
        ops := ops + rest;
      }
    }

    method AfterTaking(w: nat, ghost last: WorkerOp, world: Pipeline.World, faults: Faults, env: Schedule)
      returns (ghost ops: seq<WorkerOp>)
      requires Valid() && w < |procs|
      requires match last
               case Pop => procs[w].pc.Popped?
               case PopEmpty => procs[w].pc == Head
               case PopError => if procs[w].local.None? then procs[w].pc == Dead else procs[w].pc.Retrying?
               case _ => false
      modifies this
      ensures Valid() && Did(WorkerProcess(w)) == old(Did(WorkerProcess(w))) + OpsOf(w, ops)
      ensures w < |procs| && procs[w].pc == EndOf(([last] + ops)[|ops|])
      ensures AfterTake(judge, old(procs)[w].local, last, ops, world, faults)
      ensures procs[w].local == old(procs)[w].local && (ops != [] && ops[|ops| - 1].Repush? ==> PushedBack(w))
    {
      hide Run, Part, WorkerEnabled, NextPc, AfterPop;
      ops := [];
      if procs[w].pc.Popped? {
        ghost var x := procs[w].pc.job;
        Others(Slot(env, 2), WorkerProcess(w));
        ops := JudgeJob(w, world, faults, env);
        assert AfterPop(judge, x, ops, world, faults);
        assert ([last] + ops)[|ops|] == ops[|ops| - 1];
      } else if procs[w].pc.Retrying? {
        ops := [Again(faults)];
        Retry(w, faults, env);
      }
    }

    method DeleteOwnKey(w: nat, op: WorkerOp)
      requires Valid() && w < |procs|
      requires (op.LeaveStop? && procs[w].pc == Leaving) || (op.LeaveBeat? && procs[w].pc == LeavingBeat)
      modifies this
      ensures Valid() && Did(WorkerProcess(w)) == old(Did(WorkerProcess(w))) + OpsOf(w, [op])
      ensures w < |procs| && procs[w].pc == (if op.LeaveStop? then LeavingBeat else Gone)
      ensures trace == old(trace) + [Worker(w, op)]
      ensures w in stopKeys ==> w in old(stopKeys) && !op.LeaveStop?
      ensures op.LeaveBeat? ==> w !in beats
    {
      hide Run, Part;
      Do(w, op);
    }

    /** `run` after the loop: the two deletes, then the process ends. At that moment its heartbeat key is gone,
        and its shutdown key too unless the orchestrator has sent this worker a stop signal in between. What
        may happen to the keys later is in LeftoverKeys. */
    method LeaveLoop(w: nat, env: Schedule)
      requires Valid() && w < |procs| && procs[w].pc == Leaving
      modifies this
      ensures Valid() && w < |procs| && procs[w].pc == Gone && w !in beats
      ensures old(trace) <= trace && (w in stopKeys ==> Orch(StopSignal(w)) in trace[|old(trace)|..])
      ensures Did(WorkerProcess(w)) == old(Did(WorkerProcess(w))) + OpsOf(w, [LeaveStop, LeaveBeat])
    {
      hide Run, Part, NextPc, WorkerEnabled;
      ghost var start := |trace|;
      DeleteOwnKey(w, LeaveStop);
      ghost var mark := |trace|;
      Others(Slot(env, 0), WorkerProcess(w));
      assert trace[mark..] == trace[start..][1..];
      ghost var soFar := trace[start..];
      DeleteOwnKey(w, LeaveBeat);
      assert trace[start..] == soFar + [Worker(w, LeaveBeat)];
      OpsConcat(old(Did(WorkerProcess(w))), w, [LeaveStop], [LeaveBeat]);
    }

    // ----- the API -----

    /** create_submission. When it returns, the id is in the list exactly once, at the left end, no worker has
        it, and its row is there as committed, unless it has been deleted meanwhile. */
    method CreateSubmission(x: Id, env: Schedule)
      requires Valid() && x !in rows && x !in deleted
      modifies this
      ensures Valid() && x in enqueued
      ensures jobs != [] && jobs[0] == x && x !in jobs[1..]
      ensures forall w | 0 <= w < |procs| :: Mentioned(procs[w].pc) != Some(x)
      ensures if x in rows then rows[x] == UNJUDGED else x in deleted
      ensures Did(ApiProcess(x)) == old(Did(ApiProcess(x))) + [Api(Commit(x)), Api(Enqueue(x))]
    {
      hide Run, Part;
      Own(Api(Commit(x)), ApiProcess(x));
      Others(Slot(env, 0), ApiProcess(x));
      KnownRun(judge, start, trace, View());
      Own(Api(Enqueue(x)), ApiProcess(x));
      assert jobs[1..] == View().jobs[1..];
    }

    // ----- the orchestrator -----

    /** One statement of the orchestrator. */
    method Act(op: OrchOp)
      requires Valid() && OrchEnabled(View(), op) && op != ManagerExit
      modifies this
      ensures Valid() && Did(OrchestratorProcess) == old(Did(OrchestratorProcess)) + [Orch(op)]
      ensures orch == NextOrch(old(View()), op) && workers == NextListed(old(View()), op)
      ensures |procs| == |old(procs)| + (if op.SpawnStart? then 1 else 0) && OverStays(old(procs), procs)
      ensures op.StopKill? || op.ReapKill? ==> old(orch).worker < |procs| && Over(procs[old(orch).worker].pc)
      ensures trace == old(trace) + [Orch(op)]
    {
      OrchMoves(View(), op);
      hide OrchEnabled, OrchEffect, NextOrch, NextListed, Run, Part;
      Own(Orch(op), OrchestratorProcess);
    }

    /** spawn_worker: the identifier is new. */
    method SpawnWorker(env: Schedule)
      requires Valid() && orch.Free?
      modifies this
      ensures Valid() && orch.Free? && OverStays(old(procs), procs)
      ensures workers == old(workers) + [|old(procs)|] && |procs| == |old(procs)| + 1
      ensures Did(OrchestratorProcess) ==
                old(Did(OrchestratorProcess)) + [Orch(SpawnStart), Orch(SpawnAppend), Orch(SpawnStopKey), Orch(SpawnBeat(|old(procs)|))]
    {
      hide Run, Part, OrchEffect;
      Act(SpawnStart);
      Others(Slot(env, 0), OrchestratorProcess);
      Act(SpawnAppend);
      Others(Slot(env, 1), OrchestratorProcess);
      Act(SpawnStopKey);
      Others(Slot(env, 2), OrchestratorProcess);
      Act(SpawnBeat(orch.worker));
    }

    /** Take the newest worker off the list and signal it. */
    method SignalNewest(env: Schedule)
      requires Valid() && orch.Free? && workers != [] && Roster(workers, |procs|)
      modifies this
      ensures Valid() && OverStays(old(procs), procs) && |procs| == |old(procs)|
      ensures orch == Joining(old(workers)[|old(workers)| - 1]) && workers == old(workers)[..|old(workers)| - 1]
      ensures Did(OrchestratorProcess) ==
                old(Did(OrchestratorProcess)) + [Orch(StopBegin), Orch(StopSignal(old(workers)[|old(workers)| - 1]))]
    {
      hide Run, Part, OrchEffect;
      Act(StopBegin);
      Others(Slot(env, 0), OrchestratorProcess);
      Act(StopSignal(orch.worker));
    }

    /** stop_worker: take the newest worker off the list, signal it, wait, and terminate it if it is still
        alive. Either way it is over. */
    method StopWorker(env: Schedule)
      requires Valid() && orch.Free? && workers != [] && Roster(workers, |procs|)
      modifies this
      ensures Valid() && orch.Free? && OverStays(old(procs), procs)
      ensures workers == old(workers)[..|old(workers)| - 1] && |procs| == |old(procs)|
      ensures Over(procs[old(workers)[|old(workers)| - 1]].pc)
      ensures exists last :: (last == StopJoined || last == StopKill)
                && Did(OrchestratorProcess) ==
                     old(Did(OrchestratorProcess))
                     + [Orch(StopBegin), Orch(StopSignal(old(workers)[|old(workers)| - 1])), Orch(last)]
    {
      hide Run, Part, OrchEffect;
      SignalNewest(env);
      Others(Slot(env, 1), OrchestratorProcess);
      var last := if Over(procs[orch.worker].pc) then StopJoined else StopKill;
      Act(last);
    }

    /** Push the id a frozen worker's key names, if any, back on the list. */
    method Requeue(w: nat, env: Schedule)
      requires Valid() && orch.Free?
      requires w in workers && w < |procs| && w in beats && !procs[w].pc.Dead?
      modifies this
      ensures Valid() && orch.Reaping? && orch.worker == w && orch.stage == Requeued && OverStays(old(procs), procs)
      ensures workers == old(workers) && |procs| == |old(procs)|
      ensures Did(OrchestratorProcess) == old(Did(OrchestratorProcess)) + [Orch(ReapRead(w)), Orch(ReapPush)]
    {
      hide Run, Part, OrchEffect, Without;
      Act(ReapRead(w));
      Others(Slot(env, 0), OrchestratorProcess);
      Act(ReapPush);
    }

    /** The frozen branch of check_heartbeat. */
    method Reap(w: nat, env: Schedule)
      requires Valid() && orch.Free?
      requires w in workers && w < |procs| && w in beats && !procs[w].pc.Dead?
      modifies this
      ensures Valid() && orch.Free? && OverStays(old(procs), procs)
      ensures workers == Without(old(workers), w) && |procs| == |old(procs)| && Over(procs[w].pc)
      ensures Did(OrchestratorProcess) ==
                old(Did(OrchestratorProcess)) + [Orch(ReapRead(w)), Orch(ReapPush), Orch(ReapDelete(w)), Orch(ReapKill)]
    {
      hide Run, Part, OrchEffect, Without;
      Requeue(w, env);
      Others(Slot(env, 1), OrchestratorProcess);
      Act(ReapDelete(w));
      Others(Slot(env, 2), OrchestratorProcess);
      Act(ReapKill);
    }

    /** The first branch of check_heartbeat; the join is never a wait. */
    method ForgetStopped(w: nat, env: Schedule)
      requires Valid() && orch.Free?
      requires w in workers && w < |procs| && (Over(procs[w].pc) || w !in beats)
      modifies this
      ensures Valid() && orch.Free? && OverStays(old(procs), procs)
      ensures workers == Without(old(workers), w) && |procs| == |old(procs)| && Over(procs[w].pc)
      ensures Did(OrchestratorProcess) == old(Did(OrchestratorProcess)) + [Orch(FindGone(w)), Orch(JoinGone)]
    {
      hide Run, Part, OrchEffect, Without;
      Act(FindGone(w));
      Others(Slot(env, 0), OrchestratorProcess);
      JoinSafeRun(judge, start, trace, View());
      Act(JoinGone);
    }

    /** check_heartbeat for one worker: keep it, or join or reap it. */
    method CheckWorker(w: nat, frozen: bool, env: Schedule) returns (keep: bool)
      requires Valid() && orch.Free? && w in workers && w < |procs|
      modifies this
      ensures Valid() && orch.Free? && |procs| == |old(procs)| && OverStays(old(procs), procs)
      ensures keep <==> Stays(old(View()), w, frozen)
      ensures keep ==> workers == old(workers)
      ensures !keep ==> workers == Without(old(workers), w) && Over(procs[w].pc)
    {
      hide Run, Part, OrchEffect, Without;
      keep := false;
      if Over(procs[w].pc) || w !in beats {
        ForgetStopped(w, env);
      } else if frozen {
        Reap(w, env);
      } else {
        keep := true;
      }
    }

    /** check_heartbeat. `frozen` says whose last heartbeat is too old, `seen` are the states in which the loop
        comes to each worker. A worker stays on the list if and only if its process is then alive, with a
        heartbeat that is there and not too old; the others are joined or reaped, so they are over. None that
        was over when the check began stays. */
    method CheckHeartbeat(frozen: nat -> bool, envs: seq<Schedule>) returns (ghost seen: seq<State>)
      requires Valid() && orch.Free? && Roster(workers, |procs|)
      modifies this
      ensures Valid() && orch.Free? && |procs| == |old(procs)|
      ensures Roster(workers, |procs|) && forall w | w in workers :: w in old(workers)
      ensures |seen| == |old(workers)| && forall k | 0 <= k < |seen| ::
                && (old(workers)[k] in workers <==> Stays(seen[k], old(workers)[k], frozen(old(workers)[k])))
                && OverStays(old(procs), seen[k].procs)
      ensures DroppedAreOver(procs, old(workers), workers) && OnlySound(workers, old(procs), frozen)
    {
      hide Run, Without, Part, Over, Roster, DroppedAreOver, OverStays, NextOrch, NextListed, Stays, OnlySound;
      var all := workers;
      var alive := [];
      seen := [];
      EmptyRoster(procs);
      for k := 0 to |all|
        invariant Valid() && orch.Free? && |procs| == |old(procs)| && OverStays(old(procs), procs)
        invariant workers == alive + all[k..]
        invariant Roster(alive, |procs|) && (forall w | w in alive :: w in all[..k])
        invariant DroppedAreOver(procs, all[..k], alive)
        invariant |seen| == k && Sorted(seen, all[..k], alive, frozen, old(procs))
      {
        NextOnRoster(all, k, alive, |procs|);
        ghost var was := View();
        var keep := CheckWorker(all[k], frozen(all[k]), if k < |envs| then envs[k] else []);
        OneMoreDropped(was.procs, procs, all, k, alive, keep);
        OneMoreSorted(seen, was, all, k, alive, keep, frozen, old(procs));
        OverStaysTwice(old(procs), was.procs, procs);
        alive := if keep then alive + [all[k]] else alive;
        seen := seen + [was];
      }
      assert all[..|all|] == all && alive + all[|all|..] == alive;
      KeptAreSound(all, workers, seen, old(procs), frozen);
    }

    /** scale: the difference to the desired number is spawned, or the newest are stopped, one at a time; no
        other worker is touched. */
    method Scale(envs: seq<Schedule>) returns (queued: nat)
      requires Valid() && orch.Free? && Roster(workers, |procs|)
      modifies this
      ensures Valid() && orch.Free? && Roster(workers, |procs|)
      ensures queued == |old(jobs)| && |workers| == Max(0, Desired(minWorkers, maxWorkers, queued))
      ensures |workers| >= |old(workers)| ==>
                && workers == old(workers) + FromOn(|old(procs)|, |workers| - |old(workers)|)
                && Did(OrchestratorProcess) ==
                     old(Did(OrchestratorProcess)) + Spawns(|old(procs)|, |workers| - |old(workers)|)
      ensures |workers| <= |old(workers)| ==>
                && workers == old(workers)[..|workers|] && |procs| == |old(procs)|
                && StopsOf(old(Did(OrchestratorProcess)), Did(OrchestratorProcess), old(workers), |workers|)
    {
      hide Run, Part, Spawns, StopsOf, FromOn;
      queued := |jobs|;
      var desired := Desired(minWorkers, maxWorkers, queued);
      NothingChanged(workers, |procs|, Did(OrchestratorProcess));
      if |workers| < desired {
        SpawnUpTo(desired, envs);
      } else {
        StopDownTo(Max(0, desired), envs);
      }
    }

    method SpawnUpTo(desired: nat, envs: seq<Schedule>)
      requires Valid() && orch.Free? && Roster(workers, |procs|) && |workers| < desired
      modifies this
      ensures Valid() && orch.Free? && Roster(workers, |procs|) && |workers| == desired
      ensures workers == old(workers) + FromOn(|old(procs)|, desired - |old(workers)|)
      ensures Did(OrchestratorProcess) == old(Did(OrchestratorProcess)) + Spawns(|old(procs)|, desired - |old(workers)|)
    {
      hide Run, Part, Spawns, FromOn;
      NothingChanged(workers, |procs|, Did(OrchestratorProcess));
      for k := 0 to desired - |workers|
        invariant Valid() && orch.Free? && Roster(workers, |procs|) && |procs| == |old(procs)| + k
        invariant |workers| == |old(workers)| + k && workers == old(workers) + FromOn(|old(procs)|, k)
        invariant Did(OrchestratorProcess) == old(Did(OrchestratorProcess)) + Spawns(|old(procs)|, k)
      {
        RosterGrows(workers, |procs|, |procs|);
        OneMoreSpawn(|old(procs)|, k);
        SpawnWorker(if k < |envs| then envs[k] else []);
      }
    }

    method StopDownTo(desired: nat, envs: seq<Schedule>)
      requires Valid() && orch.Free? && Roster(workers, |procs|) && desired <= |workers|
      modifies this
      ensures Valid() && orch.Free? && Roster(workers, |procs|) && |procs| == |old(procs)|
      ensures workers == old(workers)[..desired]
      ensures desired == |old(workers)| ==> Did(OrchestratorProcess) == old(Did(OrchestratorProcess))
      ensures StopsOf(old(Did(OrchestratorProcess)), Did(OrchestratorProcess), old(workers), desired)
    {
      hide Run, Part, StopsOf;
      NothingChanged(workers, |procs|, Did(OrchestratorProcess));
      var k := 0;
      while |workers| > desired
        invariant Valid() && orch.Free? && Roster(workers, |procs|) && |procs| == |old(procs)|
        invariant desired <= |workers| <= |old(workers)| && workers == old(workers)[..|workers|]
        invariant |workers| == |old(workers)| ==> Did(OrchestratorProcess) == old(Did(OrchestratorProcess))
        invariant StopsOf(old(Did(OrchestratorProcess)), Did(OrchestratorProcess), old(workers), |workers|)
        decreases |workers|
      {
        RosterShrinks(workers, |procs|);
        ghost var n := |workers| - 1;
        ghost var soFar := Did(OrchestratorProcess);
        StopWorker(if k < |envs| then envs[k] else []);
        OneMoreStop(old(Did(OrchestratorProcess)), soFar, Did(OrchestratorProcess), old(workers), n);
        k := k + 1;
      }
    }

    /** The main loop: `n` ticks of check_heartbeat and scale. `counts` and `queues` record, per tick, the
        number of workers afterwards and the queue length that was read; `begun`, the processes when it begins.
        No tick leaves a worker on the list that was over when it began or looked frozen in it. */
    method Ticks(n: nat, frozen: nat -> nat -> bool, envs: nat -> seq<Schedule>)
      returns (counts: seq<nat>, queues: seq<nat>, ghost begun: seq<seq<Proc>>, ghost lists: seq<seq<nat>>)
      requires Valid() && orch.Free? && Roster(workers, |procs|)
      requires 0 <= minWorkers <= maxWorkers
      modifies this
      ensures Valid() && orch.Free? && Roster(workers, |procs|)
      ensures |counts| == |queues| == |begun| == |lists| == n && (n > 0 ==> lists[n - 1] == workers)
      ensures forall i | 0 <= i < n ::
                && |lists[i]| == counts[i] && OnlySound(lists[i], begun[i], frozen(i))
                && counts[i] == Desired(minWorkers, maxWorkers, queues[i]) && minWorkers <= counts[i] <= maxWorkers
                && (5 * counts[i] > queues[i] || counts[i] == maxWorkers)
      ensures forall i, j | 0 <= i < n && 0 <= j < n && queues[i] <= queues[j] :: counts[i] <= counts[j]
    {
      hide Run, Part, OnlySound, Desired;
      counts, queues, begun, lists := [], [], [], [];
      for k := 0 to n
        invariant Valid() && orch.Free? && Roster(workers, |procs|)
        invariant |counts| == |queues| == |begun| == |lists| == k && (k > 0 ==> lists[k - 1] == workers)
        invariant forall i | 0 <= i < k ::
                    && counts[i] == Desired(minWorkers, maxWorkers, queues[i])
                    && |lists[i]| == counts[i] && OnlySound(lists[i], begun[i], frozen(i))
      {
        ghost var was := procs;
        var queued := Tick(frozen(k), envs(2 * k), envs(2 * k + 1));
        DesiredFits(minWorkers, maxWorkers, queued);
        counts, queues := counts + [|workers|], queues + [queued];
        begun, lists := begun + [was], lists + [workers];
      }
      AllFit(minWorkers, maxWorkers, counts, queues);
    }

    method Tick(frozen: nat -> bool, checking: seq<Schedule>, scaling: seq<Schedule>) returns (queued: nat)
      requires Valid() && orch.Free? && Roster(workers, |procs|)
      modifies this
      ensures Valid() && orch.Free? && Roster(workers, |procs|)
      ensures |workers| == Max(0, Desired(minWorkers, maxWorkers, queued)) && OnlySound(workers, old(procs), frozen)
    {
      hide Run, Part, Roster, Spawns, StopsOf;
      ghost var seen := CheckHeartbeat(frozen, checking);
      ghost var kept := workers;
      queued := Scale(scaling);
      StillSound(kept, workers, old(procs), frozen);
    }

    /** `p.join()` during shutdown: all workers run on, in any order, and this one ends, because the shutdown
        key is set. `worlds` is what it finds when it loads a row. */
    method AwaitWorker(w: nat, worlds: nat -> Pipeline.World, env: Schedule)
      requires Valid() && w < |procs| && shutdownFlag
      modifies this
      ensures Valid() && old(trace) <= trace && Did(OrchestratorProcess) == old(Did(OrchestratorProcess))
      ensures Undisturbed(old(View()), View(), OrchestratorProcess) && Over(procs[w].pc)
    {
      hide Run, Part, StepsLeft, Foreign;
      var k := 0;
      while !Over(procs[w].pc)
        invariant Valid() && old(trace) <= trace && Did(OrchestratorProcess) == old(Did(OrchestratorProcess))
        invariant Undisturbed(old(View()), View(), OrchestratorProcess)
        decreases StepsLeft(procs[w].pc)
      {
        EndIsNoSteps(procs[w].pc);
        Others(Slot(env, k), OrchestratorProcess);
        if !Over(procs[w].pc) {
          RunOn(w, worlds(k));
        }
        EndIsNoSteps(procs[w].pc);
        k := k + 1;
      }
    }

    method RunOn(w: nat, world: Pipeline.World)
      requires Valid() && w < |procs| && shutdownFlag && !Over(procs[w].pc)
      modifies this
      ensures Valid() && old(trace) <= trace && Did(OrchestratorProcess) == old(Did(OrchestratorProcess))
      ensures Undisturbed(old(View()), View(), OrchestratorProcess)
      ensures StepsLeft(procs[w].pc) < StepsLeft(old(procs)[w].pc)
    {
      var op := NextOp(View(), w, world);
      OwnStepCounts(judge, View(), w, op);
      ghost var s := View();
      UndisturbedAtFirst(s, OrchestratorProcess);
      hide Run, Part, StepsLeft, ApplyWorker, WorkerEnabled, NextOp, Undisturbed;
      Other(Worker(w, op), OrchestratorProcess, s, |trace|);
    }

    /** shutdown: set the key, join every listed worker and the sandbox manager, clear the key. It ends,
        whatever the workers do meanwhile; and unless it interrupted the start or the stop of a worker, no
        process is left. */
    method Shutdown(worlds: nat -> Pipeline.World, envs: seq<Schedule>)
      requires Valid() && !ShutdownBegun(View()) && Roster(workers, |procs|)
      modifies this
      ensures Valid() && orch == Ended && !shutdownFlag && managerGone && workers == old(workers)
      ensures forall i | 0 <= i < |workers| :: workers[i] < |procs| && Over(procs[workers[i]].pc)
      ensures !LeavesWorker(old(View())) ==> forall w | 0 <= w < |procs| :: Over(procs[w].pc)
    {
      hide Run, Part, ApplyOrch, LeavesWorker;
      Begin();
      ghost var mark, s := trace, View();
      assert Run(judge, start, mark, s);
      for k := 0 to |workers|
        invariant Valid() && mark <= trace && shutdownFlag && orch == ShuttingDown
        invariant workers == old(workers) && Roster(workers, |procs|)
        invariant forall i | 0 <= i < k :: Over(procs[workers[i]].pc)
      {
        AwaitWorker(workers[k], worlds, if k < |envs| then envs[k] else []);
      }
      Finish();
      if !LeavesWorker(old(View())) {
        assert mark + trace[|mark|..] == trace;
        RunSplit(judge, start, mark, s, trace[|mark|..], View());
        ShutdownEndsEverything(judge, start, old(trace), old(View()), trace[|mark|..], View());
      }
    }

    method Begin()
      requires Valid() && !ShutdownBegun(View())
      modifies this
      ensures Valid() && View() == ApplyOrch(old(View()), BeginShutdown) && trace == old(trace) + [Orch(BeginShutdown)]
      ensures orch == ShuttingDown && shutdownFlag && workers == old(workers) && procs == old(procs)
    {
      hide Run, Part;
      Own(Orch(BeginShutdown), OrchestratorProcess);
    }

    method Finish()
      requires Valid() && orch == ShuttingDown
      requires forall i | 0 <= i < |workers| :: workers[i] < |procs| && Over(procs[workers[i]].pc)
      modifies this
      ensures Valid() && orch == Ended && !shutdownFlag && managerGone && old(trace) <= trace
      ensures workers == old(workers) && procs == old(procs)
    {
      hide Run, Part;
      Perform(Orch(ManagerExit));
      Own(Orch(FinishShutdown), OrchestratorProcess);
    }
  }

  lemma UndisturbedAtFirst(s: State, who: Process)
    ensures Undisturbed(s, s, who)
  {
  }

  lemma EndIsNoSteps(pc: Pc)
    ensures Over(pc) <==> StepsLeft(pc) == 0
  {
  }

  lemma KeysGo(judge: Evaluation, s: State, w: nat, op: WorkerOp)
    requires WorkerEnabled(s, w, op)
    ensures var s' := ApplyWorker(judge, s, w, op);
            && |s'.procs| == |s.procs| && s'.procs[w].pc == NextPc(judge, s, w, op)
            && (w in s'.stopKeys ==> w in s.stopKeys && !op.LeaveStop?)
            && (op.LeaveBeat? ==> w !in s'.beats)
            && (!op.Pop? ==> s'.procs[w].local == s.procs[w].local)
            && (op.Repush? ==> s'.jobs == [s.procs[w].pc.job] + s.jobs)
  {
    hide NextPc;
  }

  lemma OrchMoves(s: State, op: OrchOp)
    requires OrchEnabled(s, op) && op != ManagerExit
    ensures var s' := ApplyOrch(s, op);
            && |s'.procs| == |s.procs| + (if op.SpawnStart? then 1 else 0) && OverStays(s.procs, s'.procs)
            && (op.StopKill? || op.ReapKill? ==> s.orch.worker < |s'.procs| && Over(s'.procs[s.orch.worker].pc))
  {
    hide NextOrch, NextListed;
  }

  /** check_heartbeat finds nothing wrong with the worker. */
  predicate Stays(s: State, w: nat, frozen: bool) {
    w < |s.procs| && !Over(s.procs[w].pc) && w in s.beats && !frozen
  }

  /** Of the workers looked at, exactly those that stay are kept. */
  ghost predicate Sorted(seen: seq<State>, done: seq<nat>, alive: seq<nat>, frozen: nat -> bool, ps: seq<Proc>) {
    |seen| == |done| && forall k | 0 <= k < |seen| ::
      (done[k] in alive <==> Stays(seen[k], done[k], frozen(done[k]))) && OverStays(ps, seen[k].procs)
  }

  lemma OneMoreSorted(seen: seq<State>, s: State, all: seq<nat>, k: nat, alive: seq<nat>, keep: bool, frozen: nat -> bool, ps: seq<Proc>)
    requires k < |all| && Sorted(seen, all[..k], alive, frozen, ps) && Roster(all, |s.procs|)
    requires (forall w | w in alive :: w in all[..k]) && OverStays(ps, s.procs)
    requires keep <==> Stays(s, all[k], frozen(all[k]))
    ensures var kept := if keep then alive + [all[k]] else alive;
            Sorted(seen + [s], all[..k + 1], kept, frozen, ps) && forall w | w in kept :: w in all[..k + 1]
  {
    hide Stays, OverStays;
    assert all[..k + 1] == all[..k] + [all[k]];
    assert all[k] !in alive;
  }

  lemma OverStaysTwice(a: seq<Proc>, b: seq<Proc>, c: seq<Proc>)
    requires OverStays(a, b) && OverStays(b, c)
    ensures OverStays(a, c)
  {
  }

  /** Nobody on the list was over when the tick began, or looks frozen; new workers were not there yet. */
  ghost predicate OnlySound(ws: seq<nat>, ps: seq<Proc>, frozen: nat -> bool) {
    forall w | w in ws :: w >= |ps| || (!Over(ps[w].pc) && !frozen(w))
  }

  lemma KeptAreSound(all: seq<nat>, ws: seq<nat>, seen: seq<State>, ps: seq<Proc>, frozen: nat -> bool)
    requires forall w | w in ws :: w in all
    requires |seen| == |all| && forall k | 0 <= k < |seen| ::
               (all[k] in ws <==> Stays(seen[k], all[k], frozen(all[k]))) && OverStays(ps, seen[k].procs)
    ensures OnlySound(ws, ps, frozen)
  {
    forall w | w in ws && w < |ps|
      ensures !Over(ps[w].pc) && !frozen(w)
    {
      var k :| 0 <= k < |all| && all[k] == w;
      assert Stays(seen[k], w, frozen(w));
    }
  }

  lemma {:induction false} FromOnIsNew(first: nat, n: int)
    ensures forall w | w in FromOn(first, n) :: w >= first
  {
    if n > 0 {
      FromOnIsNew(first, n - 1);
    }
  }

  lemma StillSound(kept: seq<nat>, ws: seq<nat>, ps: seq<Proc>, frozen: nat -> bool)
    requires OnlySound(kept, ps, frozen)
    requires (|ws| <= |kept| && ws == kept[..|ws|]) || ws == kept + FromOn(|ps|, |ws| - |kept|)
    ensures OnlySound(ws, ps, frozen)
  {
    FromOnIsNew(|ps|, |ws| - |kept|);
    hide FromOn;
  }

  // ----- what scale does -----

  function FromOn(first: nat, n: int): seq<nat> {
    if n <= 0 then [] else FromOn(first, n - 1) + [first + n - 1]
  }

  /** The orchestrator's steps when it spawns `n` workers. */
  function Spawns(first: nat, n: int): seq<Step> {
    if n <= 0 then []
    else Spawns(first, n - 1) + [Orch(SpawnStart), Orch(SpawnAppend), Orch(SpawnStopKey), Orch(SpawnBeat(first + n - 1))]
  }

  lemma OneMoreSpawn(first: nat, n: nat)
    ensures FromOn(first, n + 1) == FromOn(first, n) + [first + n]
    ensures Spawns(first, n + 1) ==
              Spawns(first, n) + [Orch(SpawnStart), Orch(SpawnAppend), Orch(SpawnStopKey), Orch(SpawnBeat(first + n))]
  {
  }

  /** Between the two the orchestrator has stopped the workers from place `left` on, the newest first, and has
      done nothing else. */
  ghost predicate StopsOf(before: seq<Step>, after: seq<Step>, ws: seq<nat>, left: nat)
    requires left <= |ws|
    decreases |ws| - left
  {
    if left == |ws| then after == before
    else exists soFar, last :: StopsOf(before, soFar, ws, left + 1) && StopsOne(soFar, after, ws[left], last)
  }

  ghost predicate StopsOne(before: seq<Step>, after: seq<Step>, w: nat, last: OrchOp) {
    (last == StopJoined || last == StopKill) && after == before + [Orch(StopBegin), Orch(StopSignal(w)), Orch(last)]
  }

  lemma OneMoreStop(before: seq<Step>, soFar: seq<Step>, after: seq<Step>, ws: seq<nat>, n: nat)
    requires n < |ws| && StopsOf(before, soFar, ws, n + 1)
    requires exists last :: (last == StopJoined || last == StopKill)
               && after == soFar + [Orch(StopBegin), Orch(StopSignal(ws[n])), Orch(last)]
    ensures StopsOf(before, after, ws, n)
  {
    var last :| (last == StopJoined || last == StopKill)
                && after == soFar + [Orch(StopBegin), Orch(StopSignal(ws[n])), Orch(last)];
    assert StopsOne(soFar, after, ws[n], last);
  }

  lemma NothingChanged(ws: seq<nat>, spawned: nat, did: seq<Step>)
    ensures FromOn(spawned, 0) == [] && did + Spawns(spawned, 0) == did
    ensures forall after :: StopsOf(did, after, ws, |ws|) <==> after == did
  {
  }

  /** Whoever check_heartbeat has taken off the list is over. */
  ghost predicate DroppedAreOver(ps: seq<Proc>, seen: seq<nat>, alive: seq<nat>) {
    forall w | w in seen && w !in alive :: w < |ps| && Over(ps[w].pc)
  }

  lemma OneMoreDropped(ps: seq<Proc>, ps': seq<Proc>, all: seq<nat>, k: nat, alive: seq<nat>, keep: bool)
    requires k < |all| && DroppedAreOver(ps, all[..k], alive) && OverStays(ps, ps')
    requires !keep ==> all[k] < |ps'| && Over(ps'[all[k]].pc)
    ensures DroppedAreOver(ps', all[..k + 1], if keep then alive + [all[k]] else alive)
  {
    assert all[..k + 1] == all[..k] + [all[k]];
  }

  lemma EmptyRoster(ps: seq<Proc>)
    ensures Roster([], |ps|) && DroppedAreOver(ps, [], []) && OverStays(ps, ps)
  {
  }

  /** One turn of the loop of check_heartbeat, as far as the lists are concerned. */
  lemma NextOnRoster(all: seq<nat>, k: nat, alive: seq<nat>, spawned: nat)
    requires Roster(all, spawned) && k < |all| && Roster(alive, spawned) && forall w | w in alive :: w in all[..k]
    ensures all[k] < spawned && all[k] in alive + all[k..]
    ensures Without(alive + all[k..], all[k]) == alive + all[k + 1..]
    ensures alive + all[k..] == (alive + [all[k]]) + all[k + 1..]
    ensures Roster(alive + [all[k]], spawned)
  {
    assert all[..k + 1] == all[..k] + [all[k]];
    assert alive + all[k..] == alive + [all[k]] + all[k + 1..];
    forall i | 0 <= i < |alive|
      ensures alive[i] < all[k]
    {
      assert alive[i] in alive;
      var j :| 0 <= j < k && all[..k][j] == alive[i];
    }
    forall j | k < j < |all|
      ensures all[j] != all[k]
    {
    }
    RosterGrows(alive, all[k], spawned);
    WithoutMiddle(alive, all[k], all[k + 1..]);
  }

  lemma {:induction false} WithoutNone(ws: seq<nat>, w: nat)
    requires w !in ws
    ensures Without(ws, w) == ws
  {
    if ws != [] {
      WithoutNone(ws[1..], w);
    }
  }

  lemma {:induction false} WithoutMiddle(front: seq<nat>, w: nat, back: seq<nat>)
    requires w !in front && w !in back
    ensures Without(front + [w] + back, w) == front + back
  {
    var all := front + [w] + back;
    if front == [] {
      assert all[1..] == back;
      WithoutNone(back, w);
      assert front + back == back;
    } else {
      assert all[1..] == front[1..] + [w] + back;
      WithoutMiddle(front[1..], w, back);
      assert front + back == [front[0]] + (front[1..] + back);
    }
  }

  /** Which Redis calls of an iteration raise. */
  datatype Faults = Faults(pop: bool, setKey: bool, clearKey: bool, push: bool)

  function OpsOf(w: nat, ops: seq<WorkerOp>): seq<Step> {
    seq(|ops|, i requires 0 <= i < |ops| => Worker(w, ops[i]))
  }

  lemma OpsConcat(before: seq<Step>, w: nat, a: seq<WorkerOp>, b: seq<WorkerOp>)
    ensures before + OpsOf(w, a) + OpsOf(w, b) == before + OpsOf(w, a + b)
  {
    assert OpsOf(w, a) + OpsOf(w, b) == OpsOf(w, a + b);
  }

  function Again(faults: Faults): WorkerOp { if faults.push then RepushError else Repush }

  /** Where an iteration ends, by its last operation. */
  function EndOf(last: WorkerOp): Pc {
    match last
    case ReadFlag => Leaving
    case ReadStop => Leaving
    case PopError => Dead
    case RepushError => Dead
    case _ => Head
  }

  /** What happens to a job whose row was read, by what judging it comes to. */
  function AfterLoad(outcome: Outcome<Recorded>, world: Pipeline.World, faults: Faults): (ops: seq<WorkerOp>)
    ensures ops != []
  {
    var error := if outcome.Raised? then Some(outcome.error) else world.commitError;
    if error == Some(ValueError) then [RaiseValueError]
    else if error.Some? then [RaiseOther, Again(faults)]
    else if faults.clearKey then [Write, ClearKeyError, Again(faults)]
    else [Write, ClearKey]
  }

  /** What happens to a job whose key is set. */
  ghost predicate AfterKey(judge: Evaluation, x: Id, ops: seq<WorkerOp>, world: Pipeline.World, faults: Faults) {
    match world.loadError
    case None => ops == [MissingRow] || ops == [Load(world)] + AfterLoad(judge(x, world), world, faults)
    case Some(ValueError) => ops == [RaiseValueError]
    case Some(OtherError) => ops == [RaiseOther, Again(faults)]
  }

  /** What happens to a popped job. */
  ghost predicate AfterPop(judge: Evaluation, x: Id, ops: seq<WorkerOp>, world: Pipeline.World, faults: Faults) {
    if faults.setKey then ops == [SetKeyError, Again(faults)]
    else |ops| > 1 && ops[0] == SetKey && AfterKey(judge, x, ops[1..], world, faults)
  }

  /** `local` is the id popped before, if there was one. */
  ghost predicate AfterTake(judge: Evaluation, local: Option<Id>, last: WorkerOp, ops: seq<WorkerOp>, world: Pipeline.World, faults: Faults) {
    match last
    case Pop => exists x :: AfterPop(judge, x, ops, world, faults)
    case PopEmpty => ops == []
    case PopError => ops == (if local.None? then [] else [Again(faults)])   // without an earlier id the handler itself raises
    case _ => false
  }

  /** The ways through one iteration of the consume loop. */
  ghost predicate Iteration(judge: Evaluation, local: Option<Id>, ops: seq<WorkerOp>, world: Pipeline.World, faults: Faults) {
    || ops == [ReadFlag] || ops == [ReadFlag, ReadStop]
    || (|ops| >= 4 && ops[..3] == [ReadFlag, ReadStop, SetBeat]
        && (if faults.pop then ops[3] == PopError else ops[3] == Pop || ops[3] == PopEmpty)
        && AfterTake(judge, local, ops[3], ops[4..], world, faults))
  }
}
