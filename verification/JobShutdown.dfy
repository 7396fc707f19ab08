/** The end of a run: after a shutdown that began between two orchestrator actions every process is over,
    and every job that was not finished is back in the list. */
module JobShutdown {
  import opened JudgeTypes
  import opened Records
  import opened JobProtocol
  import opened JobConservation
  import opened JobLifecycle
  import opened JobLoss
  import opened GracefulRuns
  import opened Executor
  import Pipeline

  lemma {:induction false} WithoutKeeps(ws: seq<nat>, w: nat, v: nat)
    requires v in ws && v != w
    ensures v in Without(ws, w)
  {
    if ws[0] != v {
      WithoutKeeps(ws[1..], w, v);
    }
  }

  /** The one worker that may be alive and off the list. */
  predicate BeingStopped(o: Orchestrator, w: nat) {
    (OffTheList(o) || o.JoiningGone?) && o.worker == w
  }

  /** The orchestrator is at work on a worker that is not on its list and may be running: just started, or
      taken off in order to be stopped. */
  predicate OffTheList(o: Orchestrator) { o.Starting? || o.Stopping? || o.Joining? }

  predicate LeavesWorker(s: State) {
    OffTheList(s.orch) && s.orch.worker < |s.procs| && !Over(s.procs[s.orch.worker].pc)
  }

  predicate ListedOrOver(s: State, w: nat) {
    w < |s.procs| ==> w in s.listed || Over(s.procs[w].pc) || BeingStopped(s.orch, w)
  }

  /** Nobody runs unsupervised. */
  predicate Supervised(s: State) {
    !ShutdownBegun(s) ==> forall w | 0 <= w < |s.procs| :: ListedOrOver(s, w)
  }

  lemma SupervisedWorker(judge: Evaluation, s: State, w: nat, op: WorkerOp)
    requires Supervised(s) && WorkerEnabled(s, w, op)
    ensures Supervised(ApplyWorker(judge, s, w, op))
  {
    var s' := ApplyWorker(judge, s, w, op);
    WorkerFrame(judge, s, w, op);
    hide ApplyWorker;
    forall v | 0 <= v < |s'.procs| && !ShutdownBegun(s')
      ensures ListedOrOver(s', v)
    {
      assert ListedOrOver(s, v);
    }
  }

  lemma SupervisedOrch(s: State, op: OrchOp)
    requires Supervised(s) && OrchEnabled(s, op)
    ensures Supervised(ApplyOrch(s, op))
  {
    var s' := ApplyOrch(s, op);
    forall v | 0 <= v < |s'.procs| && !ShutdownBegun(s')
      ensures ListedOrOver(s', v)
    {
      if v < |s.procs| {
        SupervisedOne(s, op, v);
      }
    }
  }

  lemma SupervisedOne(s: State, op: OrchOp, v: nat)
    requires Supervised(s) && OrchEnabled(s, op) && v < |s.procs| && !ShutdownBegun(ApplyOrch(s, op))
    ensures ListedOrOver(ApplyOrch(s, op), v)
  {
    assert ListedOrOver(s, v);
    if op.FindGone? && v in s.listed && v != op.worker {
      WithoutKeeps(s.listed, op.worker, v);
    }
    if op.ReapKill? && v in s.listed && v != s.orch.worker {
      WithoutKeeps(s.listed, s.orch.worker, v);
    }
    hide AllOver, Without;
  }

  lemma SupervisedApi(s: State, op: ApiOp)
    requires Supervised(s) && ApiEnabled(s, op)
    ensures Supervised(ApplyApi(s, op))
  {
    var s' := ApplyApi(s, op);
    forall v | 0 <= v < |s'.procs| && !ShutdownBegun(s')
      ensures ListedOrOver(s', v)
    {
      assert ListedOrOver(s, v);
    }
  }

  lemma SupervisedStep(judge: Evaluation, s: State, a: Step)
    requires Supervised(s) && Enabled(s, a)
    ensures Supervised(Apply(judge, s, a))
  {
    hide Supervised, ApplyWorker, ApplyOrch, ApplyApi;
    match a
    case Worker(w, op) => SupervisedWorker(judge, s, w, op);
    case Orch(op) => SupervisedOrch(s, op);
    case Api(op) => SupervisedApi(s, op);
  }

  lemma {:induction false} SupervisedRun(judge: Evaluation, s: State, steps: seq<Step>, s': State)
    requires Supervised(s) && Run(judge, s, steps, s')
    ensures Supervised(s')
    decreases |steps|
  {
    hide Apply, Enabled, Supervised;
    if steps != [] {
      SupervisedStep(judge, s, steps[0]);
      SupervisedRun(judge, Apply(judge, s, steps[0]), steps[1..], s');
    }
  }

  /** The shutdown has begun; whoever is not over is on the list, and at the end that is nobody. */
  predicate Winding(s: State) {
    && ShutdownBegun(s)
    && (forall w | 0 <= w < |s.procs| :: w in s.listed || Over(s.procs[w].pc))
    && (s.orch.Ended? ==> !s.flag && s.managerGone && AllOver(s, s.listed))
  }

  lemma WindingWorker(judge: Evaluation, s: State, w: nat, op: WorkerOp)
    requires Winding(s) && WorkerEnabled(s, w, op)
    ensures Winding(ApplyWorker(judge, s, w, op))
  {
    WorkerFrame(judge, s, w, op);
    StillGone(judge, s, w, op);
    hide ApplyWorker;
  }

  lemma StillGone(judge: Evaluation, s: State, w: nat, op: WorkerOp)
    requires WorkerEnabled(s, w, op)
    ensures ApplyWorker(judge, s, w, op).managerGone == s.managerGone
  {
  }

  lemma WindingOrch(s: State, op: OrchOp)
    requires Winding(s) && OrchEnabled(s, op)
    ensures Winding(ApplyOrch(s, op))
  {
    assert op == ManagerExit || op == FinishShutdown;
  }

  lemma WindingStep(judge: Evaluation, s: State, a: Step)
    requires Winding(s) && Enabled(s, a)
    ensures Winding(Apply(judge, s, a))
  {
    hide ApplyWorker, ApplyOrch;
    match a
    case Worker(w, op) => WindingWorker(judge, s, w, op);
    case Orch(op) => WindingOrch(s, op);
    case Api(op) =>
  }

  lemma {:induction false} WindingRun(judge: Evaluation, s: State, steps: seq<Step>, s': State)
    requires Winding(s) && Run(judge, s, steps, s')
    ensures Winding(s')
    decreases |steps|
  {
    hide Apply, Enabled, Winding;
    if steps != [] {
      WindingStep(judge, s, steps[0]);
      WindingRun(judge, Apply(judge, s, steps[0]), steps[1..], s');
    }
  }

  /** A shutdown that begins while no running worker is off the list, once it has ended: every process
      ever spawned is over, the sandbox manager has exited and the key is cleared. */
  lemma ShutdownEndsEverything(judge: Evaluation, s0: State, before: seq<Step>, s: State, after: seq<Step>, s': State)
    requires Start(s0)
    requires Run(judge, s0, before, s) && OrchEnabled(s, BeginShutdown) && !LeavesWorker(s)
    requires Run(judge, ApplyOrch(s, BeginShutdown), after, s') && s'.orch.Ended?
    ensures forall w | 0 <= w < |s'.procs| :: Over(s'.procs[w].pc)
    ensures s'.managerGone && !s'.flag
  {
    SupervisedRun(judge, s0, before, s);
    JoinSafeRun(judge, s0, before, s);
    var b := ApplyOrch(s, BeginShutdown);
    forall w | 0 <= w < |b.procs|
      ensures w in b.listed || Over(b.procs[w].pc)
    {
      assert ListedOrOver(s, w);
    }
    WindingRun(judge, b, after, s');
    forall w | 0 <= w < |s'.procs|
      ensures Over(s'.procs[w].pc)
    {
      if w in s'.listed {
        var i :| 0 <= i < |s'.listed| && s'.listed[i] == w;
      }
    }
  }

  // ----- the other direction: a worker off the list outlives the shutdown -----

  /** The worker list is strictly increasing, and a worker the orchestrator is starting or stopping is not
      on it. */
  predicate RankedOf(listed: seq<nat>, orch: Orchestrator, spawned: nat) {
    && Roster(listed, spawned)
    && (OffTheList(orch) ==> orch.worker < spawned && orch.worker !in listed)
    && (orch.Starting? ==> orch.worker == spawned - 1)
  }

  predicate Ranked(s: State) { RankedOf(s.listed, s.orch, |s.procs|) }

  lemma RankedWithout(s: State, op: OrchOp)
    requires Ranked(s) && OrchEnabled(s, op) && (op.FindGone? || op.ReapKill?)
    ensures RankedOf(NextListed(s, op), NextOrch(s, op), |s.procs|)
  {
    RosterWithout(s.listed, if op.FindGone? then op.worker else s.orch.worker, |s.procs|);
    hide Without, Roster;
  }

  lemma RankedNext(s: State, op: OrchOp)
    requires Ranked(s) && OrchEnabled(s, op)
    ensures RankedOf(NextListed(s, op), NextOrch(s, op), |s.procs| + (if op.SpawnStart? then 1 else 0))
  {
    if op.FindGone? || op.ReapKill? {
      RankedWithout(s, op);
      hide NextListed, NextOrch, OrchEnabled, RankedOf;
    } else if op.SpawnAppend? {
      AppendRanked(s.listed, s.orch.worker);
    } else if op.StopBegin? {
      LastIsNew(s.listed, |s.procs|);
    }
  }

  lemma AppendRanked(listed: seq<nat>, w: nat)
    requires Roster(listed, w + 1) && w !in listed
    ensures Roster(listed + [w], w + 1)
  {
    forall i | 0 <= i < |listed|
      ensures listed[i] < w
    {
      assert listed[i] in listed;
    }
  }

  lemma LastIsNew(listed: seq<nat>, spawned: nat)
    requires Roster(listed, spawned) && listed != []
    ensures Roster(listed[..|listed| - 1], spawned) && listed[|listed| - 1] !in listed[..|listed| - 1]
  {
  }

  lemma ProcsGrow(s: State, op: OrchOp)
    requires OrchEnabled(s, op)
    ensures |OrchEffect(s, op).procs| == |s.procs| + (if op.SpawnStart? then 1 else 0)
  {
  }

  lemma RankedOrch(s: State, op: OrchOp)
    requires Ranked(s) && OrchEnabled(s, op)
    ensures Ranked(ApplyOrch(s, op))
  {
    ProcsGrow(s, op);
    RankedNext(s, op);
    hide OrchEffect, NextOrch, NextListed, RankedOf;
  }

  lemma RankedStep(judge: Evaluation, s: State, a: Step)
    requires Ranked(s) && Enabled(s, a)
    ensures Ranked(Apply(judge, s, a))
  {
    hide ApplyWorker, ApplyOrch;
    match a
    case Worker(w, op) => WorkerFrame(judge, s, w, op);
    case Orch(op) => RankedOrch(s, op);
    case Api(op) =>
  }

  lemma {:induction false} RankedRun(judge: Evaluation, s: State, steps: seq<Step>, s': State)
    requires Ranked(s) && Run(judge, s, steps, s')
    ensures Ranked(s')
    decreases |steps|
  {
    hide Apply, Enabled, Ranked;
    if steps != [] {
      RankedStep(judge, s, steps[0]);
      RankedRun(judge, Apply(judge, s, steps[0]), steps[1..], s');
    }
  }

  /** Nothing but these workers has moved. */
  ghost predicate OnlyMoved(s: State, s': State, ws: seq<nat>) {
    && s'.orch == s.orch && s'.listed == s.listed && s'.flag == s.flag && |s'.procs| == |s.procs|
    && forall v | 0 <= v < |s.procs| && (v !in ws || Over(s.procs[v].pc)) :: s'.procs[v] == s.procs[v]
  }

  /** A worker left to itself during the shutdown ends. */
  lemma {:induction false} DriveOne(judge: Evaluation, s: State, w: nat, world: Pipeline.World) returns (steps: seq<Step>, s': State)
    requires s.flag && w < |s.procs|
    ensures Run(judge, s, steps, s') && OnlyMoved(s, s', [w]) && Over(s'.procs[w].pc)
    decreases StepsLeft(s.procs[w].pc)
  {
    if Over(s.procs[w].pc) {
      return [], s;
    }
    var op := NextOp(s, w, world);
    var m := ApplyWorker(judge, s, w, op);
    WorkerFrame(judge, s, w, op);
    OwnStepCounts(judge, s, w, op);
    hide ApplyWorker, WorkerEnabled, StepsLeft, NextOp, Run;
    var rest;
    rest, s' := DriveOne(judge, m, w, world);
    FirstStep(judge, s, Worker(w, op), m, rest, s');
    steps := [Worker(w, op)] + rest;
  }

  lemma {:induction false} DriveAll(judge: Evaluation, s: State, ws: seq<nat>, world: Pipeline.World) returns (steps: seq<Step>, s': State)
    requires s.flag && forall i | 0 <= i < |ws| :: ws[i] < |s.procs|
    ensures Run(judge, s, steps, s') && OnlyMoved(s, s', ws)
    ensures forall i | 0 <= i < |ws| :: Over(s'.procs[ws[i]].pc)
    decreases |ws|
  {
    hide Over;
    if ws == [] {
      return [], s;
    }
    var first, m := DriveOne(judge, s, ws[0], world);
    var rest;
    hide Run;
    rest, s' := DriveAll(judge, m, ws[1..], world);
    RunConcat(judge, s, first, m, rest, s');
    steps := first + rest;
  }

  /** A world in which everything fails. */
  const NOTHING_WORKS: Pipeline.World :=
    Pipeline.World(Some(OtherError), Raised(OtherError), None, false, Raised(OtherError), None, Raised(OtherError), (_: string) => Raised(OtherError),
                   (_: nat, _: string) => Raised(OtherError), (_: seq<Byte>) => [], None, false, None)

  /** Some shutdown begun here ends with a process still running. */
  ghost predicate CanLeaveWorker(judge: Evaluation, s: State)
    requires OrchEnabled(s, BeginShutdown)
  {
    exists after, s', w: nat ::
      Run(judge, ApplyOrch(s, BeginShutdown), after, s') && s'.orch.Ended? && w < |s'.procs| && !Over(s'.procs[w].pc)
  }

  lemma WorkerLeft(judge: Evaluation, s: State)
    requires Ranked(s) && OrchEnabled(s, BeginShutdown) && LeavesWorker(s)
    ensures CanLeaveWorker(judge, s)
  {
    var v := s.orch.worker;
    var b := ApplyOrch(s, BeginShutdown);
    var steps, m := DriveAll(judge, b, s.listed, NOTHING_WORKS);
    var n := m.(managerGone := true);
    var e := n.(flag := false, orch := Ended);
    assert m.procs[v] == b.procs[v];
    ExitsAfter(judge, m, n, e);
    hide Run, ApplyOrch, Over;
    RunConcat(judge, b, steps, m, [Orch(ManagerExit)] + ([Orch(FinishShutdown)] + []), e);
  }

  lemma ExitsAfter(judge: Evaluation, m: State, n: State, e: State)
    requires m.orch.ShuttingDown? && AllOver(m, m.listed)
    requires n == m.(managerGone := true) && e == n.(flag := false, orch := Ended)
    ensures Run(judge, m, [Orch(ManagerExit)] + ([Orch(FinishShutdown)] + []), e)
  {
    assert Run(judge, e, [], e);
    hide Run;
    FirstStep(judge, n, Orch(FinishShutdown), e, [], e);
    FirstStep(judge, m, Orch(ManagerExit), n, [Orch(FinishShutdown)] + [], e);
  }

  /** Exactly when a shutdown can end with a process still running: if it begins while the orchestrator is
      between starting a worker and listing it, or between taking one off the list and having joined it,
      and that worker is not over. */
  lemma ShutdownLeavesWorkerExactlyWhen(judge: Evaluation, s0: State, before: seq<Step>, s: State)
    requires Start(s0)
    requires Run(judge, s0, before, s) && OrchEnabled(s, BeginShutdown)
    ensures CanLeaveWorker(judge, s) <==> LeavesWorker(s)
  {
    RankedRun(judge, s0, before, s);
    if LeavesWorker(s) {
      WorkerLeft(judge, s);
    } else if CanLeaveWorker(judge, s) {
      var after, s', w: nat :|
        Run(judge, ApplyOrch(s, BeginShutdown), after, s') && s'.orch.Ended? && w < |s'.procs| && !Over(s'.procs[w].pc);
      ShutdownEndsEverything(judge, s0, before, s, after, s');
    }
  }

  lemma Started(judge: Evaluation)
    ensures BenignlyReaches(judge, INIT)
  {
    assert Run(judge, INIT, [], INIT) && BenignRun(judge, INIT, []);
  }

  /** Both kinds of moment come up: an interrupt inside stop_worker ... */
  lemma InterruptedStopLeavesWorker(judge: Evaluation)
    ensures exists s :: BenignlyReaches(judge, s) && s.orch == Stopping(0) && LeavesWorker(s)
  {
    hide BenignlyReaches;
    Started(judge);
    WorkerSpawned(judge, INIT);
    Then(judge, OneWorker(INIT, Head), Orch(StopBegin), OneWorker(INIT, Head).(listed := [], orch := Stopping(0)));
  }

  /** ... and one between the start of a worker's process and its entry in the list. */
  lemma InterruptedSpawnLeavesWorker(judge: Evaluation)
    ensures exists s :: BenignlyReaches(judge, s) && s.orch == Starting(0) && LeavesWorker(s)
  {
    hide BenignlyReaches;
    Started(judge);
    Then(judge, INIT, Orch(SpawnStart), INIT.(procs := [Proc(Head, None, 0)], orch := Starting(0)));
  }

  /** Shutdown loses nothing: if no process is ended while it holds an unsettled job, other than one a reap has
      just pushed back, and no running worker is off the list when it begins, every id ever enqueued ends settled or in the list for the next start. */
  lemma ShutdownKeepsJobs(judge: Evaluation, s0: State, before: seq<Step>, s: State, after: seq<Step>, s': State, x: Id)
    requires Start(s0) && Known(s0)
    requires NeverPending(judge)
    requires Run(judge, s0, before, s) && BenignRun(judge, s0, before)
    requires OrchEnabled(s, BeginShutdown) && !LeavesWorker(s)
    requires Run(judge, ApplyOrch(s, BeginShutdown), after, s') && BenignRun(judge, ApplyOrch(s, BeginShutdown), after)
    requires s'.orch.Ended? && x in s'.enqueued && NotLostBefore(s0, x)
    ensures Settled(s', x) || x in s'.jobs
  {
    ShutdownEndsEverything(judge, s0, before, s, after, s');
    ConservedSoFar(judge, s0, before, s, x);
    hide Run, BenignRun, Apply, ApplyOrch, Sound;
    SoundStep(judge, s, Orch(BeginShutdown));
    ConservedStep(judge, s, Orch(BeginShutdown), x);
    ConservedAfter(judge, s, after, s', x);
    hide Conserved, Settled, Over;
    NobodyHolds(s', x);
  }

  lemma NobodyHolds(s: State, x: Id)
    requires Conserved(s, x) && x in s.enqueued && forall w | 0 <= w < |s.procs| :: Over(s.procs[w].pc)
    ensures Settled(s, x) || x in s.jobs
  {
    if !Settled(s, x) && x !in s.jobs {
      assert multiset(s.jobs)[x] == 0;
      HeldSomewhere(s.procs, x);
    }
  }

  lemma ConservedSoFar(judge: Evaluation, s0: State, before: seq<Step>, s: State, x: Id)
    requires Start(s0) && Known(s0)
    requires NeverPending(judge) && Run(judge, s0, before, s) && BenignRun(judge, s0, before) && NotLostBefore(s0, x)
    ensures Sound(s) && Conserved(s, x)
  {
    SoundRun(judge, s0, before, s);
    ConservedAtStart(s0, x);
    ConservedRun(judge, s0, before, s, x);
  }

  lemma ConservedAfter(judge: Evaluation, s: State, after: seq<Step>, s': State, x: Id)
    requires NeverPending(judge) && OrchEnabled(s, BeginShutdown)
    requires Sound(Apply(judge, s, Orch(BeginShutdown))) && Conserved(Apply(judge, s, Orch(BeginShutdown)), x)
    requires Run(judge, ApplyOrch(s, BeginShutdown), after, s') && BenignRun(judge, ApplyOrch(s, BeginShutdown), after)
    ensures Conserved(s', x)
  {
    ConservedRun(judge, ApplyOrch(s, BeginShutdown), after, s', x);
  }

  /** Without crashes, interrupts of workers, forced terminations and reaps in the window, a shutdown leaves
      every id ever enqueued settled or in the list. */
  lemma GracefulShutdownKeepsJobs(judge: Evaluation, s0: State, before: seq<Step>, s: State, after: seq<Step>, s': State, x: Id)
    requires Start(s0) && Known(s0)
    requires NeverPending(judge)
    requires Run(judge, s0, before, s) && GracefulRun(judge, s0, before)
    requires OrchEnabled(s, BeginShutdown) && !LeavesWorker(s)
    requires Run(judge, ApplyOrch(s, BeginShutdown), after, s') && GracefulRun(judge, ApplyOrch(s, BeginShutdown), after)
    requires s'.orch.Ended? && x in s'.enqueued && NotLostBefore(s0, x)
    ensures Settled(s', x) || x in s'.jobs
  {
    GracefulIsBenign(judge, s0, before, s);
    ReapMatchesRun(judge, s0, before, s);
    KeysRun(judge, s0, before, s);
    KeysStep(judge, s, Orch(BeginShutdown));
    GracefulIsBenign(judge, ApplyOrch(s, BeginShutdown), after, s');
    ShutdownKeepsJobs(judge, s0, before, s, after, s', x);
  }
}
