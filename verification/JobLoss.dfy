/**
 Exactly which steps lose a job, and one run for each of them. `Benign` in JobConservation excludes
 these steps; every run below is benign up to the one step it is about.
 */
module JobLoss {
  import opened JudgeTypes
  import opened Records
  import opened JobProtocol
  import Pipeline
  import opened JobConservation
  import opened JobLifecycle

  /** Somewhere, or in no need of being anywhere. */
  predicate Accounted(s: State, x: Id) { Settled(s, x) || Copies(s, x) > 0 }

  /** The step ends a process that holds this id. */
  predicate EndsHolder(s: State, a: Step, x: Id)
    requires Enabled(s, a)
  {
    match a
    case Worker(w, op) => (op.Die? || op.Interrupt? || op.RepushError?) && Hand(s.procs[w].pc) == Some(x)
    case Orch(op) => (op.StopKill? || op.ReapKill?) && Hand(s.procs[s.orch.worker].pc) == Some(x)
    case Api(_) => false
  }

  lemma LostWorker(judge: Evaluation, s: State, w: nat, op: WorkerOp, x: Id)
    requires Sound(s) && WorkerEnabled(s, w, op)
    requires x in s.enqueued && !Settled(s, x) && Copies(s, x) > 0
    ensures Accounted(ApplyWorker(judge, s, w, op), x) <==> !(EndsHolder(s, Worker(w, op), x) && Copies(s, x) == 1)
  {
    WorkerCopies(judge, s, w, op, x);
  }

  lemma LostOrch(s: State, op: OrchOp, x: Id)
    requires OrchEnabled(s, op)
    requires !Settled(s, x) && Copies(s, x) > 0
    ensures Accounted(ApplyOrch(s, op), x) <==> !(EndsHolder(s, Orch(op), x) && Copies(s, x) == 1)
  {
    OrchCopies(s, op, x);
  }

  /** The step ends the process that holds the last copy of an id that is not settled. */
  predicate EndsLastHolder(s: State, a: Step, x: Id)
    requires Enabled(s, a)
  {
    EndsHolder(s, a, x) && !Settled(s, x) && Copies(s, x) == 1
  }

  lemma LostByStep(judge: Evaluation, s: State, a: Step, x: Id)
    requires Sound(s) && Enabled(s, a) && x in s.enqueued && Accounted(s, x)
    ensures Accounted(Apply(judge, s, a), x) <==> !EndsLastHolder(s, a, x)
  {
    hide Sound, ApplyWorker, ApplyOrch, ApplyApi;
    if Settled(s, x) {
      SettledStaysSound(judge, s, a, x);
    } else {
      match a
      case Worker(w, op) => LostWorker(judge, s, w, op, x);
      case Orch(op) => LostOrch(s, op, x);
      case Api(op) => NotLostByApi(s, op, x);
    }
  }

  /** A step loses an id exactly when it ends the process that holds the last copy of it. */
  lemma LostExactlyWhen(judge: Evaluation, s0: State, before: seq<Step>, s: State, a: Step, x: Id)
    requires Start(s0) && Known(s0)
    requires NeverPending(judge) && Run(judge, s0, before, s) && Enabled(s, a)
    requires x in s.enqueued && Accounted(s, x)
    ensures Accounted(Apply(judge, s, a), x) <==> !(EndsHolder(s, a, x) && !Settled(s, x) && Copies(s, x) == 1)
  {
    SoundRun(judge, s0, before, s);
    LostByStep(judge, s, a, x);
  }

  // ----- the same over whole runs -----

  predicate KeptNow(s: State, x: Id) { x in s.enqueued ==> Accounted(s, x) }

  /** The id is somewhere, or in no need of being anywhere, in every state of the run. */
  predicate KeptThroughout(judge: Evaluation, s: State, steps: seq<Step>, x: Id)
    decreases |steps|
  {
    KeptNow(s, x) &&
    (steps == [] || (Enabled(s, steps[0]) && KeptThroughout(judge, Apply(judge, s, steps[0]), steps[1..], x)))
  }

  /** No step of the run ends the last holder of the id while it is unsettled. */
  predicate NoLastHolderEnds(judge: Evaluation, s: State, steps: seq<Step>, x: Id)
    decreases |steps|
  {
    steps == [] ||
    (Enabled(s, steps[0]) && !EndsLastHolder(s, steps[0], x)
     && NoLastHolderEnds(judge, Apply(judge, s, steps[0]), steps[1..], x))
  }

  lemma NotEnqueuedNotHeld(s: State, a: Step, x: Id)
    requires Known(s) && Enabled(s, a) && x !in s.enqueued
    ensures !EndsHolder(s, a, x)
  {
    forall w | 0 <= w < |s.procs|
      ensures Hand(s.procs[w].pc) != Some(x)
    {
      assert Mentioned(s.procs[w].pc).Some? ==> Mentioned(s.procs[w].pc).value in s.enqueued;
    }
  }

  lemma EnqueuedStep(judge: Evaluation, s: State, a: Step, x: Id)
    requires Enabled(s, a)
    ensures x in Apply(judge, s, a).enqueued <==> x in s.enqueued || a == Api(Enqueue(x))
  {
    match a
    case Worker(w, op) => HistoryWorker(judge, s, w, op, x); hide ApplyWorker;
    case Orch(op) => HistoryOrch(s, op, x); hide ApplyOrch;
    case Api(op) =>
  }

  lemma KeptStep(judge: Evaluation, s: State, a: Step, x: Id)
    requires Sound(s) && Enabled(s, a) && KeptNow(s, x)
    ensures KeptNow(Apply(judge, s, a), x) <==> !EndsLastHolder(s, a, x)
  {
    hide Apply, Enabled, Accounted, EndsHolder;
    EnqueuedStep(judge, s, a, x);
    if x in s.enqueued {
      LostByStep(judge, s, a, x);
    } else {
      NotEnqueuedNotHeld(s, a, x);
      if a == Api(Enqueue(x)) {
        NewlyEnqueued(judge, s, x);
      }
    }
  }

  lemma NewlyEnqueued(judge: Evaluation, s: State, x: Id)
    requires Enabled(s, Api(Enqueue(x)))
    ensures Accounted(Apply(judge, s, Api(Enqueue(x))), x)
  {
    ApiCopies(s, Enqueue(x), x);
  }

  lemma {:induction false} KeptRun(judge: Evaluation, s: State, steps: seq<Step>, s': State, x: Id)
    requires NeverPending(judge) && Sound(s) && Run(judge, s, steps, s') && KeptNow(s, x)
    ensures KeptThroughout(judge, s, steps, x) <==> NoLastHolderEnds(judge, s, steps, x)
    decreases |steps|
  {
    hide Apply, Enabled, Sound, KeptNow, EndsLastHolder;
    if steps != [] {
      var m := Apply(judge, s, steps[0]);
      KeptStep(judge, s, steps[0], x);
      SoundStep(judge, s, steps[0]);
      if KeptNow(m, x) {
        KeptRun(judge, m, steps[1..], s', x);
      }
    }
  }

  /** Exactly when a run keeps a job from beginning to end: when none of its steps ends the process that
      holds the last copy while the job is unsettled. */
  lemma KeptExactlyWhen(judge: Evaluation, s0: State, steps: seq<Step>, s: State, x: Id)
    requires Start(s0) && Known(s0) && NotLostBefore(s0, x)
    requires NeverPending(judge) && Run(judge, s0, steps, s)
    ensures KeptThroughout(judge, s0, steps, x) <==> NoLastHolderEnds(judge, s0, steps, x)
  {
    KeptRun(judge, s0, steps, s, x);
  }

  lemma SettledStaysSound(judge: Evaluation, s: State, a: Step, x: Id)
    requires Sound(s) && Enabled(s, a) && Settled(s, x)
    ensures Settled(Apply(judge, s, a), x)
  {
    SettledStays(judge, s, a, x);
  }

  lemma NotLostByApi(s: State, op: ApiOp, x: Id)
    requires ApiEnabled(s, op) && Copies(s, x) > 0
    ensures Accounted(ApplyApi(s, op), x)
  {
    ApiCopies(s, op, x);
  }

  /** Reaping a worker that really is frozen, anywhere but between its pop and its submission key, is
      benign: what it holds is what was read and pushed back. */
  lemma ReapingIsBenign(judge: Evaluation, s0: State, before: seq<Step>, s: State, w: nat, during: seq<Step>, s': State)
    requires Start(s0) && Known(s0)
    requires Run(judge, s0, before, s) && OrchEnabled(s, ReapRead(w))
    requires !s.procs[w].pc.Popped? && !(s.procs[w].pc.Retrying? && s.procs[w].pc.origin == Unkeyed)
    requires Run(judge, ApplyOrch(s, ReapRead(w)), during, s') && WithoutWakeUp(during, w)
    requires OrchEnabled(s', ReapKill)
    ensures Benign(s', Orch(ReapKill))
  {
    KeysRun(judge, s0, before, s);
    assert KeyNames(s, w);
    FrozenRun(judge, ApplyOrch(s, ReapRead(w)), during, s', w);
  }

  // ----- one run per losing step -----

  ghost predicate BenignlyReaches(judge: Evaluation, s: State) {
    exists steps :: Run(judge, INIT, steps, s) && BenignRun(judge, INIT, steps)
  }

  lemma {:induction false} Extended(judge: Evaluation, s: State, steps: seq<Step>, m: State, a: Step, e: State)
    requires Run(judge, s, steps, m) && BenignRun(judge, s, steps)
    requires Enabled(m, a) && Benign(m, a) && e == Apply(judge, m, a)
    ensures Run(judge, s, steps + [a], e) && BenignRun(judge, s, steps + [a])
    decreases |steps|
  {
    hide Apply, Enabled, Benign;
    if steps == [] {
      assert (steps + [a])[1..] == [];
      assert Run(judge, e, [], e) && BenignRun(judge, e, []);
    } else {
      Extended(judge, Apply(judge, s, steps[0]), steps[1..], m, a, e);
      assert (steps + [a])[1..] == steps[1..] + [a];
    }
  }

  lemma Then(judge: Evaluation, m: State, a: Step, e: State)
    requires BenignlyReaches(judge, m) && Enabled(m, a) && Benign(m, a) && e == Apply(judge, m, a)
    ensures BenignlyReaches(judge, e)
  {
    hide Enabled, Benign, Apply;
    var steps :| Run(judge, INIT, steps, m) && BenignRun(judge, INIT, steps);
    Extended(judge, INIT, steps, m, a, e);
  }

  /** Enqueued, unsettled, and nowhere. */
  predicate Lost(s: State, x: Id) { x in s.enqueued && !Accounted(s, x) }

  /** After benign steps only, step `a` loses `x`, and the orchestrator finishes with the worker (`after`)
      without finding it again. */
  ghost predicate Loses(judge: Evaluation, a: Step, after: seq<Step>, x: Id) {
    exists m, s ::
      && BenignlyReaches(judge, m) && Enabled(m, a) && !Benign(m, a)
      && Run(judge, Apply(judge, m, a), after, s)
      && Lost(s, x) && s.orch == Free && s.listed == []
  }

  lemma Witness(judge: Evaluation, m: State, a: Step, after: seq<Step>, s: State, x: Id)
    requires BenignlyReaches(judge, m) && Enabled(m, a) && !Benign(m, a)
    requires Run(judge, Apply(judge, m, a), after, s)
    requires Lost(s, x) && s.orch == Free && s.listed == []
    ensures Loses(judge, a, after, x)
  {
  }

  const ONE_JOB := INIT.(jobs := [0], rows := map[0 := UNJUDGED], enqueued := {0}, pushed := [0])

  function OneWorker(s: State, pc: Pc): State {
    s.(procs := [Proc(pc, None, 0)], listed := [0], beats := {0})
  }

  lemma JobEnqueued(judge: Evaluation)
    ensures BenignlyReaches(judge, ONE_JOB)
  {
    assert Run(judge, INIT, [], INIT) && BenignRun(judge, INIT, []);
    var a := INIT.(rows := map[0 := UNJUDGED], awaiting := {0});
    Then(judge, INIT, Api(Commit(0)), a);
    Then(judge, a, Api(Enqueue(0)), ONE_JOB);
  }

  lemma WorkerListed(judge: Evaluation, s: State)
    requires BenignlyReaches(judge, s) && s.procs == [] && s.listed == [] && s.orch == Free
    ensures BenignlyReaches(judge, s.(procs := [Proc(Head, None, 0)], listed := [0], orch := Spawning(0, false)))
  {
    hide BenignlyReaches, Run;
    var a := s.(procs := [Proc(Head, None, 0)], orch := Starting(0));
    Then(judge, s, Orch(SpawnStart), a);
    Then(judge, a, Orch(SpawnAppend), a.(listed := [0], orch := Spawning(0, false)));
  }

  lemma WorkerSpawned(judge: Evaluation, s: State)
    requires BenignlyReaches(judge, s)
    requires s.procs == [] && s.listed == [] && s.beats == {} && s.stopKeys == {} && s.orch == Free
    ensures BenignlyReaches(judge, OneWorker(s, Head))
  {
    hide BenignlyReaches, Run;
    WorkerListed(judge, s);
    var a := s.(procs := [Proc(Head, None, 0)], listed := [0], orch := Spawning(0, false));
    Then(judge, a, Orch(SpawnStopKey), a.(orch := Spawning(0, true)));
    Then(judge, a.(orch := Spawning(0, true)), Orch(SpawnBeat(0)), OneWorker(s, Head));
  }

  lemma WorkerPops(judge: Evaluation, s: State)
    requires BenignlyReaches(judge, OneWorker(s, Head))
    requires !s.flag && s.stopKeys == {}
    ensures BenignlyReaches(judge, OneWorker(s, Popping))
  {
    hide BenignlyReaches, Loses, Run;
    Then(judge, OneWorker(s, Head), Worker(0, ReadFlag), OneWorker(s, HeadLocal));
    Then(judge, OneWorker(s, HeadLocal), Worker(0, ReadStop), OneWorker(s, Beating));
    Then(judge, OneWorker(s, Beating), Worker(0, SetBeat), OneWorker(s, Popping));
  }

  /** The worker has popped job 0; the list is empty. */
  const TAKEN := ONE_JOB.(jobs := [], popped := [0], listed := [0], beats := {0}, procs := [Proc(Popped(0), Some(0), 0)])

  /** It has also set its submission key. */
  const IN_HAND := TAKEN.(procs := [Proc(Running(0), Some(0), 0)], current := map[0 := 0])

  lemma JobTaken(judge: Evaluation)
    ensures BenignlyReaches(judge, TAKEN) && BenignlyReaches(judge, IN_HAND)
  {
    hide BenignlyReaches, Loses, Run;
    JobEnqueued(judge);
    WorkerSpawned(judge, ONE_JOB);
    WorkerPops(judge, ONE_JOB);
    Then(judge, OneWorker(ONE_JOB, Popping), Worker(0, Pop), TAKEN);
    Then(judge, TAKEN, Worker(0, SetKey), IN_HAND);
  }

  lemma NowhereLeft(s: State)
    requires s.jobs == [] && |s.procs| == 1 && Over(s.procs[0].pc)
    ensures Copies(s, 0) == 0
  {
    assert s.procs[1..] == [];
    assert InHands(s.procs[1..], 0) == 0;
  }

  lemma GoneIsForgotten(judge: Evaluation, s: State, e: State)
    requires |s.procs| == 1 && Over(s.procs[0].pc) && s.listed == [0] && s.orch == Free
    requires e == s.(listed := [])
    ensures Run(judge, s, [Orch(FindGone(0)), Orch(JoinGone)], e)
  {
    assert Without([0], 0) == [] by {
      assert [0][1..] == [];
    }
    var a := s.(listed := [], orch := JoiningGone(0));
    assert Run(judge, e, [], e);
    hide Run;
    FirstStep(judge, a, Orch(JoinGone), e, [], e);
    FirstStep(judge, s, Orch(FindGone(0)), a, [Orch(JoinGone)] + [], e);
    assert [Orch(FindGone(0))] + ([Orch(JoinGone)] + []) == [Orch(FindGone(0)), Orch(JoinGone)];
  }

  const DIED := IN_HAND.(procs := [Proc(Dead, Some(0), 0)])

  lemma DeadIsForgotten(judge: Evaluation, m: State, a: Step)
    requires BenignlyReaches(judge, m) && Enabled(m, a) && !Benign(m, a) && Apply(judge, m, a) == DIED
    ensures Loses(judge, a, [Orch(FindGone(0)), Orch(JoinGone)], 0)
  {
    hide BenignlyReaches, Loses, Run, Enabled, Benign, Apply;
    GoneIsForgotten(judge, DIED, DIED.(listed := []));
    NowhereLeft(DIED.(listed := []));
    Witness(judge, m, a, [Orch(FindGone(0)), Orch(JoinGone)], DIED.(listed := []), 0);
  }

  /** run.py:88-90: a worker process dies; check_heartbeat joins it and forgets its job. */
  lemma DeadProcessLosesJob(judge: Evaluation)
    ensures Loses(judge, Worker(0, Die), [Orch(FindGone(0)), Orch(JoinGone)], 0)
  {
    hide BenignlyReaches, Loses;
    JobTaken(judge);
    DeadIsForgotten(judge, IN_HAND, Worker(0, Die));
  }

  const JOINING := IN_HAND.(listed := [], stopKeys := {0}, orch := Joining(0))

  lemma WorkerToldToStop(judge: Evaluation)
    ensures BenignlyReaches(judge, JOINING)
  {
    hide BenignlyReaches;
    JobTaken(judge);
    Then(judge, IN_HAND, Orch(StopBegin), IN_HAND.(listed := [], orch := Stopping(0)));
    Then(judge, IN_HAND.(listed := [], orch := Stopping(0)), Orch(StopSignal(0)), JOINING);
  }

  /** run.py:77-80: a worker told to stop is still busy after five seconds and is terminated. */
  lemma ForcedStopLosesJob(judge: Evaluation)
    ensures Loses(judge, Orch(StopKill), [], 0)
  {
    hide BenignlyReaches, Loses;
    WorkerToldToStop(judge);
    var e := JOINING.(procs := [Proc(Dead, Some(0), 0)], orch := Free);
    assert Apply(judge, JOINING, Orch(StopKill)) == e;
    NowhereLeft(e);
    Witness(judge, JOINING, Orch(StopKill), [], e, 0);
  }

  /** worker.py:46-53: the worker freezes between its pop and its submission key. */
  lemma FrozenBeforeKeyLosesJob(judge: Evaluation)
    ensures Loses(judge, Orch(ReapKill), [], 0)
  {
    hide BenignlyReaches, Loses, Run;
    JobTaken(judge);
    var a := TAKEN.(orch := Reaping(0, None, KeyRead));
    var b := TAKEN.(orch := Reaping(0, None, Requeued));
    var c := TAKEN.(orch := Reaping(0, None, KeysDeleted), beats := {});
    Then(judge, TAKEN, Orch(ReapRead(0)), a);
    Then(judge, a, Orch(ReapPush), b);
    Then(judge, b, Orch(ReapDelete(0)), c);
    assert Without([0], 0) == [] by {
      assert [0][1..] == [];
    }
    var e := c.(procs := [Proc(Dead, Some(0), 0)], orch := Free, listed := []);
    assert Apply(judge, c, Orch(ReapKill)) == e;
    NowhereLeft(e);
    Witness(judge, c, Orch(ReapKill), [], e, 0);
  }

  const INTERRUPTED := IN_HAND.(procs := [Proc(Leaving, Some(0), 0)])
  const DEPARTED := IN_HAND.(procs := [Proc(Gone, Some(0), 0)], beats := {})

  lemma InterruptedLeaves(judge: Evaluation, rest: seq<Step>, e: State)
    requires Run(judge, DEPARTED, rest, e)
    ensures Run(judge, INTERRUPTED, [Worker(0, LeaveStop), Worker(0, LeaveBeat)] + rest, e)
  {
    hide Run;
    var b := IN_HAND.(procs := [Proc(LeavingBeat, Some(0), 0)]);
    FirstStep(judge, b, Worker(0, LeaveBeat), DEPARTED, rest, e);
    FirstStep(judge, INTERRUPTED, Worker(0, LeaveStop), b, [Worker(0, LeaveBeat)] + rest, e);
    assert [Worker(0, LeaveStop)] + ([Worker(0, LeaveBeat)] + rest) == [Worker(0, LeaveStop), Worker(0, LeaveBeat)] + rest;
  }

  /** worker.py:57-59: Ctrl-C reaches the worker while it holds a job. It leaves in good order, deletes
      its keys, and the job is gone. */
  lemma InterruptLosesJob(judge: Evaluation)
    ensures Loses(judge, Worker(0, Interrupt),
                  [Worker(0, LeaveStop), Worker(0, LeaveBeat)] + [Orch(FindGone(0)), Orch(JoinGone)], 0)
  {
    hide BenignlyReaches, Loses, Run;
    JobTaken(judge);
    assert Apply(judge, IN_HAND, Worker(0, Interrupt)) == INTERRUPTED;
    var e := DEPARTED.(listed := []);
    var rest := [Orch(FindGone(0)), Orch(JoinGone)];
    GoneIsForgotten(judge, DEPARTED, e);
    InterruptedLeaves(judge, rest, e);
    NowhereLeft(e);
    Witness(judge, IN_HAND, Worker(0, Interrupt), [Worker(0, LeaveStop), Worker(0, LeaveBeat)] + rest, e, 0);
  }

  const FAILED := IN_HAND.(procs := [Proc(Retrying(0, Keyed), Some(0), 0)])

  lemma JudgingFails(judge: Evaluation)
    ensures BenignlyReaches(judge, FAILED)
  {
    hide BenignlyReaches;
    JobTaken(judge);
    Then(judge, IN_HAND, Worker(0, RaiseOther), FAILED);
  }

  /** worker.py:64: judging fails and so does the push that should retry it. */
  lemma FailedRetryLosesJob(judge: Evaluation)
    ensures Loses(judge, Worker(0, RepushError), [Orch(FindGone(0)), Orch(JoinGone)], 0)
  {
    hide BenignlyReaches, Loses;
    JudgingFails(judge);
    DeadIsForgotten(judge, FAILED, Worker(0, RepushError));
  }

  /** Judging has come to a result, recording it has raised ValueError, and the worker is back at the head of
      its loop. Its submission key still names the job. */
  function GivenUp(judge: Evaluation, world: Pipeline.World): State {
    IN_HAND.(procs := [Proc(Head, Some(0), 0)], loads := [Loading(0, world)], dropped := {0})
  }

  lemma ResultGivenUp(judge: Evaluation, world: Pipeline.World)
    requires judge(0, world).Returned?
    ensures BenignlyReaches(judge, GivenUp(judge, world))
  {
    hide BenignlyReaches;
    JobTaken(judge);
    var a := IN_HAND.(procs := [Proc(Judging(0, judge(0, world)), Some(0), 0)], loads := [Loading(0, world)]);
    Then(judge, IN_HAND, Worker(0, Load(world)), a);
    Then(judge, a, Worker(0, RaiseValueError), GivenUp(judge, world));
  }

  /** worker.py:60-61: the job is given up although judging came to a result, and its row stays as committed. */
  lemma CommitErrorDropsJob(judge: Evaluation, world: Pipeline.World)
    requires judge(0, world).Returned?
    ensures exists s :: BenignlyReaches(judge, s) && s.dropped == {0} && s.rows == map[0 := UNJUDGED] && Copies(s, 0) == 0
  {
    hide BenignlyReaches;
    ResultGivenUp(judge, world);
    var e := GivenUp(judge, world);
    assert e.procs[1..] == [];
    assert InHands(e.procs[1..], 0) == 0;
  }

  /** run.py:92-99: the handler of ValueError leaves the submission key, so when the idle worker is found frozen
      the job it gave up is pushed once more. */
  lemma IdleKeyIsReaped(judge: Evaluation, world: Pipeline.World)
    requires judge(0, world).Returned?
    ensures exists s :: BenignlyReaches(judge, s) && s.procs == [Proc(Head, Some(0), 0)] && s.jobs == [0]
                        && 0 in s.dropped && s.reaped == multiset{0}
  {
    hide BenignlyReaches, Run;
    ResultGivenUp(judge, world);
    var e := GivenUp(judge, world);
    var a := e.(orch := Reaping(0, Some(0), KeyRead));
    var b := e.(orch := Reaping(0, Some(0), Requeued), jobs := [0], pushed := [0, 0], reaped := multiset{0});
    Then(judge, e, Orch(ReapRead(0)), a);
    Then(judge, a, Orch(ReapPush), b);
  }

  // ----- a stale id -----

  /** Job 0 has been judged and recorded; the worker, still alive, remembers its id. */
  function Finished(judge: Evaluation, world: Pipeline.World, pc: Pc): State
    requires judge(0, world).Returned?
  {
    IN_HAND.(rows := map[0 := judge(0, world).value], loads := [Loading(0, world)], current := map[],
             procs := [Proc(pc, Some(0), 0)])
  }

  lemma JobFinished(judge: Evaluation, world: Pipeline.World)
    requires judge(0, world).Returned?
    ensures BenignlyReaches(judge, Finished(judge, world, Head))
  {
    hide BenignlyReaches;
    JobTaken(judge);
    var a := IN_HAND.(procs := [Proc(Judging(0, judge(0, world)), Some(0), 0)], loads := [Loading(0, world)]);
    Then(judge, IN_HAND, Worker(0, Load(world)), a);
    var b := Finished(judge, world, Written(0)).(current := map[0 := 0]);
    Then(judge, a, Worker(0, Write), b);
    Then(judge, b, Worker(0, ClearKey), Finished(judge, world, Head));
  }

  lemma NextPopRaises(judge: Evaluation, world: Pipeline.World)
    requires judge(0, world).Returned?
    ensures BenignlyReaches(judge, Finished(judge, world, Retrying(0, Stale)))
  {
    hide BenignlyReaches, Run;
    JobFinished(judge, world);
    Then(judge, Finished(judge, world, Head), Worker(0, ReadFlag), Finished(judge, world, HeadLocal));
    Then(judge, Finished(judge, world, HeadLocal), Worker(0, ReadStop), Finished(judge, world, Beating));
    Then(judge, Finished(judge, world, Beating), Worker(0, SetBeat), Finished(judge, world, Popping));
    Then(judge, Finished(judge, world, Popping), Worker(0, PopError), Finished(judge, world, Retrying(0, Stale)));
  }

  /** worker.py:46, 64: the pop after a finished job raises, and the finished job is back in the list. */
  lemma StaleIdReturns(judge: Evaluation, world: Pipeline.World)
    requires judge(0, world).Returned? && judge(0, world).value.verdict != PENDING
    ensures exists s :: BenignlyReaches(judge, s) && Settled(s, 0) && s.jobs == [0] && s.stale == multiset{0}
  {
    hide BenignlyReaches;
    NextPopRaises(judge, world);
    var e := Finished(judge, world, Head).(jobs := [0], pushed := [0, 0], stale := multiset{0});
    Then(judge, Finished(judge, world, Retrying(0, Stale)), Worker(0, Repush), e);
  }

  // Two jobs: the worker has job 0 in hand, job 1 waits.

  const TWO_JOBS := INIT.(jobs := [1, 0], rows := map[0 := UNJUDGED, 1 := UNJUDGED], enqueued := {0, 1}, pushed := [0, 1])

  lemma JobsEnqueued(judge: Evaluation)
    ensures BenignlyReaches(judge, TWO_JOBS)
  {
    hide BenignlyReaches;
    JobEnqueued(judge);
    var a := ONE_JOB.(rows := map[0 := UNJUDGED, 1 := UNJUDGED], awaiting := {1});
    Then(judge, ONE_JOB, Api(Commit(1)), a);
    Then(judge, a, Api(Enqueue(1)), TWO_JOBS);
  }

  const BUSY := TWO_JOBS.(jobs := [1], popped := [0], listed := [0], beats := {0}, current := map[0 := 0],
                          procs := [Proc(Running(0), Some(0), 0)])

  lemma FirstOfTwoTaken(judge: Evaluation)
    ensures BenignlyReaches(judge, BUSY)
  {
    hide BenignlyReaches;
    JobsEnqueued(judge);
    WorkerSpawned(judge, TWO_JOBS);
    WorkerPops(judge, TWO_JOBS);
    var a := BUSY.(current := map[], procs := [Proc(Popped(0), Some(0), 0)]);
    Then(judge, OneWorker(TWO_JOBS, Popping), Worker(0, Pop), a);
    Then(judge, a, Worker(0, SetKey), BUSY);
  }

  /** Job 0 has been pushed back for the frozen worker and the worker's keys are deleted. */
  const REAPED := BUSY.(jobs := [0, 1], pushed := [0, 1, 0], reaped := multiset{0}, beats := {}, current := map[],
                        orch := Reaping(0, Some(0), KeysDeleted))

  const REQUEUED := BUSY.(jobs := [0, 1], pushed := [0, 1, 0], reaped := multiset{0}, orch := Reaping(0, Some(0), Requeued))

  lemma BusyJobPushedBack(judge: Evaluation)
    ensures BenignlyReaches(judge, REQUEUED)
  {
    hide BenignlyReaches, Run;
    FirstOfTwoTaken(judge);
    var a := BUSY.(orch := Reaping(0, Some(0), KeyRead));
    Then(judge, BUSY, Orch(ReapRead(0)), a);
    Then(judge, a, Orch(ReapPush), REQUEUED);
  }

  lemma BusyWorkerReaped(judge: Evaluation)
    ensures BenignlyReaches(judge, REAPED)
  {
    hide BenignlyReaches, Run;
    BusyJobPushedBack(judge);
    Then(judge, REQUEUED, Orch(ReapDelete(0)), REAPED);
  }

  function AwakeAt(judge: Evaluation, world: Pipeline.World, pc: Pc): State
    requires judge(0, world).Returned?
  {
    REAPED.(rows := map[0 := judge(0, world).value, 1 := UNJUDGED], loads := [Loading(0, world)],
            procs := [Proc(pc, Some(0), 0)])
  }

  /** But the worker was only slow: it wakes and finishes job 0 ... */
  lemma WorkerFinishesFirst(judge: Evaluation, world: Pipeline.World)
    requires judge(0, world).Returned?
    ensures BenignlyReaches(judge, AwakeAt(judge, world, Head))
  {
    hide BenignlyReaches;
    BusyWorkerReaped(judge);
    var a := REAPED.(procs := [Proc(Judging(0, judge(0, world)), Some(0), 0)], loads := [Loading(0, world)]);
    Then(judge, REAPED, Worker(0, Load(world)), a);
    Then(judge, a, Worker(0, Write), AwakeAt(judge, world, Written(0)));
    Then(judge, AwakeAt(judge, world, Written(0)), Worker(0, ClearKey), AwakeAt(judge, world, Head));
  }

  /** ... and takes the next one before `terminate` arrives. */
  function Overtaken(judge: Evaluation, world: Pipeline.World): State
    requires judge(0, world).Returned?
  {
    AwakeAt(judge, world, Head).(jobs := [0], popped := [0, 1], beats := {0}, procs := [Proc(Popped(1), Some(1), 0)])
  }

  lemma WorkerTakesSecond(judge: Evaluation, world: Pipeline.World)
    requires judge(0, world).Returned?
    ensures BenignlyReaches(judge, Overtaken(judge, world))
  {
    hide BenignlyReaches;
    WorkerFinishesFirst(judge, world);
    Then(judge, AwakeAt(judge, world, Head), Worker(0, ReadFlag), AwakeAt(judge, world, HeadLocal));
    Then(judge, AwakeAt(judge, world, HeadLocal), Worker(0, ReadStop), AwakeAt(judge, world, Beating));
    var a := AwakeAt(judge, world, Popping).(beats := {0});
    Then(judge, AwakeAt(judge, world, Beating), Worker(0, SetBeat), a);
    Then(judge, a, Worker(0, Pop), Overtaken(judge, world));
  }

  /** run.py:101-105: a "frozen" worker that wakes between the key deletes and `terminate`. Job 0 comes
      back, job 1 does not. */
  lemma WakingWorkerLosesNextJob(judge: Evaluation, world: Pipeline.World)
    requires judge(0, world).Returned?
    ensures Loses(judge, Orch(ReapKill), [], 1)
  {
    hide BenignlyReaches, Loses;
    WorkerTakesSecond(judge, world);
    var m := Overtaken(judge, world);
    assert Without([0], 0) == [] by {
      assert [0][1..] == [];
    }
    var e := m.(procs := [Proc(Dead, Some(1), 0)], orch := Free, listed := []);
    assert Apply(judge, m, Orch(ReapKill)) == e;
    assert e.procs[1..] == [];
    assert InHands(e.procs[1..], 1) == 0;
    Witness(judge, m, Orch(ReapKill), [], e, 1);
  }
}
