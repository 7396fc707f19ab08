/**
 The keys a departed worker leaves behind. `run` deletes its shutdown and heartbeat keys, but the orchestrator
 can set either of them again afterwards.
 */
module LeftoverKeys {
  import opened JudgeTypes
  import opened Records
  import opened JobProtocol
  import opened JobConservation
  import opened JobLifecycle
  import opened JobLoss
  import opened JobShutdown

  /** The first of these steps is followed by the second. */
  ghost predicate Follows(steps: seq<Step>, a: Step, b: Step) {
    exists i, j :: 0 <= i < j < |steps| && steps[i] == a && steps[j] == b
  }

  lemma FollowsSnoc(steps: seq<Step>, last: Step, a: Step, b: Step)
    ensures Follows(steps + [last], a, b) <==> Follows(steps, a, b) || (a in steps && last == b)
    ensures a in steps + [last] <==> a in steps || a == last
  {
    var all := steps + [last];
    if Follows(all, a, b) {
      var i, j :| 0 <= i < j < |all| && all[i] == a && all[j] == b;
      assert all[i] == steps[i];
      if j < |steps| {
        assert steps[i] == a && steps[j] == b;
      }
    }
    if Follows(steps, a, b) {
      var i, j :| 0 <= i < j < |steps| && steps[i] == a && steps[j] == b;
      assert all[i] == a && all[j] == b;
    }
    if a in steps && last == b {
      var i :| 0 <= i < |steps| && steps[i] == a;
      assert all[i] == a && all[|steps|] == b;
    }
  }

  /** How far a worker has got with its two deletes. */
  ghost predicate PcStory(steps: seq<Step>, s: State, w: nat) {
    && (Worker(w, LeaveStop) in steps ==>
          w < |s.procs| && (s.procs[w].pc.LeavingBeat? || s.procs[w].pc.Gone? || s.procs[w].pc.Dead?))
    && (w < |s.procs| && (s.procs[w].pc.LeavingBeat? || s.procs[w].pc.Gone?) ==> Worker(w, LeaveStop) in steps)
    && (Worker(w, LeaveBeat) in steps <==> w < |s.procs| && s.procs[w].pc.Gone?)
  }

  /** The orchestrator signals a worker once it has taken it off its list, and never looks at it again. */
  ghost predicate OrchStory(steps: seq<Step>, s: State, w: nat) {
    && (Orch(StopSignal(w)) in steps ==>
          w < |s.procs| && w !in s.listed
          && !((s.orch.Starting? || s.orch.Spawning? || s.orch.Stopping? || s.orch.Reaping?) && s.orch.worker == w))
    && (Orch(ReapDelete(w)) in steps ==>
          w < |s.procs| && !((s.orch.Starting? || s.orch.Spawning?) && s.orch.worker == w))
  }

  ghost predicate KeyStory(steps: seq<Step>, s: State, w: nat) {
    && (Worker(w, LeaveStop) in steps ==> (w in s.stopKeys <==> Follows(steps, Worker(w, LeaveStop), Orch(StopSignal(w)))))
    && (Worker(w, LeaveBeat) in steps ==>
          (w in s.beats <==>
             Follows(steps, Worker(w, LeaveBeat), Orch(SpawnBeat(w))) && Orch(ReapDelete(w)) !in steps))
  }

  lemma InSnoc(steps: seq<Step>, last: Step, a: Step)
    ensures a in steps + [last] <==> a in steps || a == last
  {
  }

  /** A worker makes the two deletes in order, and then no more steps. */
  lemma LeavingPcs(judge: Evaluation, s: State, w: nat, op: WorkerOp)
    requires WorkerEnabled(s, w, op)
    ensures var pc, pc' := s.procs[w].pc, NextPc(judge, s, w, op);
            && (op.LeaveStop? <==> pc'.LeavingBeat?) && (op.LeaveBeat? <==> pc'.Gone?)
            && (pc.LeavingBeat? ==> pc'.Gone? || pc'.Dead?) && !pc.Gone? && !pc.Dead?
            && (pc'.Gone? ==> pc.LeavingBeat?)
  {
  }

  lemma PcStoryStep(judge: Evaluation, steps: seq<Step>, s: State, a: Step, w: nat)
    requires PcStory(steps, s, w) && Enabled(s, a)
    ensures PcStory(steps + [a], Apply(judge, s, a), w)
  {
    InSnoc(steps, a, Worker(w, LeaveStop));
    InSnoc(steps, a, Worker(w, LeaveBeat));
    match a
    case Worker(v, op) => LeavingPcs(judge, s, v, op); hide WorkerEffect, NextPc, WorkerEnabled;
    case Orch(op) => OrchMovesPc(s, op, w); hide ApplyOrch;
    case Api(op) =>
  }

  lemma OrchMovesPc(s: State, op: OrchOp, w: nat)
    requires OrchEnabled(s, op)
    ensures var s' := ApplyOrch(s, op);
            && |s.procs| <= |s'.procs|
            && (w < |s.procs| ==> s'.procs[w] == s.procs[w] || (!Over(s.procs[w].pc) && s'.procs[w].pc == Dead))
            && (|s.procs| <= w < |s'.procs| ==> s'.procs[w].pc == Head)
  {
    hide NextOrch, NextListed;
  }

  lemma OrchStoryStep(judge: Evaluation, steps: seq<Step>, s: State, a: Step, w: nat)
    requires OrchStory(steps, s, w) && Ranked(s) && Enabled(s, a)
    requires s.orch.Reaping? ==> s.orch.worker < |s.procs|
    ensures OrchStory(steps + [a], Apply(judge, s, a), w)
  {
    match a
    case Worker(v, op) => WorkerFrame(judge, s, v, op); hide ApplyWorker;
    case Orch(op) => OrchStoryOrch(steps, s, op, w);
    case Api(op) =>
  }

  lemma OrchStoryOrch(steps: seq<Step>, s: State, op: OrchOp, w: nat)
    requires OrchStory(steps, s, w) && Ranked(s) && OrchEnabled(s, op)
    requires s.orch.Reaping? ==> s.orch.worker < |s.procs|
    ensures OrchStory(steps + [Orch(op)], ApplyOrch(s, op), w)
  {
    OrchMovesPc(s, op, w);
    if op.FindGone? {
      WithoutMembers(s.listed, op.worker);
    } else if op.ReapKill? {
      WithoutMembers(s.listed, s.orch.worker);
    }
    hide OrchEffect, Without;
  }

  lemma KeyStoryWorker(judge: Evaluation, steps: seq<Step>, s: State, v: nat, op: WorkerOp, w: nat)
    requires PcStory(steps, s, w) && KeyStory(steps, s, w) && WorkerEnabled(s, v, op)
    ensures KeyStory(steps + [Worker(v, op)], ApplyWorker(judge, s, v, op), w)
  {
    FollowsSnoc(steps, Worker(v, op), Worker(w, LeaveStop), Orch(StopSignal(w)));
    FollowsSnoc(steps, Worker(v, op), Worker(w, LeaveBeat), Orch(SpawnBeat(w)));
    FirstDelete(steps, Worker(w, LeaveStop), Orch(StopSignal(w)));
    FirstDelete(steps, Worker(w, LeaveBeat), Orch(SpawnBeat(w)));
    hide NextProc, Follows;
  }

  lemma FirstDelete(steps: seq<Step>, a: Step, b: Step)
    ensures a !in steps ==> !Follows(steps, a, b)
  {
  }

  lemma KeyStoryOrch(steps: seq<Step>, s: State, op: OrchOp, w: nat)
    requires PcStory(steps, s, w) && OrchStory(steps, s, w) && KeyStory(steps, s, w) && OrchEnabled(s, op)
    ensures KeyStory(steps + [Orch(op)], ApplyOrch(s, op), w)
  {
    FollowsSnoc(steps, Orch(op), Worker(w, LeaveStop), Orch(StopSignal(w)));
    FollowsSnoc(steps, Orch(op), Worker(w, LeaveBeat), Orch(SpawnBeat(w)));
    FollowedIsThere(steps, Worker(w, LeaveStop), Orch(StopSignal(w)));
    hide NextOrch, NextListed, Follows, PcStory;
  }

  lemma FollowedIsThere(steps: seq<Step>, a: Step, b: Step)
    ensures Follows(steps, a, b) ==> b in steps
  {
  }

  ghost predicate Story(steps: seq<Step>, s: State, w: nat) {
    PcStory(steps, s, w) && OrchStory(steps, s, w) && KeyStory(steps, s, w)
  }

  predicate ReapsSpawned(s: State) { s.orch.Reaping? ==> s.orch.worker < |s.procs| }

  lemma ReapsSpawnedStep(judge: Evaluation, s: State, a: Step)
    requires ReapsSpawned(s) && Enabled(s, a)
    ensures ReapsSpawned(Apply(judge, s, a))
  {
    match a
    case Worker(v, op) => WorkerFrame(judge, s, v, op); hide ApplyWorker;
    case Orch(op) => OrchMovesPc(s, op, 0); hide OrchEffect, NextListed;
    case Api(op) =>
  }

  lemma StoryStep(judge: Evaluation, steps: seq<Step>, s: State, a: Step, w: nat)
    requires Story(steps, s, w) && Ranked(s) && ReapsSpawned(s) && Enabled(s, a)
    ensures Story(steps + [a], Apply(judge, s, a), w)
  {
    hide PcStory, OrchStory, KeyStory, Ranked, ApplyWorker, ApplyOrch;
    PcStoryStep(judge, steps, s, a, w);
    OrchStoryStep(judge, steps, s, a, w);
    match a
    case Worker(v, op) => KeyStoryWorker(judge, steps, s, v, op, w);
    case Orch(op) => KeyStoryOrch(steps, s, op, w);
    case Api(op) => KeyStoryApi(steps, s, op, w);
  }

  lemma KeyStoryApi(steps: seq<Step>, s: State, op: ApiOp, w: nat)
    requires KeyStory(steps, s, w) && ApiEnabled(s, op)
    ensures KeyStory(steps + [Api(op)], ApplyApi(s, op), w)
  {
    FollowsSnoc(steps, Api(op), Worker(w, LeaveStop), Orch(StopSignal(w)));
    FollowsSnoc(steps, Api(op), Worker(w, LeaveBeat), Orch(SpawnBeat(w)));
    hide Follows;
  }

  lemma {:induction false} StoryRun(judge: Evaluation, before: seq<Step>, s: State, steps: seq<Step>, s': State, w: nat)
    requires Story(before, s, w) && Ranked(s) && ReapsSpawned(s) && Run(judge, s, steps, s')
    ensures Story(before + steps, s', w)
    decreases |steps|
  {
    hide Apply, Enabled, Story, Ranked, ReapsSpawned;
    if steps == [] {
      assert before + steps == before;
    } else {
      StoryStep(judge, before, s, steps[0], w);
      RankedStep(judge, s, steps[0]);
      ReapsSpawnedStep(judge, s, steps[0]);
      StoryRun(judge, before + [steps[0]], Apply(judge, s, steps[0]), steps[1..], s', w);
      assert before + [steps[0]] + steps[1..] == before + steps;
    }
  }

  /** Exactly when a worker that has left in good order leaves a key behind: its shutdown key, when the
      orchestrator's stop signal to it comes after it has deleted the key; its heartbeat, when spawn_worker
      sets it only after the worker has deleted it, until a reap deletes it. */
  lemma KeysLeftExactlyWhen(judge: Evaluation, s0: State, steps: seq<Step>, s: State, w: nat)
    requires Start(s0) && Run(judge, s0, steps, s) && w < |s.procs| && s.procs[w].pc.Gone?
    ensures w in s.stopKeys <==> Follows(steps, Worker(w, LeaveStop), Orch(StopSignal(w)))
    ensures w in s.beats <==>
              Follows(steps, Worker(w, LeaveBeat), Orch(SpawnBeat(w))) && Orch(ReapDelete(w)) !in steps
  {
    StoryRun(judge, [], s0, steps, s, w);
    assert [] + steps == steps;
  }

  // ----- the submission key -----

  /** The step deletes the worker's submission key. */
  predicate DeletesKey(a: Step, w: nat) { (a.Worker? && a.w == w && a.op.ClearKey?) || (a.Orch? && a.orchOp == ReapDelete(w)) }

  predicate SetsKey(a: Step, w: nat) { a.Worker? && a.w == w && a.op.SetKey? }

  ghost predicate NotDeletedSince(steps: seq<Step>, i: nat, w: nat) {
    forall j | i <= j < |steps| :: !DeletesKey(steps[j], w)
  }

  /** The key has been set, or was there at the start, and not been deleted since. */
  ghost predicate KeyStands(there: bool, steps: seq<Step>, w: nat) {
    || (there && NotDeletedSince(steps, 0, w))
    || (exists i :: 0 <= i < |steps| && SetsKey(steps[i], w) && NotDeletedSince(steps, i + 1, w))
  }

  lemma StandsSnoc(there: bool, steps: seq<Step>, a: Step, w: nat)
    ensures KeyStands(there, steps + [a], w) <==> SetsKey(a, w) || (KeyStands(there, steps, w) && !DeletesKey(a, w))
  {
    var all := steps + [a];
    forall i | 0 <= i <= |steps|
      ensures NotDeletedSince(all, i, w) <==> NotDeletedSince(steps, i, w) && !DeletesKey(a, w)
    {
      assert all[|steps|] == a;
      assert forall j | i <= j < |steps| :: all[j] == steps[j];
    }
    if SetsKey(a, w) {
      assert all[|steps|] == a && NotDeletedSince(all, |steps| + 1, w);
    }
    forall i | 0 <= i < |steps|
      ensures all[i] == steps[i]
    {
    }
    hide NotDeletedSince;
    if KeyStands(there, steps, w) && !DeletesKey(a, w) && !(there && NotDeletedSince(steps, 0, w)) {
      var i :| 0 <= i < |steps| && SetsKey(steps[i], w) && NotDeletedSince(steps, i + 1, w);
      assert SetsKey(all[i], w) && NotDeletedSince(all, i + 1, w);
    }
  }

  lemma CurrentWorker(judge: Evaluation, s: State, v: nat, op: WorkerOp, w: nat)
    requires WorkerEnabled(s, v, op)
    ensures w in ApplyWorker(judge, s, v, op).current <==>
              SetsKey(Worker(v, op), w) || (w in s.current && !DeletesKey(Worker(v, op), w))
  {
    hide NextProc;
  }

  lemma CurrentOrch(s: State, op: OrchOp, w: nat)
    requires OrchEnabled(s, op)
    ensures w in ApplyOrch(s, op).current <==> w in s.current && !DeletesKey(Orch(op), w)
  {
    hide NextOrch, NextListed;
  }

  lemma CurrentStep(judge: Evaluation, s: State, a: Step, w: nat)
    requires Enabled(s, a)
    ensures w in Apply(judge, s, a).current <==> SetsKey(a, w) || (w in s.current && !DeletesKey(a, w))
  {
    hide ApplyWorker, ApplyOrch;
    match a
    case Worker(v, op) => CurrentWorker(judge, s, v, op, w);
    case Orch(op) => CurrentOrch(s, op, w);
    case Api(op) =>
  }

  lemma {:induction false} StandsRun(judge: Evaluation, there: bool, before: seq<Step>, s: State, steps: seq<Step>, s': State, w: nat)
    requires (w in s.current <==> KeyStands(there, before, w)) && Run(judge, s, steps, s')
    ensures w in s'.current <==> KeyStands(there, before + steps, w)
    decreases |steps|
  {
    hide Apply, Enabled, KeyStands;
    if steps == [] {
      assert before + steps == before;
    } else {
      CurrentStep(judge, s, steps[0], w);
      StandsSnoc(there, before, steps[0], w);
      StandsRun(judge, there, before + [steps[0]], Apply(judge, s, steps[0]), steps[1..], s', w);
      assert before + [steps[0]] + steps[1..] == before + steps;
    }
  }

  /** Exactly when a worker's submission key exists, at its loop head as anywhere: when it was set, or there at
      the start, and neither a finished job nor a reap has deleted it since. A job that is dropped or pushed back
      deletes nothing. */
  lemma SubmissionKeyExactlyWhen(judge: Evaluation, s0: State, steps: seq<Step>, s: State, w: nat)
    requires Run(judge, s0, steps, s)
    ensures w in s.current <==> KeyStands(w in s0.current, steps, w)
  {
    assert KeyStands(w in s0.current, [], w) <==> w in s0.current;
    StandsRun(judge, w in s0.current, [], s0, steps, s, w);
    assert [] + steps == steps;
  }

  // ----- each of them happens -----


  lemma WorkerLeaves(judge: Evaluation, s: State)
    requires BenignlyReaches(judge, OneWorker(s, Popping)) && s.stopKeys == {}
    ensures BenignlyReaches(judge, OneWorker(s, LeavingBeat))
    ensures BenignlyReaches(judge, OneWorker(s, Gone).(beats := {}))
  {
    hide BenignlyReaches, Run;
    Then(judge, OneWorker(s, Popping), Worker(0, Interrupt), OneWorker(s, Leaving));
    Then(judge, OneWorker(s, Leaving), Worker(0, LeaveStop), OneWorker(s, LeavingBeat));
    Then(judge, OneWorker(s, LeavingBeat), Worker(0, LeaveBeat), OneWorker(s, Gone).(beats := {}));
  }

  lemma WorkerWaits(judge: Evaluation)
    ensures BenignlyReaches(judge, OneWorker(INIT, Popping))
  {
    hide BenignlyReaches;
    Started(judge);
    WorkerSpawned(judge, INIT);
    WorkerPops(judge, INIT);
  }

  /** The signal comes between the two deletes. */
  lemma SignalBetweenDeletes(judge: Evaluation)
    ensures exists s :: BenignlyReaches(judge, s) && s.orch == Joining(0) && s.procs == [Proc(Gone, None, 0)] && 0 in s.stopKeys
  {
    hide BenignlyReaches, Run;
    WorkerWaits(judge);
    WorkerLeaves(judge, INIT);
    var m := OneWorker(INIT, LeavingBeat);
    var a := m.(listed := [], orch := Stopping(0));
    var b := a.(stopKeys := {0}, orch := Joining(0));
    Then(judge, m, Orch(StopBegin), a);
    Then(judge, a, Orch(StopSignal(0)), b);
    Then(judge, b, Worker(0, LeaveBeat), b.(procs := [Proc(Gone, None, 0)], beats := {}));
  }

  /** It comes after both. */
  lemma SignalAfterDeletes(judge: Evaluation)
    ensures exists s :: BenignlyReaches(judge, s) && s.orch == Free && s.procs == [Proc(Gone, None, 0)] && 0 in s.stopKeys
  {
    hide BenignlyReaches, Run;
    WorkerWaits(judge);
    WorkerLeaves(judge, INIT);
    var m := OneWorker(INIT, Gone).(beats := {});
    var a := m.(listed := [], orch := Stopping(0));
    var b := a.(stopKeys := {0}, orch := Joining(0));
    Then(judge, m, Orch(StopBegin), a);
    Then(judge, a, Orch(StopSignal(0)), b);
    Then(judge, b, Orch(StopJoined), b.(orch := Free));
  }

  /** The process has been started and listed; its keys are not set yet. */
  function Unset(pc: Pc): State {
    INIT.(procs := [Proc(pc, None, 0)], listed := [0], orch := Spawning(0, false))
  }

  lemma LeavesBeforeKeys(judge: Evaluation)
    ensures BenignlyReaches(judge, Unset(Gone))
  {
    hide BenignlyReaches, Run;
    Started(judge);
    WorkerListed(judge, INIT);
    Then(judge, Unset(Head), Worker(0, ReadFlag), Unset(HeadLocal));
    Then(judge, Unset(HeadLocal), Worker(0, ReadStop), Unset(Beating));
    Then(judge, Unset(Beating), Worker(0, SetBeat), Unset(Popping).(beats := {0}));
    LeavesWithBeat(judge);
  }

  lemma LeavesWithBeat(judge: Evaluation)
    requires BenignlyReaches(judge, Unset(Popping).(beats := {0}))
    ensures BenignlyReaches(judge, Unset(Gone))
  {
    hide BenignlyReaches, Run;
    Then(judge, Unset(Popping).(beats := {0}), Worker(0, Interrupt), Unset(Leaving).(beats := {0}));
    Then(judge, Unset(Leaving).(beats := {0}), Worker(0, LeaveStop), Unset(LeavingBeat).(beats := {0}));
    Then(judge, Unset(LeavingBeat).(beats := {0}), Worker(0, LeaveBeat), Unset(Gone));
  }

  /** The heartbeat is set for a worker that has left already. */
  lemma BeatAfterDeletes(judge: Evaluation)
    ensures exists s :: BenignlyReaches(judge, s) && s.orch == Free && s.procs == [Proc(Gone, None, 0)] && 0 in s.beats
  {
    hide BenignlyReaches, Run;
    LeavesBeforeKeys(judge);
    Then(judge, Unset(Gone), Orch(SpawnStopKey), Unset(Gone).(orch := Spawning(0, true)));
    Then(judge, Unset(Gone).(orch := Spawning(0, true)), Orch(SpawnBeat(0)), Unset(Gone).(orch := Free, beats := {0}));
  }
}
