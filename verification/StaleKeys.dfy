/**
 What a leftover shutdown key does in the next life of the judge. Worker identifiers begin anew with every
 orchestrator, so the new worker has the key of the old one, and its process starts before spawn_worker resets
 that key.
 */
module StaleKeys {
  import opened JudgeTypes
  import opened Records
  import opened JobProtocol
  import opened JobConservation
  import opened JobLifecycle
  import opened JobLiveness

  /** Nothing in this run tells the worker to leave: no stop signal, no shutdown, no Ctrl-C. */
  ghost predicate Untold(steps: seq<Step>, w: nat) {
    forall a | a in steps :: a != Orch(StopSignal(w)) && a != Orch(BeginShutdown) && a != Worker(w, Interrupt)
  }

  predicate Left(pc: Pc) { pc.Leaving? || pc.LeavingBeat? || pc.Gone? }

  /** As long as it is not told, a worker leaves only on a key that was there at the start. */
  predicate LeavesOnOldKey(s0: State, s: State, w: nat) {
    && !s.flag && (w in s.stopKeys ==> w in s0.stopKeys)
    && (w < |s.procs| && Left(s.procs[w].pc) ==> w in s0.stopKeys)
  }

  lemma OldKeyWorker(judge: Evaluation, s0: State, s: State, v: nat, op: WorkerOp, w: nat)
    requires LeavesOnOldKey(s0, s, w) && WorkerEnabled(s, v, op) && !(v == w && op.Interrupt?)
    ensures LeavesOnOldKey(s0, ApplyWorker(judge, s, v, op), w)
  {
    WorkersClearKeys(judge, s, v, op);
    WorkerFrame(judge, s, v, op);
    hide WorkerEffect;
  }

  lemma OldKeyOrch(s0: State, s: State, op: OrchOp, w: nat)
    requires LeavesOnOldKey(s0, s, w) && OrchEnabled(s, op) && op != StopSignal(w) && op != BeginShutdown
    ensures LeavesOnOldKey(s0, ApplyOrch(s, op), w)
  {
    SignalSetsKey(s, op, w);
    hide NextOrch, NextListed;
  }

  lemma {:induction false} OldKeyRun(judge: Evaluation, s0: State, s: State, steps: seq<Step>, s': State, w: nat)
    requires LeavesOnOldKey(s0, s, w) && Run(judge, s, steps, s') && Untold(steps, w)
    ensures LeavesOnOldKey(s0, s', w)
    decreases |steps|
  {
    hide ApplyWorker, ApplyOrch, LeavesOnOldKey;
    if steps != [] {
      assert steps[0] in steps;
      match steps[0] {
        case Worker(v, op) => OldKeyWorker(judge, s0, s, v, op, w);
        case Orch(op) => OldKeyOrch(s0, s, op, w);
        case Api(op) => OldKeyApi(s0, s, op, w);
      }
      assert forall a | a in steps[1..] :: a in steps;
      OldKeyRun(judge, s0, Apply(judge, s, steps[0]), steps[1..], s', w);
    }
  }

  lemma OldKeyApi(s0: State, s: State, op: ApiOp, w: nat)
    requires LeavesOnOldKey(s0, s, w) && ApiEnabled(s, op)
    ensures LeavesOnOldKey(s0, ApplyApi(s, op), w)
  {
  }

  /** The first `n` workers have been spawned. */
  lemma {:induction false} SpawnMany(judge: Evaluation, s0: State, n: nat, w: nat) returns (steps: seq<Step>, s: State)
    requires Start(s0) && n <= w
    ensures Run(judge, s0, steps, s) && s.orch == Free && !s.flag && |s.procs| == n && HandsEmpty(s, n)
    ensures w in s0.stopKeys ==> w in s.stopKeys
    ensures Untold(steps, w)
    decreases n
  {
    if n == 0 {
      return [], s0;
    }
    hide Run, OrdinaryRun, HandsEmpty;
    var first, m := SpawnMany(judge, s0, n - 1, w);
    var rest;
    rest, s := NewWorker(judge, m);
    RunConcat(judge, s0, first, m, rest, s);
    steps := first + rest;
  }

  /** The worker leaves with nobody having told it to. */
  ghost predicate CanLeaveUntold(judge: Evaluation, s0: State, w: nat) {
    exists steps, s :: Run(judge, s0, steps, s) && Untold(steps, w) && w < |s.procs| && Left(s.procs[w].pc)
  }

  lemma OldKeyIsRead(judge: Evaluation, s: State) returns (steps: seq<Step>, s': State)
    requires s.orch == Free && !s.flag && |s.procs| in s.stopKeys
    ensures Run(judge, s, steps, s') && Untold(steps, |s.procs|)
    ensures |s'.procs| == |s.procs| + 1 && s'.procs[|s.procs|].pc == Leaving
  {
    var w := |s.procs|;
    var a := s.(procs := s.procs + [Proc(Head, None, 0)], orch := Starting(w));
    var b := a.(procs := s.procs + [Proc(HeadLocal, None, 0)]);
    s' := a.(procs := s.procs + [Proc(Leaving, None, 0)]);
    assert Run(judge, s', [], s');
    hide Run;
    assert b == ApplyWorker(judge, a, w, ReadFlag);
    assert s' == ApplyWorker(judge, b, w, ReadStop);
    FirstStep(judge, b, Worker(w, ReadStop), s', [], s');
    FirstStep(judge, a, Worker(w, ReadFlag), b, [Worker(w, ReadStop)] + [], s');
    FirstStep(judge, s, Orch(SpawnStart), a, [Worker(w, ReadFlag)] + ([Worker(w, ReadStop)] + []), s');
    steps := [Orch(SpawnStart)] + ([Worker(w, ReadFlag)] + ([Worker(w, ReadStop)] + []));
  }

  /** Exactly which workers of a new life may leave though nobody has told them to: those whose shutdown key was
      left by an earlier life. */
  lemma LeavesUntoldExactlyWhen(judge: Evaluation, s0: State, w: nat)
    requires Start(s0)
    ensures CanLeaveUntold(judge, s0, w) <==> w in s0.stopKeys
  {
    if w in s0.stopKeys {
      hide Run, Left, HandsEmpty;
      var first, m := SpawnMany(judge, s0, w, w);
      var rest, e := OldKeyIsRead(judge, m);
      RunConcat(judge, s0, first, m, rest, e);
      assert Untold(first + rest, w);
      LeavingIsLeft(e.procs[w].pc);
    }
    if CanLeaveUntold(judge, s0, w) {
      var steps, s :| Run(judge, s0, steps, s) && Untold(steps, w) && w < |s.procs| && Left(s.procs[w].pc);
      OldKeyRun(judge, s0, s0, steps, s, w);
    }
  }

  lemma LeavingIsLeft(pc: Pc)
    ensures pc == Leaving ==> Left(pc)
  {
  }
}
