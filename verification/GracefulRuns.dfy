/**
 Runs in which workers leave only as they are meant to: no process crashes, none is interrupted, stop_worker
 never has to terminate one, and a worker found frozen is frozen until it is reaped, and not between its pop
 and its submission key. In these runs no job is lost.
 */
module GracefulRuns {
  import opened JudgeTypes
  import opened Records
  import opened JobProtocol
  import opened JobConservation
  import opened JobLifecycle

  /** Between brpop and _set_submission a job is in hand that no key names. */
  predicate InWindow(pc: Pc) { pc.Popped? || (pc.Retrying? && pc.origin == Unkeyed) }

  predicate Graceful(s: State, a: Step)
    requires Enabled(s, a)
  {
    match a
    case Worker(w, op) => !op.Die? && !op.Interrupt? && !op.RepushError? && !(s.orch.Reaping? && s.orch.worker == w)
    case Orch(op) => !op.StopKill? && (op.ReapRead? ==> !InWindow(s.procs[op.worker].pc))
    case Api(_) => true
  }

  predicate GracefulRun(judge: Evaluation, s: State, steps: seq<Step>)
    decreases |steps|
  {
    steps == [] ||
    (Enabled(s, steps[0]) && Graceful(s, steps[0]) && GracefulRun(judge, Apply(judge, s, steps[0]), steps[1..]))
  }

  /** What a worker being reaped holds, if anything, is the id read from its key. */
  predicate ReapMatches(s: State) {
    s.orch.Reaping? ==>
      && s.orch.worker < |s.procs|
      && (Hand(s.procs[s.orch.worker].pc) == None || Hand(s.procs[s.orch.worker].pc) == s.orch.key)
  }

  lemma ReapMatchesOrch(s: State, op: OrchOp)
    requires ReapMatches(s) && KeysMatch(s) && OrchEnabled(s, op) && Graceful(s, Orch(op))
    ensures ReapMatches(ApplyOrch(s, op))
  {
    if op.ReapRead? {
      assert KeyNames(s, op.worker);
    }
    hide NextListed;
  }

  lemma ReapMatchesStep(judge: Evaluation, s: State, a: Step)
    requires ReapMatches(s) && KeysMatch(s) && Enabled(s, a) && Graceful(s, a)
    ensures ReapMatches(Apply(judge, s, a))
  {
    match a
    case Worker(w, op) => WorkerFrame(judge, s, w, op); hide ApplyWorker;
    case Orch(op) => ReapMatchesOrch(s, op); hide ApplyOrch;
    case Api(op) =>
  }

  lemma {:induction false} ReapMatchesRun(judge: Evaluation, s: State, steps: seq<Step>, s': State)
    requires ReapMatches(s) && KeysMatch(s) && Run(judge, s, steps, s') && GracefulRun(judge, s, steps)
    ensures ReapMatches(s')
    decreases |steps|
  {
    hide Apply, Enabled, Graceful, ReapMatches, KeysMatch;
    if steps != [] {
      ReapMatchesStep(judge, s, steps[0]);
      KeysStep(judge, s, steps[0]);
      ReapMatchesRun(judge, Apply(judge, s, steps[0]), steps[1..], s');
    }
  }

  lemma GracefulStepIsBenign(s: State, a: Step)
    requires ReapMatches(s) && Enabled(s, a) && Graceful(s, a)
    ensures Benign(s, a)
  {
  }

  lemma {:induction false} GracefulIsBenign(judge: Evaluation, s: State, steps: seq<Step>, s': State)
    requires ReapMatches(s) && KeysMatch(s) && Run(judge, s, steps, s') && GracefulRun(judge, s, steps)
    ensures BenignRun(judge, s, steps)
    decreases |steps|
  {
    hide Apply, Enabled, Graceful, Benign, ReapMatches, KeysMatch;
    if steps != [] {
      GracefulStepIsBenign(s, steps[0]);
      ReapMatchesStep(judge, s, steps[0]);
      KeysStep(judge, s, steps[0]);
      GracefulIsBenign(judge, Apply(judge, s, steps[0]), steps[1..], s');
    }
  }

  /** Job conservation: in a graceful run every enqueued id is settled, in the job list, or in a live
      worker's hands. */
  lemma GracefulRunsKeepJobs(judge: Evaluation, s0: State, steps: seq<Step>, s: State, x: Id)
    requires Start(s0) && Known(s0)
    requires NeverPending(judge) && Run(judge, s0, steps, s) && GracefulRun(judge, s0, steps)
    requires x in s.enqueued && NotLostBefore(s0, x)
    ensures Settled(s, x) || x in s.jobs || exists w :: 0 <= w < |s.procs| && Hand(s.procs[w].pc) == Some(x)
  {
    GracefulIsBenign(judge, s0, steps, s);
    JobsAreConserved(judge, s0, steps, s, x);
  }
}
