/**
 Order of the job list, safety of the orchestrator's joins, submission keys, and shutdown.
 */
module JobLifecycle {
  import opened JudgeTypes
  import opened Records
  import opened Queues
  import opened JobProtocol
  import Pipeline

  // ----- first in, first out -----

  /** Everything popped so far, followed by the list from its right end, is everything ever pushed. */
  predicate Fifo(s: State) { s.popped + Reversed(s.jobs) == s.pushed }

  /** What one step does to the job list. */
  ghost predicate ListStep(s: State, s': State) {
    || (s'.jobs == s.jobs && s'.pushed == s.pushed && s'.popped == s.popped)
    || (exists x :: s'.jobs == [x] + s.jobs && s'.pushed == s.pushed + [x] && s'.popped == s.popped)
    || (s.jobs != [] && s'.jobs == s.jobs[..|s.jobs| - 1] && s'.pushed == s.pushed
        && s'.popped == s.popped + [s.jobs[|s.jobs| - 1]])
  }

  lemma ListWorker(judge: Evaluation, s: State, w: nat, op: WorkerOp)
    requires WorkerEnabled(s, w, op)
    ensures ListStep(s, ApplyWorker(judge, s, w, op))
  {
    if op.Repush? {
      var x := s.procs[w].pc.job;
      assert ApplyWorker(judge, s, w, op).jobs == [x] + s.jobs;
    }
  }

  lemma ListOrch(s: State, op: OrchOp)
    requires OrchEnabled(s, op)
    ensures ListStep(s, ApplyOrch(s, op))
  {
    if op == ReapPush && s.orch.key.Some? {
      var x := s.orch.key.value;
      assert ApplyOrch(s, op).jobs == [x] + s.jobs;
    }
  }

  lemma ListApi(s: State, op: ApiOp)
    requires ApiEnabled(s, op)
    ensures ListStep(s, ApplyApi(s, op))
  {
  }

  lemma ListStepOf(judge: Evaluation, s: State, a: Step)
    requires Enabled(s, a)
    ensures ListStep(s, Apply(judge, s, a))
  {
    hide ListStep, ApplyWorker, ApplyOrch, ApplyApi;
    match a
    case Worker(w, op) => ListWorker(judge, s, w, op);
    case Orch(op) => ListOrch(s, op);
    case Api(op) => ListApi(s, op);
  }

  lemma FifoStep(s: State, s': State)
    requires Fifo(s) && ListStep(s, s')
    ensures Fifo(s') && s.popped <= s'.popped && s.pushed <= s'.pushed
  {
    if s.jobs != [] && s'.jobs == s.jobs[..|s.jobs| - 1] && s'.pushed == s.pushed && s'.popped == s.popped + [s.jobs[|s.jobs| - 1]] {
      var x := s.jobs[|s.jobs| - 1];
      assert s.jobs == s'.jobs + [x];
      ReversedAppend(s'.jobs, x);
    } else if s'.jobs != s.jobs || s'.pushed != s.pushed {
      assert s'.jobs[1..] == s.jobs;
    }
  }

  lemma {:induction false} FifoRun(judge: Evaluation, s: State, steps: seq<Step>, s': State)
    requires Fifo(s) && Run(judge, s, steps, s')
    ensures Fifo(s') && s.popped <= s'.popped && s.pushed <= s'.pushed
    decreases |steps|
  {
    hide Apply, Enabled, Fifo, ListStep;
    if steps != [] {
      ListStepOf(judge, s, steps[0]);
      FifoStep(s, Apply(judge, s, steps[0]));
      FifoRun(judge, Apply(judge, s, steps[0]), steps[1..], s');
    }
  }

  /** Where the entry with `k` entries ahead of it is after the pops between two states of one history. */
  lemma EntryMoves(s: State, s': State, k: nat)
    requires Fifo(s) && Fifo(s') && s.popped <= s'.popped && s.pushed <= s'.pushed && k < |s.jobs|
    ensures var x := s.jobs[|s.jobs| - 1 - k]; var pops := |s'.popped| - |s.popped|;
            if pops > k then s'.popped[|s.popped| + k] == x
            else |s'.jobs| > k - pops && s'.jobs[|s'.jobs| - 1 - (k - pops)] == x
  {
    var x := s.jobs[|s.jobs| - 1 - k];
    var i := |s.popped| + k;
    ReversedAt(s.jobs, k);
    assert s.pushed[i] == x;
    assert s'.pushed[i] == x;
    if |s'.popped| <= i {
      ReversedLength(s'.jobs);
      assert s'.pushed[i] == Reversed(s'.jobs)[i - |s'.popped|];
      ReversedAt(s'.jobs, i - |s'.popped|);
    }
  }

  /** No overtaking. The entry with `k` entries ahead of it is returned by exactly the (k+1)th later pop;
      until then every pop, and nothing else, brings it one place nearer, whatever is pushed or retried. */
  lemma NoOvertaking(judge: Evaluation, s0: State, before: seq<Step>, s: State, after: seq<Step>, s': State, k: nat)
    requires Fifo(s0)
    requires Run(judge, s0, before, s) && Run(judge, s, after, s') && k < |s.jobs|
    ensures |s'.popped| >= |s.popped|
    ensures var x := s.jobs[|s.jobs| - 1 - k]; var pops := |s'.popped| - |s.popped|;
            if pops > k then s'.popped[|s.popped| + k] == x
            else |s'.jobs| > k - pops && s'.jobs[|s'.jobs| - 1 - (k - pops)] == x
  {
    FifoRun(judge, s0, before, s);
    FifoRun(judge, s, after, s');
    hide Fifo, Run;
    EntryMoves(s, s', k);
  }

  // ----- joins -----

  predicate ShutdownBegun(s: State) { s.orch.ShuttingDown? || s.orch.Ended? }

  lemma {:induction false} WithoutMembers(ws: seq<nat>, w: nat)
    ensures w !in Without(ws, w)
    ensures forall v :: v in Without(ws, w) ==> v in ws
  {
    if ws != [] {
      WithoutMembers(ws[1..], w);
    }
  }

  predicate ListedBeats(s: State, w: nat) {
    w < |s.procs| &&
    (Over(s.procs[w].pc) || w in s.beats || (s.orch.Spawning? && s.orch.worker == w)
     || (s.orch.Reaping? && s.orch.stage == KeysDeleted && s.orch.worker == w))
  }

  /** A listed worker without a heartbeat key is over, except while the orchestrator itself is spawning
      or reaping that very worker. */
  predicate JoinSafe(s: State) {
    && (s.orch.Starting? ==> s.orch.worker < |s.procs|)
    && (s.orch.JoiningGone? ==> s.orch.worker < |s.procs| && Over(s.procs[s.orch.worker].pc))
    && (!ShutdownBegun(s) ==> forall w | w in s.listed :: ListedBeats(s, w))
  }

  lemma JoinSafeWorker(judge: Evaluation, s: State, w: nat, op: WorkerOp)
    requires JoinSafe(s) && WorkerEnabled(s, w, op)
    ensures JoinSafe(ApplyWorker(judge, s, w, op))
  {
    var s' := ApplyWorker(judge, s, w, op);
    WorkerFrame(judge, s, w, op);
    forall v | v in s'.listed && !ShutdownBegun(s')
      ensures ListedBeats(s', v)
    {
      assert ListedBeats(s, v);
    }
  }

  /** A worker touches only its own entry and its own heartbeat, and is never over when it acts. */
  lemma WorkerFrame(judge: Evaluation, s: State, w: nat, op: WorkerOp)
    requires WorkerEnabled(s, w, op)
    ensures var s' := ApplyWorker(judge, s, w, op);
            && s'.listed == s.listed && s'.orch == s.orch && s'.flag == s.flag
            && |s'.procs| == |s.procs| && s'.procs == s.procs[w := s'.procs[w]]
            && !Over(s.procs[w].pc)
            && (w in s.beats && w !in s'.beats ==> s'.procs[w].pc == Gone)
            && (forall v :: v != w ==> (v in s'.beats <==> v in s.beats))
  {
  }

  lemma JoinSafeOrch(s: State, op: OrchOp)
    requires JoinSafe(s) && OrchEnabled(s, op)
    ensures JoinSafe(ApplyOrch(s, op))
  {
    var s' := ApplyOrch(s, op);
    match op
    case FindGone(w) =>
      WithoutMembers(s.listed, w);
      assert ListedBeats(s, w);
      JoinSafeKeep(s, s');
    case ReapKill =>
      WithoutMembers(s.listed, s.orch.worker);
      JoinSafeKeep(s, s');
    case _ => JoinSafeOther(s, op);
  }

  lemma JoinSafeKeep(s: State, s': State)
    requires JoinSafe(s) && !ShutdownBegun(s)
    requires |s'.procs| == |s.procs| && s'.beats == s.beats && !s.orch.Spawning?
    requires forall v | v in s'.listed :: v in s.listed && (s.orch.Reaping? ==> v != s.orch.worker)
    requires forall v | v in s'.listed && v < |s.procs| :: Over(s.procs[v].pc) ==> Over(s'.procs[v].pc)
    ensures forall v | v in s'.listed :: ListedBeats(s', v)
  {
    forall v | v in s'.listed
      ensures ListedBeats(s', v)
    {
      assert ListedBeats(s, v);
    }
  }

  lemma JoinSafeOther(s: State, op: OrchOp)
    requires JoinSafe(s) && OrchEnabled(s, op) && !op.FindGone? && !op.ReapKill?
    ensures JoinSafe(ApplyOrch(s, op))
  {
    var s' := ApplyOrch(s, op);
    forall v | v in s'.listed && !ShutdownBegun(s')
      ensures ListedBeats(s', v)
    {
      assert v in s.listed ==> ListedBeats(s, v);
    }
  }

  lemma JoinSafeStep(judge: Evaluation, s: State, a: Step)
    requires JoinSafe(s) && Enabled(s, a)
    ensures JoinSafe(Apply(judge, s, a))
  {
    hide ApplyWorker, ApplyOrch;
    match a
    case Worker(w, op) => JoinSafeWorker(judge, s, w, op);
    case Orch(op) => JoinSafeOrch(s, op);
    case Api(op) => JoinSafeApi(s, op);
  }

  lemma JoinSafeApi(s: State, op: ApiOp)
    requires JoinSafe(s) && ApiEnabled(s, op)
    ensures JoinSafe(ApplyApi(s, op))
  {
    var s' := ApplyApi(s, op);
    forall v | v in s'.listed && !ShutdownBegun(s')
      ensures ListedBeats(s', v)
    {
      assert ListedBeats(s, v);
    }
  }

  lemma {:induction false} JoinSafeRun(judge: Evaluation, s: State, steps: seq<Step>, s': State)
    requires JoinSafe(s) && Run(judge, s, steps, s')
    ensures JoinSafe(s')
    decreases |steps|
  {
    hide Apply, Enabled, JoinSafe;
    if steps != [] {
      JoinSafeStep(judge, s, steps[0]);
      JoinSafeRun(judge, Apply(judge, s, steps[0]), steps[1..], s');
    }
  }

  /** Join safety: when check_heartbeat finds a heartbeat key missing the worker is past its consume loop,
      so the unbounded join always has its process ended already. */
  lemma JoinNeverWaits(judge: Evaluation, s0: State, steps: seq<Step>, s: State)
    requires Start(s0)
    requires Run(judge, s0, steps, s)
    ensures s.orch.Free? ==> forall w | w in s.listed && w !in s.beats :: w < |s.procs| && Over(s.procs[w].pc)
    ensures s.orch.JoiningGone? ==> OrchEnabled(s, JoinGone)
  {
    JoinSafeRun(judge, s0, steps, s);
    forall w | s.orch.Free? && w in s.listed && w !in s.beats
      ensures w < |s.procs| && Over(s.procs[w].pc)
    {
      assert ListedBeats(s, w);
    }
  }

  // ----- the worker list -----

  /** The worker list: strictly increasing identifiers, all of them spawned already, so the next one
      is new and no two workers ever share a Redis key. */
  predicate Roster(ws: seq<nat>, spawned: nat) {
    && (forall i, j | 0 <= i < j < |ws| :: ws[i] < ws[j])
    && (forall i | 0 <= i < |ws| :: ws[i] < spawned)
  }

  lemma RosterGrows(ws: seq<nat>, w: nat, spawned: nat)
    requires Roster(ws, spawned) && forall i | 0 <= i < |ws| :: ws[i] < w
    ensures Roster(ws + [w], Max(spawned, w + 1))
  {
  }

  lemma RosterShrinks(ws: seq<nat>, spawned: nat)
    requires Roster(ws, spawned) && ws != []
    ensures Roster(ws[..|ws| - 1], spawned)
  {
  }

  lemma {:induction false} RosterWithout(ws: seq<nat>, w: nat, spawned: nat)
    requires Roster(ws, spawned)
    ensures Roster(Without(ws, w), spawned)
  {
    if ws != [] {
      RosterWithout(ws[1..], w, spawned);
      WithoutMembers(ws[1..], w);
      forall i | 0 <= i < |Without(ws[1..], w)|
        ensures Without(ws[1..], w)[i] > ws[0]
      {
        assert Without(ws[1..], w)[i] in ws[1..];
      }
    }
  }

  // ----- shutdown -----

  /** Past the check of the global key, so able to take one more job. */
  predicate PastCheck(pc: Pc) { pc.HeadLocal? || pc.Beating? || pc.Popping? }

  predicate LateOk(s: State) {
    && (s.flag <==> s.orch.ShuttingDown?)
    && (!ShutdownBegun(s) ==> forall w | 0 <= w < |s.procs| :: s.procs[w].late == 0)
    && (s.orch.ShuttingDown? ==> forall w | 0 <= w < |s.procs| ::
          s.procs[w].late + (if PastCheck(s.procs[w].pc) then 1 else 0) <= 1)
  }

  lemma LateWorker(judge: Evaluation, s: State, w: nat, op: WorkerOp)
    requires LateOk(s) && WorkerEnabled(s, w, op)
    ensures LateOk(ApplyWorker(judge, s, w, op))
  {
    WorkerFrame(judge, s, w, op);
    LateOwn(judge, s, w, op);
    hide ApplyWorker;
  }

  lemma LateOwn(judge: Evaluation, s: State, w: nat, op: WorkerOp)
    requires WorkerEnabled(s, w, op)
    ensures var p := s.procs[w]; var p' := ApplyWorker(judge, s, w, op).procs[w];
            && (!s.flag ==> p'.late == p.late)
            && (s.flag ==> p'.late + (if PastCheck(p'.pc) then 1 else 0) <= p.late + (if PastCheck(p.pc) then 1 else 0))
  {
  }

  lemma LateOrch(s: State, op: OrchOp)
    requires LateOk(s) && OrchEnabled(s, op)
    ensures LateOk(ApplyOrch(s, op))
  {
  }

  lemma LateStep(judge: Evaluation, s: State, a: Step)
    requires LateOk(s) && Enabled(s, a)
    ensures LateOk(Apply(judge, s, a))
  {
    hide LateOk, ApplyWorker, ApplyOrch, ApplyApi;
    match a
    case Worker(w, op) => LateWorker(judge, s, w, op);
    case Orch(op) => LateOrch(s, op);
    case Api(op) => LateApi(s, op);
  }

  lemma LateApi(s: State, op: ApiOp)
    requires LateOk(s) && ApiEnabled(s, op)
    ensures LateOk(ApplyApi(s, op))
  {
  }

  lemma {:induction false} LateRun(judge: Evaluation, s: State, steps: seq<Step>, s': State)
    requires LateOk(s) && Run(judge, s, steps, s')
    ensures LateOk(s')
    decreases |steps|
  {
    hide Apply, Enabled, LateOk;
    if steps != [] {
      LateStep(judge, s, steps[0]);
      LateRun(judge, Apply(judge, s, steps[0]), steps[1..], s');
    }
  }

  /** After the shutdown key is set no worker takes more than one further job, and none once it has
      looked at the key. */
  lemma AtMostOneMoreJob(judge: Evaluation, s0: State, steps: seq<Step>, s: State)
    requires Start(s0)
    requires Run(judge, s0, steps, s) && s.orch.ShuttingDown?
    ensures forall w | 0 <= w < |s.procs| :: s.procs[w].late <= 1
    ensures forall w | 0 <= w < |s.procs| && s.procs[w].late == 1 :: !PastCheck(s.procs[w].pc)
  {
    LateRun(judge, s0, steps, s);
  }

  /** How many of its own steps a worker can still take once the shutdown key is set. */
  function StepsLeft(pc: Pc): nat {
    match pc
    case HeadLocal => 11
    case Beating => 10
    case Popping => 9
    case Popped(_) => 8
    case Running(_) => 7
    case Judging(_, _) => 6
    case Written(_) => 5
    case Retrying(_, _) => 4
    case Head => 3
    case Leaving => 2
    case LeavingBeat => 1
    case Gone => 0
    case Dead => 0
  }

  lemma OwnStepCounts(judge: Evaluation, s: State, w: nat, op: WorkerOp)
    requires WorkerEnabled(s, w, op) && s.flag
    ensures StepsLeft(ApplyWorker(judge, s, w, op).procs[w].pc) < StepsLeft(s.procs[w].pc)
  {
  }

  lemma OrchLeavesAlone(s: State, op: OrchOp, w: nat)
    requires OrchEnabled(s, op) && w < |s.procs|
    ensures w < |ApplyOrch(s, op).procs|
    ensures ApplyOrch(s, op).procs[w] == s.procs[w] || ApplyOrch(s, op).procs[w] == s.procs[w].(pc := Dead)
  {
  }

  lemma OthersLeaveAlone(judge: Evaluation, s: State, a: Step, w: nat)
    requires Enabled(s, a) && w < |s.procs| && !(a.Worker? && a.w == w)
    ensures w < |Apply(judge, s, a).procs|
    ensures Apply(judge, s, a).procs[w] == s.procs[w] || Apply(judge, s, a).procs[w] == s.procs[w].(pc := Dead)
  {
    hide ApplyWorker, ApplyOrch;
    match a
    case Worker(v, op) => WorkerFrame(judge, s, v, op);
    case Orch(op) => OrchLeavesAlone(s, op, w);
    case Api(op) =>
  }

  function OwnSteps(steps: seq<Step>, w: nat): nat {
    if steps == [] then 0 else (if steps[0].Worker? && steps[0].w == w then 1 else 0) + OwnSteps(steps[1..], w)
  }

  lemma FlagStays(judge: Evaluation, s: State, a: Step)
    requires Enabled(s, a) && s.flag && s.orch.ShuttingDown? && !(a.Orch? && a.orchOp.FinishShutdown?)
    ensures Apply(judge, s, a).flag && Apply(judge, s, a).orch.ShuttingDown?
  {
    match a
    case Worker(v, op) => WorkerFrame(judge, s, v, op); hide ApplyWorker;
    case Orch(op) =>
    case Api(op) =>
  }

  /** Shutdown terminates: until the orchestrator clears the key, a worker takes at most `StepsLeft` more
      steps of its own, whatever the others do. */
  lemma {:induction false} ShutdownIsBounded(judge: Evaluation, s: State, steps: seq<Step>, s': State, w: nat)
    requires Run(judge, s, steps, s') && s.flag && s.orch.ShuttingDown? && w < |s.procs|
    requires Orch(FinishShutdown) !in steps
    ensures w < |s'.procs| && OwnSteps(steps, w) + StepsLeft(s'.procs[w].pc) <= StepsLeft(s.procs[w].pc)
    decreases |steps|
  {
    hide Apply, Enabled, WorkerEnabled, ApplyWorker, ApplyOrch, ApplyApi, StepsLeft;
    if steps != [] {
      var a := steps[0];
      var m := Apply(judge, s, a);
      FlagStays(judge, s, a);
      ProgressStep(judge, s, a, w);
      ShutdownIsBounded(judge, m, steps[1..], s', w);
    }
  }

  lemma ProgressStep(judge: Evaluation, s: State, a: Step, w: nat)
    requires Enabled(s, a) && s.flag && w < |s.procs|
    ensures w < |Apply(judge, s, a).procs|
    ensures StepsLeft(Apply(judge, s, a).procs[w].pc) + (if a.Worker? && a.w == w then 1 else 0) <= StepsLeft(s.procs[w].pc)
  {
    if a.Worker? && a.w == w {
      WorkerFrame(judge, s, w, a.op);
      OwnStepCounts(judge, s, w, a.op);
    } else {
      OthersLeaveAlone(judge, s, a, w);
    }
    hide ApplyWorker, ApplyOrch, ApplyApi;
  }

  /** What a worker does next if nothing goes wrong outside; `world` is what it finds when it loads a row. */
  function NextOp(s: State, w: nat, world: Pipeline.World): (op: WorkerOp)
    requires w < |s.procs| && !Over(s.procs[w].pc)
    ensures WorkerEnabled(s, w, op) && !op.Die? && !op.Interrupt?
  {
    match s.procs[w].pc
    case Head => ReadFlag
    case HeadLocal => ReadStop
    case Beating => SetBeat
    case Popping => if s.jobs == [] then PopEmpty else Pop
    case Popped(_) => SetKey
    case Running(x) => if x in s.rows then Load(world) else MissingRow
    case Judging(_, o) => if o.Returned? then Write else if o.error == ValueError then RaiseValueError else RaiseOther
    case Written(_) => ClearKey
    case Retrying(_, _) => Repush
    case Leaving => LeaveStop
    case _ => LeaveBeat
  }

  // ----- Ctrl-C -----

  /** Inside the `try` Ctrl-C makes a worker leave its loop, whatever it holds; anywhere else it ends the process
      there and then. Either way no key is touched. */
  lemma InterruptEnds(judge: Evaluation, s: State, w: nat)
    requires WorkerEnabled(s, w, Interrupt)
    ensures var pc, s' := s.procs[w].pc, ApplyWorker(judge, s, w, Interrupt);
            && (pc.Popping? || (Hand(pc).Some? && !pc.Retrying?) ==> s'.procs[w].pc == Leaving)
            && (pc.Head? || pc.HeadLocal? || pc.Beating? || pc.Retrying? || pc.Leaving? || pc.LeavingBeat? ==> s'.procs[w].pc == Dead)
            && s' == s.(procs := s.procs[w := s'.procs[w]])
  {
  }

  // ----- shutdown keys -----

  lemma WorkersClearKeys(judge: Evaluation, s: State, w: nat, op: WorkerOp)
    requires WorkerEnabled(s, w, op)
    ensures ApplyWorker(judge, s, w, op).stopKeys <= s.stopKeys
  {
    hide NextProc;
  }

  lemma SignalSetsKey(s: State, op: OrchOp, w: nat)
    requires OrchEnabled(s, op) && op != StopSignal(w)
    ensures w in ApplyOrch(s, op).stopKeys ==> w in s.stopKeys
  {
    hide NextOrch, NextListed;
  }

  /** Only the orchestrator's signal sets a worker's shutdown key. */
  lemma KeySetBySignal(judge: Evaluation, s: State, a: Step, w: nat)
    requires Enabled(s, a) && w !in s.stopKeys && w in Apply(judge, s, a).stopKeys
    ensures a == Orch(StopSignal(w))
  {
    hide ApplyWorker, ApplyOrch;
    match a
    case Worker(v, op) => WorkersClearKeys(judge, s, v, op);
    case Orch(op) => if op != StopSignal(w) { SignalSetsKey(s, op, w); }
    case Api(op) =>
  }

  // ----- what a worker remembers -----

  /** The local `submission_id` of a worker: the last id it popped, and the only one it ever works on. */
  predicate Remembers(p: Proc) {
    (Hand(p.pc).Some? ==> p.local == Hand(p.pc)) && (p.pc.Retrying? ==> p.local == Some(p.pc.job))
  }

  predicate AllRemember(s: State) { forall w | 0 <= w < |s.procs| :: Remembers(s.procs[w]) }

  lemma RemembersNext(judge: Evaluation, s: State, w: nat, op: WorkerOp)
    requires WorkerEnabled(s, w, op) && Remembers(s.procs[w])
    ensures Remembers(NextProc(judge, s, w, op))
  {
  }

  lemma RememberOrch(s: State, op: OrchOp)
    requires AllRemember(s) && OrchEnabled(s, op)
    ensures AllRemember(ApplyOrch(s, op))
  {
    hide NextOrch, NextListed;
  }

  lemma RememberStep(judge: Evaluation, s: State, a: Step)
    requires AllRemember(s) && Enabled(s, a)
    ensures AllRemember(Apply(judge, s, a))
  {
    match a
    case Worker(w, op) => RemembersNext(judge, s, w, op); hide WorkerEffect, NextProc, Remembers;
    case Orch(op) => RememberOrch(s, op); hide ApplyOrch;
    case Api(op) => hide Remembers;
  }

  lemma {:induction false} RememberRun(judge: Evaluation, s: State, steps: seq<Step>, s': State)
    requires AllRemember(s) && Run(judge, s, steps, s')
    ensures AllRemember(s')
    decreases |steps|
  {
    hide Apply, Enabled, AllRemember;
    if steps != [] {
      RememberStep(judge, s, steps[0]);
      RememberRun(judge, Apply(judge, s, steps[0]), steps[1..], s');
    }
  }

  // ----- submission keys and reaping -----

  /** The job a worker's submission key must name. */
  function KeyedJob(pc: Pc): Option<Id> {
    match pc
    case Running(x) => Some(x)
    case Judging(x, _) => Some(x)
    case Written(x) => Some(x)
    case Retrying(x, o) => if o == Keyed then Some(x) else None
    case _ => None
  }

  predicate KeyNames(s: State, w: nat) {
    w < |s.procs| && KeyedJob(s.procs[w].pc).Some? ==>
      || (w in s.current && s.current[w] == KeyedJob(s.procs[w].pc).value)
      || (s.orch.Reaping? && s.orch.worker == w && s.orch.stage == KeysDeleted)
  }

  predicate KeysMatch(s: State) {
    !ShutdownBegun(s) ==> forall w | 0 <= w < |s.procs| :: KeyNames(s, w)
  }

  lemma KeysWorker(judge: Evaluation, s: State, w: nat, op: WorkerOp)
    requires KeysMatch(s) && WorkerEnabled(s, w, op)
    ensures KeysMatch(ApplyWorker(judge, s, w, op))
  {
    var s' := ApplyWorker(judge, s, w, op);
    WorkerFrame(judge, s, w, op);
    KeyFrame(judge, s, w, op);
    KeyedJobFrame(judge, s, w, op);
    hide WorkerEffect, NextPc, WorkerEnabled, KeyedJob;
    forall v | 0 <= v < |s'.procs| && !ShutdownBegun(s')
      ensures KeyNames(s', v)
    {
      assert KeyNames(s, v);
      assert KeyNames(s, w);
      hide ApplyWorker;
    }
  }

  lemma KeyFrame(judge: Evaluation, s: State, w: nat, op: WorkerOp)
    requires WorkerEnabled(s, w, op)
    ensures var s' := ApplyWorker(judge, s, w, op);
            && (forall v :: v != w ==> ((v in s'.current <==> v in s.current) && (v in s.current ==> s'.current[v] == s.current[v])))
            && (s'.current != s.current ==> op.SetKey? || op.ClearKey?)
            && (op.SetKey? ==> w in s'.current && s'.current[w] == s.procs[w].pc.job)
  {
    hide NextProc;
  }

  lemma KeyedJobFrame(judge: Evaluation, s: State, w: nat, op: WorkerOp)
    requires WorkerEnabled(s, w, op)
    ensures var keyed := KeyedJob(NextPc(judge, s, w, op));
            keyed.Some? ==>
              && !op.ClearKey?
              && (if op.SetKey? then keyed == Some(s.procs[w].pc.job) else keyed == KeyedJob(s.procs[w].pc))
  {
  }

  lemma KeysOrch(s: State, op: OrchOp)
    requires KeysMatch(s) && OrchEnabled(s, op)
    ensures KeysMatch(ApplyOrch(s, op))
  {
    var s' := ApplyOrch(s, op);
    forall v | 0 <= v < |s'.procs| && !ShutdownBegun(s')
      ensures KeyNames(s', v)
    {
      if v < |s.procs| {
        assert KeyNames(s, v);
      }
    }
  }

  lemma KeysStep(judge: Evaluation, s: State, a: Step)
    requires KeysMatch(s) && Enabled(s, a)
    ensures KeysMatch(Apply(judge, s, a))
  {
    hide KeysMatch, ApplyWorker, ApplyOrch, ApplyApi;
    match a
    case Worker(w, op) => KeysWorker(judge, s, w, op);
    case Orch(op) => KeysOrch(s, op);
    case Api(op) => KeysApi(s, op);
  }

  lemma KeysApi(s: State, op: ApiOp)
    requires KeysMatch(s) && ApiEnabled(s, op)
    ensures KeysMatch(ApplyApi(s, op))
  {
    var s' := ApplyApi(s, op);
    forall v | 0 <= v < |s'.procs| && !ShutdownBegun(s')
      ensures KeyNames(s', v)
    {
      assert KeyNames(s, v);
    }
  }

  lemma {:induction false} KeysRun(judge: Evaluation, s: State, steps: seq<Step>, s': State)
    requires KeysMatch(s) && Run(judge, s, steps, s')
    ensures KeysMatch(s')
    decreases |steps|
  {
    hide Apply, Enabled, KeysMatch;
    if steps != [] {
      KeysStep(judge, s, steps[0]);
      KeysRun(judge, Apply(judge, s, steps[0]), steps[1..], s');
    }
  }

  /** What happens between the key read and the kill when the frozen worker really is frozen. */
  predicate WithoutWakeUp(steps: seq<Step>, w: nat) {
    forall i | 0 <= i < |steps| ::
      match steps[i]
      case Worker(v, _) => v != w
      case Orch(op) => op == ReapPush || op.ReapDelete? || op == ManagerExit
      case Api(_) => true
  }

  lemma {:induction false} FrozenRun(judge: Evaluation, s: State, steps: seq<Step>, s': State, w: nat)
    requires Run(judge, s, steps, s') && WithoutWakeUp(steps, w) && w < |s.procs|
    requires s.orch.Reaping? && s.orch.worker == w
    ensures w < |s'.procs| && s'.procs[w] == s.procs[w]
    ensures s'.orch.Reaping? && s'.orch.worker == w && s'.orch.key == s.orch.key
    decreases |steps|
  {
    hide Apply, Enabled;
    if steps != [] {
      var a := steps[0];
      FrozenStep(judge, s, a, w);
      assert forall i | 0 <= i < |steps[1..]| :: steps[1..][i] == steps[i + 1];
      FrozenRun(judge, Apply(judge, s, a), steps[1..], s', w);
    }
  }

  lemma FrozenStep(judge: Evaluation, s: State, a: Step, w: nat)
    requires Enabled(s, a) && WithoutWakeUp([a], w) && w < |s.procs|
    requires s.orch.Reaping? && s.orch.worker == w
    ensures var s' := Apply(judge, s, a);
            && w < |s'.procs| && s'.procs[w] == s.procs[w]
            && s'.orch.Reaping? && s'.orch.worker == w && s'.orch.key == s.orch.key
  {
    assert [a][0] == a;
    match a
    case Worker(v, op) => WorkerFrame(judge, s, v, op); hide ApplyWorker;
    case Orch(op) =>
    case Api(op) =>
  }
}
