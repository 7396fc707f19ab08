/**
 Liveness of the job protocol without fairness: before a shutdown, from wherever a run has got to, the
 processes can bring every job that is in the list or in a worker's hands to its end.
 */
module JobLiveness {
  import opened JudgeTypes
  import opened Records
  import opened JobProtocol
  import opened JobConservation
  import opened JobLifecycle
  import opened JobLoss
  import opened JobShutdown
  import opened LeftoverKeys
  import Pipeline

  /** Something the judge does by itself and with nothing going wrong: no crash, no interrupt, no Redis error,
      no deletion, and nobody is killed with a job in hand. */
  predicate Ordinary(s: State, a: Step)
    requires Enabled(s, a)
  {
    match a
    case Worker(_, op) =>
      !op.Die? && !op.Interrupt? && !op.RepushError? && !op.PopError? && !op.SetKeyError? && !op.ClearKeyError?
    case Orch(op) => (op.StopKill? || op.ReapKill? ==> Hand(s.procs[s.orch.worker].pc) == None) && !op.BeginShutdown?
    case Api(_) => false
  }

  predicate OrdinaryRun(judge: Evaluation, s: State, steps: seq<Step>)
    decreases |steps|
  {
    steps == [] ||
    (Enabled(s, steps[0]) && Ordinary(s, steps[0]) && OrdinaryRun(judge, Apply(judge, s, steps[0]), steps[1..]))
  }

  ghost predicate Leads(judge: Evaluation, s: State, steps: seq<Step>, s': State) {
    Run(judge, s, steps, s') && OrdinaryRun(judge, s, steps)
  }

  lemma LeadsFirst(judge: Evaluation, s: State, a: Step, m: State, rest: seq<Step>, e: State)
    requires Enabled(s, a) && Ordinary(s, a) && m == Apply(judge, s, a) && Leads(judge, m, rest, e)
    ensures Leads(judge, s, [a] + rest, e)
  {
    hide Apply, Enabled, Ordinary;
    assert ([a] + rest)[1..] == rest;
  }

  lemma {:induction false} LeadsConcat(judge: Evaluation, s: State, a: seq<Step>, m: State, b: seq<Step>, e: State)
    requires Leads(judge, s, a, m) && Leads(judge, m, b, e)
    ensures Leads(judge, s, a + b, e)
    decreases |a|
  {
    hide Apply, Enabled, Ordinary;
    if a == [] {
      assert a + b == b;
    } else {
      assert (a + b)[1..] == a[1..] + b;
      LeadsConcat(judge, Apply(judge, s, a[0]), a[1..], m, b, e);
    }
  }

  // ----- one worker -----

  /** Steps to an empty hand. */
  function HandWork(pc: Pc): nat {
    match pc
    case Popped(_) => 5
    case Running(_) => 4
    case Judging(_, _) => 3
    case Written(_) => 2
    case Retrying(_, _) => 1
    case _ => 0
  }

  lemma NoHandWork(pc: Pc)
    ensures HandWork(pc) == 0 ==> Hand(pc) == None
  {
  }

  /** On the way to a recorded result, or to being dropped. */
  predicate WillFinish(pc: Pc) {
    pc.Popped? || pc.Running? || (pc.Judging? && pc.outcome != Raised(OtherError)) || pc.Written? || pc.Head?
  }

  /** All but the workers' places, the job list and the database is as before. */
  predicate SameSetting(s: State, s': State) {
    s'.orch == s.orch && s'.listed == s.listed && s'.flag == s.flag && s'.stopKeys == s.stopKeys && |s'.procs| == |s.procs|
  }

  lemma HandStep(judge: Evaluation, s: State, w: nat, world: Pipeline.World)
    requires w < |s.procs| && HandWork(s.procs[w].pc) > 0
    requires judge(s.procs[w].pc.job, world) != Raised(OtherError)
    ensures var op := NextOp(s, w, world); var s' := ApplyWorker(judge, s, w, op);
            && Ordinary(s, Worker(w, op)) && SameSetting(s, s') && s'.procs == s.procs[w := s'.procs[w]]
            && HandWork(s'.procs[w].pc) < HandWork(s.procs[w].pc)
            && (HandWork(s'.procs[w].pc) > 0 ==> s'.procs[w].pc.job == s.procs[w].pc.job)
            && (WillFinish(s.procs[w].pc) ==> WillFinish(s'.procs[w].pc) && s'.jobs == s.jobs)
  {
  }

  /** A worker comes to the end of what it has in hand; if nothing has gone wrong yet, without pushing it back. */
  lemma {:induction false} EmptyHand(judge: Evaluation, works: Id -> Pipeline.World, s: State, w: nat)
    returns (steps: seq<Step>, s': State)
    requires w < |s.procs| && forall x: Id :: judge(x, works(x)) != Raised(OtherError)
    ensures Leads(judge, s, steps, s') && SameSetting(s, s') && s'.procs == s.procs[w := s'.procs[w]]
    ensures HandWork(s'.procs[w].pc) == 0
    ensures WillFinish(s.procs[w].pc) ==> s'.jobs == s.jobs && s'.procs[w].pc == Head
    decreases HandWork(s.procs[w].pc)
  {
    if HandWork(s.procs[w].pc) == 0 {
      return [], s;
    }
    var world := works(s.procs[w].pc.job);
    var op := NextOp(s, w, world);
    HandStep(judge, s, w, world);
    var m := ApplyWorker(judge, s, w, op);
    hide ApplyWorker, NextOp, Ordinary, WorkerEnabled, Leads;
    var rest;
    rest, s' := EmptyHand(judge, works, m, w);
    LeadsFirst(judge, s, Worker(w, op), m, rest, s');
    steps := [Worker(w, op)] + rest;
  }

  predicate HandsEmpty(s: State, n: nat) { forall w | 0 <= w < |s.procs| && w < n :: HandWork(s.procs[w].pc) == 0 }

  lemma {:induction false} EmptyHands(judge: Evaluation, works: Id -> Pipeline.World, s: State, n: nat)
    returns (steps: seq<Step>, s': State)
    requires n <= |s.procs| && forall x: Id :: judge(x, works(x)) != Raised(OtherError)
    ensures Leads(judge, s, steps, s') && SameSetting(s, s') && HandsEmpty(s', n)
    decreases n
  {
    hide HandWork, Leads;
    if n == 0 {
      NothingToDo(judge, s);
      return [], s;
    }
    var first, m := EmptyHands(judge, works, s, n - 1);
    var rest;
    rest, s' := EmptyHand(judge, works, m, n - 1);
    LeadsConcat(judge, s, first, m, rest, s');
    steps := first + rest;
  }

  lemma NothingToDo(judge: Evaluation, s: State)
    ensures Leads(judge, s, [], s)
  {
  }

  // ----- the orchestrator -----

  function OrchWork(o: Orchestrator): nat {
    match o
    case Starting(_) => 3
    case Spawning(_, unstopped) => if unstopped then 1 else 2
    case Stopping(_) => 2
    case Joining(_) => 1
    case JoiningGone(_) => 1
    case Reaping(_, _, stage) => if stage.KeyRead? then 3 else if stage.Requeued? then 2 else 1
    case _ => 0
  }

  /** What the orchestrator finds in order. */
  predicate InOrder(s: State) { JoinSafe(s) && Ranked(s) && ReapsSpawned(s) && !ShutdownBegun(s) }

  function NextOrchOp(s: State): (op: OrchOp)
    requires InOrder(s) && !s.orch.Free?
    ensures OrchEnabled(s, op)
  {
    match s.orch
    case Starting(_) => SpawnAppend
    case Spawning(w, unstopped) => if unstopped then SpawnBeat(w) else SpawnStopKey
    case Stopping(w) => StopSignal(w)
    case Joining(w) => if Over(s.procs[w].pc) then StopJoined else StopKill
    case JoiningGone(_) => JoinGone
    case Reaping(w, _, stage) => if stage.KeyRead? then ReapPush else if stage.Requeued? then ReapDelete(w) else ReapKill
  }

  lemma OrchStep(judge: Evaluation, s: State)
    requires InOrder(s) && !s.orch.Free? && HandsEmpty(s, |s.procs|)
    ensures var op := NextOrchOp(s); var s' := ApplyOrch(s, op);
            && Ordinary(s, Orch(op)) && OrchWork(s'.orch) < OrchWork(s.orch) && !ShutdownBegun(s')
            && |s'.procs| == |s.procs| && HandsEmpty(s', |s.procs|)
  {
    var op := NextOrchOp(s);
    OrchMoves(s, op);
    if op.StopKill? || op.ReapKill? {
      NoHandWork(s.procs[s.orch.worker].pc);
    }
    hide OrchEffect, NextListed, JoinSafe, Ranked;
  }

  /** The orchestrator may end processes and does nothing else to them. */
  lemma OrchMoves(s: State, op: OrchOp)
    requires OrchEnabled(s, op) && !op.SpawnStart?
    ensures var s' := ApplyOrch(s, op);
            |s'.procs| == |s.procs| && forall w | 0 <= w < |s.procs| :: s'.procs[w] == s.procs[w] || s'.procs[w].pc == Dead
  {
    hide NextOrch, NextListed;
  }

  lemma {:induction false} FreeOrchestrator(judge: Evaluation, s: State) returns (steps: seq<Step>, s': State)
    requires InOrder(s) && HandsEmpty(s, |s.procs|)
    ensures Leads(judge, s, steps, s') && InOrder(s') && s'.orch == Free && HandsEmpty(s', |s'.procs|)
    decreases OrchWork(s.orch)
  {
    hide HandsEmpty, Leads, JoinSafe, Ranked, ApplyOrch, ReapsSpawned, Ordinary;
    if s.orch.Free? {
      NothingToDo(judge, s);
      return [], s;
    }
    var op := NextOrchOp(s);
    var m := ApplyOrch(s, op);
    OrchStep(judge, s);
    JoinSafeStep(judge, s, Orch(op));
    RankedStep(judge, s, Orch(op));
    ReapsSpawnedStep(judge, s, Orch(op));
    hide NextOrchOp, OrchEnabled;
    var rest;
    rest, s' := FreeOrchestrator(judge, m);
    LeadsFirst(judge, s, Orch(op), m, rest, s');
    steps := [Orch(op)] + rest;
  }

  /** A worker at the loop head that nobody has told to stop. */
  predicate ReadyToServe(s: State, w: nat) {
    w < |s.procs| && s.procs[w].pc == Head && !s.flag && w !in s.stopKeys
  }

  lemma NewWorker(judge: Evaluation, s: State) returns (steps: seq<Step>, s': State)
    requires s.orch == Free && !s.flag && HandsEmpty(s, |s.procs|)
    ensures Leads(judge, s, steps, s') && HandsEmpty(s', |s'.procs|) && s'.jobs == s.jobs
    ensures |s'.procs| == |s.procs| + 1 && ReadyToServe(s', |s.procs|)
    ensures s'.orch == Free && !s'.flag && s'.stopKeys == s.stopKeys - {|s.procs|}
    ensures forall a | a in steps :: a.Orch? && !a.orchOp.StopSignal? && !a.orchOp.BeginShutdown?
  {
    var v := |s.procs|;
    var a := s.(procs := s.procs + [Proc(Head, None, 0)], orch := Starting(v));
    var b := a.(listed := s.listed + [v], orch := Spawning(v, false));
    var c := b.(stopKeys := s.stopKeys - {v}, orch := Spawning(v, true));
    s' := c.(beats := s.beats + {v}, orch := Free);
    NothingToDo(judge, s');
    hide Leads;
    LeadsFirst(judge, c, Orch(SpawnBeat(v)), s', [], s');
    LeadsFirst(judge, b, Orch(SpawnStopKey), c, [Orch(SpawnBeat(v))] + [], s');
    LeadsFirst(judge, a, Orch(SpawnAppend), b, [Orch(SpawnStopKey)] + ([Orch(SpawnBeat(v))] + []), s');
    steps := [Orch(SpawnStart)] + ([Orch(SpawnAppend)] + ([Orch(SpawnStopKey)] + ([Orch(SpawnBeat(v))] + [])));
    LeadsFirst(judge, s, Orch(SpawnStart), a, [Orch(SpawnAppend)] + ([Orch(SpawnStopKey)] + ([Orch(SpawnBeat(v))] + [])), s');
  }

  // ----- serving the list -----

  lemma ToPop(judge: Evaluation, s: State, w: nat) returns (steps: seq<Step>, s': State)
    requires ReadyToServe(s, w)
    ensures Leads(judge, s, steps, s') && SameSetting(s, s') && s'.jobs == s.jobs
    ensures s'.procs == s.procs[w := s'.procs[w]] && s'.procs[w].pc == Popping
  {
    var p := s.procs[w];
    var a := s.(procs := s.procs[w := p.(pc := HeadLocal)]);
    var b := s.(procs := s.procs[w := p.(pc := Beating)]);
    s' := s.(procs := s.procs[w := p.(pc := Popping)], beats := s.beats + {w});
    NothingToDo(judge, s');
    hide Leads;
    assert a == ApplyWorker(judge, s, w, ReadFlag);
    assert b == ApplyWorker(judge, a, w, ReadStop);
    assert s' == ApplyWorker(judge, b, w, SetBeat);
    LeadsFirst(judge, b, Worker(w, SetBeat), s', [], s');
    LeadsFirst(judge, a, Worker(w, ReadStop), b, [Worker(w, SetBeat)] + [], s');
    LeadsFirst(judge, s, Worker(w, ReadFlag), a, [Worker(w, ReadStop)] + ([Worker(w, SetBeat)] + []), s');
    steps := [Worker(w, ReadFlag)] + ([Worker(w, ReadStop)] + ([Worker(w, SetBeat)] + []));
  }

  lemma TakeOne(judge: Evaluation, s: State, w: nat) returns (s': State)
    requires w < |s.procs| && s.procs[w].pc == Popping && s.jobs != []
    ensures Leads(judge, s, [Worker(w, Pop)] + [], s') && SameSetting(s, s') && s'.jobs == s.jobs[..|s.jobs| - 1]
    ensures s'.procs == s.procs[w := s'.procs[w]] && s'.procs[w].pc.Popped?
  {
    s' := ApplyWorker(judge, s, w, Pop);
    NothingToDo(judge, s');
    hide Leads;
    LeadsFirst(judge, s, Worker(w, Pop), s', [], s');
  }

  /** One job, from the list to its end. */
  lemma ServeOne(judge: Evaluation, works: Id -> Pipeline.World, s: State, w: nat) returns (steps: seq<Step>, s': State)
    requires ReadyToServe(s, w) && HandsEmpty(s, |s.procs|) && s.jobs != []
    requires forall x: Id :: judge(x, works(x)) != Raised(OtherError)
    ensures Leads(judge, s, steps, s') && |s'.jobs| < |s.jobs| && ReadyToServe(s', w)
    ensures |s'.procs| == |s.procs| && HandsEmpty(s', |s.procs|)
  {
    hide Leads, HandWork;
    var first, m := ToPop(judge, s, w);
    var n := TakeOne(judge, m, w);
    var rest;
    rest, s' := EmptyHand(judge, works, n, w);
    LeadsConcat(judge, m, [Worker(w, Pop)] + [], n, rest, s');
    LeadsConcat(judge, s, first, m, [Worker(w, Pop)] + [] + rest, s');
    steps := first + ([Worker(w, Pop)] + [] + rest);
  }

  lemma {:induction false} ServeAll(judge: Evaluation, works: Id -> Pipeline.World, s: State, w: nat) returns (steps: seq<Step>, s': State)
    requires ReadyToServe(s, w) && HandsEmpty(s, |s.procs|)
    requires forall x: Id :: judge(x, works(x)) != Raised(OtherError)
    ensures Leads(judge, s, steps, s') && s'.jobs == [] && HandsEmpty(s', |s'.procs|)
    decreases |s.jobs|
  {
    hide Leads, HandsEmpty, ReadyToServe;
    if s.jobs == [] {
      NothingToDo(judge, s);
      return [], s;
    }
    var first, m := ServeOne(judge, works, s, w);
    var rest;
    rest, s' := ServeAll(judge, works, m, w);
    LeadsConcat(judge, s, first, m, rest, s');
    steps := first + rest;
  }

  // ----- together -----

  lemma {:induction false} OrdinaryEndsNobody(judge: Evaluation, s: State, steps: seq<Step>, x: Id)
    requires OrdinaryRun(judge, s, steps)
    ensures NoLastHolderEnds(judge, s, steps, x)
    decreases |steps|
  {
    hide Apply, Enabled;
    if steps != [] {
      OrdinaryEndsNobody(judge, Apply(judge, s, steps[0]), steps[1..], x);
    }
  }

  lemma {:induction false} KeptAtTheEnd(judge: Evaluation, s: State, steps: seq<Step>, s': State, x: Id)
    requires Run(judge, s, steps, s') && KeptThroughout(judge, s, steps, x)
    ensures KeptNow(s', x)
    decreases |steps|
  {
    hide Apply, Enabled, KeptNow;
    if steps != [] {
      KeptAtTheEnd(judge, Apply(judge, s, steps[0]), steps[1..], s', x);
    }
  }

  lemma {:induction false} EnqueuedStays(judge: Evaluation, s: State, steps: seq<Step>, s': State, x: Id)
    requires Run(judge, s, steps, s') && x in s.enqueued
    ensures x in s'.enqueued
    decreases |steps|
  {
    hide Apply, Enabled;
    if steps != [] {
      EnqueuedStep(judge, s, steps[0], x);
      EnqueuedStays(judge, Apply(judge, s, steps[0]), steps[1..], s', x);
    }
  }

  lemma CopiedMeansEnqueued(s: State, x: Id)
    requires Known(s) && Copies(s, x) > 0
    ensures x in s.enqueued
  {
    if x !in s.jobs {
      assert multiset(s.jobs)[x] == 0;
      HeldSomewhere(s.procs, x);
      var w :| 0 <= w < |s.procs| && Hand(s.procs[w].pc) == Some(x);
      assert Mentioned(s.procs[w].pc) == Some(x);
    }
  }

  lemma NothingLeftOver(s: State, x: Id)
    requires s.jobs == [] && HandsEmpty(s, |s.procs|)
    ensures Copies(s, x) == 0
  {
    if InHands(s.procs, x) > 0 {
      HeldSomewhere(s.procs, x);
      var w :| 0 <= w < |s.procs| && Hand(s.procs[w].pc) == Some(x);
      NoHandWork(s.procs[w].pc);
    }
  }

  /** Some ordinary continuation leaves the list and all hands empty and everything that was there settled. */
  ghost predicate CanFinish(judge: Evaluation, s: State) {
    exists steps, s' ::
      && Run(judge, s, steps, s') && OrdinaryRun(judge, s, steps)
      && s'.jobs == [] && (forall x | Copies(s, x) > 0 :: Settled(s', x))
  }

  lemma FinishesAll(judge: Evaluation, s: State, steps: seq<Step>, s': State)
    requires NeverPending(judge) && Sound(s) && Leads(judge, s, steps, s')
    requires s'.jobs == [] && HandsEmpty(s', |s'.procs|)
    ensures CanFinish(judge, s)
  {
    hide Run, OrdinaryRun, HandsEmpty, Copies, Settled, NoLastHolderEnds, KeptThroughout;
    forall x | Copies(s, x) > 0
      ensures Settled(s', x)
    {
      CopiedMeansEnqueued(s, x);
      EnqueuedStays(judge, s, steps, s', x);
      OrdinaryEndsNobody(judge, s, steps, x);
      KeptRun(judge, s, steps, s', x);
      KeptAtTheEnd(judge, s, steps, s', x);
      NothingLeftOver(s', x);
    }
  }

  /** From every state a run can reach before a shutdown, and provided no submission fails for ever with an
      error that is retried, the judge can bring every job in the list or in a hand to its end by ordinary steps alone. */
  lemma JobsCanAlwaysFinish(judge: Evaluation, works: Id -> Pipeline.World, s0: State, before: seq<Step>, s: State)
    requires Start(s0) && Known(s0) && NeverPending(judge) && Run(judge, s0, before, s) && !ShutdownBegun(s)
    requires forall x: Id :: judge(x, works(x)) != Raised(OtherError)
    ensures CanFinish(judge, s)
  {
    SoundRun(judge, s0, before, s);
    AllInOrder(judge, s0, before, s);
    hide Run, Leads, HandsEmpty, JoinSafe, Ranked, ReapsSpawned, CanFinish;
    var a, m := EmptyHands(judge, works, s, |s.procs|);
    SettingInOrder(judge, s0, before, s, a, m);
    var b, n := FreeOrchestrator(judge, m);
    FlagDown(judge, s0, before, s, a + b, n) by { LeadsConcat(judge, s, a, m, b, n); }
    var c, o := NewWorker(judge, n);
    var d, e := ServeAll(judge, works, o, |n.procs|);
    LeadsConcat(judge, s, a, m, b, n);
    LeadsConcat(judge, s, a + b, n, c, o);
    LeadsConcat(judge, s, a + b + c, o, d, e);
    FinishesAll(judge, s, a + b + c + d, e);
  }

  lemma AllInOrder(judge: Evaluation, s0: State, before: seq<Step>, s: State)
    requires Start(s0) && Run(judge, s0, before, s)
    ensures JoinSafe(s) && Ranked(s) && ReapsSpawned(s) && LateOk(s)
  {
    JoinSafeRun(judge, s0, before, s);
    RankedRun(judge, s0, before, s);
    LateRun(judge, s0, before, s);
    ReapsSpawnedRun(judge, s0, before, s);
  }

  lemma {:induction false} ReapsSpawnedRun(judge: Evaluation, s: State, steps: seq<Step>, s': State)
    requires ReapsSpawned(s) && Run(judge, s, steps, s')
    ensures ReapsSpawned(s')
    decreases |steps|
  {
    hide Apply, Enabled, ReapsSpawned;
    if steps != [] {
      ReapsSpawnedStep(judge, s, steps[0]);
      ReapsSpawnedRun(judge, Apply(judge, s, steps[0]), steps[1..], s');
    }
  }

  lemma SettingInOrder(judge: Evaluation, s0: State, before: seq<Step>, s: State, a: seq<Step>, m: State)
    requires Start(s0) && Run(judge, s0, before, s) && !ShutdownBegun(s) && Leads(judge, s, a, m) && SameSetting(s, m)
    ensures InOrder(m)
  {
    RunConcat(judge, s0, before, s, a, m);
    AllInOrder(judge, s0, before + a, m);
  }

  lemma FlagDown(judge: Evaluation, s0: State, before: seq<Step>, s: State, a: seq<Step>, n: State)
    requires Start(s0) && Run(judge, s0, before, s) && Leads(judge, s, a, n) && n.orch == Free
    ensures !n.flag
  {
    RunConcat(judge, s0, before, s, a, n);
    AllInOrder(judge, s0, before + a, n);
  }
}
