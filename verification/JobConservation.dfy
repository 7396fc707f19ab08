/**
 Where the copies of a submission id are, and which steps can lose the last one.
 */
module JobConservation {
  import opened JudgeTypes
  import opened Records
  import opened JobProtocol
  import Pipeline

  function InHands(ps: seq<Proc>, x: Id): nat {
    if ps == [] then 0 else One(Hand(ps[0].pc) == Some(x)) + InHands(ps[1..], x)
  }

  /** Copies of an id in the job list and in the hands of live workers. */
  function Copies(s: State, x: Id): nat { multiset(s.jobs)[x] + InHands(s.procs, x) }

  /** Nothing is left to do for this id: judged, given up on a ValueError, or its row deleted. */
  predicate Settled(s: State, x: Id) {
    x in s.deleted || x in s.dropped || (x in s.rows && s.rows[x] != UNJUDGED)
  }

  lemma {:induction false} InHandsUpdate(ps: seq<Proc>, w: nat, p: Proc, x: Id)
    requires w < |ps|
    ensures InHands(ps[w := p], x) == InHands(ps, x) - One(Hand(ps[w].pc) == Some(x)) + One(Hand(p.pc) == Some(x))
  {
    if w > 0 {
      InHandsUpdate(ps[1..], w - 1, p, x);
      assert ps[w := p][1..] == ps[1..][w - 1 := p];
    }
  }

  lemma {:induction false} InHandsAppend(ps: seq<Proc>, p: Proc, x: Id)
    ensures InHands(ps + [p], x) == InHands(ps, x) + One(Hand(p.pc) == Some(x))
  {
    if ps != [] {
      InHandsAppend(ps[1..], p, x);
      assert (ps + [p])[1..] == ps[1..] + [p];
    }
  }

  lemma {:induction false} HeldSomewhere(ps: seq<Proc>, x: Id)
    requires InHands(ps, x) > 0
    ensures exists w :: 0 <= w < |ps| && Hand(ps[w].pc) == Some(x)
  {
    if Hand(ps[0].pc) == Some(x) {
    } else {
      HeldSomewhere(ps[1..], x);
      var w :| 0 <= w < |ps[1..]| && Hand(ps[1..][w].pc) == Some(x);
      assert ps[w + 1] == ps[1..][w];
    }
  }

  lemma {:induction false} HeldIsCounted(ps: seq<Proc>, w: nat, x: Id)
    requires w < |ps| && Hand(ps[w].pc) == Some(x)
    ensures InHands(ps, x) > 0
  {
    if w > 0 {
      HeldIsCounted(ps[1..], w - 1, x);
    }
  }

  lemma PushedLeft(jobs: seq<Id>, y: Id, x: Id)
    ensures multiset([y] + jobs)[x] == multiset(jobs)[x] + One(y == x)
  {
  }

  // ----- how a step changes the number of copies -----

  function WorkerGain(s: State, w: nat, op: WorkerOp, x: Id): int
    requires WorkerEnabled(s, w, op)
  {
    var pc := s.procs[w].pc;
    match op
    case Repush => One(pc.origin == Stale && pc.job == x)
    case MissingRow => -One(pc.job == x)
    case RaiseValueError => -One(pc.job == x)
    case ClearKey => -One(pc.job == x)
    case RepushError => -One(Hand(pc) == Some(x))
    case Interrupt => -One(Hand(pc) == Some(x))
    case Die => -One(Hand(pc) == Some(x))
    case _ => 0
  }

  function OrchGain(s: State, op: OrchOp, x: Id): int
    requires OrchEnabled(s, op)
  {
    match op
    case ReapPush => One(s.orch.key == Some(x))
    case ReapKill => -One(Hand(s.procs[s.orch.worker].pc) == Some(x))
    case StopKill => -One(Hand(s.procs[s.orch.worker].pc) == Some(x))
    case _ => 0
  }

  /** What a worker's step adds to the job list. */
  function ListGain(s: State, w: nat, op: WorkerOp, x: Id): int
    requires WorkerEnabled(s, w, op)
  {
    match op
    case Pop => -One(LastJob(s) == x)
    case Repush => One(s.procs[w].pc.job == x)
    case _ => 0
  }

  lemma ListChanges(s: State, w: nat, op: WorkerOp, x: Id)
    requires WorkerEnabled(s, w, op)
    ensures multiset(WorkerEffect(s, w, op).jobs)[x] == multiset(s.jobs)[x] + ListGain(s, w, op, x)
  {
    if op.Pop? {
      assert s.jobs == s.jobs[..|s.jobs| - 1] + [LastJob(s)];
    } else if op.Repush? {
      PushedLeft(s.jobs, s.procs[w].pc.job, x);
    }
  }

  lemma HandChanges(judge: Evaluation, s: State, w: nat, op: WorkerOp, x: Id)
    requires WorkerEnabled(s, w, op)
    ensures One(Hand(NextPc(judge, s, w, op)) == Some(x)) - One(Hand(s.procs[w].pc) == Some(x))
         == WorkerGain(s, w, op, x) - ListGain(s, w, op, x)
  {
  }

  lemma WorkerCopies(judge: Evaluation, s: State, w: nat, op: WorkerOp, x: Id)
    requires WorkerEnabled(s, w, op)
    ensures Copies(ApplyWorker(judge, s, w, op), x) == Copies(s, x) + WorkerGain(s, w, op, x)
  {
    ListChanges(s, w, op, x);
    HandChanges(judge, s, w, op, x);
    InHandsUpdate(s.procs, w, NextProc(judge, s, w, op), x);
    hide WorkerEffect, NextPc, WorkerGain, ListGain, Hand;
  }

  lemma KillCopies(s: State, w: nat, x: Id)
    requires w < |s.procs|
    ensures Copies(Kill(s, w), x) == Copies(s, x) - One(Hand(s.procs[w].pc) == Some(x))
  {
    InHandsUpdate(s.procs, w, s.procs[w].(pc := Dead), x);
  }

  /** The orchestrator's own variables hold no copies. */
  lemma EffectCopies(s: State, op: OrchOp, x: Id)
    requires OrchEnabled(s, op)
    ensures Copies(ApplyOrch(s, op), x) == Copies(OrchEffect(s, op), x)
  {
    hide OrchEffect, NextOrch, NextListed;
  }

  lemma OrchCopies(s: State, op: OrchOp, x: Id)
    requires OrchEnabled(s, op)
    ensures Copies(ApplyOrch(s, op), x) == Copies(s, x) + OrchGain(s, op, x)
  {
    EffectCopies(s, op, x);
    hide ApplyOrch;
    if op.ReapKill? || op.StopKill? {
      KillCopies(s, s.orch.worker, x);
      hide Kill, Copies;
    } else if op.SpawnStart? {
      InHandsAppend(s.procs, Proc(Head, None, 0), x);
    } else if op.ReapPush? && s.orch.key.Some? {
      PushedLeft(s.jobs, s.orch.key.value, x);
    }
  }

  lemma ApiCopies(s: State, op: ApiOp, x: Id)
    requires ApiEnabled(s, op)
    ensures Copies(ApplyApi(s, op), x) == Copies(s, x) + One(op == Enqueue(x))
  {
    if op.Enqueue? {
      PushedLeft(s.jobs, op.id, x);
    }
  }

  // ----- no invented jobs -----

  /** The id a worker's program counter mentions, held or stale. */
  function Mentioned(pc: Pc): Option<Id> {
    if pc.Retrying? then Some(pc.job) else Hand(pc)
  }

  predicate ProcsKnown(s: State) {
    forall w | 0 <= w < |s.procs| ::
      && (Mentioned(s.procs[w].pc).Some? ==> Mentioned(s.procs[w].pc).value in s.enqueued)
      && (s.procs[w].local.Some? ==> s.procs[w].local.value in s.enqueued)
  }

  /** Every id anywhere in the protocol was enqueued by the API, and its row was committed first. */
  predicate Known(s: State) {
    && (forall x | x in s.jobs :: x in s.enqueued)
    && ProcsKnown(s)
    && (forall w | w in s.current :: s.current[w] in s.enqueued)
    && (s.orch.Reaping? && s.orch.key.Some? ==> s.orch.key.value in s.enqueued)
    && (forall x | x in s.enqueued :: x in s.rows || x in s.deleted)
    && (forall x | x in s.awaiting :: (x in s.rows || x in s.deleted) && x !in s.enqueued)
    && s.dropped <= s.enqueued
  }

  lemma KnownPlaced(s: State, w: nat, p: Proc)
    requires Known(s) && w < |s.procs|
    requires Mentioned(p.pc).Some? ==> Mentioned(p.pc).value in s.enqueued
    requires p.local.Some? ==> p.local.value in s.enqueued
    ensures Known(s.(procs := s.procs[w := p]))
  {
  }

  /** A worker learns of an id only from the list. */
  lemma KnownNext(judge: Evaluation, s: State, w: nat, op: WorkerOp)
    requires Known(s) && WorkerEnabled(s, w, op)
    ensures var p := NextProc(judge, s, w, op);
            && (Mentioned(p.pc).Some? ==> Mentioned(p.pc).value in s.enqueued)
            && (p.local.Some? ==> p.local.value in s.enqueued)
  {
    assert Mentioned(s.procs[w].pc).Some? ==> Mentioned(s.procs[w].pc).value in s.enqueued;
    if op.Pop? {
      assert LastJob(s) in s.jobs;
    }
  }

  lemma KnownJob(s: State, w: nat, op: WorkerOp)
    requires Known(s) && WorkerEnabled(s, w, op)
    requires op.SetKey? || op.MissingRow? || op.RaiseValueError? || op.Write? || op.Repush?
    ensures s.procs[w].pc.job in s.enqueued
  {
    assert Mentioned(s.procs[w].pc) == Some(s.procs[w].pc.job);
  }

  lemma KnownEffect(s: State, w: nat, op: WorkerOp)
    requires Known(s) && WorkerEnabled(s, w, op)
    ensures Known(WorkerEffect(s, w, op))
    ensures WorkerEffect(s, w, op).procs == s.procs && WorkerEffect(s, w, op).enqueued == s.enqueued
  {
    if op.SetKey? || op.MissingRow? || op.RaiseValueError? || op.Write? || op.Repush? {
      KnownJobEffect(s, w, op);
      hide Known;
    } else if op.Pop? {
      KnownPopEffect(s, w);
    }
  }

  lemma KnownPopEffect(s: State, w: nat)
    requires Known(s) && WorkerEnabled(s, w, Pop)
    ensures Known(WorkerEffect(s, w, Pop))
  {
    assert forall x | x in WorkerEffect(s, w, Pop).jobs :: x in s.jobs;
  }

  lemma KnownJobEffect(s: State, w: nat, op: WorkerOp)
    requires Known(s) && WorkerEnabled(s, w, op)
    requires op.SetKey? || op.MissingRow? || op.RaiseValueError? || op.Write? || op.Repush?
    ensures Known(WorkerEffect(s, w, op))
  {
    KnownJob(s, w, op);
  }

  lemma KnownWorker(judge: Evaluation, s: State, w: nat, op: WorkerOp)
    requires Known(s) && WorkerEnabled(s, w, op)
    ensures Known(ApplyWorker(judge, s, w, op))
  {
    KnownEffect(s, w, op);
    KnownNext(judge, s, w, op);
    KnownPlaced(WorkerEffect(s, w, op), w, NextProc(judge, s, w, op));
    hide Known, WorkerEffect, NextProc;
  }

  lemma KnownKill(s: State, w: nat)
    requires Known(s) && w < |s.procs|
    ensures Known(Kill(s, w))
  {
    if !Over(s.procs[w].pc) {
      KnownPlaced(s, w, s.procs[w].(pc := Dead));
    }
  }

  lemma KnownOrchEffect(s: State, op: OrchOp)
    requires Known(s) && OrchEnabled(s, op)
    ensures Known(OrchEffect(s, op)) && OrchEffect(s, op).enqueued == s.enqueued
  {
    if op.StopKill? || op.ReapKill? {
      KnownKill(s, s.orch.worker);
      hide Known;
    } else if !op.SpawnStart? {
      hide ProcsKnown, Kill;
    }
  }

  lemma NextKeyKnown(s: State, op: OrchOp)
    requires Known(s) && OrchEnabled(s, op)
    ensures NextOrch(s, op).Reaping? && NextOrch(s, op).key.Some? ==> NextOrch(s, op).key.value in s.enqueued
  {
    hide ProcsKnown;
  }

  lemma KnownOwn(s: State, orch: Orchestrator, listed: seq<nat>)
    requires Known(s) && (orch.Reaping? && orch.key.Some? ==> orch.key.value in s.enqueued)
    ensures Known(s.(orch := orch, listed := listed))
  {
  }

  lemma KnownOrch(s: State, op: OrchOp)
    requires Known(s) && OrchEnabled(s, op)
    ensures Known(ApplyOrch(s, op))
  {
    KnownOrchEffect(s, op);
    NextKeyKnown(s, op);
    KnownOwn(OrchEffect(s, op), NextOrch(s, op), NextListed(s, op));
    hide Known, OrchEffect, NextOrch, NextListed;
  }

  lemma KnownApi(s: State, op: ApiOp)
    requires Known(s) && ApiEnabled(s, op)
    ensures Known(ApplyApi(s, op))
  {
  }

  // ----- upper bound on copies -----

  predicate FewCopies(s: State, x: Id) {
    Copies(s, x) <= One(x in s.enqueued) + s.reaped[x] + s.stale[x]
  }

  lemma HistoryWorker(judge: Evaluation, s: State, w: nat, op: WorkerOp, x: Id)
    requires WorkerEnabled(s, w, op)
    ensures var s' := ApplyWorker(judge, s, w, op);
            && s'.enqueued == s.enqueued && s'.reaped == s.reaped
            && s'.stale[x] == s.stale[x] + One(op.Repush? && s.procs[w].pc.origin == Stale && s.procs[w].pc.job == x)
  {
    hide NextProc;
  }

  lemma GainIsStale(s: State, w: nat, op: WorkerOp, x: Id)
    requires WorkerEnabled(s, w, op)
    ensures WorkerGain(s, w, op, x) <= One(op.Repush? && s.procs[w].pc.origin == Stale && s.procs[w].pc.job == x)
  {
  }

  lemma FewCopiesWorker(judge: Evaluation, s: State, w: nat, op: WorkerOp, x: Id)
    requires FewCopies(s, x) && WorkerEnabled(s, w, op)
    ensures FewCopies(ApplyWorker(judge, s, w, op), x)
  {
    WorkerCopies(judge, s, w, op, x);
    HistoryWorker(judge, s, w, op, x);
    GainIsStale(s, w, op, x);
    hide ApplyWorker, WorkerGain, Copies;
  }

  lemma HistoryOrch(s: State, op: OrchOp, x: Id)
    requires OrchEnabled(s, op)
    ensures var s' := ApplyOrch(s, op);
            && s'.enqueued == s.enqueued && s'.stale == s.stale
            && s'.reaped[x] == s.reaped[x] + One(op.ReapPush? && s.orch.key == Some(x))
  {
    hide NextOrch, NextListed;
  }

  lemma FewCopiesOrch(s: State, op: OrchOp, x: Id)
    requires FewCopies(s, x) && OrchEnabled(s, op)
    ensures FewCopies(ApplyOrch(s, op), x)
  {
    OrchCopies(s, op, x);
    HistoryOrch(s, op, x);
    assert OrchGain(s, op, x) <= One(op.ReapPush? && s.orch.key == Some(x));
    hide ApplyOrch, OrchGain, Copies, OrchEnabled;
  }

  lemma FewCopiesApi(s: State, op: ApiOp, x: Id)
    requires Known(s) && FewCopies(s, x) && ApiEnabled(s, op)
    ensures FewCopies(ApplyApi(s, op), x)
  {
    ApiCopies(s, op, x);
  }

  lemma FewCopiesStep(judge: Evaluation, s: State, a: Step, x: Id)
    requires Known(s) && FewCopies(s, x) && Enabled(s, a)
    ensures FewCopies(Apply(judge, s, a), x)
  {
    hide Known, FewCopies, ApplyWorker, ApplyOrch, ApplyApi;
    match a
    case Worker(w, op) => FewCopiesWorker(judge, s, w, op, x);
    case Orch(op) => FewCopiesOrch(s, op, x);
    case Api(op) => FewCopiesApi(s, op, x);
  }

  // ----- conservation -----

  /** The orchestrator has pushed this id for a worker it has not killed yet. */
  predicate Repushed(s: State, x: Id) {
    s.orch.Reaping? && s.orch.key == Some(x) && s.orch.stage != KeyRead
  }

  /** Every enqueued id that is not settled has a copy, and a second one while a reap that pushed it
      is still to kill the worker it was read from. */
  predicate Conserved(s: State, x: Id) {
    x in s.enqueued && !Settled(s, x) ==> Copies(s, x) >= 1 + One(Repushed(s, x))
  }

  predicate WrittenSettled(s: State) {
    forall w | 0 <= w < |s.procs| :: s.procs[w].pc.Written? ==> Settled(s, s.procs[w].pc.job)
  }

  /** A process that ends here takes no unsettled job with it. */
  predicate NothingLost(s: State, w: nat)
    requires w < |s.procs|
  {
    Hand(s.procs[w].pc).Some? ==> Settled(s, Hand(s.procs[w].pc).value)
  }

  /** The steps that cannot lose a job. Killing a frozen worker is harmless when what it holds, if
      anything, is the very id that was read from its key and pushed back. */
  predicate Benign(s: State, a: Step)
    requires Enabled(s, a)
  {
    match a
    case Worker(w, op) => op.Die? || op.Interrupt? || op.RepushError? ==> NothingLost(s, w)
    case Orch(op) =>
      (match op
       case StopKill => NothingLost(s, s.orch.worker)
       case ReapKill => NothingLost(s, s.orch.worker) || Hand(s.procs[s.orch.worker].pc) == s.orch.key
       case _ => true)
    case Api(_) => true
  }

  ghost predicate NeverPending(judge: Evaluation) {
    forall x: Id, world: Pipeline.World :: judge(x, world).Returned? ==> judge(x, world).value.verdict != PENDING
  }

  /** No result about to be written is PENDING. */
  predicate ResultsFinal(s: State) {
    forall w | 0 <= w < |s.procs| ::
      s.procs[w].pc.Judging? && s.procs[w].pc.outcome.Returned? ==> s.procs[w].pc.outcome.value.verdict != PENDING
  }

  lemma ResultsFinalStep(judge: Evaluation, s: State, a: Step)
    requires ResultsFinal(s) && NeverPending(judge) && Enabled(s, a)
    ensures ResultsFinal(Apply(judge, s, a))
  {
    match a
    case Worker(w, op) => hide WorkerEffect;
    case Orch(op) => ResultsFinalOrch(s, op);
    case Api(op) =>
  }

  lemma ResultsFinalOrch(s: State, op: OrchOp)
    requires ResultsFinal(s) && OrchEnabled(s, op)
    ensures ResultsFinal(ApplyOrch(s, op))
  {
    hide NextOrch, NextListed;
  }

  lemma SettledWorker(judge: Evaluation, s: State, w: nat, op: WorkerOp, x: Id)
    requires ResultsFinal(s) && WorkerEnabled(s, w, op) && Settled(s, x)
    ensures Settled(ApplyWorker(judge, s, w, op), x)
  {
    hide NextProc;
  }

  /** The orchestrator has no business in the database. */
  lemma SameRows(s: State, op: OrchOp)
    requires OrchEnabled(s, op)
    ensures ApplyOrch(s, op).rows == s.rows && ApplyOrch(s, op).deleted == s.deleted
    ensures ApplyOrch(s, op).dropped == s.dropped && ApplyOrch(s, op).loads == s.loads
  {
    hide NextOrch, NextListed;
  }

  /** Settled is for ever. */
  lemma SettledStays(judge: Evaluation, s: State, a: Step, x: Id)
    requires ResultsFinal(s) && Enabled(s, a) && Settled(s, x)
    ensures Settled(Apply(judge, s, a), x)
  {
    hide ResultsFinal, ApplyWorker, ApplyOrch;
    match a
    case Worker(w, op) => SettledWorker(judge, s, w, op, x);
    case Orch(op) => SameRows(s, op);
    case Api(op) =>
  }

  /** The only way into `Written` is the write, which settles the job (its row may have been deleted). */
  lemma WrittenWorker(judge: Evaluation, s: State, w: nat, op: WorkerOp)
    requires ResultsFinal(s) && Known(s) && WorkerEnabled(s, w, op)
    ensures var s' := ApplyWorker(judge, s, w, op);
            && s'.procs == s.procs[w := s'.procs[w]]
            && (s'.procs[w].pc.Written? ==> Settled(s', s'.procs[w].pc.job))
  {
    if op.Write? {
      KnownJob(s, w, op);
    } else {
      hide WorkerEffect;
    }
  }

  lemma WrittenOrch(s: State, op: OrchOp, v: nat)
    requires OrchEnabled(s, op) && v < |ApplyOrch(s, op).procs| && ApplyOrch(s, op).procs[v].pc.Written?
    ensures v < |s.procs| && s.procs[v].pc == ApplyOrch(s, op).procs[v].pc
  {
    hide NextOrch, NextListed;
  }

  lemma WrittenSettledStep(judge: Evaluation, s: State, a: Step)
    requires ResultsFinal(s) && Known(s) && WrittenSettled(s) && Enabled(s, a)
    ensures WrittenSettled(Apply(judge, s, a))
  {
    hide ResultsFinal, Known, ApplyWorker, ApplyOrch, Settled;
    var s' := Apply(judge, s, a);
    forall v | 0 <= v < |s'.procs| && s'.procs[v].pc.Written?
      ensures Settled(s', s'.procs[v].pc.job)
    {
      match a
      case Worker(w, op) =>
        WrittenWorker(judge, s, w, op);
        if v != w {
          SettledStays(judge, s, a, s.procs[v].pc.job);
        }
      case Orch(op) =>
        WrittenOrch(s, op, v);
        SettledStays(judge, s, a, s.procs[v].pc.job);
      case Api(op) =>
        SettledStays(judge, s, a, s.procs[v].pc.job);
    }
  }

  lemma ConservedWorker(judge: Evaluation, s: State, w: nat, op: WorkerOp, x: Id)
    requires Known(s) && WrittenSettled(s) && Conserved(s, x)
    requires WorkerEnabled(s, w, op) && Benign(s, Worker(w, op))
    requires Settled(s, x) ==> Settled(ApplyWorker(judge, s, w, op), x)
    ensures Conserved(ApplyWorker(judge, s, w, op), x)
  {
    WorkerCopies(judge, s, w, op, x);
  }

  /** A reap adds a copy before it may take one away. */
  lemma RepushedGain(s: State, op: OrchOp, x: Id)
    requires OrchEnabled(s, op) && Benign(s, Orch(op)) && !Settled(s, x)
    ensures OrchGain(s, op, x) >= One(Repushed(ApplyOrch(s, op), x)) - One(Repushed(s, x))
  {
    hide OrchEffect, NextListed;
  }

  lemma ConservedOrch(s: State, op: OrchOp, x: Id)
    requires Conserved(s, x) && OrchEnabled(s, op) && Benign(s, Orch(op))
    ensures Conserved(ApplyOrch(s, op), x)
  {
    OrchCopies(s, op, x);
    HistoryOrch(s, op, x);
    SameRows(s, op);
    if !Settled(s, x) {
      RepushedGain(s, op, x);
    }
    hide ApplyOrch, OrchGain, Copies, OrchEnabled, Benign, Repushed;
  }

  lemma ConservedApi(s: State, op: ApiOp, x: Id)
    requires Known(s) && Conserved(s, x) && ApiEnabled(s, op)
    ensures Conserved(ApplyApi(s, op), x)
  {
    ApiCopies(s, op, x);
  }

  lemma ConservedStep(judge: Evaluation, s: State, a: Step, x: Id)
    requires ResultsFinal(s) && Known(s) && WrittenSettled(s) && Conserved(s, x)
    requires Enabled(s, a) && Benign(s, a)
    ensures Conserved(Apply(judge, s, a), x)
  {
    hide ResultsFinal, Known, WrittenSettled, Conserved, ApplyWorker, ApplyOrch, ApplyApi;
    if Settled(s, x) {
      SettledStays(judge, s, a, x);
    }
    match a
    case Worker(w, op) => ConservedWorker(judge, s, w, op, x);
    case Orch(op) => ConservedOrch(s, op, x);
    case Api(op) => ConservedApi(s, op, x);
  }

  lemma KnownStep(judge: Evaluation, s: State, a: Step)
    requires Known(s) && Enabled(s, a)
    ensures Known(Apply(judge, s, a))
  {
    hide Known, ApplyWorker, ApplyOrch, ApplyApi;
    match a
    case Worker(w, op) => KnownWorker(judge, s, w, op);
    case Orch(op) => KnownOrch(s, op);
    case Api(op) => KnownApi(s, op);
  }

  // ----- whole runs -----

  predicate Sound(s: State) {
    Known(s) && ResultsFinal(s) && WrittenSettled(s)
  }

  lemma SoundStep(judge: Evaluation, s: State, a: Step)
    requires NeverPending(judge) && Sound(s) && Enabled(s, a)
    ensures Sound(Apply(judge, s, a))
  {
    hide Apply, Known, ResultsFinal, WrittenSettled;
    KnownStep(judge, s, a);
    ResultsFinalStep(judge, s, a);
    WrittenSettledStep(judge, s, a);
  }

  lemma {:induction false} SoundRun(judge: Evaluation, s: State, steps: seq<Step>, s': State)
    requires NeverPending(judge) && Sound(s) && Run(judge, s, steps, s')
    ensures Sound(s')
    decreases |steps|
  {
    hide Apply, Enabled, Sound;
    if steps != [] {
      SoundStep(judge, s, steps[0]);
      SoundRun(judge, Apply(judge, s, steps[0]), steps[1..], s');
    }
  }

  predicate BenignRun(judge: Evaluation, s: State, steps: seq<Step>)
    decreases |steps|
  {
    steps == [] ||
    (Enabled(s, steps[0]) && Benign(s, steps[0]) && BenignRun(judge, Apply(judge, s, steps[0]), steps[1..]))
  }

  lemma {:induction false} ConservedRun(judge: Evaluation, s: State, steps: seq<Step>, s': State, x: Id)
    requires NeverPending(judge) && Sound(s) && Conserved(s, x)
    requires Run(judge, s, steps, s') && BenignRun(judge, s, steps)
    ensures Conserved(s', x)
    decreases |steps|
  {
    hide Apply, Enabled, Known, ResultsFinal, WrittenSettled, Conserved, Benign;
    if steps != [] {
      SoundStep(judge, s, steps[0]);
      ConservedStep(judge, s, steps[0], x);
      ConservedRun(judge, Apply(judge, s, steps[0]), steps[1..], s', x);
    }
  }

  /** No earlier life has lost this id. */
  predicate NotLostBefore(s0: State, x: Id) { x in s0.enqueued && !Settled(s0, x) ==> x in s0.jobs }

  lemma ConservedAtStart(s0: State, x: Id)
    requires Start(s0) && NotLostBefore(s0, x)
    ensures Conserved(s0, x)
  {
  }

  /** Job conservation: as long as no process that holds an unsettled job is ended from outside, every
      enqueued id is settled, in the job list, or in a live worker's hands. */
  lemma JobsAreConserved(judge: Evaluation, s0: State, steps: seq<Step>, s: State, x: Id)
    requires Start(s0) && Known(s0)
    requires NeverPending(judge) && Run(judge, s0, steps, s) && BenignRun(judge, s0, steps)
    requires x in s.enqueued && NotLostBefore(s0, x)
    ensures Settled(s, x) || x in s.jobs || exists w :: 0 <= w < |s.procs| && Hand(s.procs[w].pc) == Some(x)
  {
    ConservedAtStart(s0, x);
    ConservedRun(judge, s0, steps, s, x);
    if !Settled(s, x) && x !in s.jobs {
      assert multiset(s.jobs)[x] == 0;
      HeldSomewhere(s.procs, x);
    }
  }

  /** When every process is over (after shutdown) nothing is in anybody's hands. */
  lemma NothingInHandsAtTheEnd(judge: Evaluation, s0: State, steps: seq<Step>, s: State, x: Id)
    requires Start(s0) && Known(s0)
    requires NeverPending(judge) && Run(judge, s0, steps, s) && BenignRun(judge, s0, steps)
    requires x in s.enqueued && NotLostBefore(s0, x)
    requires forall w | 0 <= w < |s.procs| :: Over(s.procs[w].pc)
    ensures Settled(s, x) || x in s.jobs
  {
    JobsAreConserved(judge, s0, steps, s, x);
  }

  lemma {:induction false} FewCopiesRun(judge: Evaluation, s: State, steps: seq<Step>, s': State, x: Id)
    requires Known(s) && FewCopies(s, x) && Run(judge, s, steps, s')
    ensures FewCopies(s', x)
    decreases |steps|
  {
    hide Apply, Enabled, Known, FewCopies;
    if steps != [] {
      KnownStep(judge, s, steps[0]);
      FewCopiesStep(judge, s, steps[0], x);
      FewCopiesRun(judge, Apply(judge, s, steps[0]), steps[1..], s', x);
    }
  }

  /** In every run, whatever is killed, if it was so at the start: an id has at most one copy, plus one for each time a reap pushed
      it and each time a failed pop pushed a stale local id. */
  lemma CopiesAreFew(judge: Evaluation, s0: State, steps: seq<Step>, s: State, x: Id)
    requires Start(s0) && Known(s0) && FewCopies(s0, x)
    requires Run(judge, s0, steps, s)
    ensures Copies(s, x) <= One(x in s.enqueued) + s.reaped[x] + s.stale[x]
  {
    FewCopiesRun(judge, s0, steps, s, x);
  }

  lemma {:induction false} KnownRun(judge: Evaluation, s: State, steps: seq<Step>, s': State)
    requires Known(s) && Run(judge, s, steps, s')
    ensures Known(s')
    decreases |steps|
  {
    hide Apply, Enabled, Known;
    if steps != [] {
      KnownStep(judge, s, steps[0]);
      KnownRun(judge, Apply(judge, s, steps[0]), steps[1..], s');
    }
  }

  /** No invented jobs: every id in the list was enqueued by the API after its row was committed, so a
      worker that finds no row is looking at a row deleted since. */
  lemma NoInventedJobs(judge: Evaluation, s0: State, steps: seq<Step>, s: State)
    requires Start(s0) && Known(s0)
    requires Run(judge, s0, steps, s)
    ensures forall x | x in s.jobs :: x in s.enqueued && (x in s.rows || x in s.deleted)
    ensures forall w | 0 <= w < |s.procs| && WorkerEnabled(s, w, MissingRow) :: s.procs[w].pc.job in s.deleted
  {
    KnownRun(judge, s0, steps, s);
    forall w | 0 <= w < |s.procs| && WorkerEnabled(s, w, MissingRow)
      ensures s.procs[w].pc.job in s.deleted
    {
      assert Mentioned(s.procs[w].pc) == Some(s.procs[w].pc.job);
    }
  }
}
