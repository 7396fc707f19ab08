/**
 What is in a row: the result of some attempt at that submission. Attempts find different worlds, come to
 their results at different times and write them in any order; if those that come to a result agree, the
 row is written once and for all.
 */
module JobResults {
  import opened JudgeTypes
  import opened Records
  import opened JobProtocol
  import opened JobConservation

  /** Some attempt at this id came to this outcome. */
  ghost predicate Explained(judge: Evaluation, loads: seq<Loading>, x: Id, o: Outcome<Recorded>) {
    exists k :: 0 <= k < |loads| && loads[k].job == x && judge(x, loads[k].world) == o
  }

  ghost predicate RowExplained(judge: Evaluation, s: State, x: Id) {
    x in s.rows && s.rows[x] != UNJUDGED ==> Explained(judge, s.loads, x, Returned(s.rows[x]))
  }

  ghost predicate ProcExplained(judge: Evaluation, s: State, w: nat)
    requires w < |s.procs|
  {
    s.procs[w].pc.Judging? ==> Explained(judge, s.loads, s.procs[w].pc.job, s.procs[w].pc.outcome)
  }

  ghost predicate AllExplained(judge: Evaluation, s: State) {
    && (forall x :: RowExplained(judge, s, x))
    && (forall w | 0 <= w < |s.procs| :: ProcExplained(judge, s, w))
  }

  lemma ExplainedStays(judge: Evaluation, loads: seq<Loading>, loads': seq<Loading>, x: Id, o: Outcome<Recorded>)
    requires Explained(judge, loads, x, o) && loads <= loads'
    ensures Explained(judge, loads', x, o)
  {
    var k :| 0 <= k < |loads| && loads[k].job == x && judge(x, loads[k].world) == o;
    assert loads'[k] == loads[k];
  }

  lemma LoadExplains(judge: Evaluation, loads: seq<Loading>, l: Loading)
    ensures Explained(judge, loads + [l], l.job, judge(l.job, l.world))
  {
    assert (loads + [l])[|loads|] == l;
  }

  /** Rows change only by a write of what the writing worker came to. */
  lemma RowChange(judge: Evaluation, s: State, w: nat, op: WorkerOp, x: Id)
    requires WorkerEnabled(s, w, op)
    ensures var s' := ApplyWorker(judge, s, w, op);
            && s.loads <= s'.loads
            && (x in s'.rows ==>
                  x in s.rows
                  && (s'.rows[x] == s.rows[x]
                      || (s.procs[w].pc.Judging? && s.procs[w].pc.job == x && s.procs[w].pc.outcome == Returned(s'.rows[x]))))
  {
    hide NextProc;
  }

  lemma ProcChange(judge: Evaluation, s: State, w: nat, op: WorkerOp, v: nat)
    requires WorkerEnabled(s, w, op) && v < |s.procs|
    ensures var s' := ApplyWorker(judge, s, w, op);
            && |s'.procs| == |s.procs|
            && (v != w ==> s'.procs[v] == s.procs[v])
            && (s'.procs[w].pc.Judging? ==>
                  && op.Load? && s.procs[w].pc.Running?
                  && s'.loads == s.loads + [Loading(s.procs[w].pc.job, op.world)]
                  && s'.procs[w].pc == Judging(s.procs[w].pc.job, judge(s.procs[w].pc.job, op.world)))
  {
  }

  lemma ExplainedWorker(judge: Evaluation, s: State, w: nat, op: WorkerOp)
    requires AllExplained(judge, s) && WorkerEnabled(s, w, op)
    ensures AllExplained(judge, ApplyWorker(judge, s, w, op))
  {
    assert w < |s.procs|;
    hide ApplyWorker, Explained, WorkerEnabled;
    var s' := ApplyWorker(judge, s, w, op);
    forall x
      ensures RowExplained(judge, s', x)
    {
      RowChange(judge, s, w, op, x);
      if x in s'.rows && s'.rows[x] != UNJUDGED {
        assert RowExplained(judge, s, x) && ProcExplained(judge, s, w);
        ExplainedStays(judge, s.loads, s'.loads, x, Returned(s'.rows[x]));
      }
    }
    ProcChange(judge, s, w, op, w);
    forall v | 0 <= v < |s'.procs|
      ensures ProcExplained(judge, s', v)
    {
      ProcChange(judge, s, w, op, v);
      RowChange(judge, s, w, op, 0);
      if v != w && s.procs[v].pc.Judging? {
        assert ProcExplained(judge, s, v);
        ExplainedStays(judge, s.loads, s'.loads, s.procs[v].pc.job, s.procs[v].pc.outcome);
      } else if v == w && s'.procs[w].pc.Judging? {
        LoadExplains(judge, s.loads, Loading(s.procs[w].pc.job, op.world));
      }
    }
  }

  lemma ExplainedOrch(judge: Evaluation, s: State, op: OrchOp)
    requires AllExplained(judge, s) && OrchEnabled(s, op)
    ensures AllExplained(judge, ApplyOrch(s, op))
  {
    hide Explained;
    SameRows(s, op);
    var s' := ApplyOrch(s, op);
    forall x
      ensures RowExplained(judge, s', x)
    {
      assert RowExplained(judge, s, x);
    }
    forall v | 0 <= v < |s'.procs|
      ensures ProcExplained(judge, s', v)
    {
      if s'.procs[v].pc.Judging? {
        JudgingStays(s, op, v);
        assert ProcExplained(judge, s, v);
      }
    }
  }

  lemma JudgingStays(s: State, op: OrchOp, v: nat)
    requires OrchEnabled(s, op) && v < |ApplyOrch(s, op).procs| && ApplyOrch(s, op).procs[v].pc.Judging?
    ensures v < |s.procs| && s.procs[v].pc == ApplyOrch(s, op).procs[v].pc
  {
    hide NextOrch, NextListed;
  }

  lemma ExplainedApi(judge: Evaluation, s: State, op: ApiOp)
    requires AllExplained(judge, s) && ApiEnabled(s, op)
    ensures AllExplained(judge, ApplyApi(s, op))
  {
    hide Explained;
    var s' := ApplyApi(s, op);
    forall x
      ensures RowExplained(judge, s', x)
    {
      assert RowExplained(judge, s, x);
    }
    forall v | 0 <= v < |s'.procs|
      ensures ProcExplained(judge, s', v)
    {
      assert ProcExplained(judge, s, v);
    }
  }

  lemma ExplainedStep(judge: Evaluation, s: State, a: Step)
    requires AllExplained(judge, s) && Enabled(s, a)
    ensures AllExplained(judge, Apply(judge, s, a))
    ensures s.loads <= Apply(judge, s, a).loads
  {
    hide AllExplained, ApplyWorker, ApplyOrch;
    match a
    case Worker(w, op) => ExplainedWorker(judge, s, w, op); RowChange(judge, s, w, op, 0);
    case Orch(op) => ExplainedOrch(judge, s, op); SameRows(s, op);
    case Api(op) => ExplainedApi(judge, s, op);
  }

  lemma {:induction false} ExplainedRun(judge: Evaluation, s: State, steps: seq<Step>, s': State)
    requires AllExplained(judge, s) && Run(judge, s, steps, s')
    ensures AllExplained(judge, s') && s.loads <= s'.loads
    decreases |steps|
  {
    hide Apply, Enabled, AllExplained;
    if steps != [] {
      ExplainedStep(judge, s, steps[0]);
      ExplainedRun(judge, Apply(judge, s, steps[0]), steps[1..], s');
    }
  }

  predicate JudgedOrDeleted(s: State, x: Id) { x in s.deleted || (x in s.rows && s.rows[x] != UNJUDGED) }

  lemma JudgedWorker(judge: Evaluation, s: State, w: nat, op: WorkerOp, x: Id)
    requires ResultsFinal(s) && WorkerEnabled(s, w, op) && JudgedOrDeleted(s, x)
    ensures JudgedOrDeleted(ApplyWorker(judge, s, w, op), x)
  {
    hide NextProc;
  }

  lemma JudgedStep(judge: Evaluation, s: State, a: Step, x: Id)
    requires ResultsFinal(s) && Enabled(s, a) && JudgedOrDeleted(s, x)
    ensures JudgedOrDeleted(Apply(judge, s, a), x)
  {
    hide ResultsFinal, ApplyWorker, ApplyOrch;
    match a
    case Worker(w, op) => JudgedWorker(judge, s, w, op, x);
    case Orch(op) => SameRows(s, op);
    case Api(op) =>
  }

  lemma {:induction false} JudgedRun(judge: Evaluation, s: State, steps: seq<Step>, s': State, x: Id)
    requires NeverPending(judge) && ResultsFinal(s) && Run(judge, s, steps, s') && JudgedOrDeleted(s, x)
    ensures JudgedOrDeleted(s', x)
    decreases |steps|
  {
    hide Apply, Enabled, ResultsFinal, NeverPending, JudgedOrDeleted;
    if steps != [] {
      JudgedStep(judge, s, steps[0], x);
      ResultsFinalStep(judge, s, steps[0]);
      JudgedRun(judge, Apply(judge, s, steps[0]), steps[1..], s', x);
    }
  }

  /** The attempts at this id that came to a result came to the same one. */
  ghost predicate Agree(judge: Evaluation, loads: seq<Loading>, x: Id) {
    forall i, j | 0 <= i < |loads| && 0 <= j < |loads| && loads[i].job == x && loads[j].job == x ::
      judge(x, loads[i].world).Returned? && judge(x, loads[j].world).Returned? ==>
        judge(x, loads[i].world) == judge(x, loads[j].world)
  }

  /** Effectively-once judging: if the attempts of the whole run that came to a result agree, then at every
      moment a row is as committed or holds the result of an attempt made before; and from then on it stays
      as it is through every retry, reap and second worker, until it is deleted. */
  lemma JudgedExactlyOnce(judge: Evaluation, s0: State, before: seq<Step>, s: State, after: seq<Step>, s': State, x: Id)
    requires Start(s0) && Known(s0) && AllExplained(judge, s0)
    requires NeverPending(judge) && Run(judge, s0, before, s) && Run(judge, s, after, s')
    requires Agree(judge, s'.loads, x) && x in s.rows
    ensures s.rows[x] == UNJUDGED || Explained(judge, s.loads, x, Returned(s.rows[x]))
    ensures s.rows[x] != UNJUDGED ==> x in s'.deleted || (x in s'.rows && s'.rows[x] == s.rows[x])
  {
    ExplainedRun(judge, s0, before, s);
    assert RowExplained(judge, s, x);
    if s.rows[x] != UNJUDGED {
      SoundRun(judge, s0, before, s);
      ExplainedRun(judge, s, after, s');
      JudgedRun(judge, s, after, s', x);
      hide Run, AllExplained;
      if x !in s'.deleted {
        assert RowExplained(judge, s', x);
        ExplainedStays(judge, s.loads, s'.loads, x, Returned(s.rows[x]));
        BothAgree(judge, s'.loads, x, s.rows[x], s'.rows[x]);
      }
    }
  }

  lemma BothAgree(judge: Evaluation, loads: seq<Loading>, x: Id, a: Recorded, b: Recorded)
    requires Agree(judge, loads, x) && Explained(judge, loads, x, Returned(a)) && Explained(judge, loads, x, Returned(b))
    ensures a == b
  {
    var i :| 0 <= i < |loads| && loads[i].job == x && judge(x, loads[i].world) == Returned(a);
    var j :| 0 <= j < |loads| && loads[j].job == x && judge(x, loads[j].world) == Returned(b);
  }
}
