/** What one call of process_submission means for the row, and what the job protocol and the pipeline together
    say about the rows of the database. */
module JudgingTheorems {
  import opened JudgeTypes
  import opened Records
  import opened Executor
  import opened Verdicts
  import opened Pipeline
  import opened JobProtocol
  import opened JobConservation
  import opened JobResults
  import opened GracefulRuns
  import JudgeCode
  import opened JobLifecycle
  import opened JobLiveness

  function Expected(world: World, tests: seq<TestCase>): seq<string> {
    seq(|tests|, i requires 0 <= i < |tests| =>
      match world.fetch(tests[i].outputKey) case Returned(s) => s case Raised(_) => [])
  }

  lemma AttemptsAreFaithful(world: World, limits: Limits, tests: seq<TestCase>)
    ensures AllFaithful(Attempts(world, limits, tests), Expected(world, tests), limits)
    ensures forall i | 0 <= i < |tests| && Attempts(world, limits, tests)[i].Returned? ::
              Sane(Attempts(world, limits, tests)[i].value)
  {
    forall i | 0 <= i < |tests| && Attempts(world, limits, tests)[i].Returned?
      ensures Faithful(Attempts(world, limits, tests)[i].value, Expected(world, tests)[i], limits)
    {
      AttemptIsFaithful(world, limits, tests[i], i);
    }
  }

  lemma AttemptIsFaithful(world: World, limits: Limits, t: TestCase, index: nat)
    ensures TryTest(world, limits, t, index).Returned? ==>
              && world.fetch(t.outputKey).Returned?
              && Faithful(TryTest(world, limits, t, index).value, world.fetch(t.outputKey).value, limits)
  {
    if TryTest(world, limits, t, index).Returned? {
      var x := world.execute(index, world.fetch(t.inputKey).value).value;
      RunsAreFaithful(world.decode, x, world.fetch(t.outputKey).value, limits);
    }
  }

  /** Whatever is recorded is a final verdict. */
  lemma NeverRecordsPending(rows: Rows, problems: map<string, Problem>, id: nat, world: World)
    requires Process(rows, problems, id, world).Returned?
    ensures RecordOf(Process(rows, problems, id, world).value).verdict != PENDING
  {
    var row := rows[id];
    var p := problems[row.problemId];
    hide Judgement, Attempts, Keys;
    var attempts := Attempts(world, LimitsOf(p), p.tests);
    if Inside(id, row, p, world) == Judgement(id, Keys(p.tests), attempts) {
      TestsNeverPend(id, p, world);
    }
  }

  lemma TestsNeverPend(id: nat, p: Problem, world: World)
    requires Judgement(id, Keys(p.tests), Attempts(world, LimitsOf(p), p.tests)).Returned?
    ensures Judgement(id, Keys(p.tests), Attempts(world, LimitsOf(p), p.tests)).value.verdict != PENDING
    ensures Judgement(id, Keys(p.tests), Attempts(world, LimitsOf(p), p.tests)).value.verdict != COMPILATION_ERROR
  {
    AttemptsAreFaithful(world, LimitsOf(p), p.tests);
    VerdictIsLeastFailure(id, Keys(p.tests), Attempts(world, LimitsOf(p), p.tests));
  }

  /** For a problem with a positive memory limit, a submission that compiled is recorded with its memory
      at the limit exactly when the verdict is MLE, below it otherwise, and a runtime within its limit. */
  lemma RecordedResources(rows: Rows, problems: map<string, Problem>, id: nat, world: World)
    requires Process(rows, problems, id, world).Returned?
    requires Process(rows, problems, id, world).value.verdict != COMPILATION_ERROR
    requires problems[rows[id].problemId].memoryMb > 0
    ensures var r := RecordOf(Process(rows, problems, id, world).value); var p := problems[rows[id].problemId];
            && r.memoryKb.Some? && 0 <= r.memoryKb.value <= p.memoryMb * 1024
            && (r.memoryKb.value == p.memoryMb * 1024 <==> r.verdict == MEMORY_LIMIT_EXCEEDED)
            && r.walltimeMs.Some? && 0 <= r.walltimeMs.value <= Max(0, 1000 * p.seconds)
  {
    var p := problems[rows[id].problemId];
    AttemptsAreFaithful(world, LimitsOf(p), p.tests);
    hide Judgement, Attempts, Keys, AllFaithful, Expected;
    MemoryTellsVerdictOf(id, p, world);
  }

  lemma MemoryTellsVerdictOf(id: nat, p: Problem, world: World)
    requires p.memoryMb > 0 && Judgement(id, Keys(p.tests), Attempts(world, LimitsOf(p), p.tests)).Returned?
    ensures var r := Judgement(id, Keys(p.tests), Attempts(world, LimitsOf(p), p.tests)).value;
            && r.memoryKb.Some? && 0 <= r.memoryKb.value <= p.memoryMb * 1024
            && (r.memoryKb.value == p.memoryMb * 1024 <==> r.verdict == MEMORY_LIMIT_EXCEEDED)
            && r.runtimeMs.Some? && 0 <= r.runtimeMs.value <= Max(0, 1000 * p.seconds)
  {
    var limits := LimitsOf(p);
    var attempts := Attempts(world, limits, p.tests);
    AttemptsAreFaithful(world, limits, p.tests);
    MemoryTellsVerdict(id, Keys(p.tests), attempts, Expected(world, p.tests), limits);
    ResourcesAreMaxima(id, Keys(p.tests), attempts);
  }

  ghost predicate SameIfReturned<T>(a: Outcome<T>, b: Outcome<T>) { a.Returned? && b.Returned? ==> a == b }

  /** The same program against the same files: whatever both worlds deliver, they deliver alike. Anything may
      fail in the one and not in the other. */
  ghost predicate SameProgram(a: World, b: World) {
    && SameIfReturned(a.code, b.code) && SameIfReturned(a.compile, b.compile)
    && (forall key :: SameIfReturned(a.fetch(key), b.fetch(key)))
    && (forall index, input :: SameIfReturned(a.execute(index, input), b.execute(index, input)))
    && (forall bytes :: a.decode(bytes) == b.decode(bytes))
  }

  lemma SameTest(a: World, b: World, limits: Limits, t: TestCase, index: nat)
    requires SameProgram(a, b)
    ensures SameIfReturned(TryTest(a, limits, t, index), TryTest(b, limits, t, index))
  {
    if TryTest(a, limits, t, index).Returned? && TryTest(b, limits, t, index).Returned? {
      assert SameIfReturned(a.fetch(t.inputKey), b.fetch(t.inputKey));
      assert SameIfReturned(a.fetch(t.outputKey), b.fetch(t.outputKey));
      var input, expected := a.fetch(t.inputKey).value, a.fetch(t.outputKey).value;
      assert SameIfReturned(a.execute(index, input), b.execute(index, input));
      var x := a.execute(index, input).value;
      DecodedAlike(a, b, x, expected, limits);
    }
  }

  lemma DecodedAlike(a: World, b: World, x: Execution, expected: string, limits: Limits)
    requires forall bytes :: a.decode(bytes) == b.decode(bytes)
    ensures RunOutcome(a.decode, x, expected, limits) == RunOutcome(b.decode, x, expected, limits)
  {
  }

  /** Two lists of attempts that agree wherever both came to an end are judged alike, if both are judged. */
  lemma JudgedAlike(id: nat, keys: seq<string>, a: seq<Attempt>, b: seq<Attempt>)
    requires |keys| == |a| == |b| && forall i | 0 <= i < |a| :: SameIfReturned(a[i], b[i])
    requires Judgement(id, keys, a).Returned? && Judgement(id, keys, b).Returned?
    ensures Judgement(id, keys, a) == Judgement(id, keys, b)
  {
    var m, n := Executed(a), Executed(b);
    forall i | 0 <= i < m && i < n
      ensures a[i] == b[i]
    {
      assert SameIfReturned(a[i], b[i]);
    }
    assert FirstStop(a) == FirstStop(b);
    assert a[..m] == b[..n];
    if FirstStop(a) == |a| {
      assert a == b;
    }
  }

  lemma TestsAgree(id: nat, p: Problem, a: World, b: World)
    requires SameProgram(a, b)
    requires Judgement(id, Keys(p.tests), Attempts(a, LimitsOf(p), p.tests)).Returned?
    requires Judgement(id, Keys(p.tests), Attempts(b, LimitsOf(p), p.tests)).Returned?
    ensures Judgement(id, Keys(p.tests), Attempts(a, LimitsOf(p), p.tests))
         == Judgement(id, Keys(p.tests), Attempts(b, LimitsOf(p), p.tests))
  {
    var ta, tb := Attempts(a, LimitsOf(p), p.tests), Attempts(b, LimitsOf(p), p.tests);
    forall i | 0 <= i < |p.tests|
      ensures SameIfReturned(ta[i], tb[i])
    {
      SameTest(a, b, LimitsOf(p), p.tests[i], i);
    }
    hide Judgement, SameProgram, TryTest;
    JudgedAlike(id, Keys(p.tests), ta, tb);
  }

  lemma InsideAgrees(id: nat, row: SubmissionRow, row': SubmissionRow, p: Problem, a: World, b: World)
    requires SameProgram(a, b) && row.language == row'.language
    requires Inside(id, row, p, a).Returned? && Inside(id, row', p, b).Returned?
    ensures Inside(id, row, p, a) == Inside(id, row', p, b)
  {
    assert SameIfReturned(a.compile, b.compile);
    hide Judgement, Attempts, Keys, SameProgram, LimitsOf;
    if !Compiled(row.language) || a.compile.value.ok {
      TestsAgree(id, p, a, b);
    }
  }

  /** Two attempts at one submission that both come to a result come to the same one, whatever failed in
      either of them and whatever had been recorded before. */
  lemma RetriesAgree(rows: Rows, rows': Rows, problems: map<string, Problem>, id: nat, a: World, b: World)
    requires SameProgram(a, b)
    requires Process(rows, problems, id, a).Returned? && Process(rows', problems, id, b).Returned?
    requires rows[id].(record := UNJUDGED) == rows'[id].(record := UNJUDGED)
    ensures Process(rows, problems, id, a) == Process(rows', problems, id, b)
  {
    var row, row' := rows[id], rows'[id];
    assert row.language == row'.language && row.problemId == row'.problemId;
    hide Inside, SameProgram;
    InsideAgrees(id, row, row', problems[row.problemId], a, b);
  }

  /** One call changes at most the five columns of its own row: a result always leaves exactly its record
      there (unless the row is gone), and an exception never leaves anything. */
  lemma OnlyTheRecordChanges(rows: Rows, problems: map<string, Problem>, id: nat, world: World)
    ensures var after := RowsAfter(rows, problems, id, world);
            && (forall x :: x != id ==> (x in after <==> x in rows) && (x in rows ==> after[x] == rows[x]))
            && (id in after ==> id in rows && after[id].(record := rows[id].record) == rows[id])
            && (id in after && after[id] != rows[id] ==>
                  Process(rows, problems, id, world).Returned? && after[id].record == RecordOf(Process(rows, problems, id, world).value))
            && (Process(rows, problems, id, world).Returned? && !world.rowVanishes ==>
                  id in after && after[id].record == RecordOf(Process(rows, problems, id, world).value))
            && (Process(rows, problems, id, world).Raised? && !world.rowVanishes ==> after == rows)
  {
  }

  // ----- what is in the row -----

  /** The i-th testcase runs the program on its input file and compares with its output file, under the limits
      of the problem. */
  lemma TestIsRun(world: World, p: Problem, i: nat, input: string, expected: string, x: Execution)
    requires i < |p.tests|
    requires world.fetch(p.tests[i].inputKey) == Returned(input) && world.fetch(p.tests[i].outputKey) == Returned(expected)
    requires world.execute(i, input) == Returned(x)
    ensures Attempts(world, LimitsOf(p), p.tests)[i]
         == RunOutcome(world.decode, x, expected, Limits(p.seconds, 1024 * p.memoryMb))
  {
    hide RunOutcome;
  }

  /** The program of the submission is there to be run: interpreted, or compiled without an error. */
  predicate Runs(row: SubmissionRow, world: World) {
    row.language == Python || (world.compile.Returned? && world.compile.value.ok)
  }

  lemma InsideOfRuns(id: nat, row: SubmissionRow, p: Problem, world: World)
    requires Runs(row, world) && world.code.Returned? && world.copyError.None?
    ensures Inside(id, row, p, world) == Judgement(id, Keys(p.tests), Attempts(world, LimitsOf(p), p.tests))
  {
    hide Judgement, Attempts, Keys;
  }

  /** What came to a result got its code into the container, was stopped, and is in the row if that stays. */
  lemma RecordedResult(rows: Rows, problems: map<string, Problem>, id: nat, world: World)
    requires Process(rows, problems, id, world).Returned? && !world.rowVanishes
    ensures Loads(rows, problems, id) && world.code.Returned? && world.copyError.None?
    ensures Process(rows, problems, id, world) == Inside(id, rows[id], problems[rows[id].problemId], world)
    ensures id in RowsAfter(rows, problems, id, world)
    ensures var r, row := Process(rows, problems, id, world).value, RowsAfter(rows, problems, id, world)[id];
            && row.record.verdict == r.verdict && row.record.output == r.output
            && row.record.incorrectTestcaseKey == r.incorrectTestcaseKey
            && row.record.walltimeMs == r.runtimeMs && row.record.memoryKb == r.memoryKb
            && row.language == rows[id].language && row.codeKey == rows[id].codeKey && row.problemId == rows[id].problemId
  {
    hide Judgement, Attempts, Keys;
  }

  /** The row after all testcases have passed: neither output nor testcase. */
  lemma AcceptedRow(rows: Rows, problems: map<string, Problem>, id: nat, world: World)
    requires Process(rows, problems, id, world).Returned? && !world.rowVanishes && Runs(rows[id], world)
    requires var p := problems[rows[id].problemId];
             PassedUpTo(Attempts(world, LimitsOf(p), p.tests), |p.tests|)
    ensures id in RowsAfter(rows, problems, id, world)
    ensures var record := RowsAfter(rows, problems, id, world)[id].record;
            record.verdict == ACCEPTED && record.output == None && record.incorrectTestcaseKey == None
  {
    var p := problems[rows[id].problemId];
    RecordedResult(rows, problems, id, world);
    InsideOfRuns(id, rows[id], p, world);
    hide Process, RowsAfter, Inside, Attempts, Keys;
    AllPassed(id, Keys(p.tests), Attempts(world, LimitsOf(p), p.tests));
  }

  lemma AllPassed(id: nat, keys: seq<string>, attempts: seq<Attempt>)
    requires |keys| == |attempts| && PassedUpTo(attempts, |attempts|)
    ensures Judgement(id, keys, attempts).Returned?
    ensures var r := Judgement(id, keys, attempts).value;
            r.verdict == ACCEPTED && r.output == None && r.incorrectTestcaseKey == None
  {
  }

  /** The row after testcase k is the first to fail: its verdict, the first 8192 characters of what the program
      printed on it, and the key of its input file. */
  lemma FailedRow(rows: Rows, problems: map<string, Problem>, id: nat, world: World, k: nat)
    requires Process(rows, problems, id, world).Returned? && !world.rowVanishes && Runs(rows[id], world)
    requires k < |problems[rows[id].problemId].tests|
    requires var p := problems[rows[id].problemId]; var runs := Attempts(world, LimitsOf(p), p.tests);
             PassedUpTo(runs, k) && runs[k].Returned? && !runs[k].value.ok
    ensures id in RowsAfter(rows, problems, id, world)
    ensures var p := problems[rows[id].problemId]; var run := Attempts(world, LimitsOf(p), p.tests)[k].value;
            var record := RowsAfter(rows, problems, id, world)[id].record;
            && record.verdict == run.verdict
            && record.output.Some? && record.output.value <= run.output && |record.output.value| == Min(8192, |run.output|)
            && record.incorrectTestcaseKey == Some(p.tests[k].inputKey)
  {
    var p := problems[rows[id].problemId];
    RecordedResult(rows, problems, id, world);
    InsideOfRuns(id, rows[id], p, world);
    hide Process, RowsAfter, Inside, Attempts;
    FirstFailed(id, Keys(p.tests), Attempts(world, LimitsOf(p), p.tests), k);
  }

  lemma FirstFailed(id: nat, keys: seq<string>, attempts: seq<Attempt>, k: nat)
    requires |keys| == |attempts| && k < |attempts|
    requires PassedUpTo(attempts, k) && attempts[k].Returned? && !attempts[k].value.ok
    ensures Judgement(id, keys, attempts).Returned?
    ensures var r, run := Judgement(id, keys, attempts).value, attempts[k].value;
            && r.verdict == run.verdict && r.incorrectTestcaseKey == Some(keys[k])
            && r.output.Some? && r.output.value <= run.output && |r.output.value| == Min(8192, |run.output|)
  {
    assert FirstStop(attempts) == k;
  }

  /** The row after a compilation that failed, in C and in C++ alike: the compiler's output and no resources. */
  lemma NotCompiledRow(rows: Rows, problems: map<string, Problem>, id: nat, world: World)
    requires EntryError(rows, problems, id, world) == None && rows[id].language != Python
    requires world.code.Returned? && world.copyError.None? && world.compile.Returned? && !world.compile.value.ok
    requires world.stopError.None? && world.commitError.None? && !world.rowVanishes
    ensures Process(rows, problems, id, world).Returned? && id in RowsAfter(rows, problems, id, world)
    ensures RowsAfter(rows, problems, id, world)[id].record ==
              Recorded(COMPILATION_ERROR, Some(world.compile.value.output), None, None, None)
  {
  }

  /** What keeps a submission from its container, how the worker will hear of it, and what was published by
      then: a missing row or problem is a ValueError, the rest is not; an event names the submission and its
      language and is out as soon as a container has been leased. */
  lemma EntryOutcomes(rows: Rows, problems: map<string, Problem>, id: nat, world: World)
    requires world.loadError.None?
    ensures id !in rows || rows[id].problemId !in problems ==>
              Process(rows, problems, id, world) == Raised(ValueError) && EventsOf(rows, problems, id, world) == []
    ensures Loads(rows, problems, id) && world.sandbox == Returned(None) ==>
              Process(rows, problems, id, world) == Raised(OtherError) && EventsOf(rows, problems, id, world) == []
    ensures Loads(rows, problems, id) && world.sandbox.Returned? && world.sandbox.value.Some? && world.publishError.None? ==>
              && EventsOf(rows, problems, id, world) == [Event(id, rows[id].language)]
              && (!world.lookupOk ==> Process(rows, problems, id, world) == Raised(OtherError))
              && (world.lookupOk <==> EntersContainer(rows, problems, id, world))
    ensures EntersContainer(rows, problems, id, world) ==>
              && (world.stopError.Some? ==> Process(rows, problems, id, world) == Raised(world.stopError.value))
              && (world.stopError.None? && world.code.Raised? ==> Process(rows, problems, id, world) == Raised(world.code.error))
    ensures !EntersContainer(rows, problems, id, world) ==>
              Process(rows, problems, id, world).Raised? && RowsAfter(rows, problems, id, world) == rows
  {
    hide Judgement;
  }

  // ----- the job protocol with this pipeline -----

  /** What an attempt at `id` comes to before its commit, whose failure is a step of the protocol. The
      language, code and problem of a submission never change. */
  function Attempted(submissions: map<nat, SubmissionRow>, problems: map<string, Problem>, id: nat, world: World): Outcome<Recorded> {
    match Process(submissions, problems, id, world.(commitError := None, rowVanishes := false))
    case Returned(r) => Returned(RecordOf(r))
    case Raised(e) => Raised(e)
  }

  /** The pipeline as the protocol's parameter. */
  function JudgedBy(submissions: map<nat, SubmissionRow>, problems: map<string, Problem>): Evaluation {
    (id: nat, world: World) => Attempted(submissions, problems, id, world)
  }

  lemma PipelineNeverPends(submissions: map<nat, SubmissionRow>, problems: map<string, Problem>)
    ensures NeverPending(JudgedBy(submissions, problems))
  {
    var judge := JudgedBy(submissions, problems);
    forall id: nat, world: World | judge(id, world).Returned?
      ensures judge(id, world).value.verdict != PENDING
    {
      NeverRecordsPending(submissions, problems, id, world.(commitError := None, rowVanishes := false));
    }
  }

  /** What a worker does after it has read the row follows from how process_submission ends: a result is
      written, a ValueError drops the job, any other exception retries it. */
  lemma WorkerReacts(submissions: map<nat, SubmissionRow>, problems: map<string, Problem>, id: nat, world: World, faults: JudgeCode.Faults)
    requires id in submissions && world.loadError.None?
    ensures var ops := JudgeCode.AfterLoad(JudgedBy(submissions, problems)(id, world), world, faults);
            match Process(submissions, problems, id, world)
            case Returned(_) => ops[0] == Write && ops[|ops| - 1] == (if faults.clearKey then JudgeCode.Again(faults) else ClearKey)
            case Raised(ValueError) => ops == [RaiseValueError]
            case Raised(OtherError) => ops == [RaiseOther, JudgeCode.Again(faults)]
  {
    CommitIsLast(submissions, problems, id, world);
    hide Process, RecordOf;
  }

  lemma CommitIsLast(rows: Rows, problems: map<string, Problem>, id: nat, world: World)
    ensures var r := Process(rows, problems, id, world.(commitError := None, rowVanishes := false));
            Process(rows, problems, id, world) == if r.Returned? && world.commitError.Some? then Raised(world.commitError.value) else r
  {
    hide Inside;
    if EntersContainer(rows, problems, id, world) {
      SameInside(id, rows[id], problems[rows[id].problemId], world);
    }
  }

  lemma SameInside(id: nat, row: SubmissionRow, p: Problem, world: World)
    ensures Inside(id, row, p, world.(commitError := None, rowVanishes := false)) == Inside(id, row, p, world)
  {
    var world' := world.(commitError := None, rowVanishes := false);
    assert Attempts(world', LimitsOf(p), p.tests) == Attempts(world, LimitsOf(p), p.tests);
    hide Judgement, Attempts, Keys;
  }

  /** Every attempt at this submission met the same program and the same files. */
  ghost predicate OneProgram(loads: seq<Loading>, x: Id) {
    forall i, j | 0 <= i < |loads| && 0 <= j < |loads| && loads[i].job == x && loads[j].job == x ::
      SameProgram(loads[i].world, loads[j].world)
  }

  lemma OneProgramAgrees(submissions: map<nat, SubmissionRow>, problems: map<string, Problem>, loads: seq<Loading>, x: Id)
    requires OneProgram(loads, x)
    ensures Agree(JudgedBy(submissions, problems), loads, x)
  {
    var judge := JudgedBy(submissions, problems);
    forall i, j | 0 <= i < |loads| && 0 <= j < |loads| && loads[i].job == x && loads[j].job == x
      ensures judge(x, loads[i].world).Returned? && judge(x, loads[j].world).Returned? ==>
                judge(x, loads[i].world) == judge(x, loads[j].world)
    {
      hide Attempted, SameProgram;
      if judge(x, loads[i].world).Returned? && judge(x, loads[j].world).Returned? {
        AttemptsAgree(submissions, problems, x, loads[i].world, loads[j].world);
      }
    }
  }

  lemma AttemptsAgree(submissions: map<nat, SubmissionRow>, problems: map<string, Problem>, x: Id, a: World, b: World)
    requires SameProgram(a, b)
    requires Attempted(submissions, problems, x, a).Returned? && Attempted(submissions, problems, x, b).Returned?
    ensures Attempted(submissions, problems, x, a) == Attempted(submissions, problems, x, b)
  {
    hide SameProgram, Process;
    var a', b' := a.(commitError := None, rowVanishes := false), b.(commitError := None, rowVanishes := false);
    SameProgramWhenCommitted(a, b);
    LoadedIfReturned(submissions, problems, x, a');
    RetriesAgree(submissions, submissions, problems, x, a', b');
  }

  lemma LoadedIfReturned(rows: Rows, problems: map<string, Problem>, id: nat, world: World)
    requires Process(rows, problems, id, world).Returned?
    ensures Loads(rows, problems, id)
  {
  }

  lemma SameProgramWhenCommitted(a: World, b: World)
    requires SameProgram(a, b)
    ensures SameProgram(a.(commitError := None, rowVanishes := false), b.(commitError := None, rowVanishes := false))
  {
  }

  /** The row of a submission, over all interleavings of workers, retries and reaps: as committed, or exactly
      what process_submission computed in an attempt made before; and once it holds that it never changes,
      unless it is deleted. */
  lemma RowsHoldTheirResult(submissions: map<nat, SubmissionRow>, problems: map<string, Problem>,
                            s0: State, before: seq<Step>, s: State, after: seq<Step>, s': State, x: Id)
    requires Start(s0) && Known(s0) && AllExplained(JudgedBy(submissions, problems), s0)
    requires Run(JudgedBy(submissions, problems), s0, before, s) && Run(JudgedBy(submissions, problems), s, after, s')
    requires OneProgram(s'.loads, x) && x in s.rows && s.rows[x] != UNJUDGED
    ensures exists k :: 0 <= k < |s.loads| && s.loads[k].job == x
              && Attempted(submissions, problems, x, s.loads[k].world) == Returned(s.rows[x])
    ensures x in s'.deleted || (x in s'.rows && s'.rows[x] == s.rows[x])
    ensures s.rows[x].verdict != PENDING
  {
    var judge := JudgedBy(submissions, problems);
    PipelineNeverPends(submissions, problems);
    OneProgramAgrees(submissions, problems, s'.loads, x);
    JudgedExactlyOnce(judge, s0, before, s, after, s', x);
    hide Run, Attempted;
    var k :| 0 <= k < |s.loads| && s.loads[k].job == x && judge(x, s.loads[k].world) == Returned(s.rows[x]);
  }

  /** The whole judge: in a graceful run of this pipeline every enqueued submission is deleted, dropped on a
      ValueError, recorded with a final verdict, waiting, or in a live worker's hands. */
  lemma SubmissionsAreKept(submissions: map<nat, SubmissionRow>, problems: map<string, Problem>, s0: State, steps: seq<Step>, s: State, x: Id)
    requires Start(s0) && Known(s0) && AllExplained(JudgedBy(submissions, problems), s0) && NotLostBefore(s0, x)
    requires Run(JudgedBy(submissions, problems), s0, steps, s) && GracefulRun(JudgedBy(submissions, problems), s0, steps)
    requires x in s.enqueued
    ensures || x in s.deleted || x in s.dropped || (x in s.rows && s.rows[x].verdict != PENDING)
            || x in s.jobs || exists w :: 0 <= w < |s.procs| && Hand(s.procs[w].pc) == Some(x)
  {
    var judge := JudgedBy(submissions, problems);
    PipelineNeverPends(submissions, problems);
    GracefulRunsKeepJobs(judge, s0, steps, s, x);
    if x in s.rows && s.rows[x] != UNJUDGED {
      ExplainedRun(judge, s0, steps, s);
      assert RowExplained(judge, s, x);
    }
  }

  /** Liveness of the whole judge: if every submission can be judged when all goes well outside, then from every
      state before a shutdown the judge can bring every job in the list or in a hand to its end. */
  lemma SubmissionsCanFinish(submissions: map<nat, SubmissionRow>, problems: map<string, Problem>, works: nat -> World,
                             s0: State, before: seq<Step>, s: State)
    requires Start(s0) && Known(s0) && Run(JudgedBy(submissions, problems), s0, before, s) && !ShutdownBegun(s)
    requires forall x: nat :: works(x).loadError.None?
    requires forall x: nat | Loads(submissions, problems, x) :: Attempted(submissions, problems, x, works(x)).Returned?
    ensures CanFinish(JudgedBy(submissions, problems), s)
  {
    var judge := JudgedBy(submissions, problems);
    PipelineNeverPends(submissions, problems);
    forall x: nat
      ensures judge(x, works(x)) != Raised(OtherError)
    {
      assert Loads(submissions, problems, x) || Attempted(submissions, problems, x, works(x)) == Raised(ValueError);
    }
    JobsCanAlwaysFinish(judge, works, s0, before, s);
  }
}
