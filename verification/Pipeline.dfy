/** `process_submission`: from a submission id to the five columns of its row. */
module Pipeline {
  import opened JudgeTypes
  import opened Records
  import opened Executor
  import opened Verdicts

  datatype TestCase = TestCase(inputKey: string, outputKey: string)

  datatype SubmissionRow = SubmissionRow(language: Language, codeKey: string, problemId: string, record: Recorded)

  datatype Problem = Problem(seconds: int, memoryMb: int, tests: seq<TestCase>)

  datatype CompileResult = CompileResult(ok: bool, output: string)

  /** A message on the result channel. */
  datatype Event = Event(submissionId: nat, language: Language)

  /** Everything outside: PostgreSQL, Redis, Docker, the object store. The fields `...Error` are what a call
      raises, if it does; `sandbox` is what brpop returns, None when no container came in time. `execute` is
      one run of the program, by testcase index; `fetch` reads and decodes a testcase file. `rowVanishes` says
      that the row is deleted while the submission is being judged. */
  datatype World = World(
    loadError: Option<Exception>,
    sandbox: Outcome<Option<nat>>,
    publishError: Option<Exception>,
    lookupOk: bool,
    code: Outcome<seq<Byte>>,
    copyError: Option<Exception>,
    compile: Outcome<CompileResult>,
    fetch: string -> Outcome<string>,
    execute: (nat, string) -> Outcome<Execution>,
    decode: seq<Byte> -> string,
    stopError: Option<Exception>,
    rowVanishes: bool,
    commitError: Option<Exception>
  )

  /** A container came in time. */
  predicate Leased(world: World) { world.sandbox.Returned? && world.sandbox.value.Some? }

  /** One testcase: read the input, read the expected output, run. */
  function TryTest(world: World, limits: Limits, t: TestCase, index: nat): Attempt {
    match world.fetch(t.inputKey)
    case Raised(e) => Raised(e)
    case Returned(input) =>
      match world.fetch(t.outputKey)
      case Raised(e) => Raised(e)
      case Returned(expected) =>
        match world.execute(index, input)
        case Raised(e) => Raised(e)
        case Returned(x) => RunOutcome(world.decode, x, expected, limits)
  }

  function Attempts(world: World, limits: Limits, tests: seq<TestCase>): seq<Attempt> {
    seq(|tests|, i requires 0 <= i < |tests| => TryTest(world, limits, tests[i], i))
  }

  function Keys(tests: seq<TestCase>): seq<string> {
    seq(|tests|, i requires 0 <= i < |tests| => tests[i].inputKey)
  }

  function LimitsOf(p: Problem): Limits { Limits(p.seconds, p.memoryMb * 1024) }

  predicate Compiled(language: Language) { language == Language.C || language == Language.Cpp }

  /** What happens inside the container. */
  function Inside(id: nat, row: SubmissionRow, p: Problem, world: World): Outcome<SubmissionResult> {
    if world.code.Raised? then Raised(world.code.error)
    else if world.copyError.Some? then Raised(world.copyError.value)
    else if Compiled(row.language) && world.compile.Raised? then Raised(world.compile.error)
    else if Compiled(row.language) && !world.compile.value.ok then
      Returned(Blank(id).(verdict := COMPILATION_ERROR, output := Some(world.compile.value.output)))
    else Judgement(id, Keys(p.tests), Attempts(world, LimitsOf(p), p.tests))
  }

  /** The `finally` of `_get_container`: an error of stop replaces whatever was on its way. */
  function Stopped<T>(r: Outcome<T>, error: Option<Exception>): Outcome<T> {
    if error.Some? then Raised(error.value) else r
  }

  function RecordOf(r: SubmissionResult): Recorded {
    Recorded(r.verdict, r.output, r.incorrectTestcaseKey, r.runtimeMs, r.memoryKb)
  }

  datatype Failure = Failure(idx: nat, key: string, output: string)

  ghost predicate LoopDone(tests: seq<TestCase>, attempts: seq<Attempt>, error: Option<Exception>, finalVerdict: Verdict,
                           firstFailure: Option<Failure>, maxRuntime: int, maxMemory: int)
    requires |tests| == |attempts|
  {
    var k, n := FirstStop(attempts), Executed(attempts);
    if error.Some? then k < |attempts| && attempts[k] == Raised(error.value)
    else
      && AllReturned(attempts[..n]) && maxRuntime == MaxRuntime(attempts[..n]) && maxMemory == MaxMemory(attempts[..n])
      && (if k == |attempts| then finalVerdict == ACCEPTED && firstFailure == None
          else
            && attempts[k].Returned? && finalVerdict == attempts[k].value.verdict != ACCEPTED
            && firstFailure == Some(Failure(k + 1, tests[k].inputKey, Truncated(attempts[k].value.output))))
  }

  lemma NothingRunYet(attempts: seq<Attempt>)
    ensures AllReturned(attempts[..0]) && MaxRuntime(attempts[..0]) == 0 && MaxMemory(attempts[..0]) == 0
  {
  }

  lemma MaximaGrow(attempts: seq<Attempt>, k: nat)
    requires k < |attempts| && AllReturned(attempts[..k]) && attempts[k].Returned?
    ensures AllReturned(attempts[..k + 1])
    ensures MaxRuntime(attempts[..k + 1]) == Max(MaxRuntime(attempts[..k]), attempts[k].value.runtimeMs)
    ensures MaxMemory(attempts[..k + 1]) == Max(MaxMemory(attempts[..k]), attempts[k].value.memoryKb)
  {
    assert attempts[..k + 1] == attempts[..k] + [attempts[k]];
    assert attempts[..k + 1][..k] == attempts[..k];
  }

  lemma TestsAreSane(world: World, limits: Limits, t: TestCase, index: nat)
    ensures TryTest(world, limits, t, index).Returned? ==> Sane(TryTest(world, limits, t, index).value)
  {
  }

  // ----- the whole of process_submission as a function -----

  type Rows = map<nat, SubmissionRow>

  predicate Loads(rows: Rows, problems: map<string, Problem>, id: nat) {
    id in rows && rows[id].problemId in problems
  }

  /** The container lookup is reached and succeeds. */
  predicate EntersContainer(rows: Rows, problems: map<string, Problem>, id: nat, world: World) {
    world.loadError.None? && Loads(rows, problems, id) && Leased(world) && world.publishError.None? && world.lookupOk
  }

  function EventsOf(rows: Rows, problems: map<string, Problem>, id: nat, world: World): seq<Event> {
    if world.loadError.None? && Loads(rows, problems, id) && Leased(world) && world.publishError.None?
    then [Event(id, rows[id].language)] else []
  }

  /** What the code inside the container leads to, once the container has been stopped. */
  function AfterContainer(rows: Rows, problems: map<string, Problem>, id: nat, world: World): Outcome<SubmissionResult>
    requires EntersContainer(rows, problems, id, world)
  {
    Stopped(Inside(id, rows[id], problems[rows[id].problemId], world), world.stopError)
  }

  /** What keeps process_submission from its container. */
  function EntryError(rows: Rows, problems: map<string, Problem>, id: nat, world: World): Option<Exception> {
    if world.loadError.Some? then world.loadError
    else if !Loads(rows, problems, id) then Some(ValueError)
    else if world.sandbox.Raised? then Some(world.sandbox.error)
    else if world.sandbox.value.None? then Some(OtherError)
    else if world.publishError.Some? then world.publishError
    else if !world.lookupOk then Some(OtherError)
    else None
  }

  function Process(rows: Rows, problems: map<string, Problem>, id: nat, world: World): Outcome<SubmissionResult> {
    if EntryError(rows, problems, id, world).Some? then Raised(EntryError(rows, problems, id, world).value)
    else if AfterContainer(rows, problems, id, world).Returned? && world.commitError.Some? then Raised(world.commitError.value)
    else AfterContainer(rows, problems, id, world)
  }

  function RowsAfter(rows: Rows, problems: map<string, Problem>, id: nat, world: World): Rows {
    if !EntersContainer(rows, problems, id, world) || AfterContainer(rows, problems, id, world).Raised? then rows
    else if world.rowVanishes then rows - {id}
    else if world.commitError.None? then
      rows[id := rows[id].(record := RecordOf(AfterContainer(rows, problems, id, world).value))]
    else rows
  }

  lemma StopIsFirst(attempts: seq<Attempt>, k: nat)
    requires k < |attempts| && Stops(attempts[k]) && forall i | 0 <= i < k :: !Stops(attempts[i])
    ensures FirstStop(attempts) == k
  {
  }

  lemma NoStopMeansEnd(attempts: seq<Attempt>)
    requires forall i | 0 <= i < |attempts| :: !Stops(attempts[i])
    ensures FirstStop(attempts) == |attempts|
  {
  }

  class Container {
    var stops: nat

    constructor ()
      ensures stops == 0
    {
      stops := 0;
    }

    /** container.stop, which counts even when it raises. */
    method Stop()
      modifies this
      ensures stops == old(stops) + 1
    {
      stops := stops + 1;
    }
  }

  class Database {
    var submissions: map<nat, SubmissionRow>
    var problems: map<string, Problem>

    constructor (submissions: map<nat, SubmissionRow>, problems: map<string, Problem>)
      ensures this.submissions == submissions && this.problems == problems
    {
      this.submissions, this.problems := submissions, problems;
    }

    /** `_update_submission_result` inside one session: all five columns or none, and no row is no error. */
    method UpdateSubmissionResult(id: nat, r: SubmissionResult, commitError: Option<Exception>)
      modifies this`submissions
      ensures submissions ==
                if commitError.None? && id in old(submissions)
                then old(submissions)[id := old(submissions)[id].(record := RecordOf(r))] else old(submissions)
    {
      if id in submissions && commitError.None? {
        var row := submissions[id];
        var record := row.record.(verdict := r.verdict);
        record := record.(output := r.output);
        record := record.(incorrectTestcaseKey := r.incorrectTestcaseKey);
        record := record.(walltimeMs := r.runtimeMs);
        record := record.(memoryKb := r.memoryKb);
        submissions := submissions[id := row.(record := record)];
      }
    }
  }

  class JudgePipeline {
    const db: Database
    var events: seq<Event>

    constructor (db: Database)
      ensures this.db == db && events == []
    {
      this.db := db;
      events := [];
    }

    /** The loop over the testcases, with its early exit. */
    method RunTests(tests: seq<TestCase>, world: World, limits: Limits)
      returns (error: Option<Exception>, finalVerdict: Verdict, firstFailure: Option<Failure>, maxRuntime: int, maxMemory: int)
      ensures LoopDone(tests, Attempts(world, limits, tests), error, finalVerdict, firstFailure, maxRuntime, maxMemory)
    {
      hide TryTest, MaxRuntime, MaxMemory, FirstStop;
      ghost var attempts := Attempts(world, limits, tests);
      NothingRunYet(attempts);
      error, finalVerdict, firstFailure, maxRuntime, maxMemory := None, ACCEPTED, None, 0, 0;
      for k := 0 to |tests|
        invariant forall i | 0 <= i < k :: !Stops(attempts[i])
        invariant error == None && finalVerdict == ACCEPTED && firstFailure == None
        invariant AllReturned(attempts[..k])
        invariant maxRuntime == MaxRuntime(attempts[..k]) && maxMemory == MaxMemory(attempts[..k])
      {
        var run := RunTest(world, limits, tests[k], k);
        assert run == attempts[k];
        if run.Raised? {
          StopIsFirst(attempts, k);
          error := Some(run.error);
          return;
        }
        maxRuntime, maxMemory := Max(maxRuntime, run.value.runtimeMs), Max(maxMemory, run.value.memoryKb);
        MaximaGrow(attempts, k);
        if !run.value.ok {
          finalVerdict := run.value.verdict;
          firstFailure := Some(Failure(k + 1, tests[k].inputKey, Truncated(run.value.output)));
          StopIsFirst(attempts, k);
          TestsAreSane(world, limits, tests[k], k);
          return;
        }
      }
      NoStopMeansEnd(attempts);
      assert attempts[..|tests|] == attempts;
    }

    /** From the loop to the result; a failing verdict always comes with a recorded failure. */
    method JudgeTests(id: nat, tests: seq<TestCase>, world: World, limits: Limits) returns (r: Outcome<SubmissionResult>)
      ensures r == Judgement(id, Keys(tests), Attempts(world, limits, tests))
    {
      hide TryTest, MaxRuntime, MaxMemory, FirstStop;
      var error, finalVerdict, firstFailure, maxRuntime, maxMemory := RunTests(tests, world, limits);
      ghost var attempts := Attempts(world, limits, tests);
      assert attempts[..|tests|] == attempts;
      if error.Some? {
        return Raised(error.value);
      }
      var result := Blank(id).(verdict := finalVerdict, runtimeMs := Some(maxRuntime), memoryKb := Some(maxMemory));
      if result.verdict != ACCEPTED {
        result := result.(incorrectTestcaseIdx := firstFailure.value.idx,
                          incorrectTestcaseKey := Some(firstFailure.value.key),
                          output := Some(firstFailure.value.output));
      }
      r := Returned(result);
    }

    method RunTest(world: World, limits: Limits, t: TestCase, index: nat) returns (r: Attempt)
      ensures r == TryTest(world, limits, t, index)
    {
      var input := world.fetch(t.inputKey);
      if input.Raised? {
        return Raised(input.error);
      }
      var expected := world.fetch(t.outputKey);
      if expected.Raised? {
        return Raised(expected.error);
      }
      var x := world.execute(index, input.value);
      if x.Raised? {
        return Raised(x.error);
      }
      r := RunProgram(world.decode, x.value, expected.value, limits);
    }

    /** process_submission. */
    method ProcessSubmission(id: nat, world: World, container: Container) returns (r: Outcome<SubmissionResult>)
      modifies this`events, db`submissions, container
      ensures r == Process(old(db.submissions), db.problems, id, world)
      ensures events == old(events) + EventsOf(old(db.submissions), db.problems, id, world)
      ensures container.stops == old(container.stops) + (if EntersContainer(old(db.submissions), db.problems, id, world) then 1 else 0)
      ensures db.submissions == RowsAfter(old(db.submissions), db.problems, id, world)
    {
      if world.loadError.Some? {
        return Raised(world.loadError.value);
      }
      if id !in db.submissions {
        return Raised(ValueError);
      }
      var row := db.submissions[id];
      if row.problemId !in db.problems {
        return Raised(ValueError);
      }
      var p := db.problems[row.problemId];
      if world.sandbox.Raised? {
        return Raised(world.sandbox.error);
      }
      if world.sandbox.value.None? {
        return Raised(OtherError);
      }
      if world.publishError.Some? {
        return Raised(world.publishError.value);
      }
      events := events + [Event(id, row.language)];
      if !world.lookupOk {
        return Raised(OtherError);
      }
      r := InContainer(id, row, p, world);
      container.Stop();
      if world.stopError.Some? {
        return Raised(world.stopError.value);
      }
      if r.Raised? {
        return;
      }
      if world.rowVanishes {
        db.submissions := db.submissions - {id};
      }
      db.UpdateSubmissionResult(id, r.value, world.commitError);
      if world.commitError.Some? {
        r := Raised(world.commitError.value);
      }
    }

    method InContainer(id: nat, row: SubmissionRow, p: Problem, world: World) returns (r: Outcome<SubmissionResult>)
      ensures r == Inside(id, row, p, world)
    {
      if world.code.Raised? {
        return Raised(world.code.error);
      }
      if world.copyError.Some? {
        return Raised(world.copyError.value);
      }
      if Compiled(row.language) {
        if world.compile.Raised? {
          return Raised(world.compile.error);
        }
        if !world.compile.value.ok {
          return Returned(Blank(id).(verdict := COMPILATION_ERROR, output := Some(world.compile.value.output)));
        }
      }
      r := JudgeTests(id, p.tests, world, LimitsOf(p));
    }
  }
}
