/**
 What the testcase loop of `process_submission` decides, stated on the list of what each testcase's run
 would do.
 */
module Verdicts {
  import opened JudgeTypes
  import opened Records
  import opened Executor

  datatype SubmissionResult = SubmissionResult(
    submissionId: nat,
    verdict: Verdict,
    output: Option<string>,
    incorrectTestcaseIdx: int,
    incorrectTestcaseKey: Option<string>,
    runtimeMs: Option<int>,
    memoryKb: Option<int>
  )

  const OUTPUT_LIMIT := 8192

  type Attempt = Outcome<RunResult>

  /** The loop goes no further than this testcase. */
  predicate Stops(a: Attempt) { a.Raised? || !a.value.ok }

  /** The index of the first testcase that stops the loop, or the number of testcases. */
  function FirstStop(attempts: seq<Attempt>): (k: nat)
    ensures k <= |attempts| && (forall i | 0 <= i < k :: !Stops(attempts[i])) && (k < |attempts| ==> Stops(attempts[k]))
  {
    if attempts == [] || Stops(attempts[0]) then 0 else 1 + FirstStop(attempts[1..])
  }

  /** The testcases that were executed. */
  function Executed(attempts: seq<Attempt>): nat {
    if FirstStop(attempts) < |attempts| then FirstStop(attempts) + 1 else |attempts|
  }

  predicate AllReturned(attempts: seq<Attempt>) { forall i | 0 <= i < |attempts| :: attempts[i].Returned? }

  function MaxRuntime(attempts: seq<Attempt>): int
    requires AllReturned(attempts)
  {
    if attempts == [] then 0
    else Max(MaxRuntime(attempts[..|attempts| - 1]), attempts[|attempts| - 1].value.runtimeMs)
  }

  function MaxMemory(attempts: seq<Attempt>): int
    requires AllReturned(attempts)
  {
    if attempts == [] then 0
    else Max(MaxMemory(attempts[..|attempts| - 1]), attempts[|attempts| - 1].value.memoryKb)
  }

  function Truncated(s: string): string { if |s| <= OUTPUT_LIMIT then s else s[..OUTPUT_LIMIT] }

  function Blank(id: nat): SubmissionResult { SubmissionResult(id, PENDING, None, 0, None, None, None) }

  /** The result of the loop over all testcases. `keys` are the input keys of the testcases. */
  function Judgement(id: nat, keys: seq<string>, attempts: seq<Attempt>): Outcome<SubmissionResult>
    requires |keys| == |attempts|
  {
    var k := FirstStop(attempts);
    if k == |attempts| then
      Returned(Blank(id).(verdict := ACCEPTED, runtimeMs := Some(MaxRuntime(attempts)), memoryKb := Some(MaxMemory(attempts))))
    else
      match attempts[k]
      case Raised(e) => Raised(e)
      case Returned(run) =>
        Returned(SubmissionResult(id, run.verdict, Some(Truncated(run.output)), k + 1, Some(keys[k]),
                                  Some(MaxRuntime(attempts[..k + 1])), Some(MaxMemory(attempts[..k + 1]))))
  }

  // ----- what a judgement means -----

  predicate Sane(run: RunResult) {
    (run.ok <==> run.verdict == ACCEPTED) && run.verdict != PENDING && run.verdict != COMPILATION_ERROR
  }

  lemma {:induction false} MaximaAreMaxima(attempts: seq<Attempt>)
    requires AllReturned(attempts)
    ensures MaxRuntime(attempts) >= 0 && MaxMemory(attempts) >= 0
    ensures forall i | 0 <= i < |attempts| ::
              attempts[i].value.runtimeMs <= MaxRuntime(attempts) && attempts[i].value.memoryKb <= MaxMemory(attempts)
    ensures MaxRuntime(attempts) == 0 || exists i :: 0 <= i < |attempts| && attempts[i].value.runtimeMs == MaxRuntime(attempts)
    ensures MaxMemory(attempts) == 0 || exists i :: 0 <= i < |attempts| && attempts[i].value.memoryKb == MaxMemory(attempts)
  {
    if attempts != [] {
      var init, last := attempts[..|attempts| - 1], |attempts| - 1;
      MaximaAreMaxima(init);
      if MaxRuntime(attempts) == attempts[last].value.runtimeMs {
        assert attempts[last].value.runtimeMs == MaxRuntime(attempts);
      } else if MaxRuntime(init) != 0 {
        var i :| 0 <= i < |init| && init[i].value.runtimeMs == MaxRuntime(init);
        assert attempts[i].value.runtimeMs == MaxRuntime(attempts);
      }
      if MaxMemory(attempts) == attempts[last].value.memoryKb {
        assert attempts[last].value.memoryKb == MaxMemory(attempts);
      } else if MaxMemory(init) != 0 {
        var i :| 0 <= i < |init| && init[i].value.memoryKb == MaxMemory(init);
        assert attempts[i].value.memoryKb == MaxMemory(attempts);
      }
    }
  }

  predicate PassedUpTo(attempts: seq<Attempt>, k: nat)
    requires k <= |attempts|
  {
    forall i | 0 <= i < k :: attempts[i].Returned? && attempts[i].value.ok
  }

  /** The loop raises exactly when the first testcase that does not pass raises. */
  lemma RaisesExactlyWhen(id: nat, keys: seq<string>, attempts: seq<Attempt>)
    requires |keys| == |attempts|
    ensures Judgement(id, keys, attempts).Raised? <==>
              exists k :: 0 <= k < |attempts| && PassedUpTo(attempts, k) && attempts[k].Raised?
  {
    var k := FirstStop(attempts);
    if Judgement(id, keys, attempts).Raised? {
      assert PassedUpTo(attempts, k) && attempts[k].Raised?;
    }
    if j :| 0 <= j < |attempts| && PassedUpTo(attempts, j) && attempts[j].Raised? {
      assert Stops(attempts[j]);
      assert k == j;
    }
  }

  /** The verdict is ACCEPTED exactly when every testcase passes; otherwise everything reported is that of
      the least failing testcase. The result is never PENDING. */
  lemma VerdictIsLeastFailure(id: nat, keys: seq<string>, attempts: seq<Attempt>)
    requires |keys| == |attempts| && Judgement(id, keys, attempts).Returned?
    requires forall i | 0 <= i < |attempts| && attempts[i].Returned? :: Sane(attempts[i].value)
    ensures var r := Judgement(id, keys, attempts).value;
            && (r.verdict == ACCEPTED <==> PassedUpTo(attempts, |attempts|))
            && (r.verdict == ACCEPTED ==> r.output == None && r.incorrectTestcaseKey == None && r.incorrectTestcaseIdx == 0)
            && (r.verdict != ACCEPTED ==>
                  exists k :: 0 <= k < |attempts| && PassedUpTo(attempts, k)
                    && attempts[k].Returned? && !attempts[k].value.ok && r.verdict == attempts[k].value.verdict
                    && r.incorrectTestcaseIdx == k + 1 && r.incorrectTestcaseKey == Some(keys[k])
                    && r.output == Some(Truncated(attempts[k].value.output)))
            && r.verdict != PENDING && r.verdict != COMPILATION_ERROR
  {
    var k := FirstStop(attempts);
    if k < |attempts| {
      assert Stops(attempts[k]) && PassedUpTo(attempts, k);
    }
  }

  /** Runtime and memory are maxima over exactly the executed testcases. */
  lemma ResourcesAreMaxima(id: nat, keys: seq<string>, attempts: seq<Attempt>)
    requires |keys| == |attempts| && Judgement(id, keys, attempts).Returned?
    ensures var r := Judgement(id, keys, attempts).value; var n := Executed(attempts);
            && AllReturned(attempts[..n])
            && r.runtimeMs == Some(MaxRuntime(attempts[..n])) && r.memoryKb == Some(MaxMemory(attempts[..n]))
            && forall i | 0 <= i < n ::
                 attempts[i].value.runtimeMs <= r.runtimeMs.value && attempts[i].value.memoryKb <= r.memoryKb.value
  {
    var n := Executed(attempts);
    assert attempts[..|attempts|] == attempts;
    assert forall i | 0 <= i < n :: attempts[..n][i] == attempts[i];
    MaximaAreMaxima(attempts[..n]);
  }

  // ----- resources against limits -----

  predicate AllFaithful(attempts: seq<Attempt>, expected: seq<string>, limits: Limits)
    requires |expected| == |attempts|
  {
    forall i | 0 <= i < |attempts| && attempts[i].Returned? :: Faithful(attempts[i].value, expected[i], limits)
  }

  lemma ExecutedMemory(attempts: seq<Attempt>, expected: seq<string>, limits: Limits, i: nat)
    requires |expected| == |attempts| && AllFaithful(attempts, expected, limits)
    requires i < Executed(attempts) && attempts[i].Returned?
    ensures attempts[i].value.memoryKb <= limits.memoryKb && attempts[i].value.runtimeMs <= 1000 * limits.seconds
    ensures attempts[i].value.memoryKb == limits.memoryKb ==>
              i == FirstStop(attempts) && attempts[i].value.verdict == MEMORY_LIMIT_EXCEEDED
    ensures limits.memoryKb <= 0 ==> attempts[i].value.memoryKb == limits.memoryKb
  {
    assert Faithful(attempts[i].value, expected[i], limits);
    if i < FirstStop(attempts) {
      assert !Stops(attempts[i]);
    }
  }

  /** The recorded memory equals the limit exactly when the verdict is MLE, for every submission, exactly
      under this condition on the problem: a positive limit; or a zero limit and some testcase; or a
      negative limit and none. Recorded runtime never leaves 0 .. 1000 * limit. */
  lemma MemoryTellsVerdict(id: nat, keys: seq<string>, attempts: seq<Attempt>, expected: seq<string>, limits: Limits)
    requires |keys| == |attempts| == |expected| && Judgement(id, keys, attempts).Returned?
    requires AllFaithful(attempts, expected, limits)
    ensures var r := Judgement(id, keys, attempts).value;
            && ((r.memoryKb == Some(limits.memoryKb) <==> r.verdict == MEMORY_LIMIT_EXCEEDED) <==>
                  (limits.memoryKb > 0 || (limits.memoryKb == 0 && attempts != []) || (limits.memoryKb < 0 && attempts == [])))
            && (limits.memoryKb > 0 ==> 0 <= r.memoryKb.value <= limits.memoryKb)
            && 0 <= r.runtimeMs.value <= Max(0, 1000 * limits.seconds)
  {
    var n, k := Executed(attempts), FirstStop(attempts);
    var ran := attempts[..n];
    ResourcesAreMaxima(id, keys, attempts);
    MaximaAreMaxima(ran);
    forall i | 0 <= i < n
      ensures ran[i] == attempts[i] && ran[i].value.memoryKb <= limits.memoryKb && ran[i].value.runtimeMs <= 1000 * limits.seconds
      ensures ran[i].value.memoryKb == limits.memoryKb ==> i == k && attempts[i].value.verdict == MEMORY_LIMIT_EXCEEDED
      ensures limits.memoryKb <= 0 ==> ran[i].value.memoryKb == limits.memoryKb
    {
      ExecutedMemory(attempts, expected, limits, i);
    }
    if k < |attempts| {
      assert Faithful(attempts[k].value, expected[k], limits);
      assert ran[k] == attempts[k];
    }
    if attempts != [] && limits.memoryKb <= 0 {
      assert n > 0 && ran[0].value.memoryKb == limits.memoryKb;
    }
  }
}
