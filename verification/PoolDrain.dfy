/**
 Liveness of the pool without fairness machinery: work steps are counted exactly, so a pool left
 alone runs out of work after a known number of steps, with every task turned into a warm container.
 */
module PoolDrain {
  import opened JudgeTypes
  import opened SandboxPool

  /** Steps that move a task towards the warm list. */
  predicate IsWork(a: Step) {
    a.PutTask? || a.GetTask? || a.CreateFails? || a.PushWarm? || a.Decrement? || a.TaskDone?
  }

  function Weight(c: Creator): nat {
    match c
    case Idle => 0
    case Stopped => 0
    case Building(_) => 3
    case Pushed(_) => 2
    case Finishing => 1
  }

  function CreatorWork(cs: seq<Creator>): nat {
    if cs == [] then 0 else Weight(cs[0]) + CreatorWork(cs[1..])
  }

  function TotalToPut(m: Manager): nat { if m.Putting? then m.left else 0 }

  /** The number of work steps still to come if no creation fails. */
  function Remaining(s: Pool): nat {
    5 * TotalToPut(s.manager) + 4 * |s.queue| + CreatorWork(s.creators)
  }

  function Failures(steps: seq<Step>): nat {
    if steps == [] then 0 else One(steps[0].CreateFails?) + Failures(steps[1..])
  }

  lemma {:induction false} CreatorWorkUpdate(cs: seq<Creator>, i: nat, v: Creator)
    requires i < |cs|
    ensures CreatorWork(cs[i := v]) == CreatorWork(cs) - Weight(cs[i]) + Weight(v)
  {
    if i > 0 {
      CreatorWorkUpdate(cs[1..], i - 1, v);
      assert cs[i := v][1..] == cs[1..][i - 1 := v];
    }
  }

  lemma WorkStep(t: int, s: Pool, a: Step)
    requires Enabled(s, a) && IsWork(a)
    ensures Remaining(Apply(t, s, a)) == Remaining(s) - 1 + 3 * One(a.CreateFails?)
  {
    match a
    case PutTask =>
    case GetTask(i) => CreatorWorkUpdate(s.creators, i, Building(s.queue[0]));
    case CreateFails(i) => CreatorWorkUpdate(s.creators, i, Finishing);
    case PushWarm(i, _) => CreatorWorkUpdate(s.creators, i, Pushed(s.creators[i].language));
    case Decrement(i) => CreatorWorkUpdate(s.creators, i, Finishing);
    case TaskDone(i) => CreatorWorkUpdate(s.creators, i, Idle);
  }

  lemma WorkKeepsSupply(t: int, s: Pool, a: Step, l: Language)
    requires Enabled(s, a) && IsWork(a)
    ensures Supply(Apply(t, s, a), l) == Supply(s, l)
    ensures !s.manager.Halted? && LockFree(s) ==> !Apply(t, s, a).manager.Halted? && LockFree(Apply(t, s, a))
  {
    StepTally(t, s, a, l);
  }

  ghost predicate AllWork(steps: seq<Step>) {
    forall i | 0 <= i < |steps| :: IsWork(steps[i])
  }

  /** A run of work steps is exactly as long as the work it does plus three steps per failed creation,
      and it neither creates nor loses supply. */
  lemma {:induction false} WorkIsCounted(t: int, s: Pool, steps: seq<Step>, s': Pool, l: Language)
    requires Run(t, s, steps, s') && AllWork(steps)
    ensures |steps| == Remaining(s) - Remaining(s') + 3 * Failures(steps)
    ensures Supply(s', l) == Supply(s, l)
    ensures !s.manager.Halted? && LockFree(s) ==> !s'.manager.Halted?
    decreases |steps|
  {
    if steps != [] {
      var m := Apply(t, s, steps[0]);
      assert IsWork(steps[0]);
      WorkStep(t, s, steps[0]);
      WorkKeepsSupply(t, s, steps[0], l);
      assert forall i | 0 <= i < |steps[1..]| :: steps[1..][i] == steps[i + 1];
      WorkIsCounted(t, m, steps[1..], s', l);
    }
  }

  lemma {:induction false} BusyCreator(cs: seq<Creator>) returns (i: nat)
    requires CreatorWork(cs) > 0
    ensures i < |cs| && Weight(cs[i]) > 0
  {
    if Weight(cs[0]) > 0 {
      i := 0;
    } else {
      var j := BusyCreator(cs[1..]);
      i := j + 1;
    }
  }

  lemma {:induction false} NoWorkMeansAllFree(cs: seq<Creator>, i: nat)
    requires i < |cs| && CreatorWork(cs) == 0
    ensures Weight(cs[i]) == 0
  {
    if i > 0 {
      NoWorkMeansAllFree(cs[1..], i - 1);
    }
  }

  /** Docker can always come up with an id not seen before. */
  lemma FreshContainer(known: set<ContainerId>) returns (id: ContainerId)
    ensures id !in known
  {
    var below := Above(known);
    id := below;
  }

  lemma {:induction false} Above(known: set<ContainerId>) returns (b: nat)
    ensures forall x | x in known :: x < b
  {
    if known == {} {
      b := 0;
    } else {
      var x :| x in known;
      var r := Above(known - {x});
      b := if r <= x then x + 1 else r;
      assert forall y | y in known :: y == x || y in known - {x};
    }
  }

  /** While work remains some thread can do a step of it without failing. */
  lemma SomeoneCanWork(s: Pool) returns (a: Step)
    requires Remaining(s) > 0 && |s.creators| > 0
    requires !s.manager.Halted? && LockFree(s) && StoppedOnlyWhenHalted(s)
    ensures Enabled(s, a) && IsWork(a) && !a.CreateFails?
  {
    if s.manager.Putting? && s.manager.left > 0 {
      a := PutTask;
    } else if CreatorWork(s.creators) > 0 {
      var i := BusyCreator(s.creators);
      if s.creators[i].Building? {
        var id := FreshContainer(s.known);
        a := PushWarm(i, id);
      } else if s.creators[i].Pushed? {
        a := Decrement(i);
      } else {
        a := TaskDone(i);
      }
    } else {
      NoWorkMeansAllFree(s.creators, 0);
      a := GetTask(0);
    }
  }

  /** Left alone, the pool reaches rest in exactly `Remaining` further steps. */
  lemma {:induction false} PoolComesToRest(t: int, s: Pool, l: Language) returns (steps: seq<Step>, s': Pool)
    requires |s.creators| > 0 && !s.manager.Halted? && LockFree(s) && StoppedOnlyWhenHalted(s)
    ensures Run(t, s, steps, s') && AllWork(steps) && Failures(steps) == 0
    ensures |steps| == Remaining(s) && Remaining(s') == 0
    decreases Remaining(s)
  {
    if Remaining(s) == 0 {
      steps, s' := [], s;
    } else {
      var a := SomeoneCanWork(s);
      WorkStep(t, s, a);
      StoppedStep(t, s, a);
      WorkKeepsSupply(t, s, a, l);
      var rest, e := PoolComesToRest(t, Apply(t, s, a), l);
      steps, s' := [a] + rest, e;
      assert steps[1..] == rest;
    }
  }

  /** At rest nothing is pending, and the warm list holds the whole supply there was at the start:
      from any reachable state, through any number of failed creations. */
  lemma RestIsFull(t: int, s0: Pool, before: seq<Step>, s: Pool, steps: seq<Step>, s': Pool, l: Language)
    requires Init(s0) && Run(t, s0, before, s)
    requires !s.manager.Halted? && LockFree(s)
    requires Run(t, s, steps, s') && AllWork(steps) && Remaining(s') == 0
    ensures s'.pending.At(l) == 0
    ensures Warm(s', l) == Supply(s, l)
    ensures |steps| == Remaining(s) + 3 * Failures(steps)
  {
    KeptFromInit(t, s0, before, s, l);
    KeptByRun(t, Max(t, Warm(s0, l)), |s0.creators|, s, steps, s', l);
    WorkIsCounted(t, s, steps, s', l);
    FreeCreators(s'.creators, l);
  }

  lemma FreeCreators(cs: seq<Creator>, l: Language)
    requires CreatorWork(cs) == 0
    ensures multiset(cs)[Building(l)] == 0 && multiset(cs)[Pushed(l)] == 0
  {
    if Building(l) in multiset(cs) {
      var i :| 0 <= i < |cs| && cs[i] == Building(l);
      NoWorkMeansAllFree(cs, i);
    }
    if Pushed(l) in multiset(cs) {
      var i :| 0 <= i < |cs| && cs[i] == Pushed(l);
      NoWorkMeansAllFree(cs, i);
    }
  }

  /** From every reachable running state with the lock free, the threads can finish: in exactly
      `Remaining` further steps nothing is pending and every warm list holds its whole supply. */
  lemma PoolAlwaysRecovers(t: int, s0: Pool, before: seq<Step>, s: Pool)
    requires Init(s0) && Run(t, s0, before, s) && |s0.creators| > 0
    requires !s.manager.Halted? && LockFree(s)
    ensures exists steps, s' ::
              && Run(t, s, steps, s') && AllWork(steps) && |steps| == Remaining(s)
              && forall l :: s'.pending.At(l) == 0 && Warm(s', l) == Supply(s, l)
  {
    KeptFromInit(t, s0, before, s, Language.C);
    var steps, s' := PoolComesToRest(t, s, Language.C);
    forall l
      ensures s'.pending.At(l) == 0 && Warm(s', l) == Supply(s, l)
    {
      RestIsFull(t, s0, before, s, steps, s', l);
    }
  }
}
