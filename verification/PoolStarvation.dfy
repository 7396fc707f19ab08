/**
 When can the pool come to rest empty? Exactly when the threshold does not exceed the number of
 creators. The upper half of the file shows that such a pool never recovers; the lower half builds
 the run that gets there.
 */
module PoolStarvation {
  import opened JudgeTypes
  import opened SandboxPool

  /** No container of the language is warm, none is coming, and nothing will ask for one. */
  predicate Starved(s: Pool, l: Language) {
    Settled(s, l) && Warm(s, l) == Undecremented(s, l) == 0 && s.pending.At(l) == 0
  }

  lemma NothingToDo(s: Pool, a: Step, l: Language)
    requires Starved(s, l) && Enabled(s, a)
    ensures !(a.JudgePop? && a.language == l) && !(a.TakeEvent? && s.events[0] == l) && !(a.JudgePublish? && a.language == l)
    ensures a.GetTask? ==> s.queue[0] != l
    ensures a.PushWarm? || a.Decrement? || a.CreateFails? ==> s.creators[a.creator].language != l
  {
    if a.TakeEvent? {
      assert s.events[0] in multiset(s.events);
    }
    if a.GetTask? {
      assert s.queue[0] in multiset(s.queue);
    }
    if a.PushWarm? || a.Decrement? || a.CreateFails? {
      assert s.creators[a.creator] in multiset(s.creators);
    }
  }

  lemma StarvedStep(t: int, s: Pool, a: Step, l: Language)
    requires Starved(s, l) && Enabled(s, a)
    ensures Warm(Apply(t, s, a), l) == 0
    ensures Apply(t, s, a).manager.Halted? || Starved(Apply(t, s, a), l)
    ensures !(a.JudgePop? && a.language == l)
  {
    StepTally(t, s, a, l);
    NothingToDo(s, a, l);
  }

  /** Once starved, always starved: while the manager runs no container of the language ever becomes
      warm again and every judge that waits for one times out. */
  lemma {:induction false} StarvedForever(t: int, s: Pool, steps: seq<Step>, s': Pool, l: Language)
    requires Starved(s, l) && Run(t, s, steps, s') && !s'.manager.Halted?
    ensures Starved(s', l)
    ensures forall i | 0 <= i < |steps| :: !(steps[i].JudgePop? && steps[i].language == l)
    decreases |steps|
  {
    if steps != [] {
      var m := Apply(t, s, steps[0]);
      StarvedStep(t, s, steps[0], l);
      if m.manager.Halted? {
        HaltedForever(t, m, steps[1..], s');
      } else {
        StarvedForever(t, m, steps[1..], s', l);
        assert forall i | 0 < i < |steps| :: steps[i] == steps[1..][i - 1];
      }
    }
  }

  lemma {:induction false} HaltedForever(t: int, s: Pool, steps: seq<Step>, s': Pool)
    requires Run(t, s, steps, s') && s.manager.Halted?
    ensures s'.manager.Halted?
    decreases |steps|
  {
    if steps != [] {
      HaltedForever(t, Apply(t, s, steps[0]), steps[1..], s');
    }
  }

  /** After the creators have been joined no warm list grows again: each only loses its right end. */
  lemma {:induction false} NoRefillAfterJoin(t: int, s: Pool, steps: seq<Step>, s': Pool, l: Language)
    requires s.manager.Halted? && AllStopped(s) && Run(t, s, steps, s')
    ensures AllStopped(s') && s'.warm.At(l) <= s.warm.At(l)
    decreases |steps|
  {
    if steps != [] {
      NoRefillAfterJoin(t, Apply(t, s, steps[0]), steps[1..], s', l);
    }
  }

  /** "The first maintain_pool is over" is permanent. */
  lemma {:induction false} InitialisedForever(t: int, s: Pool, steps: seq<Step>, s': Pool, l: Language)
    requires Initialised(s, l) && Run(t, s, steps, s')
    ensures Initialised(s', l)
    decreases |steps|
  {
    if steps != [] {
      InitialisedForever(t, Apply(t, s, steps[0]), steps[1..], s', l);
    }
  }

  // ----- building runs -----

  ghost predicate Reaches(t: int, s: Pool, s': Pool) {
    exists steps :: Run(t, s, steps, s')
  }

  lemma Here(t: int, s: Pool)
    ensures Reaches(t, s, s)
  {
    assert Run(t, s, [], s);
  }

  lemma {:induction false} Extended(t: int, s: Pool, steps: seq<Step>, m: Pool, a: Step)
    requires Run(t, s, steps, m) && Enabled(m, a)
    ensures Run(t, s, steps + [a], Apply(t, m, a))
    decreases |steps|
  {
    hide Apply, Enabled;
    if steps == [] {
      assert Run(t, Apply(t, m, a), [], Apply(t, m, a));
      assert (steps + [a])[1..] == [];
    } else {
      Extended(t, Apply(t, s, steps[0]), steps[1..], m, a);
      assert (steps + [a])[1..] == steps[1..] + [a];
    }
  }

  lemma Then(t: int, s: Pool, m: Pool, a: Step, e: Pool)
    requires Reaches(t, s, m) && Enabled(m, a) && e == Apply(t, m, a)
    ensures Reaches(t, s, e)
  {
    var steps :| Run(t, s, steps, m);
    Extended(t, s, steps, m, a);
  }

  function Copies(l: Language, n: nat): seq<Language> { seq(n, i => l) }

  /** The first `k` creators in state `a`, the next ones up to `m` in state `b`, the rest idle. */
  function Crew(c: nat, k: nat, a: Creator, m: nat, b: Creator): seq<Creator> {
    seq(c, i => if i < k then a else if i < m then b else Idle)
  }

  function Fresh(c: nat): Pool {
    Pool(PerLanguage([], [], []), PerLanguage(0, 0, 0), [], 0, Crew(c, 0, Idle, 0, Idle), Ready,
         [Language.C, Language.Cpp, Language.Python], multiset{}, [], [], [], {})
  }

  lemma FreshIsInit(c: nat)
    ensures Init(Fresh(c)) && |Fresh(c).creators| == c
  {
  }

  // Phase by phase: fill C, queue the fills of Cpp and Python, build every C container, pop them all,
  // publish, and let the manager answer every event while no creator has decremented yet.

  const CL := Language.C

  function Puts(t: nat, c: nat, k: nat): Pool requires k <= t {
    Fresh(c).(todo := [Language.Cpp, Language.Python], pending := PerLanguage(t, 0, 0),
              manager := AfterPuts(CL, t - k), queue := Copies(CL, k), unfinished := k)
  }

  lemma {:induction false} PutPhase(t: nat, c: nat, k: nat)
    requires 0 < t && k <= t
    ensures Reaches(t, Fresh(c), Puts(t, c, k))
  {
    if k == 0 {
      Here(t, Fresh(c));
      var a := Fresh(c).(todo := [Language.Cpp, Language.Python], manager := Entering(CL, true));
      Then(t, Fresh(c), Fresh(c), BeginInitial, a);
      Then(t, Fresh(c), a, CountUnderLock, a.(manager := Counted(CL, 0)));
      Then(t, Fresh(c), a.(manager := Counted(CL, 0)), Decide, Puts(t, c, 0));
    } else {
      PutPhase(t, c, k - 1);
      assert Copies(CL, k) == Copies(CL, k - 1) + [CL];
      Then(t, Fresh(c), Puts(t, c, k - 1), PutTask, Puts(t, c, k));
    }
  }

  /** The manager goes on to fill Cpp, then Python; no creator has moved yet. */
  function CppPuts(t: nat, c: nat, k: nat): Pool requires k <= t {
    Fresh(c).(todo := [Language.Python], pending := PerLanguage(t, t, 0), manager := AfterPuts(Language.Cpp, t - k),
              queue := Copies(CL, t) + Copies(Language.Cpp, k), unfinished := t + k)
  }

  lemma {:induction false} CppPhase(t: nat, c: nat, k: nat)
    requires 0 < t && k <= t
    ensures Reaches(t, Fresh(c), CppPuts(t, c, k))
  {
    if k == 0 {
      PutPhase(t, c, t);
      var s := Puts(t, c, t);
      var a := s.(todo := [Language.Python], manager := Entering(Language.Cpp, true));
      Then(t, Fresh(c), s, BeginInitial, a);
      Then(t, Fresh(c), a, CountUnderLock, a.(manager := Counted(Language.Cpp, 0)));
      assert Copies(CL, t) + Copies(Language.Cpp, 0) == Copies(CL, t);
      Then(t, Fresh(c), a.(manager := Counted(Language.Cpp, 0)), Decide, CppPuts(t, c, 0));
    } else {
      CppPhase(t, c, k - 1);
      assert Copies(CL, t) + Copies(Language.Cpp, k) == Copies(CL, t) + Copies(Language.Cpp, k - 1) + [Language.Cpp];
      Then(t, Fresh(c), CppPuts(t, c, k - 1), PutTask, CppPuts(t, c, k));
    }
  }

  /** The other languages' tasks behind those of C. */
  function Behind(t: nat): seq<Language> { Copies(Language.Cpp, t) + Copies(Language.Python, t) }

  function PythonPuts(t: nat, c: nat, k: nat): Pool requires k <= t {
    Fresh(c).(todo := [], pending := PerLanguage(t, t, t), manager := AfterPuts(Language.Python, t - k),
              queue := Copies(CL, t) + Copies(Language.Cpp, t) + Copies(Language.Python, k), unfinished := t + t + k)
  }

  lemma {:induction false} PythonPhase(t: nat, c: nat, k: nat)
    requires 0 < t && k <= t
    ensures Reaches(t, Fresh(c), PythonPuts(t, c, k))
  {
    if k == 0 {
      CppPhase(t, c, t);
      var s := CppPuts(t, c, t);
      var a := s.(todo := [], manager := Entering(Language.Python, true));
      Then(t, Fresh(c), s, BeginInitial, a);
      Then(t, Fresh(c), a, CountUnderLock, a.(manager := Counted(Language.Python, 0)));
      assert s.queue + Copies(Language.Python, 0) == s.queue;
      Then(t, Fresh(c), a.(manager := Counted(Language.Python, 0)), Decide, PythonPuts(t, c, 0));
    } else {
      PythonPhase(t, c, k - 1);
      assert PythonPuts(t, c, k).queue == PythonPuts(t, c, k - 1).queue + [Language.Python];
      Then(t, Fresh(c), PythonPuts(t, c, k - 1), PutTask, PythonPuts(t, c, k));
    }
  }

  /** `t` creators, one after the other, take the tasks of C. */
  function Gets(t: nat, c: nat, k: nat): Pool requires k <= t {
    PythonPuts(t, c, t).(queue := Copies(CL, t - k) + Behind(t), creators := Crew(c, k, Building(CL), k, Idle))
  }

  lemma {:induction false} GetPhase(t: nat, c: nat, k: nat)
    requires 0 < t <= c && k <= t
    ensures Reaches(t, Fresh(c), Gets(t, c, k))
  {
    if k == 0 {
      PythonPhase(t, c, t);
      assert Copies(CL, t) + Behind(t) == PythonPuts(t, c, t).queue;
      assert Crew(c, 0, Building(CL), 0, Idle) == Crew(c, 0, Idle, 0, Idle);
      assert Gets(t, c, 0) == PythonPuts(t, c, t);
    } else {
      GetPhase(t, c, k - 1);
      var s := Gets(t, c, k - 1);
      assert s.queue[0] == CL && s.queue[1..] == Gets(t, c, k).queue;
      assert s.creators[k - 1 := Building(CL)] == Gets(t, c, k).creators;
      Then(t, Fresh(c), s, GetTask(k - 1), Gets(t, c, k));
    }
  }

  function Down(n: nat): seq<ContainerId> { seq(n, i => if i < n then n - 1 - i else 0) }

  function Below(n: nat): (ids: set<ContainerId>)
    ensures forall x | x in ids :: x < n
  {
    if n == 0 then {} else Below(n - 1) + {n - 1}
  }

  /** They push their containers but do not get to decrement. */
  function Pushes(t: nat, c: nat, k: nat): Pool requires k <= t {
    Gets(t, c, t).(creators := Crew(c, k, Pushed(CL), t, Building(CL)), warm := PerLanguage(Down(k), [], []),
                   known := Below(k))
  }

  lemma {:induction false} PushPhase(t: nat, c: nat, k: nat)
    requires 0 < t <= c && k <= t
    ensures Reaches(t, Fresh(c), Pushes(t, c, k))
  {
    if k == 0 {
      GetPhase(t, c, t);
      assert Crew(c, 0, Pushed(CL), t, Building(CL)) == Crew(c, t, Building(CL), t, Idle);
      assert Pushes(t, c, 0) == Gets(t, c, t);
    } else {
      PushPhase(t, c, k - 1);
      var s := Pushes(t, c, k - 1);
      assert [k - 1] + Down(k - 1) == Down(k);
      assert s.known + {k - 1} == Pushes(t, c, k).known;
      assert s.creators[k - 1 := Pushed(CL)] == Pushes(t, c, k).creators;
      Then(t, Fresh(c), s, PushWarm(k - 1, k - 1), Pushes(t, c, k));
    }
  }

  /** Judges take every container ... */
  function Pops(t: nat, c: nat, k: nat): Pool requires k <= t {
    Pushes(t, c, t).(warm := PerLanguage(Down(t)[..t - k], [], []), unpublished := multiset{}[CL := k],
                     leases := seq(k, i requires 0 <= i < k => Lease(i, i)))
  }

  lemma {:induction false} PopPhase(t: nat, c: nat, k: nat)
    requires 0 < t <= c && k <= t
    ensures Reaches(t, Fresh(c), Pops(t, c, k))
  {
    if k == 0 {
      PushPhase(t, c, t);
      assert Down(t)[..t] == Down(t);
      assert Pops(t, c, 0) == Pushes(t, c, t);
    } else {
      PopPhase(t, c, k - 1);
      var s := Pops(t, c, k - 1);
      assert Last(s.warm.c) == k - 1 && ButLast(s.warm.c) == Down(t)[..t - k];
      assert s.leases + [Lease(k - 1, k - 1)] == Pops(t, c, k).leases;
      assert s.unpublished + multiset{CL} == Pops(t, c, k).unpublished;
      Then(t, Fresh(c), s, JudgePop(CL, k - 1), Pops(t, c, k));
    }
  }

  /** ... and publish. */
  function Publishes(t: nat, c: nat, k: nat): Pool requires k <= t {
    Pops(t, c, t).(unpublished := multiset{}[CL := t - k], events := Copies(CL, k))
  }

  lemma {:induction false} PublishPhase(t: nat, c: nat, k: nat)
    requires 0 < t <= c && k <= t
    ensures Reaches(t, Fresh(c), Publishes(t, c, k))
  {
    if k == 0 {
      PopPhase(t, c, t);
      assert Publishes(t, c, 0) == Pops(t, c, t);
    } else {
      PublishPhase(t, c, k - 1);
      var s := Publishes(t, c, k - 1);
      assert s.unpublished - multiset{CL} == Publishes(t, c, k).unpublished;
      assert Copies(CL, k - 1) + [CL] == Copies(CL, k);
      Then(t, Fresh(c), s, JudgePublish(CL), Publishes(t, c, k));
    }
  }

  /** The manager answers each event with "nothing to do": `pending` still counts the pushed containers. */
  function Answers(t: nat, c: nat, k: nat): Pool requires k <= t {
    Publishes(t, c, t).(events := Copies(CL, t - k))
  }

  lemma {:induction false} AnswerPhase(t: nat, c: nat, k: nat)
    requires 0 < t <= c && k <= t
    ensures Reaches(t, Fresh(c), Answers(t, c, k))
  {
    if k == 0 {
      PublishPhase(t, c, t);
      assert Answers(t, c, 0) == Publishes(t, c, t);
    } else {
      AnswerPhase(t, c, k - 1);
      var s := Answers(t, c, k - 1);
      assert s.events[1..] == Copies(CL, t - k);
      var a := s.(manager := Entering(CL, false), events := Copies(CL, t - k));
      Then(t, Fresh(c), s, TakeEvent, a);
      Then(t, Fresh(c), a, CountUnderLock, a.(manager := Counted(CL, 0)));
      Then(t, Fresh(c), a.(manager := Counted(CL, 0)), Decide, Answers(t, c, k));
    }
  }

  /** Only now do the creators decrement. */
  function Decrements(t: nat, c: nat, k: nat): Pool requires k <= t {
    Answers(t, c, t).(pending := PerLanguage(t - k, t, t), creators := Crew(c, k, Finishing, t, Pushed(CL)))
  }

  lemma {:induction false} DecrementPhase(t: nat, c: nat, k: nat)
    requires 0 < t <= c && k <= t
    ensures Reaches(t, Fresh(c), Decrements(t, c, k))
  {
    if k == 0 {
      AnswerPhase(t, c, t);
      assert Crew(c, 0, Finishing, t, Pushed(CL)) == Crew(c, t, Pushed(CL), t, Building(CL));
      assert Decrements(t, c, 0) == Answers(t, c, t);
    } else {
      DecrementPhase(t, c, k - 1);
      var s := Decrements(t, c, k - 1);
      assert s.creators[k - 1 := Finishing] == Decrements(t, c, k).creators;
      Then(t, Fresh(c), s, Decrement(k - 1), Decrements(t, c, k));
    }
  }

  lemma EndIsStarved(t: nat, c: nat)
    requires 0 < t <= c
    ensures Starved(Decrements(t, c, t), CL)
  {
    var s := Decrements(t, c, t);
    assert CL !in s.queue;
    assert Building(CL) !in s.creators && Pushed(CL) !in s.creators;
  }

  /** With a threshold of zero or less nothing is ever created. */
  lemma NothingAskedFor(t: int, c: nat)
    requires t <= 0
    ensures exists s :: Reaches(t, Fresh(c), s) && Starved(s, CL)
  {
    Here(t, Fresh(c));
    var a := Fresh(c).(todo := [Language.Cpp, Language.Python], manager := Entering(CL, true));
    var b := a.(manager := Ready);
    Then(t, Fresh(c), Fresh(c), BeginInitial, a);
    Then(t, Fresh(c), a, CountUnderLock, a.(manager := Counted(CL, 0)));
    Then(t, Fresh(c), a.(manager := Counted(CL, 0)), Decide, b);
    assert Starved(b, CL);
  }

  /** Some run from a fresh start leaves some language starved. */
  ghost predicate CanStarve(t: int, c: nat) {
    exists s, l :: Reaches(t, Fresh(c), s) && Starved(s, l)
  }

  /** The pool can settle empty, for good, exactly when the threshold is at most the number of creators. */
  lemma StarvesExactlyWhen(t: int, c: nat)
    ensures CanStarve(t, c) <==> t <= c
  {
    if t <= 0 {
      NothingAskedFor(t, c);
    } else if t <= c {
      DecrementPhase(t, c, t);
      EndIsStarved(t, c);
    } else if CanStarve(t, c) {
      var s, l :| Reaches(t, Fresh(c), s) && Starved(s, l);
      var steps :| Run(t, Fresh(c), steps, s);
      FreshIsInit(c);
      SettledPool(t, Fresh(c), steps, s, l);
    }
  }
}
