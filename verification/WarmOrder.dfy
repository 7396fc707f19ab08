/** Warm containers are handed out in the order in which they became warm. */
module WarmOrder {
  import opened JudgeTypes
  import opened Queues
  import opened SandboxPool

  /** The container this step puts into the language's warm list, if it does. */
  function StepMakes(s: Pool, a: Step, l: Language): seq<ContainerId>
    requires Enabled(s, a)
  {
    if a.PushWarm? && s.creators[a.creator].language == l then [a.container] else []
  }

  /** The container it takes out, for a judge or for cleaning. */
  function StepTakes(s: Pool, a: Step, l: Language): seq<ContainerId>
    requires Enabled(s, a)
  {
    if (a.JudgePop? || a.CleanPop?) && a.language == l then [Last(s.warm.At(l))] else []
  }

  /** The containers a run puts into a language's warm list, oldest first. */
  function MadeWarm(t: int, s: Pool, steps: seq<Step>, l: Language): seq<ContainerId>
    decreases |steps|
  {
    if steps == [] || !Enabled(s, steps[0]) then []
    else StepMakes(s, steps[0], l) + MadeWarm(t, Apply(t, s, steps[0]), steps[1..], l)
  }

  /** The containers it takes out, oldest first. */
  function Taken(t: int, s: Pool, steps: seq<Step>, l: Language): seq<ContainerId>
    decreases |steps|
  {
    if steps == [] || !Enabled(s, steps[0]) then []
    else StepTakes(s, steps[0], l) + Taken(t, Apply(t, s, steps[0]), steps[1..], l)
  }

  lemma WarmStep(t: int, s: Pool, a: Step, l: Language)
    requires Enabled(s, a)
    ensures StepTakes(s, a, l) + Reversed(Apply(t, s, a).warm.At(l)) == Reversed(s.warm.At(l)) + StepMakes(s, a, l)
  {
    var ids, ids' := s.warm.At(l), Apply(t, s, a).warm.At(l);
    if a.PushWarm? && s.creators[a.creator].language == l {
      assert ids'[1..] == ids;
    } else if (a.JudgePop? || a.CleanPop?) && a.language == l {
      assert ids == ids' + [Last(ids)];
      ReversedAppend(ids', Last(ids));
    } else {
      assert ids' == ids;
    }
  }

  lemma Rearranged<T>(a: seq<T>, b: seq<T>, c: seq<T>, d: seq<T>, e: seq<T>, f: seq<T>, g: seq<T>)
    requires b + c == d + e && a + d == f + g
    ensures (a + b) + c == f + (g + e)
  {
    assert (a + b) + c == a + (b + c);
    assert a + (d + e) == (a + d) + e;
    assert (f + g) + e == f + (g + e);
  }

  /** First in, first out: what is taken from a warm list, followed by what is still in it from the right, is
      what was in it, followed by what has become warm. */
  lemma {:induction false} WarmListIsFifo(t: int, s: Pool, steps: seq<Step>, s': Pool, l: Language)
    requires Run(t, s, steps, s')
    ensures Taken(t, s, steps, l) + Reversed(s'.warm.At(l)) == Reversed(s.warm.At(l)) + MadeWarm(t, s, steps, l)
    decreases |steps|
  {
    hide Apply, Enabled, StepTakes, StepMakes, Reversed;
    if steps != [] {
      WarmStep(t, s, steps[0], l);
      var m := Apply(t, s, steps[0]);
      WarmListIsFifo(t, m, steps[1..], s', l);
      Rearranged(StepTakes(s, steps[0], l), Taken(t, m, steps[1..], l), Reversed(s'.warm.At(l)),
                 Reversed(m.warm.At(l)), MadeWarm(t, m, steps[1..], l), Reversed(s.warm.At(l)), StepMakes(s, steps[0], l));
    }
  }
}
