/** What the code of one thread or process did in a run it shares with others. */
module Interleaving {

  /** What the others try to do at the i-th point where they can get in. */
  function Slot<S>(env: seq<seq<S>>, i: nat): seq<S> { if i < |env| then env[i] else [] }

  /** The steps of a run that are one's own. */
  function Part<S(!new)>(steps: seq<S>, own: S -> bool): seq<S> {
    if steps == [] then []
    else if own(steps[0]) then [steps[0]] + Part(steps[1..], own)
    else Part(steps[1..], own)
  }

  lemma {:induction false} PartConcat<S(!new)>(a: seq<S>, b: seq<S>, own: S -> bool)
    ensures Part(a + b, own) == Part(a, own) + Part(b, own)
  {
    if a == [] {
      assert a + b == b;
    } else {
      assert (a + b)[1..] == a[1..] + b;
      PartConcat(a[1..], b, own);
    }
  }

  lemma PartOne<S(!new)>(steps: seq<S>, a: S, own: S -> bool)
    ensures Part(steps + [a], own) == Part(steps, own) + (if own(a) then [a] else [])
  {
    PartConcat(steps, [a], own);
    assert [a][1..] == [];
  }
}
