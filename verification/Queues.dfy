/** A Redis list as a queue: pushed at the left end, popped at the right. */
module Queues {

  /** The entries in the order in which they will be popped. */
  function Reversed<T>(q: seq<T>): seq<T> {
    if q == [] then [] else Reversed(q[1..]) + [q[0]]
  }

  lemma {:induction false} ReversedAppend<T>(q: seq<T>, x: T)
    ensures Reversed(q + [x]) == [x] + Reversed(q)
  {
    if q == [] {
      assert (q + [x])[1..] == [];
    } else {
      ReversedAppend(q[1..], x);
      assert (q + [x])[1..] == q[1..] + [x];
    }
  }

  lemma {:induction false} ReversedAt<T>(q: seq<T>, k: nat)
    requires k < |q|
    ensures |Reversed(q)| == |q| && Reversed(q)[k] == q[|q| - 1 - k]
  {
    if |q| > 1 {
      ReversedAt(q[1..], if k < |q| - 1 then k else 0);
    }
  }

  lemma {:induction false} ReversedLength<T>(q: seq<T>)
    ensures |Reversed(q)| == |q|
  {
    if q != [] {
      ReversedLength(q[1..]);
    }
  }
}
