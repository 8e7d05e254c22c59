/** Generic helpers shared by the app and the reel. */
module Wrappers {

  /** The optional value used for JavaScript's `number | null` and for "nothing emitted". */
  datatype Option<+T> = None | Some(value: T)

  /** A queue of scheduled callbacks with entry `i` taken out, as when that callback runs. */
  function RemoveAt<T>(queue: seq<T>, i: nat): (r: seq<T>)
    requires i < |queue|
    ensures |r| == |queue| - 1
    ensures forall k :: 0 <= k < i ==> r[k] == queue[k]
    ensures forall k :: i <= k < |r| ==> r[k] == queue[k + 1]
    ensures multiset(r) == multiset(queue) - multiset{queue[i]}
  {
    SplitAround(queue, i);
    queue[..i] + queue[i + 1..]
  }

  /** Taking entry `i` out of a sequence takes one copy of it out of its multiset. */
  lemma SplitAround<T>(queue: seq<T>, i: nat)
    requires i < |queue|
    ensures multiset(queue[..i] + queue[i + 1..]) == multiset(queue) - multiset{queue[i]}
  {
    assert queue == queue[..i] + [queue[i]] + queue[i + 1..];
  }
}
