/** Taking one entry out of a queue. */
module Queues {
  function Without(queue: seq<nat>, t: nat): (r: seq<nat>)
    ensures |r| <= |queue|
  {
    if queue == [] then [] else if queue[0] == t then queue[1..] else [queue[0]] + Without(queue[1..], t)
  }

  lemma {:induction false} WithoutAt(queue: seq<nat>, t: nat, i: nat)
    requires i < |queue| && queue[i] == t && t !in queue[..i]
    ensures Without(queue, t) == queue[..i] + queue[i + 1..]
  {
    if i > 0 {
      assert queue[0] in queue[..i];
      assert queue[1..][..i - 1] == queue[1..i] && queue[1..][i..] == queue[i + 1..];
      assert forall k :: 0 <= k < i - 1 ==> queue[1..i][k] == queue[..i][k + 1];
      WithoutAt(queue[1..], t, i - 1);
      assert queue[..i] == [queue[0]] + queue[1..i];
    }
  }

  /** The queue without the entry, which it holds. */
  method Erase(queue: seq<nat>, t: nat) returns (r: seq<nat>)
    requires t in queue
    ensures r == Without(queue, t)
  {
    var i := 0;
    while queue[i] != t
      invariant i < |queue| && t !in queue[..i]
      decreases |queue| - i
    {
      i := i + 1;
    }
    WithoutAt(queue, t, i);
    r := queue[..i] + queue[i + 1..];
  }
}
