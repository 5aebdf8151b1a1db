/** Fixed-size stores written round and round, and what they remember. */
module Cyclic {
  /** Contents of a ring with its oldest entry at head. */
  ghost function Unroll<T>(ring: seq<T>, head: nat): (u: seq<T>)
    requires head <= |ring|
    ensures |u| == |ring|
  { ring[head..] + ring[..head] }

  lemma UnrollStep<T>(ring: seq<T>, head: nat, x: T)
    requires head < |ring|
    ensures Unroll(ring, head)[0] == ring[head]
    ensures Unroll(ring[head := x], head + 1) == Unroll(ring, head)[1..] + [x]
  {
  }

  /** The same with the head going back to the start past the last slot. */
  lemma UnrollWrapped<T>(ring: seq<T>, head: nat, next: nat, x: T)
    requires head < |ring| && next == if head + 1 == |ring| then 0 else head + 1
    ensures Unroll(ring, head)[0] == ring[head]
    ensures Unroll(ring[head := x], next) == Unroll(ring, head)[1..] + [x]
  {
    UnrollStep(ring, head, x);
    var r := ring[head := x];
    assert Unroll(r, 0) == r == Unroll(r, |r|);
  }

  /** The last n entries of a history that starts with rest. */
  ghost function Last<T>(n: nat, rest: T, h: seq<T>): (w: seq<T>)
    ensures |w| == n
  { (seq(n, _ => rest) + h)[|h|..] }

  lemma LastSnoc<T>(n: nat, rest: T, h: seq<T>, x: T)
    requires n > 0
    ensures Last(n, rest, h + [x]) == Last(n, rest, h)[1..] + [x]
  {
    assert seq(n, _ => rest) + (h + [x]) == (seq(n, _ => rest) + h) + [x];
  }
}
