/**
 * The arithmetic of the two identifier sources: the player-id counter, which
 * pre-increments and resets on reaching MAX_SAFE_INTEGER, and the group-id
 * allocator, which takes the first of at most ten random candidates that is
 * not already a live group id.
 */
module Ids {

  import opened Wrappers

  /** `Number.MAX_SAFE_INTEGER`, 2^53 - 1. */
  const MaxSafeInteger: int := 9007199254740991

  /** The counter's value before the first id is issued. */
  const InitialPlayerCounter: int := 1

  /** How many random candidates `unusedGroupId` tries. */
  const RetryLimit: nat := 10

  /** The largest group id the allocator can draw: a random fraction scaled to a million and rounded. */
  const MaxGroupId: int := 1000000

  /** The id `get_player_id` returns, and stores, when the counter holds `current`. */
  function NextPlayerIdAfter(current: int): (r: int)
    requires InitialPlayerCounter <= current < MaxSafeInteger
    ensures InitialPlayerCounter <= r < MaxSafeInteger
    ensures r > current <==> current + 1 < MaxSafeInteger
    ensures current + 1 < MaxSafeInteger ==> r == current + 1
    ensures r <= current ==> r == InitialPlayerCounter
  {
    if current + 1 == MaxSafeInteger then InitialPlayerCounter else current + 1
  }

  /** The counter after `k` calls of `get_player_id`, starting from `start`. */
  function CounterAfter(start: int, k: nat): (c: int)
    requires InitialPlayerCounter <= start < MaxSafeInteger
    ensures InitialPlayerCounter <= c < MaxSafeInteger
  {
    if k == 0 then start else NextPlayerIdAfter(CounterAfter(start, k - 1))
  }

  /** From a fresh counter, the k-th id issued is k + 1 until the counter wraps; the first is 2. */
  lemma {:induction false} IssuedIdsCountUp(k: nat)
    requires k < MaxSafeInteger - 1
    ensures CounterAfter(InitialPlayerCounter, k) == k + 1
  {
    if k > 0 {
      IssuedIdsCountUp(k - 1);
    }
  }

  /** Ids issued by a fresh counter before it wraps are pairwise distinct. */
  lemma IssuedIdsDistinct(i: nat, j: nat)
    requires i < j < MaxSafeInteger - 1
    ensures CounterAfter(InitialPlayerCounter, i) < CounterAfter(InitialPlayerCounter, j)
  {
    IssuedIdsCountUp(i);
    IssuedIdsCountUp(j);
  }

  /** The call after the one that issued MaxSafeInteger - 1 resets the counter and returns 1. */
  lemma IssuedIdsWrap()
    ensures CounterAfter(InitialPlayerCounter, MaxSafeInteger - 1) == InitialPlayerCounter
  {
    IssuedIdsCountUp(MaxSafeInteger - 2);
  }

  /** The first candidate that is not in `used`, if there is one. */
  function FirstUnused(candidates: seq<int>, used: set<int>): (r: Option<int>)
    ensures r.None? <==> forall i :: 0 <= i < |candidates| ==> candidates[i] in used
    ensures r.Some? ==> r.value !in used
    ensures r.Some? ==> exists i :: 0 <= i < |candidates| && candidates[i] == r.value
                                   && forall j :: 0 <= j < i ==> candidates[j] in used
  {
    if candidates == [] then None
    else if candidates[0] !in used then Some(candidates[0])
    else
      var r := FirstUnused(candidates[1..], used);
      assert forall i :: 1 <= i < |candidates| ==> candidates[i] == candidates[1..][i - 1];
      if r.Some? then
        var i :| 0 <= i < |candidates[1..]| && candidates[1..][i] == r.value
                 && forall j :: 0 <= j < i ==> candidates[1..][j] in used;
        assert candidates[i + 1] == r.value;
        r
      else r
  }

  /** The first free candidate is the one at the first index whose predecessors are all taken. */
  lemma {:induction false} FirstUnusedAt(candidates: seq<int>, used: set<int>, i: nat)
    requires i < |candidates| && candidates[i] !in used
    requires forall j :: 0 <= j < i ==> candidates[j] in used
    ensures FirstUnused(candidates, used) == Some(candidates[i])
  {
    if i > 0 {
      FirstUnusedAt(candidates[1..], used, i - 1);
    }
  }

  /** When every id in 0..MaxGroupId is taken, no candidate from that range is free. */
  lemma AllocatorExhausted(candidates: seq<int>, used: set<int>)
    requires forall c :: 0 <= c <= MaxGroupId ==> c in used
    requires forall i :: 0 <= i < |candidates| ==> 0 <= candidates[i] <= MaxGroupId
    ensures FirstUnused(candidates, used) == None
  {
  }
}
