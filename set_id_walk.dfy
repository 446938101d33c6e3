/**
  The set-id loops of set_of_descriptor_set_layouts::prepare and
  root::get_or_create_descriptor_sets as written: a uint32_t counter runs
  while it is at most the largest set id, and ++ wraps it around at
  0xFFFFFFFF.  The rest of the model walks the set ids with an unbounded
  counter instead (Bindings.PrepareLayoutSet, Root.CollectSets).
 */
module SetIdWalk {
  import opened Bindings

  /** ++setId on a uint32_t. */
  function Next32(id: nat): (n: nat)
    requires id <= U32Max
    ensures n <= U32Max
  {
    if id == U32Max then 0 else id + 1
  }

  /** The counter after `k` passes of the loop that started it at `start`. */
  function CounterAfter(start: nat, k: nat): (c: nat)
    requires start <= U32Max
    ensures c <= U32Max
  {
    if k == 0 then start else Next32(CounterAfter(start, k - 1))
  }

  /** The loop guard as written: setId <= maxSetId. */
  predicate Guard(setId: nat, maxSetId: nat)
  {
    setId <= maxSetId
  }

  /** After k passes the counter is start + k, taken modulo 2^32. */
  lemma {:induction false} CounterAfterWraps(start: nat, k: nat)
    requires start <= U32Max
    ensures CounterAfter(start, k) == (start + k) % U32Modulus
  {
    if k > 0 {
      CounterAfterWraps(start, k - 1);
    }
  }

  /**
    With a largest set id of 0xFFFFFFFF the guard holds after every number
    of passes, so the loop never ends; the counter comes back to 0 after
    0xFFFFFFFF and, 2^32 passes on, to where it started.
   */
  lemma {:induction false} WrappingLoopNeverExits(start: nat, k: nat)
    requires start <= U32Max
    ensures Guard(CounterAfter(start, k), U32Max)
    ensures CounterAfter(U32Max, 1) == 0
    ensures CounterAfter(start, k + U32Modulus) == CounterAfter(start, k)
  {
    CounterAfterWraps(start, k);
    CounterAfterWraps(start, k + U32Modulus);
  }

  /**
    Below 0xFFFFFFFF the loop ends as intended: the guard holds for the
    passes that visit start..maxSetId and fails on the pass after.
   */
  lemma {:induction false} BoundedLoopExits(start: nat, maxSetId: nat, k: nat)
    requires start <= maxSetId < U32Max
    ensures k <= maxSetId - start ==> Guard(CounterAfter(start, k), maxSetId)
    ensures !Guard(CounterAfter(start, maxSetId - start + 1), maxSetId)
  {
    CounterAfterWraps(start, k);
    CounterAfterWraps(start, maxSetId - start + 1);
  }
}
