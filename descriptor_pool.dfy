/**
  descriptor_pool: a fixed-capacity native pool with the cache's own
  accounting of what is left in it (per-type remaining capacities and the
  number of remaining sets).

  The capacity query is modelled as written.  Its two-cursor join answers true
  exactly when the request and the pool agree entry by entry, in type and with
  enough count, over their common length (PositionwiseCovered); Covers is what
  a request asks for, and the lemmas below relate the two.
 */
module Pools {
  import opened Vk
  import opened AllocRequests
  import opened Device

  /**
    The answer of has_capacity_for: over the first min(N, H) positions the
    request's and the pool's entries have the same type and the pool's count
    is at least the requested one.
   */
  predicate PositionwiseCovered(need: seq<PoolSize>, have: seq<PoolSize>)
  {
    forall i :: 0 <= i < |need| && i < |have| ==> need[i].dtype == have[i].dtype && need[i].count <= have[i].count
  }

  /** The pool has an entry of type `t` holding at least `count`. */
  ghost predicate HasEntry(have: seq<PoolSize>, t: nat, count: nat)
  {
    exists j :: 0 <= j < |have| && have[j].dtype == t && count <= have[j].count
  }

  /** Every requested type has a pool entry of that type with at least the requested count. */
  ghost predicate Covers(need: seq<PoolSize>, have: seq<PoolSize>)
  {
    forall i :: 0 <= i < |need| ==> HasEntry(have, need[i].dtype, need[i].count)
  }

  /** Clamped subtraction: `a - b`, or zero when `b` exceeds `a`. */
  function Saturating(a: nat, b: nat): (r: nat)
    ensures r <= a
    ensures b <= a ==> r + b == a
    ensures b > a ==> r == 0
  {
    if b <= a then a - b else 0
  }

  /** std::find_if on the type: the first entry of type `t`, or |caps| when there is none. */
  function FindType(caps: seq<PoolSize>, t: nat): (i: nat)
    ensures i <= |caps|
    ensures forall j :: 0 <= j < i ==> caps[j].dtype != t
    ensures i < |caps| ==> caps[i].dtype == t
  {
    if caps == [] then 0
    else if caps[0].dtype == t then 0
    else 1 + FindType(caps[1..], t)
  }

  /** allocate's bookkeeping for one required pool size. */
  function Deduct(caps: seq<PoolSize>, dps: PoolSize): (r: seq<PoolSize>)
    ensures SameTypes(r, caps)
  {
    var i := FindType(caps, dps.dtype);
    if i == |caps| then caps
    else caps[i := PoolSize(caps[i].dtype, caps[i].count - Min(dps.count, caps[i].count))]
  }

  function Min(a: nat, b: nat): nat
  {
    if a <= b then a else b
  }

  /** allocate's bookkeeping for a list of required pool sizes, in order. */
  function DeductAll(caps: seq<PoolSize>, reqs: seq<PoolSize>): (r: seq<PoolSize>)
    ensures SameTypes(r, caps)
    decreases |reqs|
  {
    if reqs == [] then caps else DeductAll(Deduct(caps, reqs[0]), reqs[1..])
  }

  /** Two lists with the same types position by position. */
  predicate SameTypes(a: seq<PoolSize>, b: seq<PoolSize>)
  {
    |a| == |b| && forall i :: 0 <= i < |a| ==> a[i].dtype == b[i].dtype
  }

  lemma {:induction false} FindTypeSameTypes(a: seq<PoolSize>, b: seq<PoolSize>, t: nat)
    requires SameTypes(a, b)
    ensures FindType(a, t) == FindType(b, t)
  {
    if a != [] && a[0].dtype != t {
      FindTypeSameTypes(a[1..], b[1..], t);
    }
  }

  /** Deducting one more required size deducts it from what the earlier ones left. */
  lemma {:induction false} DeductAllSnoc(caps: seq<PoolSize>, reqs: seq<PoolSize>, j: nat)
    requires j < |reqs|
    ensures DeductAll(caps, reqs[..j + 1]) == Deduct(DeductAll(caps, reqs[..j]), reqs[j])
  {
    DeductAllAppend(caps, reqs[..j], [reqs[j]]);
    assert reqs[..j + 1] == reqs[..j] + [reqs[j]];
    assert DeductAll(DeductAll(caps, reqs[..j]), [reqs[j]]) == DeductAll(Deduct(DeductAll(caps, reqs[..j]), reqs[j]), []);
  }

  lemma {:induction false} DeductAllAppend(caps: seq<PoolSize>, a: seq<PoolSize>, b: seq<PoolSize>)
    ensures DeductAll(caps, a + b) == DeductAll(DeductAll(caps, a), b)
    decreases |a|
  {
    if a == [] {
      assert a + b == b;
    } else {
      assert (a + b)[0] == a[0] && (a + b)[1..] == a[1..] + b;
      DeductAllAppend(Deduct(caps, a[0]), a[1..], b);
    }
  }

  /**
    The pool's accounting after allocating sets that require `reqs`: the
    first entry of each type is lowered by everything required of that type,
    clamped at zero; every other entry is untouched.
   */
  lemma {:induction false} DeductAllCorrect(caps: seq<PoolSize>, reqs: seq<PoolSize>)
    ensures forall i :: 0 <= i < |caps| ==>
      DeductAll(caps, reqs)[i].count ==
        if i == FindType(caps, caps[i].dtype) then Saturating(caps[i].count, CountOf(reqs, caps[i].dtype))
        else caps[i].count
    decreases |reqs|
  {
    if reqs != [] {
      var d := Deduct(caps, reqs[0]);
      DeductAllCorrect(d, reqs[1..]);
      forall i | 0 <= i < |caps|
        ensures DeductAll(caps, reqs)[i].count ==
          if i == FindType(caps, caps[i].dtype) then Saturating(caps[i].count, CountOf(reqs, caps[i].dtype))
          else caps[i].count
      {
        FindTypeSameTypes(d, caps, caps[i].dtype);
      }
    }
  }

  /** A required type the pool has no entry for changes nothing (the source only warns). */
  lemma {:induction false} UnmatchedTypeUntouched(caps: seq<PoolSize>, dps: PoolSize)
    requires dps.dtype !in Types(caps)
    ensures Deduct(caps, dps) == caps
  {
    assert forall j :: 0 <= j < |caps| ==> caps[j].dtype in Types(caps);
  }

  /**
    The capacity accounting of a pool with one entry per type: after sets
    requiring `reqs` are carved from it, a type whose total requirement fits
    has exactly its capacity minus that total left, and a request for more
    than is left of it is refused by the capacity check.
   */
  lemma {:induction false} AccountingExact(caps: seq<PoolSize>, reqs: seq<PoolSize>, i: nat)
    requires StrictlyIncreasing(caps) && i < |caps|
    requires CountOf(reqs, caps[i].dtype) <= caps[i].count
    ensures DeductAll(caps, reqs)[i].count == caps[i].count - CountOf(reqs, caps[i].dtype)
    ensures forall need: seq<PoolSize> ::
      |need| > i && need[i].dtype == caps[i].dtype && need[i].count > DeductAll(caps, reqs)[i].count ==>
        !PositionwiseCovered(need, DeductAll(caps, reqs))
  {
    DeductAllCorrect(caps, reqs);
    assert forall m :: 0 <= m < i ==> caps[m].dtype != caps[i].dtype;
  }

  /** has_capacity_for, read as a promise, is sound when the request has no more entries than the pool. */
  lemma {:induction false} CoveredWhenNoLonger(need: seq<PoolSize>, have: seq<PoolSize>)
    requires PositionwiseCovered(need, have) && |need| <= |have|
    ensures Covers(need, have)
  {
    forall i | 0 <= i < |need| ensures HasEntry(have, need[i].dtype, need[i].count) {
      assert have[i].dtype == need[i].dtype && need[i].count <= have[i].count;
    }
  }

  /**
    A request with more entries than the pool is accepted as soon as the
    pool's entries match its first ones, although the pool has no entry at
    all for the request's next type.
   */
  lemma {:induction false} AcceptsTypesBeyondPool(need: seq<PoolSize>, have: seq<PoolSize>)
    requires StrictlyIncreasing(need) && StrictlyIncreasing(have)
    requires |need| > |have| && PositionwiseCovered(need, have)
    ensures need[|have|].dtype !in Types(have)
    ensures !Covers(need, have)
  {
    var t := need[|have|].dtype;
    forall j | 0 <= j < |have| ensures have[j].dtype < t {
      assert have[j].dtype == need[j].dtype;
    }
    assert !HasEntry(have, t, need[|have|].count);
  }

  /** The acceptance above, on a pool that has no entry for type 9. */
  lemma {:induction false} AcceptsTypesBeyondPoolExample()
    ensures var need := [PoolSize(1, 1), PoolSize(9, 5)];
            var have := [PoolSize(1, 1)];
      && PositionwiseCovered(need, have) && !Covers(need, have)
  {
    var need := [PoolSize(1, 1), PoolSize(9, 5)];
    var have := [PoolSize(1, 1)];
    AcceptsTypesBeyondPool(need, have);
  }

  /**
    A pool type that lies below a requested type but is not requested itself
    forces the join's pool cursor ahead of the request cursor: the request is
    refused, even when the pool could serve it.
   */
  lemma {:induction false} SkippedPoolTypeRejected(need: seq<PoolSize>, have: seq<PoolSize>, j: nat, k: nat)
    requires StrictlyIncreasing(have)
    requires j < |have| && k < |need| && have[j].dtype < need[k].dtype && have[j].dtype !in Types(need)
    ensures !PositionwiseCovered(need, have)
  {
    if j < |need| {
      assert need[j].dtype in Types(need);
      assert need[j].dtype != have[j].dtype;
    } else {
      assert have[k].dtype < have[j].dtype;
      assert need[k].dtype != have[k].dtype;
    }
  }

  /** The refusal above, on an example the pool could serve. */
  lemma {:induction false} SkippedPoolTypeExample()
    ensures var need := [PoolSize(3, 1)];
            var have := [PoolSize(1, 4), PoolSize(3, 4)];
      && Covers(need, have) && !PositionwiseCovered(need, have)
  {
    var need := [PoolSize(3, 1)];
    var have := [PoolSize(1, 4), PoolSize(3, 4)];
    assert HasEntry(have, need[0].dtype, need[0].count) by {
      assert have[1].dtype == need[0].dtype && need[0].count <= have[1].count;
    }
  }

  /**
    A requested type that the pool lacks is refused whenever some pool type
    lies above it; only types above all of the pool's can slip through.
   */
  lemma {:induction false} AbsentTypeBelowPoolRejected(need: seq<PoolSize>, have: seq<PoolSize>, k: nat, j: nat)
    requires StrictlyIncreasing(need) && StrictlyIncreasing(have)
    requires k < |need| && need[k].dtype !in Types(have)
    requires j < |have| && need[k].dtype < have[j].dtype
    ensures !PositionwiseCovered(need, have)
  {
    if k < |have| {
      assert have[k].dtype in Types(have);
      assert need[k].dtype != have[k].dtype;
    } else {
      var last := |have| - 1;
      assert have[j].dtype <= have[last].dtype;
      assert need[last].dtype < need[k].dtype;
      assert need[last].dtype != have[last].dtype;
    }
  }

  /** A pool whose remaining capacities are the request scaled by a factor of at least one has room for it. */
  lemma {:induction false} ScaledPoolCovers(s: seq<PoolSize>, factor: nat)
    requires factor >= 1
    ensures PositionwiseCovered(s, Scaled(s, factor))
  {
    forall i | 0 <= i < |s| ensures s[i].count <= Scaled(s, factor)[i].count {
      assert s[i].count * factor == s[i].count + s[i].count * (factor - 1);
    }
  }

  class DescriptorPool {
    const initialCapacities: seq<PoolSize>
    var remainingCapacities: seq<PoolSize>
    const numInitialSets: int
    var numRemainingSets: int
    /** The native vk::DescriptorPool. */
    const handle: nat
    /** Some shared_ptr still owns the pool; a weak_ptr to it has not expired. */
    var alive: bool

    constructor (sizeRequirements: seq<PoolSize>, numSets: int, handle: nat)
      ensures initialCapacities == sizeRequirements && remainingCapacities == sizeRequirements
      ensures numInitialSets == numSets && numRemainingSets == numSets
      ensures this.handle == handle && alive
    {
      initialCapacities := sizeRequirements;
      remainingCapacities := sizeRequirements;
      numInitialSets := numSets;
      numRemainingSets := numSets;
      this.handle := handle;
      alive := true;
    }

    method SetRemainingCapacities(sizes: seq<PoolSize>)
      modifies this
      ensures remainingCapacities == sizes
      ensures numRemainingSets == old(numRemainingSets)
      ensures alive == old(alive)
    {
      remainingCapacities := sizes;
    }

    /** The last owner lets go of the pool; weak references to it expire. */
    method Release()
      modifies this
      ensures !alive
      ensures remainingCapacities == old(remainingCapacities) && numRemainingSets == old(numRemainingSets)
    {
      alive := false;
    }

    /**
      has_capacity_for, as written: a merge-join of the request's sizes
      against the remaining capacities that compares counts against
      weHave[n] and finally answers n == h.  The pool is not changed.
     */
    method HasCapacityFor(request: DescriptorAllocRequest) returns (b: bool)
      ensures b <==> PositionwiseCovered(request.accumulatedSizes, remainingCapacities)
      ensures request.accumulatedSizes == [] ==> b
    {
      var weNeed := request.accumulatedSizes;
      var weHave := remainingCapacities;
      var n, h, N, H := 0, 0, |weNeed|, |weHave|;
      while n < N && h < H
        invariant 0 <= n <= h <= H && n <= N
        invariant n == h ==> forall i :: 0 <= i < n ==> weNeed[i].dtype == weHave[i].dtype && weNeed[i].count <= weHave[i].count
        invariant n < h ==> !PositionwiseCovered(weNeed, weHave)
        decreases N - n + H - h
      {
        var needType := weNeed[n].dtype;
        var haveType := weHave[h].dtype;
        if haveType < needType {
          h := h + 1;
          continue;
        }
        if needType == haveType && weNeed[n].count <= weHave[n].count {
          n := n + 1;
          h := h + 1;
          continue;
        }
        return false;
      }
      return n == h;
    }

    /** Lowers the remaining capacities by one layout's required pool sizes, one entry at a time. */
    method Carve(sizes: seq<PoolSize>)
      modifies this
      ensures remainingCapacities == DeductAll(old(remainingCapacities), sizes)
      ensures numRemainingSets == old(numRemainingSets) && alive == old(alive)
    {
      var j := 0;
      while j < |sizes|
        invariant 0 <= j <= |sizes|
        invariant remainingCapacities == DeductAll(old(remainingCapacities), sizes[..j])
        invariant numRemainingSets == old(numRemainingSets) && alive == old(alive)
      {
        CarveEntry(sizes[j]);
        DeductAllSnoc(old(remainingCapacities), sizes, j);
        j := j + 1;
      }
      assert sizes[..j] == sizes;
    }

    /** One required pool size: the first remaining entry of its type drops by its count, clamped at zero. */
    method CarveEntry(dps: PoolSize)
      modifies this
      ensures remainingCapacities == Deduct(old(remainingCapacities), dps)
      ensures numRemainingSets == old(numRemainingSets) && alive == old(alive)
    {
      var it := FindType(remainingCapacities, dps.dtype);
      if it == |remainingCapacities| {
        // Only a warning: the type is not among the pool's capacities.
      } else {
        var el := remainingCapacities[it];
        remainingCapacities := remainingCapacities[it := PoolSize(el.dtype, el.count - Min(dps.count, el.count))];
      }
    }

    /**
      Carves one set per layout from the native pool.  Only when that
      succeeds is the accounting updated: every required pool size of every
      layout lowers the first remaining entry of its type, clamped at zero,
      and the remaining set count drops by the number of layouts.
     */
    method Allocate(layouts: seq<DescriptorSetLayout>, device: LogicalDevice) returns (r: AllocResult)
      requires device.Valid()
      modifies this, device
      ensures device.Valid()
      ensures device.calls == old(device.calls) + [AllocateSets(handle, |layouts|)]
      ensures AllocStep(old(device.allocScript), old(device.nextHandle), |layouts|, r, device.allocScript, device.nextHandle)
      ensures r.Allocated? ==> remainingCapacities == DeductAll(old(remainingCapacities), RequiredSizes(layouts))
      ensures r.Allocated? ==> numRemainingSets == old(numRemainingSets) - |layouts|
      ensures !r.Allocated? ==> remainingCapacities == old(remainingCapacities) && numRemainingSets == old(numRemainingSets)
      ensures alive == old(alive)
    {
      r := device.AllocateDescriptorSets(handle, |layouts|);
      if !r.Allocated? {
        return;
      }
      CarveLayouts(layouts);
      numRemainingSets := numRemainingSets - |layouts|;
    }

    /** The stats loop of allocate: every layout's sizes are carved, in order. */
    method CarveLayouts(layouts: seq<DescriptorSetLayout>)
      modifies this
      ensures remainingCapacities == DeductAll(old(remainingCapacities), RequiredSizes(layouts))
      ensures numRemainingSets == old(numRemainingSets) && alive == old(alive)
    {
      var k := 0;
      while k < |layouts|
        invariant 0 <= k <= |layouts|
        invariant remainingCapacities == DeductAll(old(remainingCapacities), RequiredSizes(layouts[..k]))
        invariant numRemainingSets == old(numRemainingSets) && alive == old(alive)
      {
        Carve(layouts[k].requiredPoolSizes);
        assert layouts[..k + 1][..k] == layouts[..k];
        DeductAllAppend(old(remainingCapacities), RequiredSizes(layouts[..k]), layouts[k].requiredPoolSizes);
        k := k + 1;
      }
      assert layouts[..k] == layouts;
    }
  }

  /** root::create_descriptor_pool: a native pool whose accounting starts full. */
  method CreateDescriptorPool(device: LogicalDevice, sizeRequirements: seq<PoolSize>, numSets: int) returns (pool: DescriptorPool)
    requires device.Valid()
    modifies device
    ensures device.Valid() && fresh(pool)
    ensures pool.initialCapacities == sizeRequirements && pool.remainingCapacities == sizeRequirements
    ensures pool.numInitialSets == numSets && pool.numRemainingSets == numSets
    ensures pool.alive && pool.handle == old(device.nextHandle)
    ensures device.nextHandle == old(device.nextHandle) + 1 && device.allocScript == old(device.allocScript)
    ensures device.calls == old(device.calls) + [CreatePool(sizeRequirements, numSets, pool.handle)]
  {
    var h := device.CreateDescriptorPool(sizeRequirements, numSets);
    pool := new DescriptorPool(sizeRequirements, numSets, h);
  }
}
