/**
  standard_descriptor_cache: the layouts and descriptor sets allocated so
  far, deduplicated by content, and the descriptor pools, bucketed by
  (thread id, pool name) and held weakly.
 */
module Cache {
  import opened Vk
  import opened Device
  import opened AllocRequests
  import opened Pools
  import opened DescriptorSets
  import opened SetIdentity

  /** The four-character pool name 'stch' as the int the source passes. */
  const StchName: nat := 0x73746368

  /** pool_id: the calling thread's id and a pool name. */
  datatype PoolId = PoolId(threadId: nat, name: nat)

  /** One call of get_descriptor_pool_for_layouts made by the retry loop: the request's sizes and whether a new pool is forced. */
  datatype PoolLookup = PoolLookup(sizes: seq<PoolSize>, forceNew: bool)

  /** The request the retry loop holds after `failures` failed attempts: doubled from the second failure on. */
  function RequestAfter(sizes: seq<PoolSize>, failures: nat): seq<PoolSize>
  {
    if failures >= 2 then Scaled(sizes, 2) else sizes
  }

  /**
    The lookups made after a failed attempt: when the failure leaves one try,
    the request is doubled and looked up, then a new pool is forced for the
    doubled request; otherwise a new pool is forced for the request as it is.
   */
  function Escalation(sizes: seq<PoolSize>, double: bool): seq<PoolLookup>
  {
    if double then [PoolLookup(Scaled(sizes, 2), false), PoolLookup(Scaled(sizes, 2), true)]
    else [PoolLookup(sizes, true)]
  }

  /**
    The pool lookups alloc_new_descriptor_sets makes when its first
    `failures` allocation attempts ran out of pool memory: a plain lookup,
    then one escalation per failure, the second failure being the one that
    doubles the request.
   */
  function RetryTrace(sizes: seq<PoolSize>, failures: nat): seq<PoolLookup>
    requires failures <= 3
  {
    if failures == 0 then [PoolLookup(sizes, false)]
    else RetryTrace(sizes, failures - 1) + Escalation(RequestAfter(sizes, failures - 1), failures == 2)
  }

  /**
    When all three attempts fail: a lookup, a new pool for the request, a
    lookup and a new pool for the doubled request, and one more new pool
    for the doubled request.
   */
  lemma {:induction false} AllRetriesTrace(sizes: seq<PoolSize>)
    ensures RetryTrace(sizes, 3) ==
      [ PoolLookup(sizes, false), PoolLookup(sizes, true)
      , PoolLookup(Scaled(sizes, 2), false), PoolLookup(Scaled(sizes, 2), true)
      , PoolLookup(Scaled(sizes, 2), true) ]
  {
    assert RetryTrace(sizes, 1) == [PoolLookup(sizes, false), PoolLookup(sizes, true)];
    assert RetryTrace(sizes, 2) == RetryTrace(sizes, 1) + [PoolLookup(Scaled(sizes, 2), false), PoolLookup(Scaled(sizes, 2), true)];
    assert RetryTrace(sizes, 3) == RetryTrace(sizes, 2) + [PoolLookup(Scaled(sizes, 2), true)];
  }

  /** The first `k` allocation outcomes of the script are out-of-pool-memory failures. */
  predicate FailsFirst(script: seq<AllocOutcome>, k: nat)
  {
    k <= |script| && (k == 0 || (FailsFirst(script, k - 1) && script[k - 1] == OutOfPoolMemory))
  }

  /** After `k` allocations the script's remainder starts with the `k`-th outcome. */
  lemma {:induction false} NextOutcomeAfter(script: seq<AllocOutcome>, k: nat)
    requires k <= |script|
    ensures NextOutcome(script[k..], 0) == NextOutcome(script, k)
  {
  }

  /** One more out-of-pool-memory outcome extends the failing prefix and consumes the script's head. */
  lemma {:induction false} FailsOneMore(script: seq<AllocOutcome>, k: nat)
    requires FailsFirst(script, k) && NextOutcome(script, k) == OutOfPoolMemory
    ensures FailsFirst(script, k + 1)
  {
  }

  /** The outcome of the allocation after `k` others: success once the script is used up. */
  function NextOutcome(script: seq<AllocOutcome>, k: nat): AllocOutcome
  {
    if k < |script| then script[k] else Succeed
  }

  /** The pools of a bucket whose weak references have not expired, in order. */
  function Survivors(ps: seq<DescriptorPool>): (r: seq<DescriptorPool>)
    reads ps
    ensures forall i :: 0 <= i < |r| ==> r[i] in ps && r[i].alive
    ensures forall i :: 0 <= i < |ps| && ps[i].alive ==> ps[i] in r
  {
    if ps == [] then []
    else Survivors(ps[..|ps| - 1]) + (if ps[|ps| - 1].alive then [ps[|ps| - 1]] else [])
  }

  /**
    Some set of `sets` owns `p`: a descriptor_set keeps a shared_ptr to the
    pool it was allocated from, so the pool lives as long as one does.
   */
  predicate HeldBySets(p: DescriptorPool, sets: seq<DescriptorSet>)
  {
    exists i :: 0 <= i < |sets| && sets[i].pool == Some(p)
  }

  /** The last owners of the pools `ps` let go: every one of them expires, its accounting kept. */
  method ReleaseAll(ps: seq<DescriptorPool>)
    modifies set p | p in ps
    ensures forall p :: p in ps ==> !p.alive
    ensures forall p :: p in ps ==> p.remainingCapacities == old(p.remainingCapacities)
  {
    for k := 0 to |ps|
      invariant forall j :: 0 <= j < k ==> !ps[j].alive
      invariant forall p :: p in ps ==> p.remainingCapacities == old(p.remainingCapacities)
    {
      ps[k].Release();
    }
  }

  /** The position of the first pool with room for `need` by has_capacity_for, or |ps| when none has. */
  function FirstFit(ps: seq<DescriptorPool>, need: seq<PoolSize>): (i: nat)
    reads ps
    ensures i <= |ps|
  {
    if ps == [] then 0
    else if PositionwiseCovered(need, ps[0].remainingCapacities) then 0
    else 1 + FirstFit(ps[1..], need)
  }

  /** No pool before FirstFit has room, and the pool at FirstFit, if any, has. */
  lemma {:induction false} FirstFitCorrect(ps: seq<DescriptorPool>, need: seq<PoolSize>)
    ensures var i := FirstFit(ps, need);
      && (forall j :: 0 <= j < i ==> !PositionwiseCovered(need, ps[j].remainingCapacities))
      && (i < |ps| ==> PositionwiseCovered(need, ps[i].remainingCapacities))
  {
    if ps != [] && !PositionwiseCovered(need, ps[0].remainingCapacities) {
      FirstFitCorrect(ps[1..], need);
      var i := FirstFit(ps, need);
      forall j | 0 <= j < i ensures !PositionwiseCovered(need, ps[j].remainingCapacities) {
        if j > 0 {
          assert ps[j] == ps[1..][j - 1];
        }
      }
    }
  }

  /** The test unordered_set applies to a stored set: same hash bucket, and the query equals it. */
  predicate Matches(q: DescriptorSet, stored: DescriptorSet)
  {
    Hash(stored) == Hash(q) && Equal(q, stored)
  }

  /** unordered_set<descriptor_set>::find: the first stored set that the query matches. */
  function Lookup(stored: seq<DescriptorSet>, q: DescriptorSet): Option<DescriptorSet>
    decreases |stored|, 1
  {
    if stored == [] then None else LookupHead(stored, q)
  }

  /** One probe of the search: the first stored set is compared with q, else the rest is searched. */
  function LookupHead(stored: seq<DescriptorSet>, q: DescriptorSet): Option<DescriptorSet>
    requires stored != []
    decreases |stored|, 0
  {
    if Matches(q, stored[0]) then Some(stored[0]) else Lookup(stored[1..], q)
  }

  /**
    A hit is the first stored set, in insertion order, that the query
    matches; a miss means the query matches none.
   */
  lemma {:induction false} LookupCorrect(stored: seq<DescriptorSet>, q: DescriptorSet)
    ensures Lookup(stored, q).Some? ==>
      exists i :: 0 <= i < |stored| && stored[i] == Lookup(stored, q).value && Matches(q, stored[i])
        && forall j :: 0 <= j < i ==> !Matches(q, stored[j])
    ensures Lookup(stored, q).None? <==> forall i :: 0 <= i < |stored| ==> !Matches(q, stored[i])
  {
    if stored != [] {
      assert Lookup(stored, q) == LookupHead(stored, q);
      if Matches(q, stored[0]) {
        assert Lookup(stored, q) == Some(stored[0]);
      } else {
        LookupCorrect(stored[1..], q);
        assert forall i :: 1 <= i < |stored| ==> stored[i] == stored[1..][i - 1];
        if Lookup(stored, q).Some? {
          var k :| 0 <= k < |stored[1..]| && stored[1..][k] == Lookup(stored, q).value && Matches(q, stored[1..][k])
            && forall j :: 0 <= j < k ==> !Matches(q, stored[1..][j]);
          assert stored[k + 1] == Lookup(stored, q).value;
        }
      }
    }
  }

  /** A one-write set with the given header and resources, as prepare would make it. */
  function OneWriteSet(count: nat, images: Option<seq<ImageInfo>>, buffers: Option<seq<BufferInfo>>): DescriptorSet
  {
    EmptySet.(writes := [Write(NullHandle, 0, 0, count, 0, images, buffers, None, None)])
  }

  /** Looking up in a one-set cache hits exactly when the query matches that set. */
  lemma {:induction false} LookupOne(t: DescriptorSet, q: DescriptorSet)
    ensures Lookup([t], q).Some? <==> Matches(q, t)
  {
    assert Lookup([t], q) == LookupHead([t], q);
  }

  /**
    A query that equals a stored set, while the hash reads different words
    of the two (an array only the stored set has): operator== and the hash
    disagree.
   */
  lemma {:induction false} EqualStoredSetHashedApart()
    ensures var q, t := OneWriteSet(1, None, None), OneWriteSet(1, Some([ImageInfo(1, 2, 3)]), None);
      Equal(q, t) && !Equal(t, q) && HashWords(q.writes) != HashWords(t.writes)
  {
    var q, t := OneWriteSet(1, None, None), OneWriteSet(1, Some([ImageInfo(1, 2, 3)]), None);
    EqualCorrect(q, t);
    EqualCorrect(t, q);
    assert !WriteMatches(t.writes[0], q.writes[0]);
    assert |HashWords(q.writes)| == 4;
    assert |HashWords(t.writes)| == 7;
  }

  /** For that pair, Lookup finds the equal stored set exactly when the two hashes happen to agree. */
  lemma {:induction false} EqualStoredSetFoundOnlyOnSameHash()
    ensures var q, t := OneWriteSet(1, None, None), OneWriteSet(1, Some([ImageInfo(1, 2, 3)]), None);
      Lookup([t], q).Some? <==> Hash(q) == Hash(t)
  {
    EqualStoredSetHashedApart();
    LookupOne(OneWriteSet(1, Some([ImageInfo(1, 2, 3)]), None), OneWriteSet(1, None, None));
  }

  /**
    Two stored sets that differ (the later one was inserted because it does
    not equal the earlier) can both match one query; Lookup returns the one
    inserted first.
   */
  lemma {:induction false} OldestOfTwoMatches()
    ensures var a, b, q := OneWriteSet(0, Some([]), None), OneWriteSet(0, None, Some([])), OneWriteSet(0, None, None);
      !Equal(b, a) && Matches(q, a) && Matches(q, b) && Lookup([a, b], q) == Some(a)
  {
    var a, b, q := OneWriteSet(0, Some([]), None), OneWriteSet(0, None, Some([])), OneWriteSet(0, None, None);
    EqualCorrect(b, a);
    EqualCorrect(q, a);
    EqualCorrect(q, b);
    assert !WriteMatches(b.writes[0], a.writes[0]);
    assert HashWords(a.writes) == HashWords(q.writes) == HashWords(b.writes);
    assert Lookup([a, b], q) == LookupHead([a, b], q);
  }

  /** The first-fit search: the first pool, in order, for which has_capacity_for holds. */
  method FindFirstFit(pools: seq<DescriptorPool>, request: DescriptorAllocRequest) returns (i: nat)
    ensures i == FirstFit(pools, request.accumulatedSizes)
    ensures i < |pools| ==> PositionwiseCovered(request.accumulatedSizes, pools[i].remainingCapacities)
  {
    i := 0;
    while i < |pools|
      invariant i <= |pools|
      invariant forall j :: 0 <= j < i ==> !PositionwiseCovered(request.accumulatedSizes, pools[j].remainingCapacities)
    {
      var hasCapacity := pools[i].HasCapacityFor(request);
      if hasCapacity {
        FirstFitIsFirst(pools, request.accumulatedSizes, i);
        return;
      }
      i := i + 1;
    }
    FirstFitIsFirst(pools, request.accumulatedSizes, i);
  }

  /** FirstFit is the only position with no covering pool before it that either covers or is the end. */
  lemma {:induction false} FirstFitIsFirst(pools: seq<DescriptorPool>, need: seq<PoolSize>, i: nat)
    requires i <= |pools|
    requires forall j :: 0 <= j < i ==> !PositionwiseCovered(need, pools[j].remainingCapacities)
    requires i < |pools| ==> PositionwiseCovered(need, pools[i].remainingCapacities)
    ensures i == FirstFit(pools, need)
  {
    if i > 0 {
      FirstFitIsFirst(pools[1..], need, i - 1);
    }
  }

  /**
    The pool get_descriptor_pool_for_layouts creates for a request of
    `sizes` and `numSets` sets: on NVIDIA the native pool gets the request
    as it is and `numSets * factor` sets, elsewhere the request amplified by
    the factor and twice that many sets; its accounting always starts at
    the amplified request.
   */
  ghost predicate AmplifiedPool(pool: DescriptorPool, sizes: seq<PoolSize>, numSets: nat, factor: nat, vendorId: nat)
    reads pool
  {
    && pool.alive
    && pool.remainingCapacities == Scaled(sizes, factor)
    && pool.initialCapacities == (if vendorId == NvidiaVendorId then sizes else Scaled(sizes, factor))
    && pool.numInitialSets == pool.numRemainingSets ==
         (if vendorId == NvidiaVendorId then numSets * factor else numSets * factor * 2)
  }

  method CreateAmplifiedPool(request: DescriptorAllocRequest, factor: nat, device: LogicalDevice) returns (pool: DescriptorPool)
    requires request.Valid() && device.Valid() && factor >= 1
    modifies device
    ensures device.Valid() && fresh(pool)
    ensures AmplifiedPool(pool, request.accumulatedSizes, request.numSets, factor, device.vendorId)
    ensures PositionwiseCovered(request.accumulatedSizes, pool.remainingCapacities)
    ensures device.calls == old(device.calls) + [CreatePool(pool.initialCapacities, pool.numInitialSets, pool.handle)]
    ensures device.allocScript == old(device.allocScript)
  {
    var isNvidia := device.vendorId == NvidiaVendorId;
    var amplified := request.MultiplySizeRequirements(factor);
    var sizes := if isNvidia then request.accumulatedSizes else amplified.accumulatedSizes;
    var maxSets := if isNvidia then request.numSets * factor else request.numSets * factor * 2;
    pool := CreateDescriptorPool(device, sizes, maxSets);
    pool.SetRemainingCapacities(amplified.accumulatedSizes);
    ScaledPoolCovers(request.accumulatedSizes, factor);
  }

  /** The sets the completion loop records: every prepared set linked to its handle and the pool, then written. */
  function NewSets(prepared: seq<DescriptorSet>, handles: seq<nat>, pool: DescriptorPool): seq<DescriptorSet>
    requires |handles| == |prepared|
  {
    if prepared == [] then []
    else
      var n := |prepared| - 1;
      NewSets(prepared[..n], handles[..n], pool) + [Resolved(Linked(prepared[n], handles[n], pool))]
  }

  /** Set i of the recorded ones is prepared set i, linked to handle i and the pool, with its data resolved. */
  lemma {:induction false} NewSetsAt(prepared: seq<DescriptorSet>, handles: seq<nat>, pool: DescriptorPool)
    requires |handles| == |prepared|
    ensures |NewSets(prepared, handles, pool)| == |prepared|
    ensures forall i :: 0 <= i < |prepared| ==>
      NewSets(prepared, handles, pool)[i] == Resolved(Linked(prepared[i], handles[i], pool))
  {
    if prepared != [] {
      var n := |prepared| - 1;
      NewSetsAt(prepared[..n], handles[..n], pool);
    }
  }

  /** Recording one more set appends it, linked and resolved, to those recorded before. */
  lemma {:induction false} NewSetsSnoc(prepared: seq<DescriptorSet>, handles: seq<nat>, pool: DescriptorPool, i: nat)
    requires |handles| == |prepared| && i < |prepared|
    ensures NewSets(prepared[..i + 1], handles[..i + 1], pool)
         == NewSets(prepared[..i], handles[..i], pool) + [Resolved(Linked(prepared[i], handles[i], pool))]
  {
    assert prepared[..i + 1][..i] == prepared[..i] && handles[..i + 1][..i] == handles[..i];
  }

  /** With consecutive handles from `first`, set i is prepared set i linked to handle first + i; the first set holds the pool and handle `first`. */
  lemma {:induction false} NewSetsFromRange(prepared: seq<DescriptorSet>, first: nat, pool: DescriptorPool)
    requires |prepared| > 0
    ensures var r := NewSets(prepared, HandleRange(first, |prepared|), pool);
      && |r| == |prepared|
      && r[0].pool == Some(pool) && r[0].handle == first
      && forall i :: 0 <= i < |prepared| ==> r[i] == Resolved(Linked(prepared[i], first + i, pool))
  {
    var handles := HandleRange(first, |prepared|);
    NewSetsAt(prepared, handles, pool);
    var r := NewSets(prepared, handles, pool);
    assert r[0] == Resolved(Linked(prepared[0], first, pool));
  }

  /** One step of the completion loop: link to the new handle and the pool, fix the pointers, write. */
  method WriteNewSet(prepared: DescriptorSet, handle: nat, pool: DescriptorPool, device: LogicalDevice)
    returns (s: DescriptorSet)
    requires handle != NullHandle && device.Valid()
    modifies device
    ensures s == Resolved(Linked(prepared, handle, pool)) && device.Valid()
    ensures device.calls == old(device.calls) + [UpdateSets(handle, |prepared.writes|)]
  {
    s := LinkToHandleAndPool(prepared, handle, pool);
    s := UpdateDataPointers(s);
    s := WriteDescriptors(s, device);
    ResolvedIdempotent(Linked(prepared, handle, pool));
  }

  /**
    One attempt of the retry loop, made after the first `k` outcomes of the
    allocation script are used up: the pool is asserted to have capacity
    for the request (which always holds), then asked for one set per layout.
   */
  method AttemptAllocation(pool: DescriptorPool, request: DescriptorAllocRequest, layouts: seq<DescriptorSetLayout>,
                           device: LogicalDevice, ghost script: seq<AllocOutcome>, ghost k: nat) returns (r: AllocResult)
    requires device.Valid() && PositionwiseCovered(request.accumulatedSizes, pool.remainingCapacities)
    requires k <= |script| && device.allocScript == script[k..]
    modifies pool, device
    ensures device.Valid()
    ensures device.allocScript == if k < |script| then script[k + 1..] else []
    ensures pool.alive == old(pool.alive)
    ensures r.Allocated? ==>
      && pool.remainingCapacities == DeductAll(old(pool.remainingCapacities), RequiredSizes(layouts))
      && pool.numRemainingSets == old(pool.numRemainingSets) - |layouts|
    ensures !r.Allocated? ==>
      pool.remainingCapacities == old(pool.remainingCapacities) && pool.numRemainingSets == old(pool.numRemainingSets)
    ensures NextOutcome(script, k) == Succeed ==>
      r == Allocated(HandleRange(old(device.nextHandle), |layouts|)) && old(device.nextHandle) != NullHandle
    ensures r.OutOfPoolMemoryError? <==> NextOutcome(script, k) == OutOfPoolMemory
    ensures NextOutcome(script, k) == DeviceLost ==> r == OtherError
  {
    NextOutcomeAfter(script, k);
    var hasCapacity := pool.HasCapacityFor(request);
    assert hasCapacity;
    r := pool.Allocate(layouts, device);
    if k < |script| {
      assert script[k..][1..] == script[k + 1..];
    }
  }

  /** Two updates confined to one bucket are one update confined to it. */
  lemma {:induction false} OneBucketTwice(a: map<PoolId, seq<DescriptorPool>>, b: map<PoolId, seq<DescriptorPool>>,
                                          c: map<PoolId, seq<DescriptorPool>>, id: PoolId)
    requires id in b && b == a[id := b[id]]
    requires id in c && c == b[id := c[id]]
    ensures c == a[id := c[id]]
  {
  }

  class StandardDescriptorCache {
    /** mLayouts: every layout allocated so far, with its native handle. */
    var layouts: map<DescriptorSetLayout, nat>
    /** mSets: every descriptor set allocated so far, in insertion order. */
    var sets: seq<DescriptorSet>
    /** mDescriptorPools: weak references to pools, per (thread, name). */
    var descriptorPools: map<PoolId, seq<DescriptorPool>>
    /** sDescriptorPoolPreallocFactor. */
    const preallocFactor: nat

    ghost predicate Valid()
      reads this
    {
      && preallocFactor >= 1
      && forall l :: l in layouts ==> layouts[l] != NullHandle
    }

    constructor (preallocFactor: nat)
      requires preallocFactor >= 1
      ensures Valid()
      ensures this.preallocFactor == preallocFactor
      ensures layouts == map[] && sets == [] && descriptorPools == map[]
    {
      this.preallocFactor := preallocFactor;
      layouts := map[];
      sets := [];
      descriptorPools := map[];
    }

    /** The pools of one bucket, expired or not. */
    function BucketSeq(id: PoolId): seq<DescriptorPool>
      reads this
    {
      if id in descriptorPools then descriptorPools[id] else []
    }

    function Bucket(id: PoolId): set<DescriptorPool>
      reads this
    {
      set p | p in BucketSeq(id)
    }

    /** Every pool the directory refers to, in any bucket. */
    ghost function DirectoryPools(): set<DescriptorPool>
      reads this
    {
      set id, p | id in descriptorPools && p in descriptorPools[id] :: p
    }

    /**
      The retry loop's shared_ptr to `p` is reassigned or destroyed: the
      pool expires unless a cached set still owns it.
     */
    method DropPool(p: DescriptorPool)
      modifies p
      ensures p.alive == (old(p.alive) && HeldBySets(p, sets))
      ensures p.remainingCapacities == old(p.remainingCapacities) && p.numRemainingSets == old(p.numRemainingSets)
    {
      if !HeldBySets(p, sets) {
        p.Release();
      }
    }

    /**
      get_or_alloc_layout: a layout already cached is returned with its
      handle and nothing is allocated; otherwise a native layout is created
      and the layout is cached with it.
     */
    method GetOrAllocLayout(layout: DescriptorSetLayout, device: LogicalDevice) returns (handle: nat)
      requires Valid() && device.Valid()
      modifies this, device
      ensures Valid() && device.Valid()
      ensures handle != NullHandle && layout in layouts && layouts[layout] == handle
      ensures layout in old(layouts) ==>
        handle == old(layouts)[layout] && layouts == old(layouts) && unchanged(device)
      ensures layout !in old(layouts) ==>
        && layouts == old(layouts)[layout := handle]
        && device.calls == old(device.calls) + [CreateLayout(layout, handle)]
        && device.allocScript == old(device.allocScript)
      ensures sets == old(sets) && descriptorPools == old(descriptorPools)
    {
      if layout in layouts {
        return layouts[layout];
      }
      handle := device.CreateDescriptorSetLayout(layout);
      layouts := layouts[layout := handle];
    }

    /** get_descriptor_set_from_cache: a copy of the cached set the prepared set equals, if any. */
    method GetDescriptorSetFromCache(prepared: DescriptorSet) returns (r: Option<DescriptorSet>)
      ensures r.Some? ==> r.value in sets && Equal(prepared, r.value) && Hash(r.value) == Hash(prepared)
      ensures r.None? ==> forall i :: 0 <= i < |sets| ==> !(Hash(sets[i]) == Hash(prepared) && Equal(prepared, sets[i]))
    {
      r := Lookup(sets, prepared);
      LookupCorrect(sets, prepared);
    }

    /** The erase/remove_if step: the pools of a bucket whose weak references have not expired, in order; the caller stores them back. */
    method PruneExpired(id: PoolId) returns (kept: seq<DescriptorPool>)
      ensures kept == Survivors(BucketSeq(id))
      ensures forall p :: p in kept ==> p in BucketSeq(id)
    {
      var pools := BucketSeq(id);
      kept := [];
      for k := 0 to |pools|
        invariant kept == Survivors(pools[..k])
      {
        if pools[k].alive {
          kept := kept + [pools[k]];
        }
        assert pools[..k + 1][..k] == pools[..k];
      }
      assert pools[..|pools|] == pools;
      forall p | p in kept
        ensures p in pools
      {
        var i :| 0 <= i < |kept| && kept[i] == p;
      }
    }

    /**
      get_descriptor_pool_for_layouts: drops the expired pools of the
      (thread, name) bucket keeping the others in order; unless a new pool
      is requested, returns the first survivor with capacity for the
      request; otherwise creates a pool for the request amplified by the
      prealloc factor (CreateAmplifiedPool) and appends it to the bucket.
     */
    method GetDescriptorPoolForLayouts(request: DescriptorAllocRequest, poolName: nat, requestNewPool: bool,
                                       threadId: nat, device: LogicalDevice) returns (pool: DescriptorPool)
      requires Valid() && request.Valid() && device.Valid()
      modifies this, device
      ensures Valid() && device.Valid()
      ensures layouts == old(layouts) && sets == old(sets)
      ensures pool.alive && PositionwiseCovered(request.accumulatedSizes, pool.remainingCapacities)
      ensures pool in old(Bucket(PoolId(threadId, poolName))) || fresh(pool)
      ensures forall p :: p in BucketSeq(PoolId(threadId, poolName)) ==> p in old(Bucket(PoolId(threadId, poolName))) || fresh(p)
      ensures
        var kept := old(Survivors(BucketSeq(PoolId(threadId, poolName))));
        var i := old(FirstFit(kept, request.accumulatedSizes));
        && (!requestNewPool && i < |kept| ==>
              && pool == kept[i]
              && descriptorPools == old(descriptorPools)[PoolId(threadId, poolName) := kept]
              && unchanged(device))
        && (requestNewPool || i == |kept| ==>
              && fresh(pool) && AmplifiedPool(pool, request.accumulatedSizes, request.numSets, preallocFactor, device.vendorId)
              && descriptorPools == old(descriptorPools)[PoolId(threadId, poolName) := kept + [pool]]
              && device.calls == old(device.calls) + [CreatePool(pool.initialCapacities, pool.numInitialSets, pool.handle)]
              && device.allocScript == old(device.allocScript))
      ensures descriptorPools == old(descriptorPools)[PoolId(threadId, poolName) :=
        old(Survivors(BucketSeq(PoolId(threadId, poolName)))) + (if pool in old(Bucket(PoolId(threadId, poolName))) then [] else [pool])]
    {
      var id := PoolId(threadId, poolName);
      var kept := PruneExpired(id);
      if !requestNewPool {
        var i := FindFirstFit(kept, request);
        if i < |kept| {
          assert kept[i] in old(Bucket(id)) && kept + [] == kept;
          descriptorPools := descriptorPools[id := kept];
          return kept[i];
        }
      }
      pool := AppendNewPool(id, kept, request, device, old(Bucket(id)));
    }

    /** The creating branch of get_descriptor_pool_for_layouts: an amplified pool for the request ends the bucket. */
    method AppendNewPool(id: PoolId, kept: seq<DescriptorPool>, request: DescriptorAllocRequest, device: LogicalDevice,
                         ghost before: set<DescriptorPool>)
      returns (pool: DescriptorPool)
      requires Valid() && request.Valid() && device.Valid()
      requires forall p :: p in kept ==> p in before
      modifies this, device
      ensures Valid() && device.Valid()
      ensures layouts == old(layouts) && sets == old(sets)
      ensures fresh(pool) && AmplifiedPool(pool, request.accumulatedSizes, request.numSets, preallocFactor, device.vendorId)
      ensures PositionwiseCovered(request.accumulatedSizes, pool.remainingCapacities)
      ensures descriptorPools == old(descriptorPools)[id := kept + [pool]]
      ensures forall p :: p in BucketSeq(id) ==> p in before || fresh(p)
      ensures device.calls == old(device.calls) + [CreatePool(pool.initialCapacities, pool.numInitialSets, pool.handle)]
      ensures device.allocScript == old(device.allocScript)
    {
      pool := CreateAmplifiedPool(request, preallocFactor, device);
      descriptorPools := descriptorPools[id := kept + [pool]];
    }

    /** Of the directory `before`, only bucket `id` may differ, and it is present. */
    ghost predicate OnlyBucketChanged(before: map<PoolId, seq<DescriptorPool>>, id: PoolId)
      reads this
    {
      id in descriptorPools && descriptorPools == before[id := descriptorPools[id]]
    }

    /**
      The retry loop of alloc_new_descriptor_sets: requests pool space for
      all layouts at once and retries up to three times on
      out-of-pool-memory, making the pool lookups RetryTrace lists.  The
      capacity assertion before each attempt always holds.  No pool after
      three failures and an allocation error other than out-of-pool-memory
      are fatal.  `held` lists the pools the loop's pointer held for an
      attempt, in order; `abandoned` those it let go of, which expire unless
      a cached set owns them.  Only the pool the sets come from is charged.
      Only the calling thread's 'stch' bucket changes; when the first
      attempt decides, it is the lookup's pruned bucket.
     */
    method AllocateFromPools(request: DescriptorAllocRequest, layoutsToAlloc: seq<DescriptorSetLayout>,
                             threadId: nat, device: LogicalDevice)
      returns (r: Result<(DescriptorPool, seq<nat>)>, ghost failures: nat, ghost trace: seq<PoolLookup>,
               ghost held: seq<DescriptorPool>, ghost abandoned: set<DescriptorPool>)
      requires Valid() && device.Valid() && request.Valid() && |layoutsToAlloc| > 0
      modifies this, device, Bucket(PoolId(threadId, StchName))
      ensures Valid() && device.Valid()
      ensures layouts == old(layouts) && sets == old(sets)
      ensures failures <= 3 && FailsFirst(old(device.allocScript), failures)
      ensures failures < 3 ==> NextOutcome(old(device.allocScript), failures) != OutOfPoolMemory
      ensures trace == RetryTrace(request.accumulatedSizes, failures)
      ensures failures == 3 ==> r == Err(RetriesExhausted)
      ensures failures < 3 && NextOutcome(old(device.allocScript), failures) == DeviceLost ==> r == Err(DeviceFailure)
      ensures failures < 3 && NextOutcome(old(device.allocScript), failures) == Succeed ==>
        r.Ok? && |r.value.1| == |layoutsToAlloc| && r.value.1 == HandleRange(r.value.1[0], |layoutsToAlloc|) && r.value.1[0] != NullHandle
      ensures |held| == failures + 1 && forall j :: 0 <= j < failures ==> held[j] in abandoned
      ensures r.Ok? ==> r.value.0 == held[failures] && r.value.0.alive && r.value.0 !in abandoned
      ensures r == Err(DeviceFailure) ==> held[failures] in abandoned
      ensures forall p :: p in abandoned ==> (p.alive <==> HeldBySets(p, sets))
      ensures forall p: DescriptorPool :: old(allocated(p)) && p !in abandoned ==> p.alive == old(p.alive)
      ensures r.Ok? && !fresh(r.value.0) ==>
        && failures == 0
        && r.value.0.remainingCapacities == DeductAll(old(r.value.0.remainingCapacities), RequiredSizes(layoutsToAlloc))
        && r.value.0.numRemainingSets == old(r.value.0.numRemainingSets) - |layoutsToAlloc|
      ensures r.Ok? && fresh(r.value.0) ==>
        && r.value.0.remainingCapacities ==
             DeductAll(Scaled(RequestAfter(request.accumulatedSizes, failures), preallocFactor), RequiredSizes(layoutsToAlloc))
        && r.value.0.numRemainingSets == r.value.0.numInitialSets - |layoutsToAlloc|
        && r.value.0.numInitialSets ==
             (if device.vendorId == NvidiaVendorId then request.numSets * preallocFactor else request.numSets * preallocFactor * 2)
      ensures forall p: DescriptorPool :: old(allocated(p)) && (r.Err? || p != r.value.0) ==>
        p.remainingCapacities == old(p.remainingCapacities) && p.numRemainingSets == old(p.numRemainingSets)
      ensures OnlyBucketChanged(old(descriptorPools), PoolId(threadId, StchName))
      ensures forall p :: p in BucketSeq(PoolId(threadId, StchName)) ==> p in old(Bucket(PoolId(threadId, StchName))) || fresh(p)
      ensures failures == 0 ==>
        descriptorPools == old(descriptorPools)[PoolId(threadId, StchName) :=
          old(Survivors(BucketSeq(PoolId(threadId, StchName)))) + (if held[0] in old(Bucket(PoolId(threadId, StchName))) then [] else [held[0]])]
    {
      var poolToTry := LookupPool(request, threadId, device);
      ghost var dir := descriptorPools;
      r, failures, trace, held, abandoned := RetryLoop(request, poolToTry, layoutsToAlloc, threadId, device);
      OneBucketTwice(old(descriptorPools), dir, descriptorPools, PoolId(threadId, StchName));
    }

    /**
      The retry loop of alloc_new_descriptor_sets once the first lookup
      has put `poolToTry` in the 'stch' bucket: up to three attempts, each
      failure on out-of-pool-memory escalating as TryOnce does.  `trace`
      also lists that first lookup.  The first pool is charged when it
      serves the sets; a later pool is a new one, built for the request
      after the failures.
     */
    method RetryLoop(request: DescriptorAllocRequest, first: DescriptorPool, layoutsToAlloc: seq<DescriptorSetLayout>,
                     threadId: nat, device: LogicalDevice)
      returns (r: Result<(DescriptorPool, seq<nat>)>, ghost failures: nat, ghost trace: seq<PoolLookup>,
               ghost held: seq<DescriptorPool>, ghost abandoned: set<DescriptorPool>)
      requires Valid() && device.Valid() && request.Valid() && |layoutsToAlloc| > 0
      requires first in Bucket(PoolId(threadId, StchName)) && first.alive
      requires PositionwiseCovered(request.accumulatedSizes, first.remainingCapacities)
      modifies this, device, Bucket(PoolId(threadId, StchName))
      ensures Valid() && device.Valid()
      ensures layouts == old(layouts) && sets == old(sets)
      ensures failures <= 3 && FailsFirst(old(device.allocScript), failures)
      ensures failures < 3 ==> NextOutcome(old(device.allocScript), failures) != OutOfPoolMemory
      ensures trace == RetryTrace(old(request.accumulatedSizes), failures)
      ensures failures == 3 ==> r == Err(RetriesExhausted)
      ensures failures < 3 && NextOutcome(old(device.allocScript), failures) == DeviceLost ==> r == Err(DeviceFailure)
      ensures failures < 3 && NextOutcome(old(device.allocScript), failures) == Succeed ==>
        r.Ok? && |r.value.1| == |layoutsToAlloc| && r.value.1 == HandleRange(r.value.1[0], |layoutsToAlloc|) && r.value.1[0] != NullHandle
      ensures |held| == failures + 1 && held[0] == first && forall j :: 0 <= j < failures ==> held[j] in abandoned
      ensures r.Ok? ==> r.value.0 == held[failures] && r.value.0.alive && r.value.0 !in abandoned
      ensures r == Err(DeviceFailure) ==> held[failures] in abandoned
      ensures forall p :: p in abandoned ==> (p.alive <==> HeldBySets(p, sets))
      ensures forall p: DescriptorPool :: old(allocated(p)) && p !in abandoned ==> p.alive == old(p.alive)
      ensures r.Ok? && failures == 0 ==>
        && r.value.0.remainingCapacities == DeductAll(old(r.value.0.remainingCapacities), RequiredSizes(layoutsToAlloc))
        && r.value.0.numRemainingSets == old(r.value.0.numRemainingSets) - |layoutsToAlloc|
      ensures r.Ok? && failures > 0 ==>
        && fresh(r.value.0)
        && r.value.0.remainingCapacities ==
             DeductAll(Scaled(RequestAfter(old(request.accumulatedSizes), failures), preallocFactor), RequiredSizes(layoutsToAlloc))
        && r.value.0.numRemainingSets == r.value.0.numInitialSets - |layoutsToAlloc|
        && r.value.0.numInitialSets ==
             (if device.vendorId == NvidiaVendorId then request.numSets * preallocFactor else request.numSets * preallocFactor * 2)
      ensures forall p: DescriptorPool :: old(allocated(p)) && (r.Err? || p != r.value.0) ==>
        p.remainingCapacities == old(p.remainingCapacities) && p.numRemainingSets == old(p.numRemainingSets)
      ensures OnlyBucketChanged(old(descriptorPools), PoolId(threadId, StchName))
      ensures forall p :: p in BucketSeq(PoolId(threadId, StchName)) ==> p in old(Bucket(PoolId(threadId, StchName))) || fresh(p)
      ensures failures == 0 ==> descriptorPools == old(descriptorPools)
    {
      ghost var bucket0 := Bucket(PoolId(threadId, StchName));
      ghost var base := request.accumulatedSizes;
      ghost var script := device.allocScript;
      var req, poolToTry := request, first;
      trace := [PoolLookup(req.accumulatedSizes, false)];
      held, abandoned := [poolToTry], {};
      failures := 0;
      var maxTries := 3;
      var attempt := OutOfPoolMemoryError;
      while maxTries > 0
        invariant 0 <= maxTries <= 3 && failures == 3 - maxTries
        invariant attempt.OutOfPoolMemoryError?
        invariant Valid() && device.Valid() && layouts == old(layouts) && sets == old(sets)
        invariant req.Valid() && base == old(request.accumulatedSizes) && req.numSets == request.numSets
        invariant req.accumulatedSizes == RequestAfter(base, failures)
        invariant poolToTry in bucket0 || fresh(poolToTry)
        invariant forall p :: p in BucketSeq(PoolId(threadId, StchName)) ==> p in bucket0 || fresh(p)
        invariant PositionwiseCovered(req.accumulatedSizes, poolToTry.remainingCapacities)
        invariant FailsFirst(script, failures) && device.allocScript == script[failures..]
        invariant trace == RetryTrace(base, failures)
        invariant |held| == failures + 1 && held[failures] == poolToTry && held[0] == first
        invariant forall j :: 0 <= j < failures ==> held[j] in abandoned
        invariant poolToTry.alive && poolToTry !in abandoned
        invariant forall p :: p in abandoned ==> (p.alive <==> HeldBySets(p, sets))
        invariant failures > 0 ==> fresh(poolToTry) && AmplifiedPool(poolToTry, req.accumulatedSizes, req.numSets, preallocFactor, device.vendorId)
        invariant forall p: DescriptorPool :: old(allocated(p)) ==>
          && p.remainingCapacities == old(p.remainingCapacities) && p.numRemainingSets == old(p.numRemainingSets)
          && (p !in abandoned ==> p.alive == old(p.alive))
        invariant OnlyBucketChanged(old(descriptorPools), PoolId(threadId, StchName))
        invariant failures == 0 ==> descriptorPools == old(descriptorPools)
      {
        maxTries := maxTries - 1;
        var next, pool;
        ghost var trace', held', abandoned';
        ghost var dir := descriptorPools;
        attempt, next, pool, trace', held', abandoned' :=
          TryOnce(poolToTry, req, layoutsToAlloc, maxTries == 1, threadId, device, base, script, failures, trace, held, abandoned);
        if !attempt.OutOfPoolMemoryError? {
          abandoned := abandoned';
          break;
        }
        OneBucketTwice(old(descriptorPools), dir, descriptorPools, PoolId(threadId, StchName));
        req, poolToTry, trace, failures := next, pool, trace', failures + 1;
        held, abandoned := held', abandoned';
      }
      r := match attempt
        case Allocated(setHandles) => Ok((poolToTry, setHandles))
        case OtherError => Err(DeviceFailure)
        case OutOfPoolMemoryError => Err(RetriesExhausted);
    }

    /**
      The retry loop's first `get_descriptor_pool_for_layouts(...)` on the
      'stch' pools: the bucket keeps its survivors, and the pool returned
      ends it when it is new.  No pool changes but the new one.
     */
    method LookupPool(request: DescriptorAllocRequest, threadId: nat, device: LogicalDevice) returns (pool: DescriptorPool)
      requires Valid() && device.Valid() && request.Valid()
      modifies this, device
      ensures Valid() && device.Valid()
      ensures layouts == old(layouts) && sets == old(sets)
      ensures device.allocScript == old(device.allocScript)
      ensures pool.alive && PositionwiseCovered(request.accumulatedSizes, pool.remainingCapacities)
      ensures pool in old(Bucket(PoolId(threadId, StchName))) || fresh(pool)
      ensures fresh(pool) ==> AmplifiedPool(pool, request.accumulatedSizes, request.numSets, preallocFactor, device.vendorId)
      ensures forall p :: p in BucketSeq(PoolId(threadId, StchName)) ==> p in old(Bucket(PoolId(threadId, StchName))) || fresh(p)
      ensures descriptorPools == old(descriptorPools)[PoolId(threadId, StchName) :=
        old(Survivors(BucketSeq(PoolId(threadId, StchName)))) + (if pool in old(Bucket(PoolId(threadId, StchName))) then [] else [pool])]
      ensures forall p: DescriptorPool :: old(allocated(p)) ==> p.alive == old(p.alive)
      ensures forall p: DescriptorPool :: old(allocated(p)) ==>
        p.remainingCapacities == old(p.remainingCapacities) && p.numRemainingSets == old(p.numRemainingSets)
    {
      pool := GetDescriptorPoolForLayouts(request, StchName, false, threadId, device);
    }

    /**
      One pass of the retry loop after `failures` earlier failures: the
      attempt on `poolToTry` and, when it runs out of pool memory, the
      escalation (RetryAfterOutOfMemory).  `held` lists the pools the loop's
      pointer has held, `abandoned` those it has let go of; the pointer lets
      go of `poolToTry` on out-of-pool-memory and on any other error, when
      the exception unwinds it.
     */
    method TryOnce(poolToTry: DescriptorPool, req: DescriptorAllocRequest, layoutsToAlloc: seq<DescriptorSetLayout>,
                   double: bool, threadId: nat, device: LogicalDevice,
                   ghost base: seq<PoolSize>, ghost script: seq<AllocOutcome>, ghost failures: nat,
                   ghost trace: seq<PoolLookup>, ghost held: seq<DescriptorPool>, ghost abandoned: set<DescriptorPool>)
      returns (attempt: AllocResult, next: DescriptorAllocRequest, pool: DescriptorPool, ghost trace': seq<PoolLookup>,
               ghost held': seq<DescriptorPool>, ghost abandoned': set<DescriptorPool>)
      requires Valid() && device.Valid() && req.Valid() && poolToTry.alive
      requires failures < 3 && double == (failures == 1)
      requires req.accumulatedSizes == RequestAfter(base, failures) && trace == RetryTrace(base, failures)
      requires FailsFirst(script, failures) && device.allocScript == script[failures..]
      requires PositionwiseCovered(req.accumulatedSizes, poolToTry.remainingCapacities)
      requires |held| == failures + 1 && held[failures] == poolToTry && poolToTry !in abandoned
      requires forall j :: 0 <= j < failures ==> held[j] in abandoned
      requires forall p :: p in abandoned ==> (p.alive <==> HeldBySets(p, sets))
      modifies this, device, poolToTry, Bucket(PoolId(threadId, StchName))
      ensures Valid() && device.Valid()
      ensures layouts == old(layouts) && sets == old(sets)
      ensures attempt.OutOfPoolMemoryError? <==> NextOutcome(script, failures) == OutOfPoolMemory
      ensures NextOutcome(script, failures) == Succeed ==>
        attempt == Allocated(HandleRange(old(device.nextHandle), |layoutsToAlloc|)) && old(device.nextHandle) != NullHandle
      ensures NextOutcome(script, failures) == DeviceLost ==> attempt == OtherError
      ensures attempt.Allocated? ==>
        && poolToTry.remainingCapacities == DeductAll(old(poolToTry.remainingCapacities), RequiredSizes(layoutsToAlloc))
        && poolToTry.numRemainingSets == old(poolToTry.numRemainingSets) - |layoutsToAlloc|
      ensures forall p: DescriptorPool :: old(allocated(p)) && (p != poolToTry || !attempt.Allocated?) ==>
        p.remainingCapacities == old(p.remainingCapacities) && p.numRemainingSets == old(p.numRemainingSets)
      ensures attempt.Allocated? ==> abandoned' == abandoned && poolToTry.alive
      ensures !attempt.OutOfPoolMemoryError? ==> held' == held && descriptorPools == old(descriptorPools)
      ensures attempt.OtherError? ==> abandoned' == abandoned + {poolToTry}
      ensures attempt.OutOfPoolMemoryError? ==>
        && next.Valid() && next.accumulatedSizes == RequestAfter(base, failures + 1) && next.numSets == req.numSets
        && trace' == RetryTrace(base, failures + 1)
        && FailsFirst(script, failures + 1) && device.allocScript == script[failures + 1..]
        && PositionwiseCovered(next.accumulatedSizes, pool.remainingCapacities)
        && fresh(pool) && AmplifiedPool(pool, next.accumulatedSizes, next.numSets, preallocFactor, device.vendorId)
        && pool !in abandoned'
        && held' == held + [pool] && (forall j :: 0 <= j < failures + 1 ==> held'[j] in abandoned')
        && OnlyBucketChanged(old(descriptorPools), PoolId(threadId, StchName))
        && (forall p :: p in BucketSeq(PoolId(threadId, StchName)) ==> p in old(Bucket(PoolId(threadId, StchName))) || fresh(p))
      ensures abandoned <= abandoned'
      ensures forall p :: p in abandoned' ==> (p.alive <==> HeldBySets(p, sets))
      ensures forall p: DescriptorPool :: old(allocated(p)) && p !in abandoned' ==> p.alive == old(p.alive)
    {
      next, pool, trace', held', abandoned' := req, poolToTry, trace, held, abandoned;
      attempt := AttemptAllocation(poolToTry, req, layoutsToAlloc, device, script, failures);
      if attempt.OutOfPoolMemoryError? {
        next, pool, trace', held', abandoned' :=
          RetryAfterOutOfMemory(req, poolToTry, double, threadId, device, base, script, failures, trace, held, abandoned);
      } else if attempt.OtherError? {
        DropPool(poolToTry);
        abandoned' := abandoned + {poolToTry};
      }
    }

    /**
      The out-of-pool-memory branch of the retry loop after `failures`
      earlier failures: the failure is recorded and the pool lookups of the
      escalation are made (Escalate).  The loop's pointer lets go of
      `current` and of the pool it held while the forced lookup ran, and
      holds the new pool: `held'` and `abandoned'` extend `held` and
      `abandoned` so.
     */
    method RetryAfterOutOfMemory(req: DescriptorAllocRequest, current: DescriptorPool, double: bool, threadId: nat,
                                 device: LogicalDevice, ghost base: seq<PoolSize>, ghost script: seq<AllocOutcome>,
                                 ghost failures: nat, ghost trace: seq<PoolLookup>,
                                 ghost held: seq<DescriptorPool>, ghost abandoned: set<DescriptorPool>)
      returns (next: DescriptorAllocRequest, pool: DescriptorPool, ghost trace': seq<PoolLookup>,
               ghost held': seq<DescriptorPool>, ghost abandoned': set<DescriptorPool>)
      requires Valid() && device.Valid() && req.Valid() && current.alive
      requires failures < 3 && double == (failures == 1)
      requires req.accumulatedSizes == RequestAfter(base, failures) && trace == RetryTrace(base, failures)
      requires FailsFirst(script, failures) && NextOutcome(script, failures) == OutOfPoolMemory
      requires |held| == failures + 1 && held[failures] == current && current !in abandoned
      requires forall j :: 0 <= j < failures ==> held[j] in abandoned
      requires forall p :: p in abandoned ==> (p.alive <==> HeldBySets(p, sets))
      modifies this, device, current, Bucket(PoolId(threadId, StchName))
      ensures Valid() && device.Valid() && next.Valid()
      ensures layouts == old(layouts) && sets == old(sets)
      ensures device.allocScript == old(device.allocScript)
      ensures next.accumulatedSizes == RequestAfter(base, failures + 1) && next.numSets == req.numSets
      ensures trace' == RetryTrace(base, failures + 1)
      ensures FailsFirst(script, failures + 1)
      ensures PositionwiseCovered(next.accumulatedSizes, pool.remainingCapacities)
      ensures fresh(pool) && AmplifiedPool(pool, next.accumulatedSizes, next.numSets, preallocFactor, device.vendorId)
      ensures OnlyBucketChanged(old(descriptorPools), PoolId(threadId, StchName))
      ensures forall p :: p in BucketSeq(PoolId(threadId, StchName)) ==> p in old(Bucket(PoolId(threadId, StchName))) || fresh(p)
      ensures held' == held + [pool] && pool !in abandoned' && abandoned + {current} <= abandoned'
      ensures forall j :: 0 <= j < failures + 1 ==> held'[j] in abandoned'
      ensures forall p :: p in abandoned' ==> (p.alive <==> HeldBySets(p, sets))
      ensures forall p: DescriptorPool :: old(allocated(p)) && p !in abandoned' ==> p.alive == old(p.alive)
      ensures forall p: DescriptorPool :: old(allocated(p)) ==>
        p.remainingCapacities == old(p.remainingCapacities) && p.numRemainingSets == old(p.numRemainingSets)
    {
      FailsOneMore(script, failures);
      ghost var lookups, interim;
      next, pool, lookups, interim := Escalate(req, double, current, threadId, device);
      assert RetryTrace(base, failures + 1) == RetryTrace(base, failures) + lookups;
      trace' := trace + lookups;
      assert pool !in abandoned;
      held', abandoned' := held + [pool], abandoned + {current, interim};
      forall j | 0 <= j < failures + 1
        ensures held'[j] in abandoned'
      {
        assert held'[j] == held[j];
      }
      forall p | p in abandoned
        ensures p.alive <==> HeldBySets(p, sets)
      {
        if p != current && p != interim {
          assert p.alive == old(p.alive);
        }
      }
    }

    /**
      `poolToTry = get_descriptor_pool_for_layouts(...)` on the 'stch'
      pools: the lookup runs while the pointer still owns `held`, so it
      does not prune it; then the pointer lets go of `held` (DropPool)
      unless the lookup returned it again.  The directory changes exactly as
      the lookup changes it.
     */
    method Reassign(held: DescriptorPool, request: DescriptorAllocRequest, forceNew: bool, threadId: nat,
                    device: LogicalDevice)
      returns (pool: DescriptorPool, ghost lookup: PoolLookup)
      requires Valid() && device.Valid() && request.Valid() && held.alive
      modifies this, device, held
      ensures Valid() && device.Valid()
      ensures layouts == old(layouts) && sets == old(sets)
      ensures device.allocScript == old(device.allocScript)
      ensures lookup == PoolLookup(request.accumulatedSizes, forceNew)
      ensures pool.alive && PositionwiseCovered(request.accumulatedSizes, pool.remainingCapacities)
      ensures pool in old(Bucket(PoolId(threadId, StchName))) || fresh(pool)
      ensures forall p :: p in BucketSeq(PoolId(threadId, StchName)) ==> p in old(Bucket(PoolId(threadId, StchName))) || fresh(p)
      ensures
        var kept := old(Survivors(BucketSeq(PoolId(threadId, StchName))));
        && (!forceNew && old(FirstFit(kept, request.accumulatedSizes)) < |kept| ==>
              pool == kept[old(FirstFit(kept, request.accumulatedSizes))])
        && (forceNew || old(FirstFit(kept, request.accumulatedSizes)) == |kept| ==>
              fresh(pool) && AmplifiedPool(pool, request.accumulatedSizes, request.numSets, preallocFactor, device.vendorId))
      ensures descriptorPools == old(descriptorPools)[PoolId(threadId, StchName) :=
        old(Survivors(BucketSeq(PoolId(threadId, StchName)))) + (if pool in old(Bucket(PoolId(threadId, StchName))) then [] else [pool])]
      ensures OnlyBucketChanged(old(descriptorPools), PoolId(threadId, StchName))
      ensures held.alive <==> pool == held || HeldBySets(held, sets)
      ensures forall p: DescriptorPool :: old(allocated(p)) && p != held ==> p.alive == old(p.alive)
      ensures forall p: DescriptorPool :: old(allocated(p)) ==>
        p.remainingCapacities == old(p.remainingCapacities) && p.numRemainingSets == old(p.numRemainingSets)
    {
      pool := GetDescriptorPoolForLayouts(request, StchName, forceNew, threadId, device);
      lookup := PoolLookup(request.accumulatedSizes, forceNew);
      if pool != held {
        DropPool(held);
      }
    }

    /**
      The switch after an out-of-pool-memory failure: when one try is left,
      the request is doubled and looked up once more; then a new pool is
      forced for the (possibly doubled) request.  Each reassignment of the
      loop's pointer lets go of the pool it held (DropPool): `current`, and
      `interim`, the pool it held while the forced lookup ran (the doubled
      lookup's pool, or `current` when there is none); those of them no
      cached set owns expire.  Without the doubled lookup the directory
      changes exactly as the forced lookup changes it.
     */
    method Escalate(request: DescriptorAllocRequest, double: bool, current: DescriptorPool, threadId: nat,
                    device: LogicalDevice)
      returns (next: DescriptorAllocRequest, pool: DescriptorPool, ghost lookups: seq<PoolLookup>,
               ghost interim: DescriptorPool)
      requires Valid() && device.Valid() && request.Valid() && current.alive
      modifies this, device, current, Bucket(PoolId(threadId, StchName))
      ensures Valid() && device.Valid() && next.Valid()
      ensures layouts == old(layouts) && sets == old(sets)
      ensures device.allocScript == old(device.allocScript)
      ensures next.accumulatedSizes == if double then Scaled(request.accumulatedSizes, 2) else request.accumulatedSizes
      ensures next.numSets == request.numSets
      ensures lookups == Escalation(request.accumulatedSizes, double)
      ensures PositionwiseCovered(next.accumulatedSizes, pool.remainingCapacities)
      ensures fresh(pool) && AmplifiedPool(pool, next.accumulatedSizes, next.numSets, preallocFactor, device.vendorId)
      ensures OnlyBucketChanged(old(descriptorPools), PoolId(threadId, StchName))
      ensures forall p :: p in BucketSeq(PoolId(threadId, StchName)) ==> p in old(Bucket(PoolId(threadId, StchName))) || fresh(p)
      ensures !double ==>
        && interim == current
        && descriptorPools == old(descriptorPools)[PoolId(threadId, StchName) := old(Survivors(BucketSeq(PoolId(threadId, StchName)))) + [pool]]
      ensures current != pool && (current.alive <==> HeldBySets(current, sets))
      ensures interim != pool && (interim.alive <==> HeldBySets(interim, sets))
      ensures forall p: DescriptorPool :: old(allocated(p)) && p != current && p != interim ==> p.alive == old(p.alive)
      ensures forall p: DescriptorPool :: old(allocated(p)) ==>
        p.remainingCapacities == old(p.remainingCapacities) && p.numRemainingSets == old(p.numRemainingSets)
    {
      if double {
        next := request.MultiplySizeRequirements(2);
        pool, lookups, interim := EscalateDoubled(next, current, threadId, device);
      } else {
        ghost var lookup;
        next := request;
        pool, lookup := Reassign(current, next, true, threadId, device);
        assert pool !in old(Bucket(PoolId(threadId, StchName)));
        lookups := [lookup];
        interim := current;
      }
    }

    /**
      Escalate when one try is left, once the request is doubled: the
      doubled request `next` is looked up (`interim` is its pool, which the
      pointer then holds instead of `current`), then a new pool is forced
      for it.
     */
    method EscalateDoubled(next: DescriptorAllocRequest, current: DescriptorPool, threadId: nat, device: LogicalDevice)
      returns (pool: DescriptorPool, ghost lookups: seq<PoolLookup>, ghost interim: DescriptorPool)
      requires Valid() && device.Valid() && next.Valid() && current.alive
      modifies this, device, current, Bucket(PoolId(threadId, StchName))
      ensures Valid() && device.Valid()
      ensures layouts == old(layouts) && sets == old(sets)
      ensures device.allocScript == old(device.allocScript)
      ensures lookups == [PoolLookup(next.accumulatedSizes, false), PoolLookup(next.accumulatedSizes, true)]
      ensures PositionwiseCovered(next.accumulatedSizes, pool.remainingCapacities)
      ensures fresh(pool) && AmplifiedPool(pool, next.accumulatedSizes, next.numSets, preallocFactor, device.vendorId)
      ensures OnlyBucketChanged(old(descriptorPools), PoolId(threadId, StchName))
      ensures forall p :: p in BucketSeq(PoolId(threadId, StchName)) ==> p in old(Bucket(PoolId(threadId, StchName))) || fresh(p)
      ensures current != pool && (current.alive <==> HeldBySets(current, sets))
      ensures interim != pool && (interim.alive <==> HeldBySets(interim, sets))
      ensures forall p: DescriptorPool :: old(allocated(p)) && p != current && p != interim ==> p.alive == old(p.alive)
      ensures forall p: DescriptorPool :: old(allocated(p)) ==>
        p.remainingCapacities == old(p.remainingCapacities) && p.numRemainingSets == old(p.numRemainingSets)
    {
      var held;
      ghost var lookup, lookup2;
      held, lookup := Reassign(current, next, false, threadId, device);
      interim := held;
      ghost var dir1 := descriptorPools;
      label mid:
      pool, lookup2 := Reassign(held, next, true, threadId, device);
      lookups := [lookup, lookup2];
      OneBucketTwice(old(descriptorPools), dir1, descriptorPools, PoolId(threadId, StchName));
      forall p: DescriptorPool | old(allocated(p))
        ensures p.remainingCapacities == old(p.remainingCapacities) && p.numRemainingSets == old(p.numRemainingSets)
        ensures p != current && p != interim ==> p.alive == old(p.alive)
      {
        assert p.remainingCapacities == old@mid(p.remainingCapacities) && p.numRemainingSets == old@mid(p.numRemainingSets);
        assert p != current ==> old@mid(p.alive) == old(p.alive);
      }
    }

    /**
      The completion loop of alloc_new_descriptor_sets: links every prepared
      set to its new handle and the pool, writes it and inserts it into the
      set cache; a set the cache already holds is fatal.
     */
    method RecordNewSets(prepared: seq<DescriptorSet>, handles: seq<nat>, pool: DescriptorPool, device: LogicalDevice)
      returns (r: Result<seq<DescriptorSet>>)
      requires Valid() && device.Valid()
      requires |handles| == |prepared| && forall i :: 0 <= i < |handles| ==> handles[i] != NullHandle
      modifies this, device
      ensures Valid() && device.Valid()
      ensures layouts == old(layouts) && descriptorPools == old(descriptorPools)
      ensures r.Err? ==> r.error == CacheCollision
      ensures r.Ok? ==> r.value == NewSets(prepared, handles, pool) && sets == old(sets) + r.value
    {
      var result: seq<DescriptorSet> := [];
      for i := 0 to |prepared|
        invariant Valid() && device.Valid()
        invariant layouts == old(layouts) && descriptorPools == old(descriptorPools)
        invariant result == NewSets(prepared[..i], handles[..i], pool)
        invariant sets == old(sets) + result
      {
        var recorded;
        recorded, result := RecordNewSet(prepared, handles, pool, device, i, result, old(sets));
        if !recorded {
          return Err(CacheCollision);
        }
      }
      assert prepared[..|prepared|] == prepared && handles[..|handles|] == handles;
      r := Ok(result);
    }

    /** One pass of the completion loop: set i is linked, written and inserted unless the cache already holds it. */
    method RecordNewSet(prepared: seq<DescriptorSet>, handles: seq<nat>, pool: DescriptorPool, device: LogicalDevice,
                        i: nat, result: seq<DescriptorSet>, ghost base: seq<DescriptorSet>)
      returns (recorded: bool, result': seq<DescriptorSet>)
      requires Valid() && device.Valid()
      requires |handles| == |prepared| && i < |prepared| && handles[i] != NullHandle
      requires result == NewSets(prepared[..i], handles[..i], pool) && sets == base + result
      modifies this, device
      ensures Valid() && device.Valid()
      ensures layouts == old(layouts) && descriptorPools == old(descriptorPools)
      ensures recorded ==> result' == NewSets(prepared[..i + 1], handles[..i + 1], pool) && sets == base + result'
    {
      var s := WriteNewSet(prepared[i], handles[i], pool, device);
      recorded := Insert(s);
      NewSetsSnoc(prepared, handles, pool, i);
      result' := result + [s];
    }

    /**
      alloc_new_descriptor_sets: allocates one set per layout from a pool
      of the calling thread (AllocateFromPools), then links, writes and
      caches the prepared sets (RecordNewSets).  The pools the retry loop
      let go of (`abandoned`) expire unless a set cached before the call
      holds them; the pool the new sets come from stays alive and is the
      only pool charged.  Only the calling thread's 'stch' bucket changes.
     */
    method AllocNewDescriptorSets(layoutsToAlloc: seq<DescriptorSetLayout>, prepared: seq<DescriptorSet>,
                                  threadId: nat, device: LogicalDevice)
      returns (r: Result<seq<DescriptorSet>>, ghost failures: nat, ghost trace: seq<PoolLookup>,
               ghost held: seq<DescriptorPool>, ghost abandoned: set<DescriptorPool>)
      requires Valid() && device.Valid()
      requires |layoutsToAlloc| == |prepared| && |prepared| > 0
      modifies this, device, Bucket(PoolId(threadId, StchName))
      ensures Valid() && device.Valid()
      ensures layouts == old(layouts)
      ensures failures <= 3 && FailsFirst(old(device.allocScript), failures)
      ensures failures < 3 ==> NextOutcome(old(device.allocScript), failures) != OutOfPoolMemory
      ensures trace == RetryTrace(AccumulateAll([], RequiredSizes(layoutsToAlloc)), failures)
      ensures failures == 3 ==> r == Err(RetriesExhausted)
      ensures failures < 3 && NextOutcome(old(device.allocScript), failures) == DeviceLost ==> r == Err(DeviceFailure)
      ensures failures < 3 && NextOutcome(old(device.allocScript), failures) == Succeed ==> r.Ok? || r == Err(CacheCollision)
      ensures r.Ok? ==>
        && |r.value| == |prepared|
        && r.value[0].pool.Some? && r.value[0].handle != NullHandle
        && r.value == NewSets(prepared, HandleRange(r.value[0].handle, |prepared|), r.value[0].pool.value)
        && sets == old(sets) + r.value
      ensures |held| == failures + 1 && forall j :: 0 <= j < failures ==> held[j] in abandoned
      ensures r.Ok? ==> r.value[0].pool == Some(held[failures]) && held[failures].alive && held[failures] !in abandoned
      ensures r == Err(DeviceFailure) ==> held[failures] in abandoned
      ensures forall p :: p in abandoned ==> (p.alive <==> HeldBySets(p, old(sets)))
      ensures forall p: DescriptorPool :: old(allocated(p)) && p !in abandoned ==> p.alive == old(p.alive)
      ensures var charged := failures < 3 && NextOutcome(old(device.allocScript), failures) == Succeed;
        && (charged && !fresh(held[failures]) ==>
              && failures == 0
              && held[failures].remainingCapacities == DeductAll(old(held[failures].remainingCapacities), RequiredSizes(layoutsToAlloc))
              && held[failures].numRemainingSets == old(held[failures].numRemainingSets) - |layoutsToAlloc|)
        && (charged && fresh(held[failures]) ==>
              && held[failures].remainingCapacities ==
                   DeductAll(Scaled(RequestAfter(AccumulateAll([], RequiredSizes(layoutsToAlloc)), failures), preallocFactor),
                             RequiredSizes(layoutsToAlloc))
              && held[failures].numRemainingSets == held[failures].numInitialSets - |layoutsToAlloc|
              && held[failures].numInitialSets ==
                   (if device.vendorId == NvidiaVendorId then |layoutsToAlloc| * preallocFactor else |layoutsToAlloc| * preallocFactor * 2))
        && (forall p: DescriptorPool :: old(allocated(p)) && (!charged || p != held[failures]) ==>
              p.remainingCapacities == old(p.remainingCapacities) && p.numRemainingSets == old(p.numRemainingSets))
      ensures OnlyBucketChanged(old(descriptorPools), PoolId(threadId, StchName))
      ensures forall p :: p in BucketSeq(PoolId(threadId, StchName)) ==> p in old(Bucket(PoolId(threadId, StchName))) || fresh(p)
      ensures failures == 0 ==>
        descriptorPools == old(descriptorPools)[PoolId(threadId, StchName) :=
          old(Survivors(BucketSeq(PoolId(threadId, StchName)))) + (if held[0] in old(Bucket(PoolId(threadId, StchName))) then [] else [held[0]])]
    {
      var request := new DescriptorAllocRequest(layoutsToAlloc);
      var acquired;
      acquired, failures, trace, held, abandoned := AllocateFromPools(request, layoutsToAlloc, threadId, device);
      if acquired.Err? {
        return Err(acquired.error), failures, trace, held, abandoned;
      }
      var (pool, handles) := acquired.value;
      r := RecordNewSets(prepared, handles, pool, device);
      NewSetsFromRange(prepared, handles[0], pool);
    }

    /** mSets.insert: a set that matches no stored set is appended; otherwise nothing changes. */
    method Insert(s: DescriptorSet) returns (inserted: bool)
      modifies this
      ensures inserted <==> Lookup(old(sets), s).None?
      ensures sets == if inserted then old(sets) + [s] else old(sets)
      ensures layouts == old(layouts) && descriptorPools == old(descriptorPools)
    {
      inserted := Lookup(sets, s).None?;
      if inserted {
        sets := sets + [s];
      }
    }

    /**
      cleanup: both caches are emptied.  The directory keeps its entries,
      but no cached set owns a pool any more, so every pool in it expires.
     */
    method Cleanup()
      modifies this, DirectoryPools()
      ensures sets == [] && layouts == map[]
      ensures descriptorPools == old(descriptorPools)
      ensures forall p :: p in old(DirectoryPools()) ==> !p.alive && p.remainingCapacities == old(p.remainingCapacities)
    {
      sets := [];
      layouts := map[];
      var ids := descriptorPools.Keys;
      while ids != {}
        invariant ids <= descriptorPools.Keys
        invariant sets == [] && layouts == map[] && descriptorPools == old(descriptorPools)
        invariant forall id, p :: id in descriptorPools && id !in ids && p in descriptorPools[id] ==> !p.alive
        invariant forall p :: p in old(DirectoryPools()) ==> p.remainingCapacities == old(p.remainingCapacities)
        decreases ids
      {
        var id :| id in ids;
        ReleaseAll(descriptorPools[id]);
        ids := ids - {id};
      }
    }
  }
}
