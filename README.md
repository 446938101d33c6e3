# Descriptor cache of Auto-Vk, modelled in Dafny

Auto-Vk is a C++ convenience layer over Vulkan. This project models its
descriptor cache: the part that turns a request of `binding_data` into
descriptor sets without allocating the same set twice. The modelled
pieces are:

- **Allocation requests** (`descriptor_alloc_request`, `alloc_request.dfy`). These are per-type pool
  sizes, kept strictly increasing by descriptor type ordinal with one entry per
  type, plus a set count.
- **Descriptor pools** (`descriptor_pool`, `descriptor_pool.dfy`). A pool keeps its own accounting of
  the per-type capacities and sets it has left. It offers `has_capacity_for` (modelled
  as written) and `allocate`.
- **Binding ordering and grouping** (`bindings.dfy`). Bindings are ordered by
  (set id, binding id), grouped per set id (`std::equal_range`), and turned into
  layouts by `set_of_descriptor_set_layouts::prepare`.
- **Descriptor sets** (`descriptor_set.dfy`). This covers the `store_*` helpers,
  `descriptor_set::prepare`, the pointer fix-up `update_data_pointers`,
  `link_to_handle_and_pool` and `write_descriptors`.
- **Content identity** (`set_identity.dfy`). This covers `operator==`, `operator!=` and
  `std::hash<ak::descriptor_set>`, by which the cache deduplicates sets.
- **The cache** (`standard_descriptor_cache`, `descriptor_cache.dfy`). It holds the layout cache, the
  set cache and the pool directory bucketed by (thread id, pool name), with weak
  references. It also holds the three-attempt retry loop of `alloc_new_descriptor_sets`.
- **The orchestrator** `root::get_or_create_descriptor_sets` (`root.dfy`). It plans the
  sets, looks them up, allocates only the uncached ones and splices them back.
- **Run grouping** `command_buffer_t::bind_descriptors` (`command_buffer.dfy`). This records one
  bind command per maximal run of consecutively numbered sets.
- **The uint32 set-id loop** as written (`set_id_walk.dfy`); see Findings.

Vulkan itself is a stub class `Device.LogicalDevice` (`device.dfy`). It hands out
fresh non-null handles and logs every native call. Its
`allocateDescriptorSets` follows a script of outcomes given up front:
success, out of pool memory, or any other error. This lets the retry loop be
driven through every path. Fatal C++ `assert`s and uncaught exceptions become
`Err` results of type `Vk.Fatal`.

A descriptor set is a value: the source copies it into the cache's
`unordered_set` and into result vectors. Pools, requests, the cache, the
command buffer and the device are classes, with the fields the source
updates in place.

## Model

| member | source | states |
|---|---|---|
| AllocRequests.LowerBoundSearch | src/ak.cpp:1495-1500 | the lower_bound search by type ordinal: every entry before the result has a smaller type, and none from it on has a smaller type |
| AllocRequests.MergeIntoEntry | src/ak.cpp:1501-1503 | adding to the entry of the same type keeps the list strictly increasing and the types, and adds the count to that type only |
| AllocRequests.MergeAsNewEntry | src/ak.cpp:1504-1506 | inserting a new type at its lower bound keeps the list strictly increasing, adds the type, and adds its count to that type only |
| AllocRequests.MergeCorrect | src/ak.cpp:1493-1507 | one merge step: the list stays strictly increasing by type, gains the entry's type, and each type's count grows by the entry's count for its own type and by nothing for any other type |
| AllocRequests.AccumulateAllCorrect | src/ak.cpp:1474-1490 | accumulating a list of entries gives a strictly increasing list holding the union of the types, and each type's count is the sum of every count added for it |
| AllocRequests.AccumulateAllAppend | src/ak.cpp:1474-1490 | accumulating two lists one after the other equals accumulating their concatenation |
| AllocRequests.ScaledCorrect | src/ak.cpp:1509-1516 | scaling multiplies every type's count by the factor and keeps the types, their order and strict increase |
| AllocRequests.InsertPoolSize | src/ak.cpp:1493-1507 | the add-or-insert step as code equals the merge, with its sortedness, types and per-type counts |
| AllocRequests.AccumulateSizes | src/ak.cpp:1476-1489 | the inner loop over the entries equals accumulating them one by one: sorted, union of types, summed counts |
| AllocRequests.AccumulateLayoutSizes | src/ak.cpp:1474-1490 | the loop over all layouts yields, per type, the sum of the required pool sizes of every layout, strictly increasing by type |
| AllocRequests.DescriptorAllocRequest.constructor | src/ak.cpp:1470-1491 | the number of sets is the number of layouts, and the sizes are the layouts' required pool sizes summed per type, sorted by type with one entry per type |
| AllocRequests.DescriptorAllocRequest.Copy | src/ak.cpp:1511 | the copy has the same sizes and set count |
| AllocRequests.DescriptorAllocRequest.AddSizeRequirements | src/ak.cpp:1493-1507 | the sizes become the merge of the old ones with the entry; the set count is unchanged |
| AllocRequests.DescriptorAllocRequest.MultiplySizeRequirements | src/ak.cpp:1509-1516 | returns a fresh request whose sizes are the original's scaled by the factor, with the same set count; the original is not modified |
| Pools.Saturating | src/ak.cpp:1622 | the clamped decrement never goes below zero and is exact when the requirement fits |
| Pools.FindType | src/ak.cpp:1614-1616 | find_if by type: no entry before the result has the type, and the entry at it, if any, does |
| Pools.Deduct | src/ak.cpp:1614-1623 | deducting one required size keeps the types and order of the capacities |
| Pools.DeductAll | src/ak.cpp:1613-1625 | deducting every required size keeps the types and order of the capacities |
| Pools.DeductAllCorrect | src/ak.cpp:1612-1625 | after allocation, the first entry of each type is lowered by the total required of that type, clamped at zero; every other entry is untouched |
| Pools.UnmatchedTypeUntouched | src/ak.cpp:1617-1619 | a required type the pool has no entry for changes nothing |
| Pools.AccountingExact | src/ak.cpp:1612-1625 | for a pool with one entry per type, a type whose total requirement fits keeps exactly its capacity minus that total, and a later request for more than is left of it is refused by the capacity check |
| Pools.CoveredWhenNoLonger | src/ak.cpp:1546-1573 | a true capacity answer for a request with no more entries than the pool means every requested type has a pool entry with enough count |
| Pools.AcceptsTypesBeyondPool | src/ak.cpp:1559-1572 | a request with more types than the pool that agrees position by position over the pool's length is accepted, although it has a type the pool lacks |
| Pools.AcceptsTypesBeyondPoolExample | src/ak.cpp:1559-1572 | a concrete request with a type the pool lacks that the capacity check accepts |
| Pools.SkippedPoolTypeRejected | src/ak.cpp:1561-1564 | a request that forces the cursor past a pool type it does not request is rejected |
| Pools.SkippedPoolTypeExample | src/ak.cpp:1561-1564 | a concrete request that fits the pool by type and count but skips a pool type is rejected |
| Pools.AbsentTypeBelowPoolRejected | src/ak.cpp:1565-1570 | a requested type missing from the pool and below one of its types makes the check answer false |
| Pools.ScaledPoolCovers | src/ak.cpp:1851-1865 | a pool whose remaining capacities are the request scaled by a factor of at least 1 passes the capacity check for that request |
| Pools.DescriptorPool.constructor | src/ak.cpp:1520-1526 | remaining capacities equal the initial ones, remaining sets equal the initial sets, and the pool is alive |
| Pools.DescriptorPool.SetRemainingCapacities | src/ak.cpp:1865 | only the remaining capacities change |
| Pools.DescriptorPool.Release | src/ak.cpp:1829-1831 | the last owner lets go: weak references to the pool expire, and its accounting is kept |
| Pools.DescriptorPool.HasCapacityFor | src/ak.cpp:1546-1573 | the answer is true exactly when request and pool agree entry by entry in type, with enough count, over their common length; an empty request is accepted; the pool is not modified |
| Pools.DescriptorPool.CarveEntry | src/ak.cpp:1613-1624 | one required size is deducted from the remaining capacities; nothing else changes |
| Pools.DescriptorPool.Carve | src/ak.cpp:1612-1625 | the remaining capacities become the deduction of every required size of the layouts |
| Pools.DescriptorPool.Allocate | src/ak.cpp:1575-1627 | one native allocation of one set per layout; on success the capacities are deducted and the remaining sets lowered by the number of layouts; on failure the accounting is unchanged |
| Pools.DescriptorPool.CarveLayouts | src/ak.cpp:1612-1625 | the stats loop: the remaining capacities become the old ones with every layout's required sizes deducted in order; the set count and the pool's liveness are unchanged |
| Pools.CreateDescriptorPool | src/ak.cpp:1520-1544 | a fresh alive pool with remaining equal to initial capacities and sets, whose native pool creation is logged |
| Device.LogicalDevice.CreateDescriptorPool | src/ak.cpp:1534 | a fresh non-null handle; the call is logged |
| Device.LogicalDevice.CreateDescriptorSetLayout | src/ak.cpp:1641 | a fresh non-null handle; the call is logged |
| Device.LogicalDevice.AllocateDescriptorSets | src/ak.cpp:1610 | the script's next outcome decides: consecutive fresh handles, out of pool memory, or another error |
| Device.LogicalDevice.UpdateDescriptorSets | src/ak.cpp:1934 | only logs the call |
| Bindings.InsertPositionCorrect | src/ak.cpp:1949 | the lower_bound position: every binding before it is less, the one at it is not |
| Bindings.InsertCorrect | src/ak.cpp:1949-1950 | inserting at that position keeps the vector sorted and adds exactly the binding |
| Bindings.OrderedCorrect | src/ak.cpp:1946-1951 | step 1 yields a sorted permutation of the input |
| Bindings.SetIdBounds | src/ak.cpp:1942-1948 | the tracked minimum and maximum are the smallest and largest set ids used; for no bindings they stay 0xFFFFFFFF and 0 |
| Bindings.OrderBindings | src/ak.cpp:1941-1951 | the step-1 loop returns the ordered bindings with the minimum and maximum set id |
| Bindings.SetLowerBoundCorrect | src/ak.cpp:1960-1963 | every binding before the lower bound has a smaller set id, and the one at it does not |
| Bindings.SetUpperBoundCorrect | src/ak.cpp:1964-1967 | every binding before the upper bound has a set id at most the id, and the one at it has a larger one |
| Bindings.GroupBounds | src/ak.cpp:1960-1967 | in a sorted vector, the positions between the two bounds are exactly those of the set id |
| Bindings.GroupMultiset | src/ak.cpp:1960-1967 | a set's group is sorted and holds exactly the bindings of that set id, each as often as in the input |
| Bindings.LayoutOfCorrect | src/ak.cpp:1676 | a layout lists its group's layout bindings in order, and its required pool sizes sum the descriptor counts per type, sorted by type |
| Bindings.PrepareLayoutSet | src/ak.cpp:1648-1701 | the first set id is the smallest used; there are exactly largest id + 1 layouts, empty sets included, layout i being that of set i's group; the binding requirements are all layouts' pool sizes summed per type and strictly increasing by type |
| DescriptorSets.FindCorrect | src/ak.cpp:1879-1885 | find_if by binding id: a miss means no entry has the id; a hit is the data of an entry with the id |
| DescriptorSets.FindAppend | include/ak/descriptor_set.hpp:28-32 | appending a stored entry changes the lookup only for its own binding id, and only when nothing was stored for it yet |
| DescriptorSets.StoreImageInfos | include/ak/descriptor_set.hpp:28-32 | afterwards a write for the binding finds the stored array unless one was stored before; every other binding and field is unchanged |
| DescriptorSets.StoreBufferInfos | include/ak/descriptor_set.hpp:34-38 | the same for buffer infos |
| DescriptorSets.StoreBufferViews | include/ak/descriptor_set.hpp:57-61 | the same for texel buffer views |
| DescriptorSets.StoreImageInfo | include/ak/descriptor_set.hpp:63-67 | stores a one-element list tagged with the binding id |
| DescriptorSets.StoreBufferInfo | include/ak/descriptor_set.hpp:69-73 | stores a one-element list tagged with the binding id |
| DescriptorSets.StoreBufferView | include/ak/descriptor_set.hpp:90-94 | stores a one-element list tagged with the binding id |
| DescriptorSets.Accumulated | include/ak/descriptor_set.hpp:40-52 | the accumulated write's count is the length of its handle list and the total of the inputs' counts |
| DescriptorSets.ConcatHandlesLength | include/ak/descriptor_set.hpp:44-50 | the concatenated handle list is as long as the sum of the inputs' counts |
| DescriptorSets.StoreAccelerationStructureInfos | include/ak/descriptor_set.hpp:40-55 | appends one entry for the binding whose handles are every input's first count handles, in order, and whose count is their number; nothing else changes |
| DescriptorSets.StoreAccelerationStructureInfo | include/ak/descriptor_set.hpp:75-88 | appends one entry holding the input's first count handles with that count |
| DescriptorSets.UpdateDataPointers | src/ak.cpp:1875-1919 | every write's image, buffer, texel-view and acceleration pointers become the data stored first for its binding id, or null |
| DescriptorSets.ResolvedIdempotent | src/ak.cpp:1930-1933 | fixing the pointers a second time, as write_descriptors does, changes nothing |
| DescriptorSets.LinkToHandleAndPool | src/ak.cpp:1921-1928 | the set gets the handle and the pool, and every write's dstSet becomes the handle |
| DescriptorSets.WriteDescriptors | src/ak.cpp:1930-1935 | the pointers are fixed again and one updateDescriptorSets call with all writes is logged for the set's handle |
| DescriptorSets.FindStoredOfAbsent | include/ak/descriptor_set.hpp:113-123 | a binding id no binding of the group has finds nothing in the lists prepare stores |
| DescriptorSets.FindStoredOf | include/ak/descriptor_set.hpp:113-123 | with strictly increasing binding ids, looking up a binding's id in the stored lists finds that binding's own data |
| DescriptorSets.IncreasingPairwise | include/ak/descriptor_set.hpp:109-110 | binding ids that increase from each binding to the next increase pairwise |
| DescriptorSets.NotIncreasingAt | include/ak/descriptor_set.hpp:109-110 | one neighbour pair out of order makes the group not increasing |
| DescriptorSets.PartialSet | include/ak/descriptor_set.hpp:103-125 | after k passes the set holds k writes |
| DescriptorSets.PartialSetFields | include/ak/descriptor_set.hpp:100-125 | after k passes the set is of the first binding's set id, not linked, holds the first k bindings' writes in order, and its stored lists hold their data |
| DescriptorSets.PartialSetSameDst | src/ak.cpp:1879 | before linking, all writes target the same (null) native set |
| DescriptorSets.EmplaceBinding | include/ak/descriptor_set.hpp:113-123 | one pass appends the binding's write and stores its resource through the helper of its kind |
| DescriptorSets.PreparedPointers | include/ak/descriptor_set.hpp:98-129 | after the fix-up, every write of a prepared set points at its own binding's data |
| DescriptorSets.PreparedContents | include/ak/descriptor_set.hpp:98-129 | prepare yields one write per binding, in order, copying binding id, count and type with array element 0, pointing at the binding's data; the set's id is the first binding's, and it is not linked |
| DescriptorSets.PrepareBinding | include/ak/descriptor_set.hpp:105-126 | one pass fails exactly when the binding is of another set (SetIdMismatch) or its id is not below the next one (BindingsNotIncreasing); otherwise it appends the binding |
| DescriptorSets.Prepare | include/ak/descriptor_set.hpp:98-129 | succeeds exactly when all bindings share the first one's set id and their binding ids strictly increase, naming which assert fails otherwise; the result is the resolved set of all bindings |
| SetIdentity.NotEqual | include/ak/descriptor_set.hpp:190-192 | != is exactly the negation of == |
| SetIdentity.ElementsEqualFromCorrect | include/ak/descriptor_set.hpp:160-162 | the element loop answers true exactly when the arrays agree at every index of the range |
| SetIdentity.WriteEqualCorrect | include/ak/descriptor_set.hpp:152-184 | one write pair compares equal exactly when the headers agree and each array present on the left is present on the right and equal over the left's count, and acceleration writes agree in count and handles |
| SetIdentity.WritesEqualFromCorrect | include/ak/descriptor_set.hpp:151-185 | the loop over writes answers true exactly when every remaining pair matches |
| SetIdentity.EqualCorrect | include/ak/descriptor_set.hpp:147-188 | == holds exactly when the write counts agree and every pair of writes matches |
| SetIdentity.HeadersDecide | include/ak/descriptor_set.hpp:152-155 | a difference in dstBinding, dstArrayElement, descriptorCount or descriptorType makes the sets unequal in both directions |
| SetIdentity.EqualReflexive | include/ak/descriptor_set.hpp:147-188 | every set equals itself |
| SetIdentity.EqualNotSymmetric | include/ak/descriptor_set.hpp:156-162 | an image array present only on the right is never examined: one direction is true, the other false |
| SetIdentity.HashesAgree | include/ak/descriptor_set.hpp:199-230 | writes contributing the same words give the same hash |
| SetIdentity.EqualSameHash | include/ak/descriptor_set.hpp:199-230 | two equal sets with the same array-presence pattern hash equally |
| SetIdentity.CollisionBeyondFirstElement | include/ak/descriptor_set.hpp:205-207 | sets that differ only beyond element 0 of an image array collide in the hash and are told apart by == in both directions |
| SetIdentity.LinkKeepsIdentity | src/ak.cpp:1921-1928 | linking to a handle and a pool changes neither what the set equals, in either direction, nor its hash |
| SetIdentity.LinkResolveCommute | src/ak.cpp:1802-1803 | linking then fixing the pointers equals fixing them then linking |
| Cache.AllRetriesTrace | src/ak.cpp:1771-1795 | when all three attempts fail, the lookups are: plain, forced new, doubled plain, doubled forced new, doubled forced new |
| Cache.Survivors | src/ak.cpp:1829-1831 | the kept pools are exactly the alive ones of the bucket |
| Cache.FirstFitCorrect | src/ak.cpp:1834-1842 | no pool before the first fit passes the capacity check, and the one at it does |
| Cache.LookupCorrect | src/ak.cpp:1740-1745 | a hit is the first stored set, in insertion order, with the same hash that the query equals; a miss means no stored set is such |
| Cache.EqualStoredSetHashedApart | include/ak/descriptor_set.hpp:147-230 | a query with no image array equals a stored set that has one, while the stored set does not equal it and the hash reads different words of the two |
| Cache.EqualStoredSetFoundOnlyOnSameHash | src/ak.cpp:1740-1745 | for that pair, Lookup finds the equal stored set exactly when the two hashes agree |
| Cache.OldestOfTwoMatches | src/ak.cpp:1740-1745 | two stored sets, the later not equal to the earlier, can both match one query; Lookup returns the earlier |
| Cache.FindFirstFit | src/ak.cpp:1835-1841 | the search loop returns the first pool with capacity for the request, or the end |
| Cache.CreateAmplifiedPool | src/ak.cpp:1849-1866 | the new pool's accounting starts at the request times the prealloc factor; the native pool gets the plain request and sets times the factor on vendor 0x12d2, else the amplified request and twice those sets; it has capacity for the request |
| Cache.NewSetsAt | src/ak.cpp:1800-1811 | recorded set i is prepared set i linked to handle i and the pool, with its pointers fixed |
| Cache.NewSetsFromRange | src/ak.cpp:1800-1811 | with consecutive handles, set i gets handle first + i, and the first set holds the pool |
| Cache.WriteNewSet | src/ak.cpp:1801-1804 | link, fix the pointers, write: the linked resolved set, with one update call logged |
| Cache.AttemptAllocation | src/ak.cpp:1776-1781 | the capacity assert holds; the script's next outcome decides between consecutive non-null handles, out of pool memory and another error; on success the pool is charged (capacities deducted, remaining sets lowered by the number of layouts), otherwise its accounting is unchanged, and it stays alive either way |
| Cache.StandardDescriptorCache.GetOrAllocLayout | src/ak.cpp:1723-1736 | a cached layout returns its handle and allocates nothing; a new one is created once and cached with its non-null handle |
| Cache.StandardDescriptorCache.GetDescriptorSetFromCache | src/ak.cpp:1738-1746 | a hit is a cached set equal to the prepared one with the same hash; a miss means none is |
| Cache.StandardDescriptorCache.PruneExpired | src/ak.cpp:1829-1831 | erases exactly the expired pools of the bucket and keeps the survivors in order |
| Cache.StandardDescriptorCache.GetDescriptorPoolForLayouts | src/ak.cpp:1822-1871 | the bucket keeps only its survivors; unless forced, the first survivor with capacity is returned and nothing is created; otherwise exactly one amplified pool is created and appended |
| Cache.StandardDescriptorCache.AppendNewPool | src/ak.cpp:1849-1870 | an amplified fresh pool is created and appended to the pruned bucket |
| Cache.ReleaseAll | src/ak.cpp:1816-1820 | every pool of the list expires; its remaining capacities are kept |
| Cache.StandardDescriptorCache.DropPool | src/ak.cpp:1789-1792 | the pointer to the pool is reassigned or destroyed: the pool stays alive exactly when it was alive and a cached set holds it; its accounting is unchanged |
| Cache.StandardDescriptorCache.Reassign | src/ak.cpp:1789-1792 | `poolToTry = get_descriptor_pool_for_layouts(...)`: unless forced, the first survivor with capacity is the new pool, otherwise a fresh amplified one; the bucket becomes its survivors, followed by the new pool when it is new, and no other bucket changes; the lookup runs while the old pool is still held, then the old pool is let go of unless the lookup returned it again, and it is alive exactly when that happened or a cached set holds it; no other pool expires and no pool's accounting changes |
| Cache.StandardDescriptorCache.LookupPool | src/ak.cpp:1771 | the retry loop's first lookup (not forced): the pool is alive, has capacity for the request, comes from the old bucket or is a fresh amplified pool; the bucket becomes its survivors, followed by the pool when it is new, and no other bucket changes; no pool expires and no accounting changes |
| Cache.StandardDescriptorCache.Escalate | src/ak.cpp:1785-1793 | with one try left: double the request, look up, then force a new pool for the doubled request (fall-through); otherwise force a new pool for the request as it is. The new pool is fresh, amplified for the new request, and alive. Without doubling the bucket becomes its survivors followed by the new pool; either way only that bucket changes, and holds old or fresh pools. The pool that failed is let go of, and so is the doubled lookup's pool at the fall-through; each expires exactly when no cached set holds it; no other pool expires and no accounting changes |
| Cache.StandardDescriptorCache.EscalateDoubled | src/ak.cpp:1787-1793 | the fall-through of case 1: a plain lookup for the doubled request, then a forced one; the two lookups are logged, the final pool is fresh, amplified and alive, the pool that failed and the plain lookup's pool are let go of and expire exactly when no cached set holds them; only the 'stch' bucket changes; no other pool expires and no accounting changes |
| Cache.StandardDescriptorCache.RetryAfterOutOfMemory | src/ak.cpp:1783-1794 | after an out-of-pool-memory failure the request and the trace advance by one escalation and the script by one failure; the new pool is fresh, amplified for the new request, and joins the held pools; the pool that failed joins those let go of, each of which is alive exactly when a cached set holds it; only the 'stch' bucket changes; no other pool expires and no accounting changes |
| Cache.StandardDescriptorCache.TryOnce | src/ak.cpp:1775-1794 | one pass of the retry loop: attempt, and escalate exactly on out of pool memory. On success the pool tried is charged and stays alive, nothing is let go of, and the directory is unchanged; on another error the pool tried is let go of and the directory is unchanged; on out of pool memory the escalation of RetryAfterOutOfMemory. Only the pool that served is charged; the pools let go of are alive exactly when a cached set holds them; no other pool expires |
| Cache.StandardDescriptorCache.AllocateFromPools | src/ak.cpp:1766-1797 | the first lookup, then at most three attempts; a leading run of out-of-pool-memory failures escalates as the trace says; three of them end in RetriesExhausted, another error in DeviceFailure, and success yields one consecutive non-null handle per layout. The serving pool is charged: from its old accounting if it is an old pool (then the first attempt served), else from the amplified request after the failures; no other pool is charged. Only the 'stch' bucket changes; when the first attempt decides, it is its survivors followed by the first pool when new. Every pool the loop's pointer let go of is alive exactly when a cached set holds it; no other pool expires |
| Cache.StandardDescriptorCache.RetryLoop | src/ak.cpp:1773-1797 | the loop itself, from the first pool: the same outcomes, trace and pointer bookkeeping; the first pool is charged from its accounting when it serves, a later pool is a fresh one charged from the amplified request after the failures; nothing else is charged; only the 'stch' bucket changes, and not at all when the first attempt decides |
| Cache.StandardDescriptorCache.RecordNewSets | src/ak.cpp:1800-1811 | every prepared set, linked to its handle and the pool and written, is appended to the set cache in input order; a set already cached is fatal |
| Cache.StandardDescriptorCache.RecordNewSet | src/ak.cpp:1801-1810 | one pass of the completion loop appends one linked, written set |
| Cache.StandardDescriptorCache.AllocNewDescriptorSets | src/ak.cpp:1748-1814 | the retry outcome as above; on success the result has one set per prepared set in order, set i linked to the i-th consecutive handle and to the pool, which is alive, and the set cache grows by exactly the result. The serving pool is charged as in AllocateFromPools and no other pool is; the directory changes as there. The pools the loop let go of are alive exactly when a set cached before the call holds them; no other pool expires |
| Cache.StandardDescriptorCache.Insert | src/ak.cpp:1807-1808 | mSets.insert adds the set exactly when no stored set matches it |
| Cache.StandardDescriptorCache.Cleanup | src/ak.cpp:1816-1820 | empties the set and layout caches; the pool directory keeps its entries, but every pool in it expires, keeping its accounting |
| Root.PresentIdsCorrect | src/ak.cpp:1959-1972 | the ids the walk does not skip are ascending, in range and used, and every used id in range is among them |
| Root.OrderedSetIds | src/ak.cpp:1946-1951 | ordering keeps the set ids |
| Root.GroupNonEmptyIffUsed | src/ak.cpp:1970-1972 | a set id is skipped exactly when no binding uses it |
| Root.RequestedIdsAreUsedIds | src/ak.cpp:1959-1972 | walking from the smallest to the largest id visits exactly the used ids, ascending; none for no bindings |
| Root.NoFailureIffGroupsValid | src/ak.cpp:1976 | whether some preparation fails does not depend on the cache: exactly when a set repeats or misorders a binding id |
| Root.PlannedStep | src/ak.cpp:1959-1987 | one more set id adds an entry to the plan, and to the listed ids, exactly when some binding uses it |
| Root.PlannedCorrect | src/ak.cpp:1959-1987 | the collected entries are one per used id, ascending, each with that set's layout, prepared set and cache lookup |
| Root.Unmarked | src/ak.cpp:1995-2004 | the indices collected point at entries that are not cached |
| Root.UnmarkedCorrect | src/ak.cpp:1995-2004 | the index mapping is strictly ascending and lists every uncached position |
| Root.CountTrue | src/ak.cpp:1989 | the count of cached entries equals the length exactly when every entry is cached |
| Root.AllMarkedNoneUnmarked | src/ak.cpp:1989-1992 | every entry cached exactly when there is nothing to allocate |
| Root.VisitSet | src/ak.cpp:1960-1986 | one set id: skipped when unused, failed when preparing fails, otherwise its layout is got or allocated and its prepared set looked up |
| Root.CollectStep | src/ak.cpp:1960-1986 | one pass of step 2 extends the collected vectors by what that set id yields |
| Root.CollectSets | src/ak.cpp:1959-1987 | step 2 fails exactly when some set cannot be prepared; otherwise the vectors hold the plan; the set cache is unchanged and the layout cache only grows |
| Root.PlanCorrect | src/ak.cpp:1937-1987 | the plan of a preparable request lists one entry per used set id in ascending order: its layout, its prepared set and the first cached set equal to it |
| Root.Pick | src/ak.cpp:1995-2004 | the selected entries, in the order of the indices |
| Root.SelectUncached | src/ak.cpp:1995-2004 | the selection loop collects the uncached positions and their layouts and prepared sets, in order |
| Root.SpliceBack | src/ak.cpp:2006-2008 | each new set lands at its original index; every other entry is unchanged |
| Root.PickedNewSets | src/ak.cpp:1995-2008 | the new set made for the j-th uncached position is the prepared set at that position, linked to handle first + j and to the pool |
| Root.SplicedNewSets | src/ak.cpp:2005-2008 | after the splice, each uncached position holds its prepared set linked to the next handle of the run and to the pool |
| Root.AllocateUncached | src/ak.cpp:1995-2009 | the result has one entry per planned set: cached entries stay where they are, the newly allocated uncached sets land at their original positions, and the set cache grows by exactly them; failures are the retry or collision errors |
| Root.ServePlan | src/ak.cpp:1989-2009 | when every set is cached nothing is allocated and the cached sets are returned; otherwise the uncached ones are allocated and spliced back, and the set cache grows by exactly them |
| Root.GetOrCreateDescriptorSets | src/ak.cpp:1937-2010 | an unpreparable request is fatal; no bindings give no sets; otherwise one set per used set id, ascending: the cached one where there is one, the others freshly allocated and cached; the layout cache only grows and holds every layout used |
| CommandBuffers.RunLengthCorrect | src/ak.cpp:1382-1385 | the inner loop ends at a maximal run: every set in it continues the first id (uint32 arithmetic) and the next does not |
| CommandBuffers.BlocksTile | src/ak.cpp:1379-1396 | the runs tile the list in order: none exactly when it is empty, the first starts at 0, each starts where the previous ended, the last ends at the end |
| CommandBuffers.BlocksAreRuns | src/ak.cpp:1379-1396 | every run is maximal |
| CommandBuffers.CallsFollowBlocks | src/ak.cpp:1387-1393 | command k binds run k: its first set id and its sets' handles, in order |
| CommandBuffers.CallsBindEverySet | src/ak.cpp:1379-1396 | the handles of all commands, joined, are the handles of the list: every set is bound exactly once, in order |
| CommandBuffers.MeasureRun | src/ak.cpp:1381-1385 | the inner loop returns the length of the maximal run at the index |
| CommandBuffers.CollectHandles | src/ak.cpp:1367-1372 | the handle vector lists every set's handle in order |
| CommandBuffers.CommandBuffer.RecordBind | src/ak.cpp:1387-1393 | appends one command |
| CommandBuffers.CommandBuffer.BindDescriptors | src/ak.cpp:1360-1397 | an empty list records nothing; otherwise the recorded commands are one per maximal run, in order |
| SetIdWalk.CounterAfterWraps | src/ak.cpp:1666 | after k increments the uint32 counter is start + k modulo 2^32 |
| SetIdWalk.WrappingLoopNeverExits | src/ak.cpp:1666 | with largest set id 0xFFFFFFFF the loop guard holds after every number of passes |
| SetIdWalk.BoundedLoopExits | src/ak.cpp:1959 | below 0xFFFFFFFF the guard holds for the ids start..max and fails right after |

## Left out

- Vulkan object creation, command recording other than descriptor binding, and every native call are stubs in `Device.LogicalDevice`. They hand out fresh handles, log the call and follow a scripted outcome. No Vulkan semantics are modelled.
- The vendor query is the device's `vendorId` field, and the thread id is a parameter. Nothing here is concurrent.
- `shared_ptr`/`weak_ptr` lifetime is an `alive` flag on each pool. `Pools.DescriptorPool.Release` clears it when the last owner lets go. The owners counted are the retry loop's `poolToTry` and the cached sets (`Cache.HeldBySets`). Reference counts are not modelled.
- Cache.LookupCorrect: `std::unordered_set::find` is modelled as "the first stored set, in insertion order, with the query's hash that the query equals". The source's `operator==` (include/ak/descriptor_set.hpp:147-187) checks only the arrays present on its left operand, so it is not symmetric, and equal sets can hash differently. The set thereby breaks the container's requirements, and which stored set `find` returns, if any, depends on the library's bucket layout and scan order (Cache.EqualStoredSetHashedApart, Cache.OldestOfTwoMatches). The model fixes one such choice; it does not model bucket counts, hash-code caching or the order in which a bucket is scanned.
- Root.PlanCorrect: the cached set it lists for each used set id is the one Lookup picks, so it inherits the choice stated for Cache.LookupCorrect.
- Cache.StandardDescriptorCache.Cleanup: copies of sets that the application still holds are not counted as owners, so the model lets every pool of the directory expire. Before any cleanup this changes nothing: every copy the application holds is a copy of a cached set.
- Cache.StandardDescriptorCache.Escalate: with doubling, the 'stch' bucket's new contents are stated only as pools of the old bucket or new ones; that no other bucket changes is stated. Which pool the doubled plain lookup returns is stated by Reassign and not restated, to keep the proof within the verifier's budget.
- Cache.StandardDescriptorCache.EscalateDoubled: the same as Escalate with doubling: the bucket holds old or new pools, the other buckets are unchanged, and the plain lookup's pick is left to Reassign.
- Cache.StandardDescriptorCache.RetryAfterOutOfMemory: the 'stch' bucket's new contents are stated only as pools of the old bucket or new ones, and exactly only without doubling (through Escalate); the other buckets are unchanged.
- Cache.StandardDescriptorCache.TryOnce: after out of pool memory the 'stch' bucket's new contents are stated as in RetryAfterOutOfMemory.
- Cache.StandardDescriptorCache.RetryLoop: after a failed attempt the 'stch' bucket's new contents are stated only as pools of the old bucket or new ones; the other buckets are unchanged.
- Cache.StandardDescriptorCache.AllocateFromPools: after a failed attempt the 'stch' bucket's new contents are stated only as pools of the old bucket or new ones; the other buckets are unchanged.
- Cache.StandardDescriptorCache.AllocNewDescriptorSets: the directory is stated as in AllocateFromPools.
- Pointer plumbing is modelled as lookup by binding id. A write's pointer fields hold the arrays they point at, or `None` for null. Dangling pointers into the local copies `store_*` returns are not modelled.
- Descriptor counts, capacities, the request's set count and handles are unbounded naturals, and the uint32 wrap of descriptor counts is not modelled. A pool's initial and remaining set counts are unbounded signed integers: as in the source, `Pools.DescriptorPool.Allocate` subtracts the number of layouts without a clamp, so the remaining count can go negative. Their 32-bit `int` width is not modelled. The set-id counter of `bind_descriptors` is modelled modulo 2^32 (`CommandBuffers.RunLengthCorrect`). The set-id loops of `prepare` and `get_or_create_descriptor_sets` are modelled with unbounded counters, which is the intended behaviour; their uint32 wrap as written is modelled only in `SetIdWalk` (see Findings).
- The hash is modelled on `bv64` words with a stand-in mixing step. Only what it reads is faithful: the header fields and element 0 of each present array. The real `hash_combine` constants are not.
- descriptor_set_layout.hpp, binding_data.hpp and the cache's header are not part of this model. The binding order is (set id, binding id). A layout's required pool sizes are its bindings' counts summed per type. `binding_data`'s pointer getters are the lookups of the store helpers. A write's descriptor count is its layout binding's count, which the source's sanity check at src/ak.cpp:1760 asserts equals `descriptor_count()`. The prealloc factor is a constructor parameter of at least 1.
- `DescriptorSets.Prepare` merges the two ordering asserts of `descriptor_set::prepare` (binding ids differ; binding ids increase) into one error, `BindingsNotIncreasing`. They fail on exactly the same inputs.
- Root.GetOrCreateDescriptorSets: requires set ids within uint32 and well-formed resources. That is the only way a `binding_data` can be built.
- Logging, debug-only sanity loops, the format predicates, `determine_usage_layout_tiling_flags_based_on_image_usage` and the `to_vk_*` conversions are not modelled. They are lookups that the descriptor cache does not use.
- include/ak/ak.hpp and include/ak/buffer_view.hpp hold only declarations and thin handle wrappers, and are not modelled.

## Findings

| source | as written | input that shows it | evidently intended | confidence | as-written member | corrected member |
|---|---|---|---|---|---|---|
| src/ak.cpp:1666 and src/ak.cpp:1959 | `for (uint32_t setId = …; setId <= maxSetId; ++setId)`: at 0xFFFFFFFF, `++setId` wraps to 0, which is again `<= maxSetId` | one binding with set id 0xFFFFFFFF: the loop never ends | visit every set id from the start up to the largest exactly once, then stop | high (not executed) | SetIdWalk.WrappingLoopNeverExits | Bindings.PrepareLayoutSet, Root.CollectSets |
