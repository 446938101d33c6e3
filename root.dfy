/**
  root::get_or_create_descriptor_sets: orders the bindings, walks the set
  ids from the smallest to the largest, gets or allocates each non-empty
  set's layout, prepares the set and looks it up in the cache; when some
  are not cached, allocates exactly those in one go and splices them back
  at their positions.
 */
module Root {
  import opened Vk
  import opened Device
  import opened Bindings
  import opened DescriptorSets
  import opened SetIdentity
  import opened Cache
  import Pools

  // ------------------------------------------------------------ which sets

  /** The ids of `used` in [lo, hi), ascending: the set ids the step-2 walk does not skip. */
  function PresentIds(used: set<nat>, lo: nat, hi: nat): seq<nat>
  {
    if hi <= lo then []
    else PresentIds(used, lo, hi - 1) + (if hi - 1 in used then [hi - 1] else [])
  }

  /** The ids listed lie in [lo, hi) and are used. */
  lemma {:induction false} PresentIdsBounded(used: set<nat>, lo: nat, hi: nat)
    ensures forall j :: 0 <= j < |PresentIds(used, lo, hi)| ==>
      lo <= PresentIds(used, lo, hi)[j] < hi && PresentIds(used, lo, hi)[j] in used
  {
    if lo < hi {
      PresentIdsBounded(used, lo, hi - 1);
      var prev := PresentIds(used, lo, hi - 1);
      var ids := PresentIds(used, lo, hi);
      assert ids == prev + (if hi - 1 in used then [hi - 1] else []);
      forall j | 0 <= j < |ids| ensures lo <= ids[j] < hi && ids[j] in used {
        if j < |prev| {
          assert ids[j] == prev[j];
          assert lo <= prev[j] < hi - 1 && prev[j] in used;
        } else {
          assert ids[j] == hi - 1 && hi - 1 in used;
        }
      }
    }
  }

  /** The ids listed are strictly ascending. */
  lemma {:induction false} PresentIdsAscending(used: set<nat>, lo: nat, hi: nat)
    ensures forall j, l :: 0 <= j < l < |PresentIds(used, lo, hi)| ==>
      PresentIds(used, lo, hi)[j] < PresentIds(used, lo, hi)[l]
  {
    if lo < hi {
      PresentIdsAscending(used, lo, hi - 1);
      PresentIdsBounded(used, lo, hi - 1);
      var prev := PresentIds(used, lo, hi - 1);
      var ids := PresentIds(used, lo, hi);
      assert ids == prev + (if hi - 1 in used then [hi - 1] else []);
      forall j, l | 0 <= j < l < |ids| ensures ids[j] < ids[l] {
        assert ids[j] == prev[j];
        if l < |prev| {
          assert ids[l] == prev[l];
        } else {
          assert ids[l] == hi - 1 && prev[j] < hi - 1;
        }
      }
    }
  }

  /** Every used id in [lo, hi) is listed. */
  lemma {:induction false} PresentIdsComplete(used: set<nat>, lo: nat, hi: nat)
    ensures forall id :: lo <= id < hi && id in used ==> id in PresentIds(used, lo, hi)
  {
    if lo < hi {
      PresentIdsComplete(used, lo, hi - 1);
      var prev := PresentIds(used, lo, hi - 1);
      var ids := PresentIds(used, lo, hi);
      assert ids == prev + (if hi - 1 in used then [hi - 1] else []);
      forall id | lo <= id < hi && id in used ensures id in ids {
        if id < hi - 1 {
          assert id in prev;
        } else {
          assert ids[|ids| - 1] == id;
        }
      }
    }
  }

  /** The ids listed are ascending, lie in [lo, hi) and are used; every such id is listed. */
  lemma {:induction false} PresentIdsCorrect(used: set<nat>, lo: nat, hi: nat)
    ensures var ids := PresentIds(used, lo, hi);
      && (forall j :: 0 <= j < |ids| ==> lo <= ids[j] < hi && ids[j] in used)
      && (forall j, l :: 0 <= j < l < |ids| ==> ids[j] < ids[l])
      && (forall id :: lo <= id < hi && id in used ==> id in ids)
  {
    PresentIdsBounded(used, lo, hi);
    PresentIdsAscending(used, lo, hi);
    PresentIdsComplete(used, lo, hi);
  }

  /** Ordering keeps the set ids. */
  lemma {:induction false} OrderedSetIds(input: seq<BindingData>)
    ensures SetIds(Ordered(input)) == SetIds(input)
  {
    OrderedCorrect(input);
    var o := Ordered(input);
    forall id | id in SetIds(o) ensures id in SetIds(input) {
      var i :| 0 <= i < |o| && o[i].setId == id;
      assert o[i] in multiset(input);
      var j :| 0 <= j < |input| && input[j] == o[i];
    }
    forall id | id in SetIds(input) ensures id in SetIds(o) {
      var i :| 0 <= i < |input| && input[i].setId == id;
      assert input[i] in multiset(o);
      var j :| 0 <= j < |o| && o[j] == input[i];
    }
  }

  /** The ids of the non-empty groups. */
  lemma {:induction false} GroupNonEmptyIffUsed(ordered: seq<BindingData>, id: nat)
    requires Sorted(ordered)
    ensures Group(ordered, id) != [] <==> id in SetIds(ordered)
  {
    GroupBounds(ordered, id);
    if id in SetIds(ordered) {
      var i :| 0 <= i < |ordered| && ordered[i].setId == id;
    }
    if Group(ordered, id) != [] {
      assert ordered[SetLowerBound(ordered, id)].setId == id;
    }
  }

  /**
    The walk from the smallest to the largest set id visits exactly the set
    ids the input uses, once each and in ascending order; with no bindings
    the walk is empty.
   */
  lemma {:induction false} RequestedIdsAreUsedIds(input: seq<BindingData>)
    requires SetIdsInRange(input)
    ensures var ids := PresentIds(SetIds(input), MinSetId(input), MaxSetId(input) + 1);
      && (forall id :: id in ids <==> id in SetIds(input))
      && (forall j, l :: 0 <= j < l < |ids| ==> ids[j] < ids[l])
      && (input == [] ==> ids == [])
  {
    SetIdBounds(input);
    var ids := PresentIds(SetIds(input), MinSetId(input), MaxSetId(input) + 1);
    PresentIdsCorrect(SetIds(input), MinSetId(input), MaxSetId(input) + 1);
    forall id | id in SetIds(input) ensures id in ids {
      var i :| 0 <= i < |input| && input[i].setId == id;
    }
  }

  // ------------------------------------------------------------ the plan

  /** What descriptor_set::prepare yields for a well-formed non-empty group whose binding ids increase. */
  function PreparedOf(group: seq<BindingData>): DescriptorSet
  {
    if |group| > 0 && GroupWellFormed(group) then PreparedSet(group) else EmptySet
  }

  /** One set of the request: its layout, its prepared set, and the cached set it matches, if any. */
  datatype PlannedSet = PlannedSet(layout: DescriptorSetLayout, prepared: DescriptorSet, cached: Option<DescriptorSet>)

  /** What step 2 finds for one set id. */
  datatype SetVisit = NoBindings | PrepareFailed | Visited(entry: PlannedSet)

  /** Step 2 for set `id` against the cached sets `stored`. */
  function ExpectedVisit(ordered: seq<BindingData>, stored: seq<DescriptorSet>, id: nat): SetVisit
  {
    if Group(ordered, id) == [] then NoBindings
    else if !BindingIdsIncreasing(Group(ordered, id)) then PrepareFailed
    else
      var p := PreparedOf(Group(ordered, id));
      Visited(PlannedSet(LayoutOf(Group(ordered, id)), p, Lookup(stored, p)))
  }

  /** The entries step 2 collects for the ids in [lo, hi), in order. */
  function Planned(ordered: seq<BindingData>, stored: seq<DescriptorSet>, lo: nat, hi: nat): seq<PlannedSet>
    decreases hi, 1
  {
    if hi <= lo then [] else PlannedThrough(ordered, stored, lo, hi - 1)
  }

  /** The entries for the ids in [lo, last]: those before `last`, then what `last` yields. */
  function PlannedThrough(ordered: seq<BindingData>, stored: seq<DescriptorSet>, lo: nat, last: nat): seq<PlannedSet>
    decreases last + 1, 0
  {
    var v := ExpectedVisit(ordered, stored, last);
    Planned(ordered, stored, lo, last) + (if v.Visited? then [v.entry] else [])
  }

  /** Preparing succeeds for every set id in [lo, hi). */
  predicate NoFailure(ordered: seq<BindingData>, stored: seq<DescriptorSet>, lo: nat, hi: nat)
  {
    forall id :: lo <= id < hi ==> !ExpectedVisit(ordered, stored, id).PrepareFailed?
  }

  /** Every non-empty set in [lo, hi) has strictly increasing binding ids, so that preparing it succeeds. */
  predicate GroupsValid(ordered: seq<BindingData>, lo: nat, hi: nat)
  {
    forall id :: lo <= id < hi ==> BindingIdsIncreasing(Group(ordered, id))
  }

  /** Whether some preparation fails does not depend on the cache: exactly when a set repeats a binding id. */
  lemma {:induction false} NoFailureIffGroupsValid(ordered: seq<BindingData>, stored: seq<DescriptorSet>, lo: nat, hi: nat)
    ensures NoFailure(ordered, stored, lo, hi) <==> GroupsValid(ordered, lo, hi)
  {
    if !GroupsValid(ordered, lo, hi) {
      var id :| lo <= id < hi && !BindingIdsIncreasing(Group(ordered, id));
      assert ExpectedVisit(ordered, stored, id).PrepareFailed?;
    }
  }

  /**
    The plan lists one entry for every set id in [lo, hi) that occurs,
    ascending: what step 2 finds for that id.
   */
  lemma {:induction false} PlannedCorrect(ordered: seq<BindingData>, stored: seq<DescriptorSet>, lo: nat, hi: nat)
    requires Sorted(ordered) && NoFailure(ordered, stored, lo, hi)
    ensures var ids := PresentIds(SetIds(ordered), lo, hi);
      var plan := Planned(ordered, stored, lo, hi);
      && |plan| == |ids|
      && forall k {:trigger ExpectedVisit(ordered, stored, ids[k])} :: 0 <= k < |ids| ==> ExpectedVisit(ordered, stored, ids[k]) == Visited(plan[k])
  {
    if lo < hi {
      PlannedCorrect(ordered, stored, lo, hi - 1);
      assert !ExpectedVisit(ordered, stored, hi - 1).PrepareFailed?;
      PlannedStep(ordered, stored, lo, hi);
      var ids := PresentIds(SetIds(ordered), lo, hi - 1);
      var plan := Planned(ordered, stored, lo, hi - 1);
      var v := ExpectedVisit(ordered, stored, hi - 1);
      if v.Visited? {
        VisitsSnoc(ordered, stored, ids, plan, hi - 1);
      } else {
        assert ids + [] == ids && plan + [] == plan;
      }
    }
  }

  /** One more id adds an entry to the plan, and to the listed ids, exactly when some binding uses it. */
  lemma {:induction false} PlannedStep(ordered: seq<BindingData>, stored: seq<DescriptorSet>, lo: nat, hi: nat)
    requires lo < hi && Sorted(ordered) && !ExpectedVisit(ordered, stored, hi - 1).PrepareFailed?
    ensures var v := ExpectedVisit(ordered, stored, hi - 1);
      && (v.Visited? <==> hi - 1 in SetIds(ordered))
      && PresentIds(SetIds(ordered), lo, hi) == PresentIds(SetIds(ordered), lo, hi - 1) + (if v.Visited? then [hi - 1] else [])
      && Planned(ordered, stored, lo, hi) == Planned(ordered, stored, lo, hi - 1) + (if v.Visited? then [v.entry] else [])
  {
    GroupNonEmptyIffUsed(ordered, hi - 1);
  }

  /** An id whose visit yields an entry extends a matching list of ids and entries. */
  lemma {:induction false} VisitsSnoc(ordered: seq<BindingData>, stored: seq<DescriptorSet>,
                                      ids: seq<nat>, plan: seq<PlannedSet>, id: nat)
    requires |plan| == |ids| && ExpectedVisit(ordered, stored, id).Visited?
    requires forall k {:trigger ExpectedVisit(ordered, stored, ids[k])} :: 0 <= k < |ids| ==> ExpectedVisit(ordered, stored, ids[k]) == Visited(plan[k])
    ensures var ids', plan' := ids + [id], plan + [ExpectedVisit(ordered, stored, id).entry];
      forall k {:trigger ExpectedVisit(ordered, stored, ids'[k])} :: 0 <= k < |ids'| ==> ExpectedVisit(ordered, stored, ids'[k]) == Visited(plan'[k])
  {
    var ids', plan' := ids + [id], plan + [ExpectedVisit(ordered, stored, id).entry];
    forall k | 0 <= k < |ids'| ensures ExpectedVisit(ordered, stored, ids'[k]) == Visited(plan'[k]) {
      if k < |ids| {
        assert ids'[k] == ids[k] && plan'[k] == plan[k];
      }
    }
  }

  /** The plan of a whole request: the walk over its ordered bindings from the smallest to the largest set id. */
  function Plan(input: seq<BindingData>, stored: seq<DescriptorSet>): seq<PlannedSet>
  {
    OrderedCorrect(input);
    Planned(Ordered(input), stored, MinSetId(input), MaxSetId(input) + 1)
  }

  /** Preparing every requested set succeeds: no set repeats a binding id. */
  predicate Preparable(input: seq<BindingData>)
  {
    OrderedCorrect(input);
    GroupsValid(Ordered(input), MinSetId(input), MaxSetId(input) + 1)
  }

  /** indexMapping: the positions not marked valid, ascending. */
  function Unmarked(valid: seq<bool>): (m: seq<nat>)
    ensures forall j :: 0 <= j < |m| ==> m[j] < |valid| && !valid[m[j]]
  {
    if valid == [] then []
    else Unmarked(valid[..|valid| - 1]) + (if valid[|valid| - 1] then [] else [|valid| - 1])
  }

  /** The unmarked positions are listed ascending, and every position not marked valid is listed. */
  lemma {:induction false} UnmarkedCorrect(valid: seq<bool>)
    ensures var m := Unmarked(valid);
      && (forall j, l :: 0 <= j < l < |m| ==> m[j] < m[l])
      && (forall k :: 0 <= k < |valid| && !valid[k] ==> k in m)
  {
    if valid != [] {
      var n := |valid| - 1;
      UnmarkedCorrect(valid[..n]);
      var prev := Unmarked(valid[..n]);
      var m := Unmarked(valid);
      assert m == prev + (if valid[n] then [] else [n]);
      forall k | 0 <= k < |valid| && !valid[k] ensures k in m {
        if k < n {
          assert valid[..n][k] == valid[k];
          assert k in prev;
        }
      }
    }
  }

  /** std::count(validSets, true). */
  function CountTrue(valid: seq<bool>): (c: nat)
    ensures c <= |valid|
    ensures c == |valid| <==> forall k :: 0 <= k < |valid| ==> valid[k]
  {
    if valid == [] then 0
    else CountTrue(valid[..|valid| - 1]) + (if valid[|valid| - 1] then 1 else 0)
  }

  lemma {:induction false} AllMarkedNoneUnmarked(valid: seq<bool>)
    ensures (forall k :: 0 <= k < |valid| ==> valid[k]) <==> Unmarked(valid) == []
  {
    UnmarkedCorrect(valid);
    if Unmarked(valid) != [] {
      assert !valid[Unmarked(valid)[0]];
    }
  }

  // ------------------------------------------------------------ step 2

  /** Every group of a well-formed vector is well formed. */
  lemma {:induction false} GroupWellFormedFrom(ordered: seq<BindingData>, id: nat)
    requires Sorted(ordered) && GroupWellFormed(ordered)
    ensures GroupWellFormed(Group(ordered, id))
  {
    GroupBounds(ordered, id);
    var lb := SetLowerBound(ordered, id);
    forall i | 0 <= i < |Group(ordered, id)| ensures ResourceWellFormed(Group(ordered, id)[i].resource) {
      assert Group(ordered, id)[i] == ordered[lb + i];
    }
  }

  /** Ordering keeps every binding, so it keeps well-formedness. */
  lemma {:induction false} OrderedWellFormed(input: seq<BindingData>)
    requires GroupWellFormed(input)
    ensures GroupWellFormed(Ordered(input))
  {
    OrderedCorrect(input);
    var o := Ordered(input);
    forall i | 0 <= i < |o| ensures ResourceWellFormed(o[i].resource) {
      assert multiset(o)[o[i]] > 0;
      assert o[i] in multiset(input);
    }
  }

  /**
    One iteration of step 2: an id without bindings is skipped; otherwise
    its layout is got or allocated, the set is prepared, and the prepared
    set is looked up in the cache.
   */
  method VisitSet(cache: StandardDescriptorCache, ordered: seq<BindingData>, setId: nat, device: LogicalDevice)
    returns (v: SetVisit)
    requires Sorted(ordered) && GroupWellFormed(ordered)
    requires cache.Valid() && device.Valid()
    modifies cache, device
    ensures cache.Valid() && device.Valid()
    ensures cache.sets == old(cache.sets) && cache.descriptorPools == old(cache.descriptorPools)
    ensures device.allocScript == old(device.allocScript)
    ensures old(cache.layouts).Keys <= cache.layouts.Keys
    ensures v == ExpectedVisit(ordered, cache.sets, setId)
    ensures v.Visited? ==> v.entry.layout in cache.layouts
  {
    var lb := SetLowerBound(ordered, setId);
    var ub := SetUpperBound(ordered, setId);
    GroupBounds(ordered, setId);
    GroupNonEmptyIffUsed(ordered, setId);
    if lb == ub {
      return NoBindings;
    }
    var group := ordered[lb..ub];
    assert group == Group(ordered, setId);
    var layout := LayoutOf(group);
    var handle := cache.GetOrAllocLayout(layout, device);
    GroupWellFormedFrom(ordered, setId);
    assert InOneSet(group);
    var preparedSet := Prepare(group);
    if preparedSet.Err? {
      return PrepareFailed;
    }
    assert preparedSet.value == PreparedOf(group);
    var cachedSet := Lookup(cache.sets, preparedSet.value);
    v := Visited(PlannedSet(layout, preparedSet.value, cachedSet));
  }

  /** The layouts of the plan's entries, in order. */
  function PlanLayouts(plan: seq<PlannedSet>): (r: seq<DescriptorSetLayout>)
    ensures |r| == |plan|
  {
    if plan == [] then [] else PlanLayouts(plan[..|plan| - 1]) + [plan[|plan| - 1].layout]
  }

  /** The prepared sets of the plan's entries, in order. */
  function PlanPrepared(plan: seq<PlannedSet>): (r: seq<DescriptorSet>)
    ensures |r| == |plan|
  {
    if plan == [] then [] else PlanPrepared(plan[..|plan| - 1]) + [plan[|plan| - 1].prepared]
  }

  /** The cached sets of the plan's entries, in order; an entry without one contributes an empty set. */
  function PlanCached(plan: seq<PlannedSet>): (r: seq<DescriptorSet>)
    ensures |r| == |plan|
  {
    if plan == [] then []
    else
      var e := plan[|plan| - 1];
      PlanCached(plan[..|plan| - 1]) + [if e.cached.Some? then e.cached.value else EmptySet]
  }

  /** Whether each of the plan's entries was found in the cache, in order. */
  function PlanValid(plan: seq<PlannedSet>): (r: seq<bool>)
    ensures |r| == |plan|
  {
    if plan == [] then [] else PlanValid(plan[..|plan| - 1]) + [plan[|plan| - 1].cached.Some?]
  }

  /** The four vectors of step 2 hold the entries of `plan`, and every layout is known to the cache. */
  ghost predicate HoldPlan(plan: seq<PlannedSet>, layouts: seq<DescriptorSetLayout>, prepared: seq<DescriptorSet>,
                           cachedSets: seq<DescriptorSet>, validSets: seq<bool>, known: map<DescriptorSetLayout, nat>)
  {
    && layouts == PlanLayouts(plan) && prepared == PlanPrepared(plan)
    && cachedSets == PlanCached(plan) && validSets == PlanValid(plan)
    && forall l :: l in layouts ==> l in known
  }

  /** Holding the plan means, position by position, holding its entry's parts. */
  lemma {:induction false} HoldPlanAt(plan: seq<PlannedSet>, layouts: seq<DescriptorSetLayout>, prepared: seq<DescriptorSet>,
                     cachedSets: seq<DescriptorSet>, validSets: seq<bool>, known: map<DescriptorSetLayout, nat>)
    requires HoldPlan(plan, layouts, prepared, cachedSets, validSets, known)
    ensures |layouts| == |prepared| == |cachedSets| == |validSets| == |plan|
    ensures forall k :: 0 <= k < |plan| ==>
      && plan[k] == PlannedSet(layouts[k], prepared[k], if validSets[k] then Some(cachedSets[k]) else None)
      && layouts[k] in known
  {
    if plan != [] {
      var n := |plan| - 1;
      var init := plan[..n];
      HoldPlanAt(init, layouts[..n], prepared[..n], cachedSets[..n], validSets[..n], known);
      forall k | 0 <= k < |plan| ensures
        && plan[k] == PlannedSet(layouts[k], prepared[k], if validSets[k] then Some(cachedSets[k]) else None)
        && layouts[k] in known
      {
        assert layouts[k] in layouts;
        if k < n {
          assert plan[k] == init[k] && layouts[k] == layouts[..n][k] && prepared[k] == prepared[..n][k];
          assert cachedSets[k] == cachedSets[..n][k] && validSets[k] == validSets[..n][k];
        }
      }
    }
  }

  /** A layout cache that only grows keeps holding the plan. */
  lemma {:induction false} HoldPlanWiden(plan: seq<PlannedSet>, layouts: seq<DescriptorSetLayout>, prepared: seq<DescriptorSet>,
                      cachedSets: seq<DescriptorSet>, validSets: seq<bool>,
                      known: map<DescriptorSetLayout, nat>, known': map<DescriptorSetLayout, nat>)
    requires HoldPlan(plan, layouts, prepared, cachedSets, validSets, known) && known.Keys <= known'.Keys
    ensures HoldPlan(plan, layouts, prepared, cachedSets, validSets, known')
  {
  }

  /** Pushing an entry's parts onto the four vectors holds the extended plan. */
  lemma {:induction false} HoldPlanPush(plan: seq<PlannedSet>, layouts: seq<DescriptorSetLayout>, prepared: seq<DescriptorSet>,
                     cachedSets: seq<DescriptorSet>, validSets: seq<bool>, known: map<DescriptorSetLayout, nat>,
                     e: PlannedSet)
    requires HoldPlan(plan, layouts, prepared, cachedSets, validSets, known) && e.layout in known
    ensures HoldPlan(plan + [e], layouts + [e.layout], prepared + [e.prepared],
                     cachedSets + [if e.cached.Some? then e.cached.value else EmptySet],
                     validSets + [e.cached.Some?], known)
  {
    assert (plan + [e])[..|plan|] == plan;
  }

  /** One more id walked: the vectors, extended by what it yields, hold the plan up to and including it. */
  lemma {:induction false} HoldPlanStep(ordered: seq<BindingData>, stored: seq<DescriptorSet>, lo: nat, id: nat,
                     layouts: seq<DescriptorSetLayout>, prepared: seq<DescriptorSet>,
                     cachedSets: seq<DescriptorSet>, validSets: seq<bool>,
                     known: map<DescriptorSetLayout, nat>, known': map<DescriptorSetLayout, nat>)
    requires lo <= id
    requires HoldPlan(Planned(ordered, stored, lo, id), layouts, prepared, cachedSets, validSets, known)
    requires known.Keys <= known'.Keys
    requires ExpectedVisit(ordered, stored, id).Visited? ==> ExpectedVisit(ordered, stored, id).entry.layout in known'
    ensures var v := ExpectedVisit(ordered, stored, id);
      v.Visited? ==>
        var e := v.entry;
        HoldPlan(Planned(ordered, stored, lo, id + 1), layouts + [e.layout], prepared + [e.prepared],
                 cachedSets + [if e.cached.Some? then e.cached.value else EmptySet],
                 validSets + [e.cached.Some?], known')
    ensures !ExpectedVisit(ordered, stored, id).Visited? ==>
      HoldPlan(Planned(ordered, stored, lo, id + 1), layouts, prepared, cachedSets, validSets, known')
  {
    var plan := Planned(ordered, stored, lo, id);
    var v := ExpectedVisit(ordered, stored, id);
    assert Planned(ordered, stored, lo, id + 1) == plan + (if v.Visited? then [v.entry] else []);
    HoldPlanWiden(plan, layouts, prepared, cachedSets, validSets, known, known');
    if v.Visited? {
      HoldPlanPush(plan, layouts, prepared, cachedSets, validSets, known', v.entry);
    } else {
      assert plan + [] == plan;
    }
  }

  /** Preparing succeeds up to `id` and for `id`: it succeeds up to and including `id`. */
  lemma {:induction false} NoFailureSnoc(ordered: seq<BindingData>, stored: seq<DescriptorSet>, lo: nat, id: nat)
    requires NoFailure(ordered, stored, lo, id) && !ExpectedVisit(ordered, stored, id).PrepareFailed?
    ensures NoFailure(ordered, stored, lo, id + 1)
  {
  }

  /** Preparing succeeds over a range only if it succeeds over every prefix of it. */
  lemma {:induction false} NoFailurePrefix(ordered: seq<BindingData>, stored: seq<DescriptorSet>, lo: nat, mid: nat, hi: nat)
    requires mid <= hi
    ensures NoFailure(ordered, stored, lo, hi) ==> NoFailure(ordered, stored, lo, mid)
  {
  }

  /**
    One pass of the step-2 loop: VisitSet for `setId`, then the vectors
    take what it found. `failed` reports that preparing the set failed.
   */
  method CollectStep(cache: StandardDescriptorCache, ordered: seq<BindingData>, ghost stored: seq<DescriptorSet>,
                     minSetId: nat, setId: nat, device: LogicalDevice,
                     layouts: seq<DescriptorSetLayout>, prepared: seq<DescriptorSet>,
                     cachedSets: seq<DescriptorSet>, validSets: seq<bool>)
    returns (failed: bool, layouts': seq<DescriptorSetLayout>, prepared': seq<DescriptorSet>,
             cachedSets': seq<DescriptorSet>, validSets': seq<bool>)
    requires Sorted(ordered) && GroupWellFormed(ordered)
    requires cache.Valid() && device.Valid() && cache.sets == stored && minSetId <= setId
    requires NoFailure(ordered, stored, minSetId, setId)
    requires HoldPlan(Planned(ordered, stored, minSetId, setId), layouts, prepared, cachedSets, validSets, cache.layouts)
    modifies cache, device
    ensures cache.Valid() && device.Valid()
    ensures cache.sets == stored && cache.descriptorPools == old(cache.descriptorPools)
    ensures device.allocScript == old(device.allocScript) && old(cache.layouts).Keys <= cache.layouts.Keys
    ensures failed <==> !NoFailure(ordered, stored, minSetId, setId + 1)
    ensures !failed ==> HoldPlan(Planned(ordered, stored, minSetId, setId + 1),
                                 layouts', prepared', cachedSets', validSets', cache.layouts)
  {
    ghost var known := cache.layouts;
    var v := VisitSet(cache, ordered, setId, device);
    HoldPlanStep(ordered, stored, minSetId, setId, layouts, prepared, cachedSets, validSets, known, cache.layouts);
    failed, layouts', prepared', cachedSets', validSets' := false, layouts, prepared, cachedSets, validSets;
    match v {
      case NoBindings =>
      case PrepareFailed =>
        failed := true;
      case Visited(entry) =>
        layouts' := layouts + [entry.layout];
        cachedSets' := cachedSets + [if entry.cached.Some? then entry.cached.value else EmptySet];
        validSets' := validSets + [entry.cached.Some?];
        prepared' := prepared + [entry.prepared];
    }
    if !failed {
      NoFailureSnoc(ordered, stored, minSetId, setId);
    }
  }

  /**
    Step 2: for every set id from the smallest to the largest, VisitSet.
    `ok` is false when preparing a set fails; otherwise the vectors hold
    the plan.
   */
  method CollectSets(cache: StandardDescriptorCache, ordered: seq<BindingData>, minSetId: nat, maxSetId: nat,
                     device: LogicalDevice)
    returns (ok: bool, layouts: seq<DescriptorSetLayout>, prepared: seq<DescriptorSet>,
             cachedSets: seq<DescriptorSet>, validSets: seq<bool>)
    requires Sorted(ordered) && GroupWellFormed(ordered)
    requires cache.Valid() && device.Valid()
    modifies cache, device
    ensures cache.Valid() && device.Valid()
    ensures cache.sets == old(cache.sets) && cache.descriptorPools == old(cache.descriptorPools)
    ensures device.allocScript == old(device.allocScript) && old(cache.layouts).Keys <= cache.layouts.Keys
    ensures ok <==> NoFailure(ordered, cache.sets, minSetId, maxSetId + 1)
    ensures ok ==> HoldPlan(Planned(ordered, cache.sets, minSetId, maxSetId + 1),
                            layouts, prepared, cachedSets, validSets, cache.layouts)
  {
    layouts, prepared, cachedSets, validSets := [], [], [], [];
    ghost var stored := cache.sets;
    var setId := minSetId;
    while setId <= maxSetId
      invariant minSetId <= setId && (setId <= maxSetId + 1 || setId == minSetId)
      invariant cache.Valid() && device.Valid()
      invariant cache.sets == stored && cache.descriptorPools == old(cache.descriptorPools)
      invariant device.allocScript == old(device.allocScript) && old(cache.layouts).Keys <= cache.layouts.Keys
      invariant NoFailure(ordered, stored, minSetId, setId)
      invariant HoldPlan(Planned(ordered, stored, minSetId, setId), layouts, prepared, cachedSets, validSets, cache.layouts)
      decreases maxSetId + 1 - setId
    {
      var failed;
      failed, layouts, prepared, cachedSets, validSets :=
        CollectStep(cache, ordered, stored, minSetId, setId, device, layouts, prepared, cachedSets, validSets);
      if failed {
        NoFailurePrefix(ordered, stored, minSetId, setId + 1, maxSetId + 1);
        return false, layouts, prepared, cachedSets, validSets;
      }
      setId := setId + 1;
    }
    ok := true;
  }

  /**
    The plan of a request whose sets can all be prepared lists one entry for
    every set id the request uses, in ascending order: that set's layout,
    the set descriptor_set::prepare makes of its bindings, and the first
    cached set equal to it, if any.
   */
  lemma {:induction false} PlanCorrect(input: seq<BindingData>, stored: seq<DescriptorSet>)
    requires SetIdsInRange(input) && Preparable(input)
    ensures var ids := PresentIds(SetIds(input), MinSetId(input), MaxSetId(input) + 1);
      var plan := Plan(input, stored);
      && |plan| == |ids|
      && (forall id :: id in ids <==> id in SetIds(input))
      && (forall j, l :: 0 <= j < l < |ids| ==> ids[j] < ids[l])
      && forall k :: 0 <= k < |ids| ==>
           var group := Group(Ordered(input), ids[k]);
           plan[k] == PlannedSet(LayoutOf(group), PreparedOf(group), Lookup(stored, PreparedOf(group)))
  {
    OrderedCorrect(input);
    OrderedSetIds(input);
    var ordered, lo, hi := Ordered(input), MinSetId(input), MaxSetId(input) + 1;
    NoFailureIffGroupsValid(ordered, stored, lo, hi);
    PlannedCorrect(ordered, stored, lo, hi);
    RequestedIdsAreUsedIds(input);
    var ids := PresentIds(SetIds(input), lo, hi);
    var plan := Plan(input, stored);
    forall k | 0 <= k < |ids|
      ensures var group := Group(ordered, ids[k]);
        plan[k] == PlannedSet(LayoutOf(group), PreparedOf(group), Lookup(stored, PreparedOf(group)))
    {
      assert ExpectedVisit(ordered, stored, ids[k]) == Visited(plan[k]);
    }
  }

  // ------------------------------------------------------------ steps 3 and 4

  /** The entries of `s` at the positions `idx`, in the order of `idx`. */
  function Pick<T>(s: seq<T>, idx: seq<nat>): (r: seq<T>)
    requires forall j :: 0 <= j < |idx| ==> idx[j] < |s|
    ensures |r| == |idx| && forall j :: 0 <= j < |idx| ==> r[j] == s[idx[j]]
  {
    if idx == [] then [] else Pick(s, idx[..|idx| - 1]) + [s[idx[|idx| - 1]]]
  }

  /** Picking one more position appends that position's entry. */
  lemma {:induction false} PickSnoc<T>(s: seq<T>, idx: seq<nat>, i: nat)
    requires (forall j :: 0 <= j < |idx| ==> idx[j] < |s|) && i < |s|
    ensures Pick(s, idx + [i]) == Pick(s, idx) + [s[i]]
  {
    assert (idx + [i])[..|idx|] == idx;
  }

  /** One more position walked: it is unmarked exactly when it is not valid. */
  lemma {:induction false} UnmarkedSnoc(valid: seq<bool>, i: nat)
    requires i < |valid|
    ensures Unmarked(valid[..i + 1]) == Unmarked(valid[..i]) + (if valid[i] then [] else [i])
  {
    assert valid[..i + 1][..i] == valid[..i];
  }

  /**
    The loop before alloc_new_descriptor_sets: the layouts and prepared sets
    at the positions not found in the cache, and those positions, ascending.
   */
  method SelectUncached(layouts: seq<DescriptorSetLayout>, prepared: seq<DescriptorSet>, validSets: seq<bool>)
    returns (layoutsForAlloc: seq<DescriptorSetLayout>, toBeAlloced: seq<DescriptorSet>, indexMapping: seq<nat>)
    requires |layouts| == |prepared| == |validSets|
    ensures indexMapping == Unmarked(validSets)
    ensures layoutsForAlloc == Pick(layouts, indexMapping) && toBeAlloced == Pick(prepared, indexMapping)
  {
    layoutsForAlloc, toBeAlloced, indexMapping := [], [], [];
    for i := 0 to |validSets|
      invariant indexMapping == Unmarked(validSets[..i])
      invariant layoutsForAlloc == Pick(layouts, indexMapping) && toBeAlloced == Pick(prepared, indexMapping)
    {
      UnmarkedSnoc(validSets, i);
      if !validSets[i] {
        PickSnoc(layouts, indexMapping, i);
        PickSnoc(prepared, indexMapping, i);
        layoutsForAlloc := layoutsForAlloc + [layouts[i]];
        toBeAlloced := toBeAlloced + [prepared[i]];
        indexMapping := indexMapping + [i];
      }
    }
    assert validSets[..|validSets|] == validSets;
  }

  /**
    The loop after alloc_new_descriptor_sets: the new sets are written back
    at the positions they were taken from; every other position keeps its
    cached set.
   */
  method SpliceBack(cachedSets: seq<DescriptorSet>, indexMapping: seq<nat>, nowAlsoInCache: seq<DescriptorSet>)
    returns (out: seq<DescriptorSet>)
    requires |nowAlsoInCache| == |indexMapping|
    requires forall j :: 0 <= j < |indexMapping| ==> indexMapping[j] < |cachedSets|
    requires forall j, l :: 0 <= j < l < |indexMapping| ==> indexMapping[j] < indexMapping[l]
    ensures |out| == |cachedSets|
    ensures forall j :: 0 <= j < |indexMapping| ==> out[indexMapping[j]] == nowAlsoInCache[j]
    ensures forall k :: 0 <= k < |out| && k !in indexMapping ==> out[k] == cachedSets[k]
  {
    out := cachedSets;
    for i := 0 to |indexMapping|
      invariant |out| == |cachedSets|
      invariant forall j :: 0 <= j < i ==> out[indexMapping[j]] == nowAlsoInCache[j]
      invariant forall k :: 0 <= k < |out| && k !in indexMapping[..i] ==> out[k] == cachedSets[k]
    {
      assert indexMapping[..i + 1] == indexMapping[..i] + [indexMapping[i]];
      out := out[indexMapping[i] := nowAlsoInCache[i]];
    }
    assert indexMapping[..|indexMapping|] == indexMapping;
  }

  /**
    The sets newly allocated for the positions `u`, in order: each is the
    prepared set of its position linked to the next of a run of handles and
    to one pool, and sits at that position of `result`.
   */
  ghost predicate NewAt(result: seq<DescriptorSet>, u: seq<nat>, created: seq<DescriptorSet>, prepared: seq<DescriptorSet>)
  {
    && |created| == |u| && |created| > 0 && created[0].pool.Some?
    && forall j :: 0 <= j < |u| ==>
         && u[j] < |result| && u[j] < |prepared| && result[u[j]] == created[j]
         && created[j] == Resolved(Linked(prepared[u[j]], created[0].handle + j, created[0].pool.value))
  }

  /** New set j, made for position u[j], is the prepared set there linked to handle first + j and the pool. */
  lemma {:induction false} PickedNewSets(prepared: seq<DescriptorSet>, u: seq<nat>, first: nat, pool: Pools.DescriptorPool)
    requires |u| > 0 && forall j :: 0 <= j < |u| ==> u[j] < |prepared|
    ensures var created := NewSets(Pick(prepared, u), HandleRange(first, |u|), pool);
      && |created| == |u| && created[0].pool == Some(pool) && created[0].handle == first
      && forall j :: 0 <= j < |u| ==>
           created[j] == Resolved(Linked(prepared[u[j]], created[0].handle + j, created[0].pool.value))
  {
    var picked := Pick(prepared, u);
    NewSetsFromRange(picked, first, pool);
    var created := NewSets(picked, HandleRange(first, |u|), pool);
    forall j | 0 <= j < |u|
      ensures created[j] == Resolved(Linked(prepared[u[j]], first + j, pool))
    {
      assert picked[j] == prepared[u[j]];
    }
  }

  /** The sets written back are the prepared sets at their positions, linked to a run of handles and the pool. */
  lemma {:induction false} SplicedNewSets(out: seq<DescriptorSet>, u: seq<nat>, prepared: seq<DescriptorSet>,
                                          created: seq<DescriptorSet>, first: nat, pool: Pools.DescriptorPool)
    requires |prepared| == |out| && |u| > 0 && forall j :: 0 <= j < |u| ==> u[j] < |prepared|
    requires created == NewSets(Pick(prepared, u), HandleRange(first, |u|), pool)
    requires |created| == |u| && forall j :: 0 <= j < |u| ==> out[u[j]] == created[j]
    ensures NewAt(out, u, created, prepared)
  {
    PickedNewSets(prepared, u, first, pool);
  }

  /**
    Steps 3 and 4 when some set was not cached: only those are allocated,
    in one call, and each is written back at its own position.
   */
  method AllocateUncached(cache: StandardDescriptorCache, layouts: seq<DescriptorSetLayout>, prepared: seq<DescriptorSet>,
                          cachedSets: seq<DescriptorSet>, validSets: seq<bool>, threadId: nat, device: LogicalDevice)
    returns (r: Result<seq<DescriptorSet>>, ghost created: seq<DescriptorSet>)
    requires cache.Valid() && device.Valid()
    requires |layouts| == |prepared| == |cachedSets| == |validSets| && Unmarked(validSets) != []
    modifies cache, device, cache.Bucket(PoolId(threadId, StchName))
    ensures cache.Valid() && device.Valid() && cache.layouts == old(cache.layouts)
    ensures r.Err? ==> r.error in {RetriesExhausted, DeviceFailure, CacheCollision}
    ensures r.Ok? ==> |r.value| == |cachedSets| && cache.sets == old(cache.sets) + created
    ensures r.Ok? ==> forall k :: 0 <= k < |validSets| && validSets[k] ==> r.value[k] == cachedSets[k]
    ensures r.Ok? ==> NewAt(r.value, Unmarked(validSets), created, prepared)
  {
    var layoutsForAlloc, toBeAlloced, indexMapping := SelectUncached(layouts, prepared, validSets);
    var nowAlsoInCache;
    ghost var failures, trace, held, abandoned;
    nowAlsoInCache, failures, trace, held, abandoned := cache.AllocNewDescriptorSets(layoutsForAlloc, toBeAlloced, threadId, device);
    if nowAlsoInCache.Err? {
      return Err(nowAlsoInCache.error), [];
    }
    created := nowAlsoInCache.value;
    UnmarkedCorrect(validSets);
    var out := SpliceBack(cachedSets, indexMapping, nowAlsoInCache.value);
    SplicedNewSets(out, Unmarked(validSets), prepared, created, created[0].handle, created[0].pool.value);
    forall k | 0 <= k < |validSets| && validSets[k] ensures out[k] == cachedSets[k] {
      assert k !in indexMapping;
    }
    r := Ok(out);
  }

  // ------------------------------------------------------------ the whole request

  /**
    The end of get_or_create_descriptor_sets, once step 2 has collected the
    plan: when every set is cached the cached sets are the result; otherwise
    the uncached ones are allocated and spliced in.
   */
  method ServePlan(cache: StandardDescriptorCache, ghost plan: seq<PlannedSet>, layouts: seq<DescriptorSetLayout>,
                   prepared: seq<DescriptorSet>, cachedSets: seq<DescriptorSet>, validSets: seq<bool>,
                   threadId: nat, device: LogicalDevice)
    returns (r: Result<seq<DescriptorSet>>, ghost created: seq<DescriptorSet>)
    requires cache.Valid() && device.Valid()
    requires HoldPlan(plan, layouts, prepared, cachedSets, validSets, cache.layouts)
    modifies cache, device, cache.Bucket(PoolId(threadId, StchName))
    ensures cache.Valid() && device.Valid() && cache.layouts == old(cache.layouts)
    ensures var u := Unmarked(PlanValid(plan));
      && (u == [] ==>
            && r == Ok(PlanCached(plan)) && cache.sets == old(cache.sets)
            && cache.descriptorPools == old(cache.descriptorPools) && device.allocScript == old(device.allocScript))
      && (r.Err? ==> u != [] && r.error in {RetriesExhausted, DeviceFailure, CacheCollision})
      && (r.Ok? ==>
            && |r.value| == |plan| && |created| == |u| && cache.sets == old(cache.sets) + created
            && (forall k :: 0 <= k < |plan| && plan[k].cached.Some? ==> r.value[k] == plan[k].cached.value)
            && (u != [] ==> NewAt(r.value, u, created, PlanPrepared(plan))))
  {
    HoldPlanAt(plan, layouts, prepared, cachedSets, validSets, cache.layouts);
    AllMarkedNoneUnmarked(validSets);
    if |cachedSets| == CountTrue(validSets) {
      return Ok(cachedSets), [];
    }
    r, created := AllocateUncached(cache, layouts, prepared, cachedSets, validSets, threadId, device);
  }

  /**
    root::get_or_create_descriptor_sets. A request whose sets cannot all be
    prepared ends in the failed assertion of descriptor_set::prepare.
    Otherwise the result lists one set per entry of the plan: the cached set
    where there is one; the others are allocated in one call, each linked to
    the next of a run of fresh handles and to the pool, and recorded in the
    cache. When every set was cached nothing is allocated.
   */
  method GetOrCreateDescriptorSets(cache: StandardDescriptorCache, input: seq<BindingData>, threadId: nat, device: LogicalDevice)
    returns (r: Result<seq<DescriptorSet>>, ghost created: seq<DescriptorSet>)
    requires cache.Valid() && device.Valid()
    requires SetIdsInRange(input) && GroupWellFormed(input)
    modifies cache, device, cache.Bucket(PoolId(threadId, StchName))
    ensures cache.Valid() && device.Valid()
    ensures old(cache.layouts).Keys <= cache.layouts.Keys
    ensures !Preparable(input) ==> r == Err(BindingsNotIncreasing) && cache.sets == old(cache.sets)
    ensures input == [] ==> r == Ok([])
    ensures Preparable(input) ==>
      var plan := Plan(input, old(cache.sets));
      var u := Unmarked(PlanValid(plan));
      && (forall k :: 0 <= k < |plan| ==> plan[k].layout in cache.layouts)
      && (u == [] ==>
            && r == Ok(PlanCached(plan)) && cache.sets == old(cache.sets)
            && cache.descriptorPools == old(cache.descriptorPools) && device.allocScript == old(device.allocScript))
      && (r.Err? ==> u != [] && r.error in {RetriesExhausted, DeviceFailure, CacheCollision})
      && (r.Ok? ==>
            && |r.value| == |plan| && |created| == |u| && cache.sets == old(cache.sets) + created
            && (forall k :: 0 <= k < |plan| && plan[k].cached.Some? ==> r.value[k] == plan[k].cached.value)
            && (u != [] ==> NewAt(r.value, u, created, PlanPrepared(plan))))
  {
    var ordered, minSetId, maxSetId := OrderBindings(input);
    OrderedWellFormed(input);
    ghost var stored := cache.sets;
    var ok, layouts, prepared, cachedSets, validSets := CollectSets(cache, ordered, minSetId, maxSetId, device);
    NoFailureIffGroupsValid(ordered, stored, minSetId, maxSetId + 1);
    if !ok {
      return Err(BindingsNotIncreasing), [];
    }
    ghost var plan := Planned(ordered, stored, minSetId, maxSetId + 1);
    assert plan == Plan(input, stored);
    if input == [] {
      assert plan == [];
    }
    HoldPlanAt(plan, layouts, prepared, cachedSets, validSets, cache.layouts);
    r, created := ServePlan(cache, plan, layouts, prepared, cachedSets, validSets, threadId, device);
  }
}
