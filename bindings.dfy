/**
  binding_data and the grouping of a list of bindings into descriptor sets.

  Both root::get_or_create_descriptor_sets and
  set_of_descriptor_set_layouts::prepare first insert every binding, in input
  order, at its std::lower_bound position of a growing vector (operator<:
  set id first, then binding id), tracking the smallest and largest set id,
  and then cut the ordered vector into one std::equal_range per set id.
 */
module Bindings {
  import opened Vk
  import opened AllocRequests

  /** std::numeric_limits<uint32_t>::max(), the start value of the smallest set id. */
  const U32Max: nat := 0xFFFF_FFFF

  /** 2^32: uint32_t arithmetic is modulo this. */
  const U32Modulus: nat := 0x1_0000_0000

  /** A vk::WriteDescriptorSetAccelerationStructureKHR: a handle count and the array it points at. */
  datatype AccelWriteInfo = AccelWriteInfo(count: nat, handles: seq<nat>)

  /** What a binding_data carries besides its layout binding. */
  datatype Resource =
    | NoResource
    | Images(images: seq<ImageInfo>)
    | Buffers(buffers: seq<BufferInfo>)
    | TexelBufferViews(views: seq<nat>)
    | AccelerationStructures(infos: seq<AccelWriteInfo>)

  /** binding_data: the set it belongs to, its layout binding and the resource bound to it. */
  datatype BindingData = BindingData(setId: nat, layoutBinding: LayoutBinding, resource: Resource)

  /** binding_data's operator<: by set id, then by binding id. */
  predicate Less(a: BindingData, b: BindingData)
  {
    a.setId < b.setId || (a.setId == b.setId && a.layoutBinding.binding < b.layoutBinding.binding)
  }

  predicate Sorted(s: seq<BindingData>)
  {
    forall i, j :: 0 <= i < j < |s| ==> !Less(s[j], s[i])
  }

  /** Every binding's set id fits the source's uint32_t. */
  predicate SetIdsInRange(s: seq<BindingData>)
  {
    forall i :: 0 <= i < |s| ==> s[i].setId <= U32Max
  }

  /** std::lower_bound with operator<: the first position whose element is not below `b`. */
  function InsertPosition(s: seq<BindingData>, b: BindingData): (p: nat)
    ensures p <= |s|
  {
    if s == [] || !Less(s[0], b) then 0 else 1 + InsertPosition(s[1..], b)
  }

  /** Everything before the insert position is below `b`; the element at it is not. */
  lemma {:induction false} InsertPositionCorrect(s: seq<BindingData>, b: BindingData)
    ensures forall k :: 0 <= k < InsertPosition(s, b) ==> Less(s[k], b)
    ensures InsertPosition(s, b) < |s| ==> !Less(s[InsertPosition(s, b)], b)
  {
    if s != [] && Less(s[0], b) {
      InsertPositionCorrect(s[1..], b);
    }
  }

  /** orderedBindings.insert(lower_bound(...), b). */
  function Insert(s: seq<BindingData>, b: BindingData): seq<BindingData>
  {
    var p := InsertPosition(s, b);
    s[..p] + [b] + s[p..]
  }

  /** Step 1 of the grouping: every binding inserted, in input order, at its lower bound. */
  function Ordered(input: seq<BindingData>): seq<BindingData>
  {
    if input == [] then [] else Insert(Ordered(input[..|input| - 1]), input[|input| - 1])
  }

  /** The smallest set id, starting from U32Max. */
  function MinSetId(input: seq<BindingData>): nat
  {
    if input == [] then U32Max
    else
      var m := MinSetId(input[..|input| - 1]);
      if input[|input| - 1].setId < m then input[|input| - 1].setId else m
  }

  /** The largest set id, starting from zero. */
  function MaxSetId(input: seq<BindingData>): nat
  {
    if input == [] then 0
    else
      var m := MaxSetId(input[..|input| - 1]);
      if input[|input| - 1].setId > m then input[|input| - 1].setId else m
  }

  function SetIds(input: seq<BindingData>): set<nat>
  {
    set i | 0 <= i < |input| :: input[i].setId
  }

  lemma {:induction false} InsertCorrect(s: seq<BindingData>, b: BindingData)
    requires Sorted(s)
    ensures Sorted(Insert(s, b))
    ensures multiset(Insert(s, b)) == multiset(s) + multiset{b}
  {
    InsertPositionCorrect(s, b);
    var p := InsertPosition(s, b);
    InsertSortedAt(s, b, p);
    InsertMultiset(s, b, p);
  }

  /** Inserting anywhere adds exactly one occurrence of `b`. */
  lemma {:induction false} InsertMultiset(s: seq<BindingData>, b: BindingData, p: nat)
    requires p <= |s|
    ensures multiset(s[..p] + [b] + s[p..]) == multiset(s) + multiset{b}
  {
    assert s == s[..p] + s[p..];
  }

  /** Placing `b` after everything below it and before everything not below it keeps the order. */
  lemma {:induction false} InsertSortedAt(s: seq<BindingData>, b: BindingData, p: nat)
    requires Sorted(s) && p <= |s|
    requires forall k :: 0 <= k < p ==> Less(s[k], b)
    requires p < |s| ==> !Less(s[p], b)
    ensures Sorted(s[..p] + [b] + s[p..])
  {
    var r := s[..p] + [b] + s[p..];
    forall i, j | 0 <= i < j < |r| ensures !Less(r[j], r[i]) {
      if i < p && j == p {
        assert r[i] == s[i] && r[j] == b;
      } else if i < p && j > p {
        assert r[i] == s[i] && r[j] == s[j - 1];
      } else if i == p {
        assert r[i] == b && r[j] == s[j - 1];
      } else if i > p {
        assert r[i] == s[i - 1] && r[j] == s[j - 1];
      } else {
        assert r[i] == s[i] && r[j] == s[j];
      }
    }
  }

  /** The ordered bindings are sorted and are the input's bindings, each exactly as often. */
  lemma {:induction false} OrderedCorrect(input: seq<BindingData>)
    ensures Sorted(Ordered(input))
    ensures multiset(Ordered(input)) == multiset(input)
    ensures |Ordered(input)| == |input|
  {
    if input != [] {
      var init := input[..|input| - 1];
      OrderedCorrect(init);
      InsertCorrect(Ordered(init), input[|input| - 1]);
      assert input == init + [input[|input| - 1]];
      assert |multiset(Ordered(input))| == |multiset(input)|;
    }
  }

  /**
    The tracked bounds: with no bindings they stay at U32Max and 0; otherwise
    they are the smallest and the largest set id that occurs.
   */
  lemma {:induction false} SetIdBounds(input: seq<BindingData>)
    requires SetIdsInRange(input)
    ensures input == [] ==> MinSetId(input) == U32Max && MaxSetId(input) == 0
    ensures input != [] ==> MinSetId(input) in SetIds(input) && MaxSetId(input) in SetIds(input)
    ensures forall i :: 0 <= i < |input| ==> MinSetId(input) <= input[i].setId <= MaxSetId(input)
    ensures MaxSetId(input) <= U32Max
  {
    if input != [] {
      var init := input[..|input| - 1];
      SetIdBounds(init);
      assert forall x :: x in SetIds(init) ==> x in SetIds(input) by {
        forall x | x in SetIds(init) ensures x in SetIds(input) {
          var i :| 0 <= i < |init| && init[i].setId == x;
          assert input[i].setId == x;
        }
      }
      assert input[|input| - 1].setId in SetIds(input);
      forall i | 0 <= i < |input| ensures MinSetId(input) <= input[i].setId <= MaxSetId(input) {
        if i < |input| - 1 {
          assert input[i] == init[i];
        }
      }
    }
  }

  /**
    Step 1 as written: one lower-bound insertion per binding, updating the
    smallest and largest set id on the way.
   */
  method OrderBindings(input: seq<BindingData>) returns (ordered: seq<BindingData>, minSetId: nat, maxSetId: nat)
    ensures ordered == Ordered(input)
    ensures minSetId == MinSetId(input) && maxSetId == MaxSetId(input)
    ensures Sorted(ordered) && multiset(ordered) == multiset(input)
  {
    ordered, minSetId, maxSetId := [], U32Max, 0;
    for k := 0 to |input|
      invariant ordered == Ordered(input[..k])
      invariant minSetId == MinSetId(input[..k]) && maxSetId == MaxSetId(input[..k])
    {
      var b := input[k];
      minSetId := if b.setId < minSetId then b.setId else minSetId;
      maxSetId := if b.setId > maxSetId then b.setId else maxSetId;
      var it := InsertPosition(ordered, b);
      ordered := ordered[..it] + [b] + ordered[it..];
      assert input[..k + 1][..k] == input[..k];
    }
    assert input[..|input|] == input;
    OrderedCorrect(input);
  }

  /** std::lower_bound by set id: the first position whose set id is not below `id`. */
  function SetLowerBound(s: seq<BindingData>, id: nat): (i: nat)
    ensures i <= |s|
  {
    if s == [] || s[0].setId >= id then 0 else 1 + SetLowerBound(s[1..], id)
  }

  /** Everything before the lower bound is of a smaller set id; the element at it is not. */
  lemma {:induction false} SetLowerBoundCorrect(s: seq<BindingData>, id: nat)
    ensures forall k :: 0 <= k < SetLowerBound(s, id) ==> s[k].setId < id
    ensures SetLowerBound(s, id) < |s| ==> s[SetLowerBound(s, id)].setId >= id
  {
    if s != [] && s[0].setId < id {
      SetLowerBoundCorrect(s[1..], id);
    }
  }

  /** std::upper_bound by set id: the first position whose set id is above `id`. */
  function SetUpperBound(s: seq<BindingData>, id: nat): (i: nat)
    ensures i <= |s|
  {
    if s == [] || s[0].setId > id then 0 else 1 + SetUpperBound(s[1..], id)
  }

  /** Everything before the upper bound is of set id at most `id`; the element at it is above. */
  lemma {:induction false} SetUpperBoundCorrect(s: seq<BindingData>, id: nat)
    ensures forall k :: 0 <= k < SetUpperBound(s, id) ==> s[k].setId <= id
    ensures SetUpperBound(s, id) < |s| ==> s[SetUpperBound(s, id)].setId > id
  {
    if s != [] && s[0].setId <= id {
      SetUpperBoundCorrect(s[1..], id);
    }
  }

  /** The bindings of one set id: the range between its lower and upper bound. */
  function Group(s: seq<BindingData>, id: nat): seq<BindingData>
  {
    var lo, hi := SetLowerBound(s, id), SetUpperBound(s, id);
    if lo <= hi then s[lo..hi] else []
  }

  /** On an ordered vector the two bounds enclose exactly the positions of set `id`. */
  lemma {:induction false} GroupBounds(s: seq<BindingData>, id: nat)
    requires Sorted(s)
    ensures SetLowerBound(s, id) <= SetUpperBound(s, id)
    ensures forall k :: 0 <= k < |s| ==> (s[k].setId == id <==> SetLowerBound(s, id) <= k < SetUpperBound(s, id))
  {
    SetLowerBoundCorrect(s, id);
    SetUpperBoundCorrect(s, id);
    var lb, ub := SetLowerBound(s, id), SetUpperBound(s, id);
    forall k | 0 <= k < |s| ensures s[k].setId == id <==> lb <= k < ub {
      if k >= ub && ub < |s| {
        assert !Less(s[k], s[ub]) || k == ub;
      }
      if k < lb && lb < |s| {
        assert !Less(s[lb], s[k]);
      }
    }
  }

  /** The group of set `id` is sorted and holds every binding of that set the vector holds, and no other. */
  lemma {:induction false} GroupMultiset(s: seq<BindingData>, id: nat)
    requires Sorted(s)
    ensures Sorted(Group(s, id))
    ensures forall x :: multiset(Group(s, id))[x] == if x.setId == id then multiset(s)[x] else 0
  {
    GroupBounds(s, id);
    var lb, ub := SetLowerBound(s, id), SetUpperBound(s, id);
    forall i, j | 0 <= i < j < |Group(s, id)| ensures !Less(Group(s, id)[j], Group(s, id)[i]) {
      assert Group(s, id)[i] == s[lb + i] && Group(s, id)[j] == s[lb + j];
    }
    assert s == s[..lb] + s[lb..ub] + s[ub..];
    forall x ensures multiset(Group(s, id))[x] == if x.setId == id then multiset(s)[x] else 0 {
      assert multiset(s)[x] == multiset(s[..lb])[x] + multiset(s[lb..ub])[x] + multiset(s[ub..])[x];
      if x.setId == id {
        assert x !in s[..lb] && x !in s[ub..];
      } else {
        assert x !in s[lb..ub];
      }
    }
  }

  /** The layout bindings of a group, in order. */
  function LayoutBindings(group: seq<BindingData>): seq<LayoutBinding>
  {
    seq(|group|, i requires 0 <= i < |group| => group[i].layoutBinding)
  }

  /** One pool size per binding: its descriptor type and descriptor count. */
  function BindingSizes(group: seq<BindingData>): seq<PoolSize>
  {
    seq(|group|, i requires 0 <= i < |group| => PoolSize(group[i].layoutBinding.dtype, group[i].layoutBinding.count))
  }

  /**
    descriptor_set_layout::prepare as far as the cache depends on it: the
    group's layout bindings, and as required pool sizes the per-type sums of
    their descriptor counts.
   */
  function LayoutOf(group: seq<BindingData>): DescriptorSetLayout
  {
    DescriptorSetLayout(LayoutBindings(group), AccumulateAll([], BindingSizes(group)))
  }

  /**
    The layout lists the group's layout bindings in order, and its pool
    sizes hold one entry per descriptor type, sorted by type, with the
    type's summed descriptor count.
   */
  lemma {:induction false} LayoutOfCorrect(group: seq<BindingData>)
    ensures LayoutOf(group).bindings == LayoutBindings(group)
    ensures StrictlyIncreasing(LayoutOf(group).requiredPoolSizes)
    ensures forall t :: CountOf(LayoutOf(group).requiredPoolSizes, t) == CountOf(BindingSizes(group), t)
  {
    AccumulateAllCorrect([], BindingSizes(group));
  }

  /** set_of_descriptor_set_layouts: the first set id, one layout per set id from 0, and the summed requirements. */
  datatype SetOfLayouts = SetOfLayouts(firstSetId: nat, layouts: seq<DescriptorSetLayout>, bindingRequirements: seq<PoolSize>)

  /**
    set_of_descriptor_set_layouts::prepare: a layout for every set id from 0
    up to the largest one, empty sets included, and the pool sizes of all
    layouts merged into one list sorted by type with one entry per type.
   */
  method PrepareLayoutSet(bindings: seq<BindingData>) returns (r: SetOfLayouts)
    ensures r.firstSetId == MinSetId(bindings)
    ensures |r.layouts| == MaxSetId(bindings) + 1
    ensures Sorted(Ordered(bindings))
    ensures forall id :: 0 <= id < |r.layouts| ==> r.layouts[id] == LayoutOf(Group(Ordered(bindings), id))
    ensures r.bindingRequirements == AccumulateAll([], RequiredSizes(r.layouts))
    ensures StrictlyIncreasing(r.bindingRequirements)
    ensures forall t :: CountOf(r.bindingRequirements, t) == CountOf(RequiredSizes(r.layouts), t)
  {
    var ordered, minSetId, maxSetId := OrderBindings(bindings);
    var layouts: seq<DescriptorSetLayout> := [];
    var setId := 0;
    while setId <= maxSetId
      invariant setId <= maxSetId + 1 && |layouts| == setId
      invariant forall id :: 0 <= id < setId ==> layouts[id] == LayoutOf(Group(ordered, id))
    {
      var lb := SetLowerBound(ordered, setId);
      var ub := SetUpperBound(ordered, setId);
      GroupBounds(ordered, setId);
      layouts := layouts + [LayoutOf(ordered[lb..ub])];
      setId := setId + 1;
    }
    var requirements := AccumulateLayoutSizes(layouts);
    AccumulateAllCorrect([], RequiredSizes(layouts));
    r := SetOfLayouts(minSetId, layouts, requirements);
  }
}
