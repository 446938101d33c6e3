/**
  descriptor_alloc_request: the per-type pool sizes a batch of descriptor sets
  needs, kept strictly increasing by descriptor type ordinal with one entry per
  type, plus the number of sets.

  Merge is the lower_bound-then-add-or-insert step that the request's
  constructor, add_size_requirements and step 3 of
  set_of_descriptor_set_layouts::prepare all perform; InsertPoolSize is that
  step as code, AccumulateSizes repeats it over a list.
 */
module AllocRequests {
  import opened Vk

  /** One entry per type, in increasing type order. */
  predicate StrictlyIncreasing(s: seq<PoolSize>)
  {
    forall i, j :: 0 <= i < j < |s| ==> s[i].dtype < s[j].dtype
  }

  /** The sum of every count `s` holds for type `t`. */
  function CountOf(s: seq<PoolSize>, t: nat): nat
  {
    if s == [] then 0
    else (if s[0].dtype == t then s[0].count else 0) + CountOf(s[1..], t)
  }

  /** The types that occur in `s`. */
  function Types(s: seq<PoolSize>): set<nat>
  {
    set i | 0 <= i < |s| :: s[i].dtype
  }

  /** The position std::lower_bound finds: the first entry whose type is not below `t`. */
  function LowerBound(s: seq<PoolSize>, t: nat): (i: nat)
    ensures i <= |s|
  {
    if s == [] || s[0].dtype >= t then 0 else 1 + LowerBound(s[1..], t)
  }

  /** Adds `p` to the entry of its type, or inserts it where lower_bound points. */
  function Merge(s: seq<PoolSize>, p: PoolSize): seq<PoolSize>
  {
    var i := LowerBound(s, p.dtype);
    if i < |s| && s[i].dtype == p.dtype then s[i := PoolSize(p.dtype, s[i].count + p.count)]
    else s[..i] + [p] + s[i..]
  }

  /** Merges every entry of `entries`, in order, into `acc`. */
  function AccumulateAll(acc: seq<PoolSize>, entries: seq<PoolSize>): seq<PoolSize>
    decreases |entries|
  {
    if entries == [] then acc else AccumulateAll(Merge(acc, entries[0]), entries[1..])
  }

  /** The required pool sizes of all `layouts`, one layout after the other. */
  function RequiredSizes(layouts: seq<DescriptorSetLayout>): seq<PoolSize>
  {
    if layouts == [] then [] else RequiredSizes(layouts[..|layouts| - 1]) + layouts[|layouts| - 1].requiredPoolSizes
  }

  /** Every count of `s` multiplied by `factor`, types and order kept. */
  function Scaled(s: seq<PoolSize>, factor: nat): seq<PoolSize>
  {
    seq(|s|, i requires 0 <= i < |s| => PoolSize(s[i].dtype, s[i].count * factor))
  }

  lemma {:induction false} CountOfConcat(a: seq<PoolSize>, b: seq<PoolSize>, t: nat)
    ensures CountOf(a + b, t) == CountOf(a, t) + CountOf(b, t)
  {
    if a == [] {
      assert a + b == b;
    } else {
      assert (a + b)[1..] == a[1..] + b;
      CountOfConcat(a[1..], b, t);
    }
  }

  lemma {:induction false} TypesConcat(a: seq<PoolSize>, b: seq<PoolSize>)
    ensures Types(a + b) == Types(a) + Types(b)
  {
    forall x | x in Types(a + b) ensures x in Types(a) + Types(b) {
      var i :| 0 <= i < |a + b| && (a + b)[i].dtype == x;
      if i < |a| { assert a[i].dtype == x; } else { assert b[i - |a|].dtype == x; }
    }
    forall x | x in Types(a) + Types(b) ensures x in Types(a + b) {
      if x in Types(a) {
        var i :| 0 <= i < |a| && a[i].dtype == x;
        assert (a + b)[i].dtype == x;
      } else {
        var i :| 0 <= i < |b| && b[i].dtype == x;
        assert (a + b)[|a| + i].dtype == x;
      }
    }
  }

  /** In a strictly increasing list the count of a present type is that of its one entry. */
  lemma {:induction false} CountOfUniqueEntry(s: seq<PoolSize>, i: nat)
    requires StrictlyIncreasing(s) && i < |s|
    ensures CountOf(s, s[i].dtype) == s[i].count
  {
    if i == 0 {
      CountOfAbsent(s[1..], s[0].dtype);
    } else {
      assert s[0].dtype != s[i].dtype;
      CountOfUniqueEntry(s[1..], i - 1);
    }
  }

  /** A type that is below every entry, or simply absent, counts zero. */
  lemma {:induction false} CountOfAbsent(s: seq<PoolSize>, t: nat)
    requires forall j :: 0 <= j < |s| ==> s[j].dtype != t
    ensures CountOf(s, t) == 0
  {
    if s != [] {
      CountOfAbsent(s[1..], t);
    }
  }

  /** lower_bound on a strictly increasing list splits it into "below t" and "not below t". */
  lemma {:induction false} LowerBoundSplits(s: seq<PoolSize>, t: nat)
    requires StrictlyIncreasing(s)
    ensures LowerBound(s, t) <= |s|
    ensures forall j :: 0 <= j < LowerBound(s, t) ==> s[j].dtype < t
    ensures forall j :: LowerBound(s, t) <= j < |s| ==> s[j].dtype >= t
  {
    if s != [] && s[0].dtype < t {
      LowerBoundSplits(s[1..], t);
      forall j | LowerBound(s, t) <= j < |s| ensures s[j].dtype >= t {
        assert s[j] == s[1..][j - 1];
      }
    }
  }

  /** Merging keeps one entry per type in increasing order, and adds exactly `p.count` to `p`'s type. */
  lemma {:induction false} MergeCorrect(s: seq<PoolSize>, p: PoolSize)
    requires StrictlyIncreasing(s)
    ensures StrictlyIncreasing(Merge(s, p))
    ensures Types(Merge(s, p)) == Types(s) + {p.dtype}
    ensures forall t :: CountOf(Merge(s, p), t) == CountOf(s, t) + (if t == p.dtype then p.count else 0)
  {
    var i := LowerBound(s, p.dtype);
    LowerBoundSplits(s, p.dtype);
    if i < |s| && s[i].dtype == p.dtype {
      MergeIntoEntry(s, p, i);
    } else {
      MergeAsNewEntry(s, p, i);
    }
  }

  /** Adding to the entry `s[i]` of `p`'s type. */
  lemma {:induction false} MergeIntoEntry(s: seq<PoolSize>, p: PoolSize, i: nat)
    requires StrictlyIncreasing(s) && i < |s| && s[i].dtype == p.dtype
    ensures var r := s[i := PoolSize(p.dtype, s[i].count + p.count)];
      && StrictlyIncreasing(r)
      && Types(r) == Types(s) + {p.dtype}
      && forall t :: CountOf(r, t) == CountOf(s, t) + (if t == p.dtype then p.count else 0)
  {
    var e := PoolSize(p.dtype, s[i].count + p.count);
    forall t ensures CountOf(s[i := e], t) == CountOf(s, t) + (if t == p.dtype then p.count else 0) {
      CountOfUpdate(s, i, e, t);
    }
    TypesUpdateSameType(s, i, e);
    assert p.dtype in Types(s) by {
      assert s[i].dtype == p.dtype;
    }
  }

  /** Replacing one entry trades its contribution to a type's total for the new entry's. */
  lemma {:induction false} CountOfUpdate(s: seq<PoolSize>, i: nat, e: PoolSize, t: nat)
    requires i < |s|
    ensures CountOf(s[i := e], t) + (if s[i].dtype == t then s[i].count else 0)
         == CountOf(s, t) + (if e.dtype == t then e.count else 0)
  {
    var r := s[i := e];
    assert r == s[..i] + [e] + s[i + 1..];
    assert s == s[..i] + [s[i]] + s[i + 1..];
    CountOfConcat(s[..i] + [e], s[i + 1..], t);
    CountOfConcat(s[..i], [e], t);
    CountOfConcat(s[..i] + [s[i]], s[i + 1..], t);
    CountOfConcat(s[..i], [s[i]], t);
  }

  /** Replacing an entry by one of the same type keeps the types. */
  lemma {:induction false} TypesUpdateSameType(s: seq<PoolSize>, i: nat, e: PoolSize)
    requires i < |s| && e.dtype == s[i].dtype
    ensures Types(s[i := e]) == Types(s)
  {
    var r := s[i := e];
    forall x ensures x in Types(r) <==> x in Types(s) {
      if x in Types(s) {
        var j :| 0 <= j < |s| && s[j].dtype == x;
        assert r[j].dtype == x;
      }
      if x in Types(r) {
        var j :| 0 <= j < |r| && r[j].dtype == x;
        assert s[j].dtype == x;
      }
    }
  }

  /** Inserting `p` at the lower_bound position `i`, where no entry of its type is. */
  lemma {:induction false} MergeAsNewEntry(s: seq<PoolSize>, p: PoolSize, i: nat)
    requires StrictlyIncreasing(s) && i <= |s|
    requires forall j :: 0 <= j < i ==> s[j].dtype < p.dtype
    requires forall j :: i <= j < |s| ==> s[j].dtype >= p.dtype
    requires !(i < |s| && s[i].dtype == p.dtype)
    ensures var r := s[..i] + [p] + s[i..];
      && StrictlyIncreasing(r)
      && Types(r) == Types(s) + {p.dtype}
      && forall t :: CountOf(r, t) == CountOf(s, t) + (if t == p.dtype then p.count else 0)
  {
    InsertKeepsOrder(s, p, i);
    var r := s[..i] + [p] + s[i..];
    assert s == s[..i] + s[i..];
    forall t ensures CountOf(r, t) == CountOf(s, t) + (if t == p.dtype then p.count else 0) {
      CountOfConcat(s[..i] + [p], s[i..], t);
      CountOfConcat(s[..i], [p], t);
      CountOfConcat(s[..i], s[i..], t);
    }
    TypesConcat(s[..i] + [p], s[i..]);
    TypesConcat(s[..i], [p]);
    TypesConcat(s[..i], s[i..]);
    assert Types([p]) == {p.dtype} by {
      assert [p][0].dtype == p.dtype;
    }
  }

  lemma {:induction false} InsertKeepsOrder(s: seq<PoolSize>, p: PoolSize, i: nat)
    requires StrictlyIncreasing(s) && i <= |s|
    requires forall j :: 0 <= j < i ==> s[j].dtype < p.dtype
    requires forall j :: i <= j < |s| ==> s[j].dtype > p.dtype
    ensures StrictlyIncreasing(s[..i] + [p] + s[i..])
  {
    var r := s[..i] + [p] + s[i..];
    forall a, b | 0 <= a < b < |r| ensures r[a].dtype < r[b].dtype {
      if b < i {
        assert r[a] == s[a] && r[b] == s[b];
      } else if a > i {
        assert r[a] == s[a - 1] && r[b] == s[b - 1];
      } else if a == i {
        assert r[b] == s[b - 1];
      } else if b == i {
        assert r[a] == s[a];
      } else {
        assert r[a] == s[a] && r[b] == s[b - 1];
      }
    }
  }

  /** Only the lower_bound position splits a strictly increasing list at `t`. */
  lemma {:induction false} LowerBoundUnique(s: seq<PoolSize>, t: nat, i: nat)
    requires i <= |s|
    requires forall j :: 0 <= j < i ==> s[j].dtype < t
    requires forall j :: i <= j < |s| ==> s[j].dtype >= t
    ensures i == LowerBound(s, t)
  {
    if i > 0 {
      LowerBoundUnique(s[1..], t, i - 1);
    }
  }

  /**
    Accumulating a list into a well-formed request keeps one entry per type in
    increasing order, and every type's count is its old count plus the sum of
    the counts added for it.
   */
  lemma {:induction false} AccumulateAllCorrect(acc: seq<PoolSize>, entries: seq<PoolSize>)
    requires StrictlyIncreasing(acc)
    ensures StrictlyIncreasing(AccumulateAll(acc, entries))
    ensures Types(AccumulateAll(acc, entries)) == Types(acc) + Types(entries)
    ensures forall t :: CountOf(AccumulateAll(acc, entries), t) == CountOf(acc, t) + CountOf(entries, t)
    decreases |entries|
  {
    if entries != [] {
      MergeCorrect(acc, entries[0]);
      AccumulateAllCorrect(Merge(acc, entries[0]), entries[1..]);
      TypesCons(entries);
    } else {
      assert Types(entries) == {};
    }
  }

  /** The types of a non-empty list: its head's type and the types of its tail. */
  lemma {:induction false} TypesCons(s: seq<PoolSize>)
    requires s != []
    ensures Types(s) == {s[0].dtype} + Types(s[1..])
  {
    assert s == [s[0]] + s[1..];
    TypesConcat([s[0]], s[1..]);
    assert Types([s[0]]) == {s[0].dtype} by {
      assert [s[0]][0] == s[0];
    }
  }

  lemma {:induction false} AccumulateAllAppend(acc: seq<PoolSize>, a: seq<PoolSize>, b: seq<PoolSize>)
    ensures AccumulateAll(acc, a + b) == AccumulateAll(AccumulateAll(acc, a), b)
    decreases |a|
  {
    if a == [] {
      assert a + b == b;
    } else {
      assert (a + b)[0] == a[0] && (a + b)[1..] == a[1..] + b;
      AccumulateAllAppend(Merge(acc, a[0]), a[1..], b);
    }
  }

  /** Scaling keeps types and order and multiplies every type's total by the factor. */
  lemma {:induction false} ScaledCorrect(s: seq<PoolSize>, factor: nat, t: nat)
    ensures CountOf(Scaled(s, factor), t) == CountOf(s, t) * factor
    ensures StrictlyIncreasing(s) ==> StrictlyIncreasing(Scaled(s, factor))
    ensures Types(Scaled(s, factor)) == Types(s)
  {
    if s != [] {
      ScaledCorrect(s[1..], factor, t);
      assert Scaled(s, factor)[1..] == Scaled(s[1..], factor);
      var c := if s[0].dtype == t then s[0].count else 0;
      calc {
        CountOf(Scaled(s, factor), t);
        c * factor + CountOf(s[1..], t) * factor;
        { assert c * factor + CountOf(s[1..], t) * factor == (c + CountOf(s[1..], t)) * factor; }
        CountOf(s, t) * factor;
      }
    }
    var r := Scaled(s, factor);
    assert forall x :: x in Types(r) <==> x in Types(s) by {
      forall x ensures x in Types(r) <==> x in Types(s) {
        if x in Types(s) {
          var i :| 0 <= i < |s| && s[i].dtype == x;
          assert r[i].dtype == x;
        }
      }
    }
  }

  /**
    std::lower_bound over the sorted pool sizes: a binary search for the first
    entry whose type ordinal is not below `t`.
   */
  method LowerBoundSearch(s: seq<PoolSize>, t: nat) returns (i: nat)
    requires StrictlyIncreasing(s)
    ensures i <= |s|
    ensures forall j :: 0 <= j < i ==> s[j].dtype < t
    ensures forall j :: i <= j < |s| ==> s[j].dtype >= t
    ensures i == LowerBound(s, t)
  {
    var lo, hi := 0, |s|;
    while lo < hi
      invariant 0 <= lo <= hi <= |s|
      invariant forall j :: 0 <= j < lo ==> s[j].dtype < t
      invariant forall j :: hi <= j < |s| ==> s[j].dtype >= t
      decreases hi - lo
    {
      var mid := lo + (hi - lo) / 2;
      if s[mid].dtype < t {
        lo := mid + 1;
      } else {
        hi := mid;
      }
    }
    i := lo;
    LowerBoundUnique(s, t, i);
  }

  /**
    One accumulation step: find the entry of `p`'s type with lower_bound, add
    to it when it exists, insert `p` there otherwise.
   */
  method InsertPoolSize(s: seq<PoolSize>, p: PoolSize) returns (r: seq<PoolSize>)
    requires StrictlyIncreasing(s)
    ensures r == Merge(s, p)
    ensures StrictlyIncreasing(r) && Types(r) == Types(s) + {p.dtype}
    ensures forall t :: CountOf(r, t) == CountOf(s, t) + (if t == p.dtype then p.count else 0)
  {
    var it := LowerBoundSearch(s, p.dtype);
    if it < |s| && s[it].dtype == p.dtype {
      r := s[it := PoolSize(s[it].dtype, s[it].count + p.count)];
    } else {
      r := s[..it] + [p] + s[it..];
    }
    MergeCorrect(s, p);
  }

  /** Accumulates every entry of `entries`, in order, into `acc`. */
  method AccumulateSizes(acc: seq<PoolSize>, entries: seq<PoolSize>) returns (r: seq<PoolSize>)
    requires StrictlyIncreasing(acc)
    ensures r == AccumulateAll(acc, entries)
    ensures StrictlyIncreasing(r) && Types(r) == Types(acc) + Types(entries)
    ensures forall t :: CountOf(r, t) == CountOf(acc, t) + CountOf(entries, t)
  {
    r := acc;
    var k := 0;
    while k < |entries|
      invariant 0 <= k <= |entries|
      invariant r == AccumulateAll(acc, entries[..k])
      invariant StrictlyIncreasing(r)
    {
      AccumulateAllAppend(acc, entries[..k], [entries[k]]);
      assert entries[..k + 1] == entries[..k] + [entries[k]];
      r := InsertPoolSize(r, entries[k]);
      k := k + 1;
    }
    assert entries[..k] == entries;
    AccumulateAllCorrect(acc, entries);
  }

  /**
    Sums the required pool sizes of all `layouts`, layout after layout: the
    result has one entry per type, sorted by type, holding that type's total.
   */
  method AccumulateLayoutSizes(layouts: seq<DescriptorSetLayout>) returns (sizes: seq<PoolSize>)
    ensures sizes == AccumulateAll([], RequiredSizes(layouts))
    ensures StrictlyIncreasing(sizes)
    ensures forall t :: CountOf(sizes, t) == CountOf(RequiredSizes(layouts), t)
    ensures Types(sizes) == Types(RequiredSizes(layouts))
  {
    sizes := [];
    var k := 0;
    while k < |layouts|
      invariant 0 <= k <= |layouts|
      invariant sizes == AccumulateAll([], RequiredSizes(layouts[..k]))
      invariant StrictlyIncreasing(sizes)
    {
      assert layouts[..k + 1][..k] == layouts[..k];
      AccumulateAllAppend([], RequiredSizes(layouts[..k]), layouts[k].requiredPoolSizes);
      sizes := AccumulateSizes(sizes, layouts[k].requiredPoolSizes);
      k := k + 1;
    }
    assert layouts[..k] == layouts;
    AccumulateAllCorrect([], RequiredSizes(layouts));
    assert Types([]) == {};
  }

  class DescriptorAllocRequest {
    var accumulatedSizes: seq<PoolSize>
    const numSets: nat

    ghost predicate Valid()
      reads this
    {
      StrictlyIncreasing(accumulatedSizes)
    }

    /** Sums the required pool sizes of all `layouts`; one set per layout. */
    constructor (layouts: seq<DescriptorSetLayout>)
      ensures Valid()
      ensures numSets == |layouts|
      ensures accumulatedSizes == AccumulateAll([], RequiredSizes(layouts))
      ensures forall t :: CountOf(accumulatedSizes, t) == CountOf(RequiredSizes(layouts), t)
      ensures Types(accumulatedSizes) == Types(RequiredSizes(layouts))
    {
      var sizes := AccumulateLayoutSizes(layouts);
      numSets := |layouts|;
      accumulatedSizes := sizes;
    }

    /** The copy constructor. */
    constructor Copy(other: DescriptorAllocRequest)
      ensures accumulatedSizes == other.accumulatedSizes && numSets == other.numSets
    {
      accumulatedSizes := other.accumulatedSizes;
      numSets := other.numSets;
    }

    /** Merges one more (type, count) requirement in place. */
    method AddSizeRequirements(toAdd: PoolSize)
      requires Valid()
      modifies this
      ensures Valid()
      ensures accumulatedSizes == Merge(old(accumulatedSizes), toAdd)
      ensures forall t :: CountOf(accumulatedSizes, t) == CountOf(old(accumulatedSizes), t) + (if t == toAdd.dtype then toAdd.count else 0)
      ensures Types(accumulatedSizes) == Types(old(accumulatedSizes)) + {toAdd.dtype}
    {
      accumulatedSizes := InsertPoolSize(accumulatedSizes, toAdd);
    }

    /** A copy with every count multiplied by `factor`; the number of sets is not scaled. */
    method MultiplySizeRequirements(factor: nat) returns (copy: DescriptorAllocRequest)
      requires Valid()
      ensures fresh(copy) && copy.Valid()
      ensures copy.accumulatedSizes == Scaled(accumulatedSizes, factor)
      ensures copy.numSets == numSets
    {
      copy := new DescriptorAllocRequest.Copy(this);
      var k := 0;
      while k < |copy.accumulatedSizes|
        invariant 0 <= k <= |copy.accumulatedSizes| == |accumulatedSizes|
        invariant forall j :: 0 <= j < k ==> copy.accumulatedSizes[j] == PoolSize(accumulatedSizes[j].dtype, accumulatedSizes[j].count * factor)
        invariant forall j :: k <= j < |accumulatedSizes| ==> copy.accumulatedSizes[j] == accumulatedSizes[j]
      {
        var sr := copy.accumulatedSizes[k];
        copy.accumulatedSizes := copy.accumulatedSizes[k := PoolSize(sr.dtype, sr.count * factor)];
        k := k + 1;
      }
      ScaledCorrect(accumulatedSizes, factor, 0);
    }
  }
}
