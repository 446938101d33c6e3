/**
  The content identity of a descriptor set: operator==, operator!= and
  std::hash<ak::descriptor_set>, by which the cache deduplicates sets.

  operator== walks the writes pairwise and returns false at the first
  difference; each write's arrays are compared element by element over the
  left write's descriptor count, and only for arrays present on the left.
  The hash combines the header fields of every write and only element 0 of
  each present array.  Both are modelled as the loops they are (recursive
  functions that stop at the first difference), and the lemmas give their
  closed forms and how they relate.
 */
module SetIdentity {
  import opened Vk
  import opened Bindings
  import opened Pools
  import opened DescriptorSets

  /** Element `j` of an array, or None past its end (where the source would read out of bounds). */
  function At<T>(s: seq<T>, j: nat): (r: Option<T>)
    ensures r.Some? <==> j < |s|
    ensures j < |s| ==> r.value == s[j]
  {
    if j < |s| then Some(s[j]) else None
  }

  /** The first `n` elements of two arrays agree. */
  predicate PrefixEqual<T(==)>(a: seq<T>, b: seq<T>, n: nat)
  {
    forall j :: 0 <= j < n ==> At(a, j) == At(b, j)
  }

  // ---------------------------------------------------------------- operator== as written

  /** An element loop of operator==: elements j .. n-1, stopping at the first difference. */
  function ElementsEqualFrom<T(==)>(a: seq<T>, b: seq<T>, j: nat, n: nat): bool
    decreases n - j
  {
    if j >= n then true
    else if At(a, j) != At(b, j) then false
    else ElementsEqualFrom(a, b, j + 1, n)
  }

  /** A left array that is present needs a right one that agrees over its first `n` elements. */
  function ArrayEqual<T(==)>(l: Option<seq<T>>, r: Option<seq<T>>, n: nat): bool
  {
    if l.None? then true
    else if r.None? then false
    else ElementsEqualFrom(l.value, r.value, 0, n)
  }

  /** The pNext part of the comparison: only acceleration-structure writes compare their handles. */
  function AccelEqual(l: Write, r: Write): bool
  {
    if l.next.None? then true
    else if r.next.None? then false
    else if l.descriptorType != AccelerationStructureKhr then true
    else if l.next.value.count != r.next.value.count then false
    else ElementsEqualFrom(l.next.value.handles, r.next.value.handles, 0, l.next.value.count)
  }

  /** One iteration of operator=='s loop over the writes. */
  function WriteEqual(l: Write, r: Write): bool
  {
    if l.dstBinding != r.dstBinding then false
    else if l.dstArrayElement != r.dstArrayElement then false
    else if l.descriptorCount != r.descriptorCount then false
    else if l.descriptorType != r.descriptorType then false
    else if !ArrayEqual(l.imageInfo, r.imageInfo, l.descriptorCount) then false
    else if !ArrayEqual(l.bufferInfo, r.bufferInfo, l.descriptorCount) then false
    else if !ArrayEqual(l.texelBufferView, r.texelBufferView, l.descriptorCount) then false
    else AccelEqual(l, r)
  }

  function WritesEqualFrom(l: seq<Write>, r: seq<Write>, i: nat): bool
    requires |l| == |r|
    decreases |l| - i
  {
    if i >= |l| then true
    else if !WriteEqual(l[i], r[i]) then false
    else WritesEqualFrom(l, r, i + 1)
  }

  /** operator==: equal write counts, then every pair of writes equal. */
  function Equal(left: DescriptorSet, right: DescriptorSet): bool
  {
    if |left.writes| != |right.writes| then false
    else WritesEqualFrom(left.writes, right.writes, 0)
  }

  /** operator!=. */
  function NotEqual(left: DescriptorSet, right: DescriptorSet): (b: bool)
    ensures b <==> !Equal(left, right)
  {
    !Equal(left, right)
  }

  // ---------------------------------------------------------------- closed form

  /** What operator== demands of one pair of writes. */
  predicate WriteMatches(l: Write, r: Write)
  {
    && l.dstBinding == r.dstBinding && l.dstArrayElement == r.dstArrayElement
    && l.descriptorCount == r.descriptorCount && l.descriptorType == r.descriptorType
    && (l.imageInfo.Some? ==> r.imageInfo.Some? && PrefixEqual(l.imageInfo.value, r.imageInfo.value, l.descriptorCount))
    && (l.bufferInfo.Some? ==> r.bufferInfo.Some? && PrefixEqual(l.bufferInfo.value, r.bufferInfo.value, l.descriptorCount))
    && (l.texelBufferView.Some? ==> r.texelBufferView.Some? && PrefixEqual(l.texelBufferView.value, r.texelBufferView.value, l.descriptorCount))
    && (l.next.Some? ==>
          && r.next.Some?
          && (l.descriptorType == AccelerationStructureKhr ==>
                && l.next.value.count == r.next.value.count
                && PrefixEqual(l.next.value.handles, r.next.value.handles, l.next.value.count)))
  }

  lemma {:induction false} ElementsEqualFromCorrect<T>(a: seq<T>, b: seq<T>, j: nat, n: nat)
    ensures ElementsEqualFrom(a, b, j, n) <==> forall k :: j <= k < n ==> At(a, k) == At(b, k)
    decreases n - j
  {
    if j < n {
      ElementsEqualFromCorrect(a, b, j + 1, n);
    }
  }

  lemma {:induction false} WriteEqualCorrect(l: Write, r: Write)
    ensures WriteEqual(l, r) <==> WriteMatches(l, r)
  {
    if l.imageInfo.Some? && r.imageInfo.Some? {
      ElementsEqualFromCorrect(l.imageInfo.value, r.imageInfo.value, 0, l.descriptorCount);
    }
    if l.bufferInfo.Some? && r.bufferInfo.Some? {
      ElementsEqualFromCorrect(l.bufferInfo.value, r.bufferInfo.value, 0, l.descriptorCount);
    }
    if l.texelBufferView.Some? && r.texelBufferView.Some? {
      ElementsEqualFromCorrect(l.texelBufferView.value, r.texelBufferView.value, 0, l.descriptorCount);
    }
    if l.next.Some? && r.next.Some? {
      ElementsEqualFromCorrect(l.next.value.handles, r.next.value.handles, 0, l.next.value.count);
    }
  }

  lemma {:induction false} WritesEqualFromCorrect(l: seq<Write>, r: seq<Write>, i: nat)
    requires |l| == |r|
    ensures WritesEqualFrom(l, r, i) <==> forall k :: i <= k < |l| ==> WriteMatches(l[k], r[k])
    decreases |l| - i
  {
    if i < |l| {
      WriteEqualCorrect(l[i], r[i]);
      WritesEqualFromCorrect(l, r, i + 1);
    }
  }

  /**
    operator== in closed form: the same number of writes, and each pair
    agrees in its header fields and in every array the left one has.
   */
  lemma {:induction false} EqualCorrect(left: DescriptorSet, right: DescriptorSet)
    ensures Equal(left, right) <==>
      |left.writes| == |right.writes| &&
      forall i :: 0 <= i < |left.writes| ==> WriteMatches(left.writes[i], right.writes[i])
  {
    if |left.writes| == |right.writes| {
      WritesEqualFromCorrect(left.writes, right.writes, 0);
    }
  }

  /** A header difference anywhere makes two sets unequal, whatever their arrays hold. */
  lemma {:induction false} HeadersDecide(left: DescriptorSet, right: DescriptorSet, i: nat)
    requires i < |left.writes| && i < |right.writes|
    requires || left.writes[i].dstBinding != right.writes[i].dstBinding
             || left.writes[i].dstArrayElement != right.writes[i].dstArrayElement
             || left.writes[i].descriptorCount != right.writes[i].descriptorCount
             || left.writes[i].descriptorType != right.writes[i].descriptorType
    ensures !Equal(left, right) && !Equal(right, left)
  {
    EqualCorrect(left, right);
    EqualCorrect(right, left);
  }

  /** Every set equals itself. */
  lemma {:induction false} EqualReflexive(s: DescriptorSet)
    ensures Equal(s, s)
  {
    EqualCorrect(s, s);
  }

  /**
    operator== is not symmetric: giving one write an image array that the
    other set lacks leaves the set without it equal to the one with it, but
    not the other way round.
   */
  lemma {:induction false} EqualNotSymmetric(s: DescriptorSet, i: nat, images: seq<ImageInfo>)
    requires i < |s.writes| && s.writes[i].imageInfo.None?
    ensures var t := s.(writes := s.writes[i := s.writes[i].(imageInfo := Some(images))]);
      Equal(s, t) && !Equal(t, s)
  {
    var t := s.(writes := s.writes[i := s.writes[i].(imageInfo := Some(images))]);
    EqualCorrect(s, t);
    EqualCorrect(t, s);
    assert !WriteMatches(t.writes[i], s.writes[i]);
  }

  // ---------------------------------------------------------------- the hash

  /** The hash of one integer: its value modulo 2^64. */
  function Word(v: nat): bv64
  {
    (v % 0x1_0000_0000_0000_0000) as bv64
  }

  /** A stand-in for ak::hash_combine, which is not part of this model. */
  function Combine(h: bv64, v: nat): bv64
  {
    h ^ (Word(v) + 0x9e3779b9 + (h << 6) + (h >> 2))
  }

  function Fold(h: bv64, words: seq<nat>): bv64
    decreases |words|
  {
    if words == [] then h else Fold(Combine(h, words[0]), words[1..])
  }

  function ImageWords(o: Option<ImageInfo>): seq<nat>
  {
    if o.Some? then [o.value.sampler, o.value.imageView, o.value.imageLayout] else [0, 0, 0]
  }

  function BufferWords(o: Option<BufferInfo>): seq<nat>
  {
    if o.Some? then [o.value.buffer, o.value.offset, o.value.range] else [0, 0, 0]
  }

  function HandleWord(o: Option<nat>): nat
  {
    if o.Some? then o.value else 0
  }

  /**
    What the hash reads of one write: the four header fields, element 0 of
    each present array when the count is positive, and for pNext either the
    acceleration-structure count and first handle or just its presence.
   */
  function WriteWords(w: Write): seq<nat>
  {
    [w.dstBinding, w.dstArrayElement, w.descriptorCount, w.descriptorType]
    + (if w.imageInfo.Some? && w.descriptorCount > 0 then ImageWords(At(w.imageInfo.value, 0)) else [])
    + (if w.bufferInfo.Some? && w.descriptorCount > 0 then BufferWords(At(w.bufferInfo.value, 0)) else [])
    + (if w.texelBufferView.Some? && w.descriptorCount > 0 then [HandleWord(At(w.texelBufferView.value, 0))] else [])
    + (if w.next.None? then []
       else if w.descriptorType == AccelerationStructureKhr then
         [w.next.value.count] + (if w.next.value.count > 0 then [HandleWord(At(w.next.value.handles, 0))] else [])
       else [1])
  }

  function HashWords(writes: seq<Write>): seq<nat>
  {
    if writes == [] then [] else WriteWords(writes[0]) + HashWords(writes[1..])
  }

  /** std::hash<ak::descriptor_set>. */
  function Hash(s: DescriptorSet): bv64
  {
    Fold(0, HashWords(s.writes))
  }

  /** The hash reads nothing but the per-write words: sets that agree on them hash equally. */
  lemma {:induction false} HashesAgree(a: seq<Write>, b: seq<Write>)
    requires |a| == |b| && forall i :: 0 <= i < |a| ==> WriteWords(a[i]) == WriteWords(b[i])
    ensures HashWords(a) == HashWords(b)
  {
    if a != [] {
      HashesAgree(a[1..], b[1..]);
    }
  }

  /** The two sets have the same arrays present, write by write. */
  predicate SamePresence(a: DescriptorSet, b: DescriptorSet)
  {
    && |a.writes| == |b.writes|
    && forall i :: 0 <= i < |a.writes| ==>
         && a.writes[i].imageInfo.Some? == b.writes[i].imageInfo.Some?
         && a.writes[i].bufferInfo.Some? == b.writes[i].bufferInfo.Some?
         && a.writes[i].texelBufferView.Some? == b.writes[i].texelBufferView.Some?
         && a.writes[i].next.Some? == b.writes[i].next.Some?
  }

  /** Equal sets with the same arrays present have the same hash. */
  lemma {:induction false} EqualSameHash(a: DescriptorSet, b: DescriptorSet)
    requires Equal(a, b) && SamePresence(a, b)
    ensures Hash(a) == Hash(b)
  {
    EqualCorrect(a, b);
    forall i | 0 <= i < |a.writes| ensures WriteWords(a.writes[i]) == WriteWords(b.writes[i]) {
      var l, r := a.writes[i], b.writes[i];
      if l.descriptorCount > 0 {
        assert l.imageInfo.Some? ==> At(l.imageInfo.value, 0) == At(r.imageInfo.value, 0);
        assert l.bufferInfo.Some? ==> At(l.bufferInfo.value, 0) == At(r.bufferInfo.value, 0);
        assert l.texelBufferView.Some? ==> At(l.texelBufferView.value, 0) == At(r.texelBufferView.value, 0);
      }
      if l.next.Some? && l.descriptorType == AccelerationStructureKhr && l.next.value.count > 0 {
        assert At(l.next.value.handles, 0) == At(r.next.value.handles, 0);
      }
    }
    HashesAgree(a.writes, b.writes);
  }

  /**
    Two sets that differ only beyond element 0 of an image array collide in
    the hash, and operator== tells them apart in both directions.
   */
  lemma {:induction false} CollisionBeyondFirstElement(s: DescriptorSet, i: nat, j: nat, x: ImageInfo)
    requires i < |s.writes| && s.writes[i].imageInfo.Some?
    requires 0 < j < |s.writes[i].imageInfo.value| && j < s.writes[i].descriptorCount
    requires s.writes[i].imageInfo.value[j] != x
    ensures var t := s.(writes := s.writes[i := s.writes[i].(imageInfo := Some(s.writes[i].imageInfo.value[j := x]))]);
      Hash(t) == Hash(s) && !Equal(s, t) && !Equal(t, s)
  {
    var images := s.writes[i].imageInfo.value;
    var t := s.(writes := s.writes[i := s.writes[i].(imageInfo := Some(images[j := x]))]);
    assert At(images[j := x], 0) == At(images, 0);
    HashesAgree(t.writes, s.writes);
    EqualCorrect(s, t);
    EqualCorrect(t, s);
    assert At(images, j) != At(images[j := x], j);
    assert !WriteMatches(s.writes[i], t.writes[i]);
    assert !WriteMatches(t.writes[i], s.writes[i]);
  }

  // ---------------------------------------------------------------- identity is kept by linking

  /**
    Linking a set to its native handle and pool changes neither what it
    equals, in either direction, nor its hash: a linked set is found in the
    cache under the same key as the prepared one.
   */
  lemma {:induction false} LinkKeepsIdentity(s: DescriptorSet, t: DescriptorSet, handle: nat, pool: DescriptorPool)
    ensures Equal(Linked(s, handle, pool), t) == Equal(s, t)
    ensures Equal(t, Linked(s, handle, pool)) == Equal(t, s)
    ensures Hash(Linked(s, handle, pool)) == Hash(s)
  {
    var l := Linked(s, handle, pool);
    EqualCorrect(l, t);
    EqualCorrect(s, t);
    EqualCorrect(t, l);
    EqualCorrect(t, s);
    HashesAgree(l.writes, s.writes);
  }

  /** The pointer fix-up and linking commute: fixing a linked prepared set leaves it as linked. */
  lemma {:induction false} LinkResolveCommute(s: DescriptorSet, handle: nat, pool: DescriptorPool)
    ensures Resolved(Linked(s, handle, pool)) == Linked(Resolved(s), handle, pool)
  {
    assert Resolved(Linked(s, handle, pool)).writes == Linked(Resolved(s), handle, pool).writes;
  }
}
