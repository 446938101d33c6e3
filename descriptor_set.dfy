/**
  descriptor_set: an ordered list of vk::WriteDescriptorSet entries together
  with the arrays they point at, its native handle, its pool and its set id.

  The source copies descriptor sets freely (into the cache's unordered_set,
  into result vectors), so a set is a value here and every operation that
  mutates one returns the updated value.  A write's pointer fields
  (pImageInfo, pBufferInfo, pTexelBufferView, pNext) are the arrays they
  point at, or None for a null pointer.  update_data_pointers re-derives
  them by looking up the write's binding id in the stored lists, and that
  lookup is the model of every pointer.
 */
module DescriptorSets {
  import opened Vk
  import opened Bindings
  import opened Pools
  import opened Device

  /** One vk::WriteDescriptorSet. */
  datatype Write = Write(
    dstSet: nat, dstBinding: nat, dstArrayElement: nat, descriptorCount: nat, descriptorType: nat,
    imageInfo: Option<seq<ImageInfo>>, bufferInfo: Option<seq<BufferInfo>>,
    texelBufferView: Option<seq<nat>>, next: Option<AccelWriteInfo>)

  /** One entry of a stored-data list: the binding id it belongs to and the data. */
  datatype Stored<T> = Stored(binding: nat, data: T)

  datatype DescriptorSet = DescriptorSet(
    writes: seq<Write>,
    pool: Option<DescriptorPool>,
    handle: nat,
    setId: nat,
    storedImageInfos: seq<Stored<seq<ImageInfo>>>,
    storedBufferInfos: seq<Stored<seq<BufferInfo>>>,
    storedBufferViews: seq<Stored<seq<nat>>>,
    storedAccelWrites: seq<Stored<AccelWriteInfo>>)

  /** A default-constructed descriptor_set. */
  const EmptySet: DescriptorSet := DescriptorSet([], None, NullHandle, 0, [], [], [], [])

  // ---------------------------------------------------------------- lookup by binding id

  /** std::find_if on the binding id: the data of the first entry stored for `binding`. */
  function Find<T>(stored: seq<Stored<T>>, binding: nat): Option<T>
  {
    if stored == [] then None
    else if stored[0].binding == binding then Some(stored[0].data)
    else Find(stored[1..], binding)
  }

  /** A miss means no entry has the binding id; a hit is the data of an entry with that binding id. */
  lemma {:induction false} FindCorrect<T>(stored: seq<Stored<T>>, binding: nat)
    ensures Find(stored, binding).None? <==> forall i :: 0 <= i < |stored| ==> stored[i].binding != binding
    ensures Find(stored, binding).Some? ==>
      exists i :: 0 <= i < |stored| && stored[i] == Stored(binding, Find(stored, binding).value)
  {
    if stored != [] && stored[0].binding != binding {
      FindCorrect(stored[1..], binding);
      if Find(stored, binding).Some? {
        var i :| 0 <= i < |stored[1..]| && stored[1..][i] == Stored(binding, Find(stored, binding).value);
        assert stored[i + 1] == stored[1..][i];
      }
    }
  }

  /** Appending an entry changes the lookup only for its own binding id, and only if nothing was stored for it yet. */
  lemma {:induction false} FindAppend<T>(stored: seq<Stored<T>>, e: Stored<T>, binding: nat)
    ensures Find(stored + [e], binding) ==
      if Find(stored, binding).None? && e.binding == binding then Some(e.data) else Find(stored, binding)
  {
    if stored != [] {
      assert (stored + [e])[1..] == stored[1..] + [e];
      FindAppend(stored[1..], e, binding);
    }
  }

  // ---------------------------------------------------------------- store helpers

  /** store_image_infos: the array becomes what a write for `binding` will point at, unless one was stored before. */
  function StoreImageInfos(s: DescriptorSet, binding: nat, infos: seq<ImageInfo>): (r: DescriptorSet)
    ensures forall b :: (Find(r.storedImageInfos, b) ==
      if b == binding && Find(s.storedImageInfos, b).None? then Some(infos) else Find(s.storedImageInfos, b))
    ensures r == s.(storedImageInfos := r.storedImageInfos)
  {
    var r := s.(storedImageInfos := s.storedImageInfos + [Stored(binding, infos)]);
    assert forall b :: (Find(r.storedImageInfos, b) ==
      if b == binding && Find(s.storedImageInfos, b).None? then Some(infos) else Find(s.storedImageInfos, b))
    by {
      forall b { FindAppend(s.storedImageInfos, Stored(binding, infos), b); }
    }
    r
  }

  /** store_buffer_infos, as store_image_infos for buffer infos. */
  function StoreBufferInfos(s: DescriptorSet, binding: nat, infos: seq<BufferInfo>): (r: DescriptorSet)
    ensures forall b :: (Find(r.storedBufferInfos, b) ==
      if b == binding && Find(s.storedBufferInfos, b).None? then Some(infos) else Find(s.storedBufferInfos, b))
    ensures r == s.(storedBufferInfos := r.storedBufferInfos)
  {
    var r := s.(storedBufferInfos := s.storedBufferInfos + [Stored(binding, infos)]);
    assert forall b :: (Find(r.storedBufferInfos, b) ==
      if b == binding && Find(s.storedBufferInfos, b).None? then Some(infos) else Find(s.storedBufferInfos, b))
    by {
      forall b { FindAppend(s.storedBufferInfos, Stored(binding, infos), b); }
    }
    r
  }

  /** store_buffer_views, as store_image_infos for texel buffer views. */
  function StoreBufferViews(s: DescriptorSet, binding: nat, views: seq<nat>): (r: DescriptorSet)
    ensures forall b :: (Find(r.storedBufferViews, b) ==
      if b == binding && Find(s.storedBufferViews, b).None? then Some(views) else Find(s.storedBufferViews, b))
    ensures r == s.(storedBufferViews := r.storedBufferViews)
  {
    var r := s.(storedBufferViews := s.storedBufferViews + [Stored(binding, views)]);
    assert forall b :: (Find(r.storedBufferViews, b) ==
      if b == binding && Find(s.storedBufferViews, b).None? then Some(views) else Find(s.storedBufferViews, b))
    by {
      forall b { FindAppend(s.storedBufferViews, Stored(binding, views), b); }
    }
    r
  }

  /** store_image_info: one image info, stored as a list of one. */
  function StoreImageInfo(s: DescriptorSet, binding: nat, info: ImageInfo): (r: DescriptorSet)
    ensures r == StoreImageInfos(s, binding, [info])
  {
    s.(storedImageInfos := s.storedImageInfos + [Stored(binding, [info])])
  }

  /** store_buffer_info: one buffer info, stored as a list of one. */
  function StoreBufferInfo(s: DescriptorSet, binding: nat, info: BufferInfo): (r: DescriptorSet)
    ensures r == StoreBufferInfos(s, binding, [info])
  {
    s.(storedBufferInfos := s.storedBufferInfos + [Stored(binding, [info])])
  }

  /** store_buffer_view: one texel buffer view, stored as a list of one. */
  function StoreBufferView(s: DescriptorSet, binding: nat, view: nat): (r: DescriptorSet)
    ensures r == StoreBufferViews(s, binding, [view])
  {
    s.(storedBufferViews := s.storedBufferViews + [Stored(binding, [view])])
  }

  /** Each input's handle array holds at least the number of handles it claims. */
  predicate AccelInfosWellFormed(infos: seq<AccelWriteInfo>)
  {
    forall k :: 0 <= k < |infos| ==> infos[k].count <= |infos[k].handles|
  }

  /** The handles of all inputs, input after input, the first `count` of each. */
  function ConcatHandles(infos: seq<AccelWriteInfo>): (r: seq<nat>)
    requires AccelInfosWellFormed(infos)
  {
    if infos == [] then []
    else ConcatHandles(infos[..|infos| - 1]) + infos[|infos| - 1].handles[..infos[|infos| - 1].count]
  }

  /** The total number of handles the inputs claim. */
  function TotalCount(infos: seq<AccelWriteInfo>): nat
  {
    if infos == [] then 0 else TotalCount(infos[..|infos| - 1]) + infos[|infos| - 1].count
  }

  /** The one write that accumulates all inputs: its count is the number of handles it holds. */
  function Accumulated(infos: seq<AccelWriteInfo>): (r: AccelWriteInfo)
    requires AccelInfosWellFormed(infos)
    ensures r.count == |r.handles| == TotalCount(infos)
  {
    ConcatHandlesLength(infos);
    AccelWriteInfo(|ConcatHandles(infos)|, ConcatHandles(infos))
  }

  lemma {:induction false} ConcatHandlesLength(infos: seq<AccelWriteInfo>)
    requires AccelInfosWellFormed(infos)
    ensures |ConcatHandles(infos)| == TotalCount(infos)
  {
    if infos != [] {
      ConcatHandlesLength(infos[..|infos| - 1]);
    }
  }

  /**
    store_acceleration_structure_infos: every handle of every input, in
    order, accumulated into one write whose count is the number of handles.
   */
  method StoreAccelerationStructureInfos(s: DescriptorSet, binding: nat, infos: seq<AccelWriteInfo>) returns (r: DescriptorSet)
    requires AccelInfosWellFormed(infos)
    ensures r == s.(storedAccelWrites := s.storedAccelWrites + [Stored(binding, Accumulated(infos))])
    ensures r.storedAccelWrites[|s.storedAccelWrites|].data.handles == ConcatHandles(infos)
    ensures r.storedAccelWrites[|s.storedAccelWrites|].data.count == TotalCount(infos)
  {
    var handles: seq<nat> := [];
    for k := 0 to |infos|
      invariant handles == ConcatHandles(infos[..k])
    {
      var wasi := infos[k];
      for i := 0 to wasi.count
        invariant handles == ConcatHandles(infos[..k]) + wasi.handles[..i]
      {
        handles := handles + [wasi.handles[i]];
        assert wasi.handles[..i + 1] == wasi.handles[..i] + [wasi.handles[i]];
      }
      assert infos[..k + 1][..k] == infos[..k];
    }
    assert infos[..|infos|] == infos;
    var accumulated := AccelWriteInfo(|handles|, handles);
    r := s.(storedAccelWrites := s.storedAccelWrites + [Stored(binding, accumulated)]);
  }

  /**
    store_acceleration_structure_info: a copy of the one input write, with
    its first `count` handles.
   */
  function StoreAccelerationStructureInfo(s: DescriptorSet, binding: nat, info: AccelWriteInfo): (r: DescriptorSet)
    requires info.count <= |info.handles|
    ensures AccelInfosWellFormed([info])
    ensures r == s.(storedAccelWrites := s.storedAccelWrites + [Stored(binding, Accumulated([info]))])
  {
    assert [info][..0] == [];
    assert ConcatHandles([info]) == info.handles[..info.count];
    s.(storedAccelWrites := s.storedAccelWrites + [Stored(binding, AccelWriteInfo(info.count, info.handles[..info.count]))])
  }

  // ---------------------------------------------------------------- pointer fix-up and linking

  /** One write's pointers, re-derived from the stored lists of `s`. */
  function ResolveWrite(s: DescriptorSet, w: Write): Write
  {
    w.(imageInfo := Find(s.storedImageInfos, w.dstBinding),
       bufferInfo := Find(s.storedBufferInfos, w.dstBinding),
       texelBufferView := Find(s.storedBufferViews, w.dstBinding),
       next := Find(s.storedAccelWrites, w.dstBinding))
  }

  /** The set after update_data_pointers. */
  function Resolved(s: DescriptorSet): DescriptorSet
  {
    s.(writes := seq(|s.writes|, i requires 0 <= i < |s.writes| => ResolveWrite(s, s.writes[i])))
  }

  /** All writes target the same native set (update_data_pointers asserts this). */
  predicate SameDstSet(writes: seq<Write>)
  {
    forall i :: 0 <= i < |writes| ==> writes[i].dstSet == writes[0].dstSet
  }

  /**
    update_data_pointers: every write points at the arrays stored for its
    binding id, or at nothing when none are stored.
   */
  method UpdateDataPointers(s: DescriptorSet) returns (r: DescriptorSet)
    requires SameDstSet(s.writes)
    ensures r == Resolved(s)
    ensures forall i :: 0 <= i < |s.writes| ==> r.writes[i].imageInfo == Find(s.storedImageInfos, s.writes[i].dstBinding)
    ensures forall i :: 0 <= i < |s.writes| ==> r.writes[i].next == Find(s.storedAccelWrites, s.writes[i].dstBinding)
  {
    var writes := s.writes;
    for i := 0 to |writes|
      invariant |writes| == |s.writes|
      invariant forall j :: 0 <= j < i ==> writes[j] == ResolveWrite(s, s.writes[j])
      invariant forall j :: i <= j < |writes| ==> writes[j] == s.writes[j]
    {
      var w := writes[i];
      w := w.(imageInfo := Find(s.storedImageInfos, w.dstBinding));
      w := w.(bufferInfo := Find(s.storedBufferInfos, w.dstBinding));
      w := w.(next := Find(s.storedAccelWrites, w.dstBinding));
      w := w.(texelBufferView := Find(s.storedBufferViews, w.dstBinding));
      writes := writes[i := w];
    }
    r := s.(writes := writes);
  }

  /** Re-deriving the pointers a second time changes nothing. */
  lemma {:induction false} ResolvedIdempotent(s: DescriptorSet)
    ensures Resolved(Resolved(s)) == Resolved(s)
  {
    var r := Resolved(s);
    assert Resolved(r).writes == r.writes;
  }

  /** The set after link_to_handle_and_pool. */
  function Linked(s: DescriptorSet, handle: nat, pool: DescriptorPool): DescriptorSet
  {
    s.(writes := seq(|s.writes|, i requires 0 <= i < |s.writes| => s.writes[i].(dstSet := handle)),
       handle := handle, pool := Some(pool))
  }

  /** link_to_handle_and_pool: the set takes the handle and the pool, and every write targets the handle. */
  method LinkToHandleAndPool(s: DescriptorSet, handle: nat, pool: DescriptorPool) returns (r: DescriptorSet)
    ensures r == Linked(s, handle, pool)
    ensures SameDstSet(r.writes)
  {
    var writes := s.writes;
    for i := 0 to |writes|
      invariant |writes| == |s.writes|
      invariant forall j :: 0 <= j < i ==> writes[j] == s.writes[j].(dstSet := handle)
      invariant forall j :: i <= j < |writes| ==> writes[j] == s.writes[j]
    {
      writes := writes[i := writes[i].(dstSet := handle)];
    }
    r := s.(writes := writes, handle := handle, pool := Some(pool));
  }

  /** write_descriptors: fixes the pointers once more and hands all writes to the device. */
  method WriteDescriptors(s: DescriptorSet, device: LogicalDevice) returns (r: DescriptorSet)
    requires s.handle != NullHandle && SameDstSet(s.writes) && device.Valid()
    modifies device
    ensures r == Resolved(s) && device.Valid()
    ensures device.calls == old(device.calls) + [UpdateSets(s.handle, |s.writes|)]
    ensures device.nextHandle == old(device.nextHandle) && device.allocScript == old(device.allocScript)
  {
    r := UpdateDataPointers(s);
    device.UpdateDescriptorSets(r.handle, |r.writes|);
  }

  // ---------------------------------------------------------------- prepare

  function ImagesOf(r: Resource): Option<seq<ImageInfo>>
  {
    if r.Images? then Some(r.images) else None
  }

  function BuffersOf(r: Resource): Option<seq<BufferInfo>>
  {
    if r.Buffers? then Some(r.buffers) else None
  }

  function ViewsOf(r: Resource): Option<seq<nat>>
  {
    if r.TexelBufferViews? then Some(r.views) else None
  }

  /** Acceleration-structure inputs whose handle arrays are long enough. */
  predicate ResourceWellFormed(r: Resource)
  {
    r.AccelerationStructures? ==> AccelInfosWellFormed(r.infos)
  }

  /** The accumulated acceleration-structure write of a resource (inputs with short handle arrays are excluded by callers). */
  function AccelOf(r: Resource): Option<AccelWriteInfo>
  {
    if r.AccelerationStructures? && AccelInfosWellFormed(r.infos) then Some(Accumulated(r.infos)) else None
  }

  predicate GroupWellFormed(group: seq<BindingData>)
  {
    forall i :: 0 <= i < |group| ==> ResourceWellFormed(group[i].resource)
  }

  /** Every binding of the group belongs to the first one's set. */
  predicate InOneSet(group: seq<BindingData>)
    requires |group| > 0
  {
    forall i :: 0 <= i < |group| ==> group[i].setId == group[0].setId
  }

  /** Each binding id of the group is below the next one's: the check prepare makes on neighbours. */
  predicate BindingIdsIncreasing(group: seq<BindingData>)
  {
    var n := |group|;
    n < 2 || (BindingIdsIncreasing(group[..n - 1]) && group[n - 2].layoutBinding.binding < group[n - 1].layoutBinding.binding)
  }

  /** The stored-list entry a binding contributes: one entry when it carries data of that kind. */
  function Entry<T>(binding: nat, data: Option<T>): seq<Stored<T>>
  {
    if data.Some? then [Stored(binding, data.value)] else []
  }

  /** The list one kind of stored data ends up as, one entry per binding that carries that kind. */
  function StoredOf<T>(group: seq<BindingData>, f: Resource -> Option<T>): seq<Stored<T>>
  {
    if group == [] then []
    else
      var b := group[|group| - 1];
      StoredOf(group[..|group| - 1], f) + Entry(b.layoutBinding.binding, f(b.resource))
  }

  lemma {:induction false} FindStoredOfAbsent<T>(group: seq<BindingData>, f: Resource -> Option<T>, binding: nat)
    requires forall j :: 0 <= j < |group| ==> group[j].layoutBinding.binding != binding
    ensures Find(StoredOf(group, f), binding).None?
  {
    if group != [] {
      var init := group[..|group| - 1];
      var b := group[|group| - 1];
      FindStoredOfAbsent(init, f, binding);
      var tail := Entry(b.layoutBinding.binding, f(b.resource));
      assert StoredOf(group, f) == StoredOf(init, f) + tail;
      if tail != [] {
        FindAppend(StoredOf(init, f), tail[0], binding);
        assert [tail[0]] == tail;
      } else {
        assert StoredOf(init, f) + tail == StoredOf(init, f);
      }
    }
  }

  /** With unique binding ids, looking a binding up in a stored list finds that binding's own data. */
  lemma {:induction false} FindStoredOf<T>(group: seq<BindingData>, f: Resource -> Option<T>, i: nat)
    requires forall j, l :: 0 <= j < l < |group| ==> group[j].layoutBinding.binding < group[l].layoutBinding.binding
    requires i < |group|
    ensures Find(StoredOf(group, f), group[i].layoutBinding.binding) == f(group[i].resource)
  {
    var n := |group| - 1;
    var init := group[..n];
    var b := group[n];
    var tail := Entry(b.layoutBinding.binding, f(b.resource));
    var key := group[i].layoutBinding.binding;
    assert StoredOf(group, f) == StoredOf(init, f) + tail;
    if i == n {
      FindStoredOfAbsent(init, f, key);
      if tail != [] {
        FindAppend(StoredOf(init, f), tail[0], key);
      } else {
        assert StoredOf(init, f) + tail == StoredOf(init, f);
      }
    } else {
      FindStoredOf(init, f, i);
      if tail != [] {
        FindAppend(StoredOf(init, f), tail[0], key);
      } else {
        assert StoredOf(init, f) + tail == StoredOf(init, f);
      }
    }
  }

  /** The write prepare emits for a binding, before the pointer fix-up. */
  function WriteFor(b: BindingData): Write
    requires ResourceWellFormed(b.resource)
  {
    Write(NullHandle, b.layoutBinding.binding, 0, b.layoutBinding.count, b.layoutBinding.dtype,
          ImagesOf(b.resource), BuffersOf(b.resource), ViewsOf(b.resource), AccelOf(b.resource))
  }

  /** Consecutive binding ids increase, so all of them do: no binding slot occurs twice. */
  lemma {:induction false} IncreasingPairwise(group: seq<BindingData>)
    requires BindingIdsIncreasing(group)
    ensures forall i, j :: 0 <= i < j < |group| ==> group[i].layoutBinding.binding < group[j].layoutBinding.binding
  {
    var n := |group|;
    if n >= 2 {
      var init := group[..n - 1];
      IncreasingPairwise(init);
      forall i, j | 0 <= i < j < n ensures group[i].layoutBinding.binding < group[j].layoutBinding.binding {
        if j < n - 1 {
          assert group[i] == init[i] && group[j] == init[j];
        } else if i < n - 2 {
          assert group[i] == init[i] && group[n - 2] == init[n - 2];
        }
      }
    }
  }

  /** A longer prefix keeps increasing when its last two binding ids do. */
  lemma {:induction false} IncreasingExtend(group: seq<BindingData>, k: nat)
    requires 0 < k < |group| && BindingIdsIncreasing(group[..k])
    requires group[k - 1].layoutBinding.binding < group[k].layoutBinding.binding
    ensures BindingIdsIncreasing(group[..k + 1])
  {
    assert group[..k + 1][..k] == group[..k];
  }

  /** Two neighbours out of order: the group's binding ids do not increase. */
  lemma {:induction false} NotIncreasingAt(group: seq<BindingData>, k: nat)
    requires k + 1 < |group| && !(group[k].layoutBinding.binding < group[k + 1].layoutBinding.binding)
    ensures !BindingIdsIncreasing(group)
  {
    var n := |group|;
    if k + 2 < n {
      var init := group[..n - 1];
      assert init[k] == group[k] && init[k + 1] == group[k + 1];
      NotIncreasingAt(init, k);
    }
  }

  /** The first `k` bindings all belong to the first binding's set. */
  predicate InOneSetThrough(group: seq<BindingData>, k: nat)
    requires 0 < |group| && k <= |group|
  {
    k == 0 || (InOneSetThrough(group, k - 1) && group[k - 1].setId == group[0].setId)
  }

  /** Checked through the whole group, the set ids all agree. */
  lemma {:induction false} InOneSetThroughAll(group: seq<BindingData>, k: nat)
    requires 0 < |group| && k <= |group| && InOneSetThrough(group, k)
    ensures forall j :: 0 <= j < k ==> group[j].setId == group[0].setId
  {
    if k > 0 {
      InOneSetThroughAll(group, k - 1);
    }
  }

  /** The set after prepare has handled one more binding: its write and its stored data appended. */
  function AppendBinding(s: DescriptorSet, b: BindingData): DescriptorSet
    requires ResourceWellFormed(b.resource)
  {
    var id := b.layoutBinding.binding;
    s.(writes := s.writes + [WriteFor(b)],
       storedImageInfos := s.storedImageInfos + Entry(id, ImagesOf(b.resource)),
       storedBufferInfos := s.storedBufferInfos + Entry(id, BuffersOf(b.resource)),
       storedBufferViews := s.storedBufferViews + Entry(id, ViewsOf(b.resource)),
       storedAccelWrites := s.storedAccelWrites + Entry(id, AccelOf(b.resource)))
  }

  /** The set prepare has built after the first `k` bindings, before the pointer fix-up. */
  function PartialSet(group: seq<BindingData>, k: nat): (r: DescriptorSet)
    requires 0 < |group| && k <= |group| && GroupWellFormed(group)
    ensures |r.writes| == k
  {
    if k == 0 then EmptySet.(setId := group[0].setId)
    else AppendBinding(PartialSet(group, k - 1), group[k - 1])
  }

  /**
    After `k` bindings the set is of the first binding's set, not linked,
    holds the first `k` bindings' writes in order, and every stored list
    holds their data of its kind.
   */
  lemma {:induction false} PartialSetFields(group: seq<BindingData>, k: nat)
    requires 0 < |group| && k <= |group| && GroupWellFormed(group)
    ensures var s := PartialSet(group, k);
      && s.setId == group[0].setId && s.pool.None? && s.handle == NullHandle
      && (forall i :: 0 <= i < k ==> s.writes[i] == WriteFor(group[i]))
      && s.storedImageInfos == StoredOf(group[..k], ImagesOf)
      && s.storedBufferInfos == StoredOf(group[..k], BuffersOf)
      && s.storedBufferViews == StoredOf(group[..k], ViewsOf)
      && s.storedAccelWrites == StoredOf(group[..k], AccelOf)
  {
    PartialSetHeader(group, k);
    PartialSetWrites(group, k);
    PartialSetStored(group, k);
  }

  lemma {:induction false} PartialSetHeader(group: seq<BindingData>, k: nat)
    requires 0 < |group| && k <= |group| && GroupWellFormed(group)
    ensures var s := PartialSet(group, k);
      s.setId == group[0].setId && s.pool.None? && s.handle == NullHandle
  {
    if k > 0 {
      PartialSetHeader(group, k - 1);
    }
  }

  lemma {:induction false} PartialSetWrites(group: seq<BindingData>, k: nat)
    requires 0 < |group| && k <= |group| && GroupWellFormed(group)
    ensures forall i :: 0 <= i < k ==> PartialSet(group, k).writes[i] == WriteFor(group[i])
  {
    if k > 0 {
      PartialSetWrites(group, k - 1);
    }
  }

  lemma {:induction false} PartialSetStored(group: seq<BindingData>, k: nat)
    requires 0 < |group| && k <= |group| && GroupWellFormed(group)
    ensures var s := PartialSet(group, k);
      && s.storedImageInfos == StoredOf(group[..k], ImagesOf)
      && s.storedBufferInfos == StoredOf(group[..k], BuffersOf)
      && s.storedBufferViews == StoredOf(group[..k], ViewsOf)
      && s.storedAccelWrites == StoredOf(group[..k], AccelOf)
  {
    if k > 0 {
      PartialSetStored(group, k - 1);
      assert group[..k][..k - 1] == group[..k - 1];
    }
  }

  /**
    One step of prepare's loop: the binding's write, with its resource stored
    through the store helper of its kind.
   */
  method EmplaceBinding(s: DescriptorSet, b: BindingData) returns (r: DescriptorSet)
    requires ResourceWellFormed(b.resource)
    ensures r == AppendBinding(s, b)
  {
    var id := b.layoutBinding.binding;
    var w := Write(NullHandle, id, 0, b.layoutBinding.count, b.layoutBinding.dtype,
                   ImagesOf(b.resource), BuffersOf(b.resource), ViewsOf(b.resource), None);
    r := s;
    match b.resource {
      case Images(images) => r := StoreImageInfos(r, id, images);
      case Buffers(buffers) => r := StoreBufferInfos(r, id, buffers);
      case TexelBufferViews(views) => r := StoreBufferViews(r, id, views);
      case AccelerationStructures(infos) =>
        r := StoreAccelerationStructureInfos(r, id, infos);
        w := w.(next := Some(Accumulated(infos)));
      case NoResource =>
    }
    r := r.(writes := r.writes + [w]);
  }

  /** After the pointer fix-up every write of a prepared set points at its own binding's data. */
  lemma {:induction false} PreparedPointers(group: seq<BindingData>)
    requires 0 < |group| && GroupWellFormed(group) && BindingIdsIncreasing(group)
    ensures forall i :: 0 <= i < |group| ==>
      var w := Resolved(PartialSet(group, |group|)).writes[i];
      var b := group[i];
      && w.imageInfo == ImagesOf(b.resource) && w.bufferInfo == BuffersOf(b.resource)
      && w.texelBufferView == ViewsOf(b.resource) && w.next == AccelOf(b.resource)
  {
    PartialSetFields(group, |group|);
    IncreasingPairwise(group);
    assert group[..|group|] == group;
    forall i | 0 <= i < |group| ensures
      var w := Resolved(PartialSet(group, |group|)).writes[i];
      var b := group[i];
      && w.imageInfo == ImagesOf(b.resource) && w.bufferInfo == BuffersOf(b.resource)
      && w.texelBufferView == ViewsOf(b.resource) && w.next == AccelOf(b.resource)
    {
      FindStoredOf(group, ImagesOf, i);
      FindStoredOf(group, BuffersOf, i);
      FindStoredOf(group, ViewsOf, i);
      FindStoredOf(group, AccelOf, i);
    }
  }

  /** Before the fix-up every write of a partly prepared set targets no native set yet. */
  lemma {:induction false} PartialSetSameDst(group: seq<BindingData>, k: nat)
    requires 0 < |group| && k <= |group| && GroupWellFormed(group)
    ensures SameDstSet(PartialSet(group, k).writes)
  {
    PartialSetWrites(group, k);
  }

  /**
    What prepare returns for a group it accepts: a set of the first binding's
    set id, not linked, with one write per binding, in order, each pointing
    at that binding's own data.
   */
  lemma {:induction false} PreparedContents(group: seq<BindingData>)
    requires 0 < |group| && GroupWellFormed(group) && BindingIdsIncreasing(group)
    ensures var s := Resolved(PartialSet(group, |group|));
      && s.setId == group[0].setId && |s.writes| == |group|
      && s.pool.None? && s.handle == NullHandle
      && forall i :: 0 <= i < |group| ==>
        var w := s.writes[i];
        var b := group[i];
        && w.dstSet == NullHandle && w.dstBinding == b.layoutBinding.binding && w.dstArrayElement == 0
        && w.descriptorCount == b.layoutBinding.count && w.descriptorType == b.layoutBinding.dtype
        && w.imageInfo == ImagesOf(b.resource) && w.bufferInfo == BuffersOf(b.resource)
        && w.texelBufferView == ViewsOf(b.resource) && w.next == AccelOf(b.resource)
  {
    PartialSetFields(group, |group|);
    PreparedPointers(group);
  }

  /**
    One pass of prepare's loop over binding `k`: the two asserts (same set
    as the first binding; binding id below the next one's), then the
    binding is emplaced.
   */
  method PrepareBinding(group: seq<BindingData>, k: nat, s: DescriptorSet) returns (r: Result<DescriptorSet>)
    requires k < |group| && GroupWellFormed(group) && s == PartialSet(group, k)
    ensures r.Ok? <==> (group[k].setId == group[0].setId
      && (k + 1 < |group| ==> group[k].layoutBinding.binding < group[k + 1].layoutBinding.binding))
    ensures r.Err? ==> r.error == if group[k].setId != group[0].setId then SetIdMismatch else BindingsNotIncreasing
    ensures r.Ok? ==> r.value == PartialSet(group, k + 1)
  {
    var b := group[k];
    if group[0].setId != b.setId {
      return Err(SetIdMismatch);
    }
    // both asserts of the source (ids differ, ids increase) fail exactly when the ids do not increase
    if k + 1 < |group| && !(b.layoutBinding.binding < group[k + 1].layoutBinding.binding) {
      return Err(BindingsNotIncreasing);
    }
    var e := EmplaceBinding(s, b);
    r := Ok(e);
  }

  /** The set prepare returns for a group it accepts: all bindings' writes, pointers resolved. */
  function PreparedSet(group: seq<BindingData>): DescriptorSet
    requires 0 < |group| && GroupWellFormed(group)
  {
    Resolved(PartialSet(group, |group|))
  }

  /**
    descriptor_set::prepare on the bindings of one set: it asserts that all
    of them are of the first one's set and that their binding ids strictly
    increase, and returns the set of one write per binding with its
    pointers resolved (PreparedContents says what that set holds).
   */
  method Prepare(group: seq<BindingData>) returns (r: Result<DescriptorSet>)
    requires |group| > 0 && GroupWellFormed(group)
    ensures r.Ok? ==> r.value == PreparedSet(group)
    ensures r.Ok? <==> InOneSet(group) && BindingIdsIncreasing(group)
    ensures r.Err? && InOneSet(group) ==> r.error == BindingsNotIncreasing
    ensures r.Err? && BindingIdsIncreasing(group) ==> r.error == SetIdMismatch
  {
    var result := EmptySet.(setId := group[0].setId);
    var k := 0;
    while k < |group|
      invariant 0 <= k <= |group|
      invariant result == PartialSet(group, k)
      invariant InOneSetThrough(group, k)
      invariant BindingIdsIncreasing(group[..if k < |group| then k + 1 else k])
    {
      var step := PrepareBinding(group, k, result);
      if step.Err? {
        if step.error == BindingsNotIncreasing {
          NotIncreasingAt(group, k);
        }
        return step;
      }
      if k + 1 < |group| {
        IncreasingExtend(group, k + 1);
      }
      result := step.value;
      k := k + 1;
    }
    assert group[..k] == group;
    InOneSetThroughAll(group, k);
    PartialSetSameDst(group, k);
    var resolved := UpdateDataPointers(result);
    assert resolved == PreparedSet(group);
    r := Ok(resolved);
  }
}
