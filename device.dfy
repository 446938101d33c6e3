/**
  A stand-in for the Vulkan device the cache calls into.

  The native calls (createDescriptorPoolUnique, createDescriptorSetLayoutUnique,
  allocateDescriptorSets, updateDescriptorSets) have no logic the cache can
  check; here each one hands out fresh opaque handles and records itself in
  `calls`.  allocateDescriptorSets follows a script of outcomes supplied up
  front, so that out-of-pool-memory failures can be injected; once the script
  is used up every allocation succeeds.
 */
module Device {
  import opened Vk

  /** Vendor id of NVIDIA (physical_device().getProperties().vendorID). */
  const NvidiaVendorId: nat := 0x12d2

  /** What one allocateDescriptorSets call does. */
  datatype AllocOutcome = Succeed | OutOfPoolMemory | DeviceLost

  /** What one allocateDescriptorSets call returns to its caller. */
  datatype AllocResult = Allocated(handles: seq<nat>) | OutOfPoolMemoryError | OtherError

  /** A record of one native call. */
  datatype NativeCall =
    | CreatePool(poolSizes: seq<PoolSize>, maxSets: int, pool: nat)
    | CreateLayout(layout: DescriptorSetLayout, handle: nat)
    | AllocateSets(pool: nat, count: nat)
    | UpdateSets(descriptorSet: nat, writeCount: nat)

  /** The `n` handles the stand-in device hands out next, starting at `first`. */
  function HandleRange(first: nat, n: nat): (r: seq<nat>)
    ensures |r| == n && (n > 0 ==> r[0] == first)
  {
    seq(n, i requires 0 <= i < n => first + i)
  }

  /**
    One allocateDescriptorSets step of the stub: the script's head (success
    once it is used up) decides the result; success hands out `count` fresh
    consecutive handles.
   */
  ghost predicate AllocStep(script: seq<AllocOutcome>, next: nat, count: nat, r: AllocResult,
                            script': seq<AllocOutcome>, next': nat)
  {
    && script' == (if script == [] then [] else script[1..])
    && (script == [] || script[0] == Succeed ==> r == Allocated(HandleRange(next, count)) && next' == next + count)
    && (script != [] && script[0] == OutOfPoolMemory ==> r == OutOfPoolMemoryError && next' == next)
    && (script != [] && script[0] == DeviceLost ==> r == OtherError && next' == next)
  }

  class LogicalDevice {
    const vendorId: nat
    var nextHandle: nat
    var allocScript: seq<AllocOutcome>
    var calls: seq<NativeCall>

    /** Handles are never null. */
    ghost predicate Valid()
      reads this
    {
      nextHandle > NullHandle
    }

    constructor (vendorId: nat, allocScript: seq<AllocOutcome>)
      ensures Valid()
      ensures this.vendorId == vendorId && this.allocScript == allocScript && calls == []
    {
      this.vendorId := vendorId;
      this.allocScript := allocScript;
      nextHandle := 1;
      calls := [];
    }

    method CreateDescriptorPool(poolSizes: seq<PoolSize>, maxSets: int) returns (h: nat)
      requires Valid()
      modifies this
      ensures Valid()
      ensures h == old(nextHandle) && nextHandle == h + 1 && h != NullHandle
      ensures allocScript == old(allocScript)
      ensures calls == old(calls) + [CreatePool(poolSizes, maxSets, h)]
    {
      h := nextHandle;
      nextHandle := nextHandle + 1;
      calls := calls + [CreatePool(poolSizes, maxSets, h)];
    }

    method CreateDescriptorSetLayout(layout: DescriptorSetLayout) returns (h: nat)
      requires Valid()
      modifies this
      ensures Valid()
      ensures h == old(nextHandle) && nextHandle == h + 1 && h != NullHandle
      ensures allocScript == old(allocScript)
      ensures calls == old(calls) + [CreateLayout(layout, h)]
    {
      h := nextHandle;
      nextHandle := nextHandle + 1;
      calls := calls + [CreateLayout(layout, h)];
    }

    method AllocateDescriptorSets(pool: nat, count: nat) returns (r: AllocResult)
      requires Valid()
      modifies this
      ensures Valid()
      ensures calls == old(calls) + [AllocateSets(pool, count)]
      ensures AllocStep(old(allocScript), old(nextHandle), count, r, allocScript, nextHandle)
    {
      calls := calls + [AllocateSets(pool, count)];
      var outcome := if allocScript == [] then Succeed else allocScript[0];
      allocScript := if allocScript == [] then [] else allocScript[1..];
      match outcome
      case Succeed =>
        r := Allocated(HandleRange(nextHandle, count));
        nextHandle := nextHandle + count;
      case OutOfPoolMemory =>
        r := OutOfPoolMemoryError;
      case DeviceLost =>
        r := OtherError;
    }

    method UpdateDescriptorSets(descriptorSet: nat, writeCount: nat)
      requires Valid()
      modifies this
      ensures Valid()
      ensures nextHandle == old(nextHandle) && allocScript == old(allocScript)
      ensures calls == old(calls) + [UpdateSets(descriptorSet, writeCount)]
    {
      calls := calls + [UpdateSets(descriptorSet, writeCount)];
    }
  }
}
