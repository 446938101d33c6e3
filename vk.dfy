/**
  Value types shared by the descriptor cache model.

  Vulkan handles are opaque natural numbers (0 is the null handle) and
  descriptor types are their enum ordinals.  The native calls that create or
  fill these objects live in module Device.
 */
module Vk {

  /** Ordinal of vk::DescriptorType::eAccelerationStructureKHR. */
  const AccelerationStructureKhr: nat := 1000150000

  /** VK_NULL_HANDLE. */
  const NullHandle: nat := 0

  /** One vk::DescriptorPoolSize: a descriptor type ordinal and a count. */
  datatype PoolSize = PoolSize(dtype: nat, count: nat)

  /** vk::DescriptorImageInfo: sampler, image view and image layout. */
  datatype ImageInfo = ImageInfo(sampler: nat, imageView: nat, imageLayout: nat)

  /** vk::DescriptorBufferInfo: buffer, offset and range. */
  datatype BufferInfo = BufferInfo(buffer: nat, offset: nat, range: nat)

  /** One vk::DescriptorSetLayoutBinding as far as the cache looks at it. */
  datatype LayoutBinding = LayoutBinding(binding: nat, dtype: nat, count: nat)

  /**
    A prepared descriptor_set_layout: its ordered bindings and the pool sizes
    one set of this layout takes from a pool (required_pool_sizes()).
   */
  datatype DescriptorSetLayout = DescriptorSetLayout(bindings: seq<LayoutBinding>, requiredPoolSizes: seq<PoolSize>)

  datatype Option<T> = None | Some(value: T)

  /** The fatal outcomes of the cache: failed assertions and errors that are not caught. */
  datatype Fatal =
    | SetIdMismatch          // descriptor_set::prepare: bindings of different sets in one range
    | BindingsNotIncreasing  // descriptor_set::prepare: duplicate or unordered binding ids
    | RetriesExhausted       // alloc_new_descriptor_sets: no pool after three attempts
    | DeviceFailure          // an allocateDescriptorSets error other than out-of-pool-memory
    | CacheCollision         // alloc_new_descriptor_sets: mSets already holds an equal set

  datatype Result<T> = Ok(value: T) | Err(error: Fatal)
}
