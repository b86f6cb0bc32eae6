/** Buffer creation in the `ash` stack: the memory-type search of the Device
    Memory section of the Vulkan 1.3 specification, the mapping of the crate's
    sharing mode onto `VkBufferCreateInfo`, and `RawBuffer::new`. */
module RawBuffers {

  import opened Results
  import opened Vk

  /** VK_MAX_MEMORY_TYPES: the length of the fixed `memoryTypes` array. */
  const MAX_MEMORY_TYPES: nat := 32

  datatype MemoryType = MemoryType(propertyFlags: Flags, heapIndex: u32)

  /** VkPhysicalDeviceMemoryProperties (the heap array is not consulted). */
  datatype MemoryProperties = MemoryProperties(memoryTypeCount: u32, memoryTypes: seq<MemoryType>) {

    /** The array has its fixed length, and the reported count fits inside it
        (slicing `memory_types[..memory_type_count]` panics otherwise). */
    predicate Valid() {
      |memoryTypes| == MAX_MEMORY_TYPES && memoryTypeCount <= MAX_MEMORY_TYPES
    }
  }

  /** VkMemoryRequirements of one buffer. */
  datatype MemoryRequirements = MemoryRequirements(size: nat, alignment: nat, memoryTypeBits: Flags)

  /** Bit `index` of `memoryTypeBits` is set: the resource may live in that memory type. */
  predicate AllowedBy(memoryTypeBits: Flags, index: nat)
    requires index < MAX_MEMORY_TYPES
  {
    ((1 as bv32) << index) & memoryTypeBits != 0
  }

  /** Memory type `index` is one `find_memorytype_index` accepts: inside the
      reported prefix, allowed by the requirements, and carrying every requested flag. */
  predicate Suitable(req: MemoryRequirements, props: MemoryProperties, flags: Flags, index: nat)
    requires props.Valid()
  {
    && index < props.memoryTypeCount
    && AllowedBy(req.memoryTypeBits, index)
    && Contains(props.memoryTypes[index].propertyFlags, flags)
  }

  /** The first suitable index at or after `from`, scanning in ascending order. */
  function FindFrom(req: MemoryRequirements, props: MemoryProperties, flags: Flags, from: nat): (r: Option<nat>)
    requires props.Valid() && from <= props.memoryTypeCount
    ensures r.Some? ==> from <= r.value && Suitable(req, props, flags, r.value)
    ensures r.Some? ==> forall j :: from <= j < r.value ==> !Suitable(req, props, flags, j)
    ensures r.None? ==> forall j :: from <= j < props.memoryTypeCount ==> !Suitable(req, props, flags, j)
    decreases props.memoryTypeCount - from
  {
    if from == props.memoryTypeCount then None
    else if Suitable(req, props, flags, from) then Some(from)
    else FindFrom(req, props, flags, from + 1)
  }

  /** `find_memorytype_index`: the lowest suitable memory-type index, or none. */
  function FindMemoryTypeIndex(req: MemoryRequirements, props: MemoryProperties, flags: Flags): (r: Option<nat>)
    requires props.Valid()
    ensures r.Some? ==> r.value < props.memoryTypeCount
    ensures r.Some? ==> AllowedBy(req.memoryTypeBits, r.value)
    ensures r.Some? ==> Contains(props.memoryTypes[r.value].propertyFlags, flags)
    ensures r.Some? ==> forall j :: 0 <= j < r.value ==> !Suitable(req, props, flags, j)
    ensures r.None? <==> forall j :: 0 <= j < props.memoryTypeCount ==> !Suitable(req, props, flags, j)
  {
    FindFrom(req, props, flags, 0)
  }

  /** With no requested flags, only the requirement bitmask decides: the result
      is the first index of the reported prefix whose bit is set. */
  lemma EmptyFlagsPickFirstAllowed(req: MemoryRequirements, props: MemoryProperties)
    requires props.Valid()
    ensures var r := FindMemoryTypeIndex(req, props, 0);
      && (r.Some? ==> AllowedBy(req.memoryTypeBits, r.value)
                      && forall j :: 0 <= j < r.value ==> !AllowedBy(req.memoryTypeBits, j))
      && (r.None? <==> forall j :: 0 <= j < props.memoryTypeCount ==> !AllowedBy(req.memoryTypeBits, j))
  {
    var r := FindMemoryTypeIndex(req, props, 0);
    forall j | 0 <= j < props.memoryTypeCount
      ensures Suitable(req, props, 0, j) <==> AllowedBy(req.memoryTypeBits, j)
    {
      assert Contains(props.memoryTypes[j].propertyFlags, 0);
    }
  }

  /** Asking for more flags can only move the answer later or remove it:
      every type suitable for the larger request is suitable for the smaller one. */
  lemma MoreFlagsNeverPickEarlier(req: MemoryRequirements, props: MemoryProperties, flags: Flags, more: Flags)
    requires props.Valid()
    requires Contains(more, flags)
    ensures var narrow := FindMemoryTypeIndex(req, props, more);
            var wide := FindMemoryTypeIndex(req, props, flags);
      narrow.Some? ==> wide.Some? && wide.value <= narrow.value
  {
    var narrow := FindMemoryTypeIndex(req, props, more);
    if narrow.Some? {
      var i := narrow.value;
      assert Contains(props.memoryTypes[i].propertyFlags, flags) by {
        BitsContainTransitive(props.memoryTypes[i].propertyFlags, more, flags);
      }
      assert Suitable(req, props, flags, i);
    }
  }

  lemma BitsContainTransitive(a: Flags, b: Flags, c: Flags)
    requires Contains(a, b) && Contains(b, c)
    ensures Contains(a, c)
  {
  }

  /** The crate's `BufferSharingMode` (its concurrent variant is spelled `Concuttrnt`). */
  datatype BufferSharingMode = ExclusiveMode | ConcurrentMode(queueFamilies: seq<u32>)

  /** The crate's `BufferCreateInfo`. */
  datatype BufferCreateInfo = BufferCreateInfo(usage: Flags, shareMode: BufferSharingMode, visibility: Flags)

  /** The fields of `VkBufferCreateInfo` the crate sets. `size` is a
      `VkDeviceSize`; the byte size of a Rust slice always fits in one. */
  datatype VkBufferCreateInfo = VkBufferCreateInfo(
    usage: Flags,
    size: nat,
    sharingMode: SharingMode,
    queueFamilyIndices: seq<u32>)

  /** The queue families that may own the buffer at once, as section 12.7 of the
      Vulkan 1.3 specification reads a create info: with EXCLUSIVE the index list
      is ignored and the buffer belongs to one family at a time. */
  function EffectiveQueueFamilies(c: VkBufferCreateInfo): seq<u32> {
    if c.sharingMode == Concurrent then c.queueFamilyIndices else []
  }

  /** The create info `RawBuffer::new` hands to `vkCreateBuffer`, as written:
      both variants select EXCLUSIVE, the concurrent one also attaches its indices. */
  function BufferInfoAsWritten(info: BufferCreateInfo, size: nat): (c: VkBufferCreateInfo)
    ensures c.usage == info.usage && c.size == size
    ensures c.sharingMode == Exclusive
    ensures info.shareMode.ExclusiveMode? ==> c.queueFamilyIndices == []
    ensures info.shareMode.ConcurrentMode? ==> c.queueFamilyIndices == info.shareMode.queueFamilies
  {
    match info.shareMode
    case ExclusiveMode => VkBufferCreateInfo(info.usage, size, Exclusive, [])
    case ConcurrentMode(v) => VkBufferCreateInfo(info.usage, size, Exclusive, v)
  }

  /** As written, a concurrent request never reaches the driver: whatever families
      it names, the buffer is created for exclusive ownership. */
  lemma ConcurrentRequestIsLost(info: BufferCreateInfo, size: nat)
    requires info.shareMode.ConcurrentMode? && |info.shareMode.queueFamilies| >= 2
    ensures EffectiveQueueFamilies(BufferInfoAsWritten(info, size)) == []
    ensures EffectiveQueueFamilies(BufferInfoAsWritten(info, size)) != info.shareMode.queueFamilies
  {
  }

  /** The sharing mapping the variant names evidently intend. */
  function BufferInfo(info: BufferCreateInfo, size: nat): (c: VkBufferCreateInfo)
    ensures c.usage == info.usage && c.size == size
    ensures c.sharingMode == Concurrent <==> info.shareMode.ConcurrentMode?
  {
    match info.shareMode
    case ExclusiveMode => VkBufferCreateInfo(info.usage, size, Exclusive, [])
    case ConcurrentMode(v) => VkBufferCreateInfo(info.usage, size, Concurrent, v)
  }

  /** With the intended mapping, the families that may share the buffer are
      exactly the requested ones, and an exclusive request is treated as written. */
  lemma BufferInfoKeepsRequestedSharing(info: BufferCreateInfo, size: nat)
    ensures info.shareMode.ConcurrentMode? ==>
      EffectiveQueueFamilies(BufferInfo(info, size)) == info.shareMode.queueFamilies
    ensures info.shareMode.ExclusiveMode? ==>
      BufferInfo(info, size) == BufferInfoAsWritten(info, size)
  {
  }

  /** `RawBuffer`: the buffer handle, the create info it was made from, the
      requirements the driver reported and the memory type chosen for them. */
  datatype RawBuffer = RawBuffer(handle: Handle, createInfo: VkBufferCreateInfo,
                                 requirements: MemoryRequirements, memoryTypeIndex: nat)

  /** `RawBuffer::new` for a buffer of `size` bytes. `created` is the answer of
      `vkCreateBuffer` to the create info built as written, `requirements` that of
      `vkGetBufferMemoryRequirements` (which cannot fail) and `props` the device's
      memory properties. */
  function NewRawBuffer(props: MemoryProperties, info: BufferCreateInfo, size: nat,
                        created: Result<Handle>, requirements: MemoryRequirements): (r: Result<RawBuffer>)
    requires props.Valid()
    ensures created.Err? ==> r == Err(created.error)
    ensures r.Ok? ==> r.value.createInfo == BufferInfoAsWritten(info, size)
    ensures r.Ok? ==> r.value.createInfo.size == size && r.value.createInfo.sharingMode == Exclusive
    ensures created.Ok? ==>
      (r.Err? <==> forall j :: 0 <= j < props.memoryTypeCount ==> !Suitable(requirements, props, info.visibility, j))
    ensures created.Ok? && r.Err? ==> r.error == MemoryTypeNotFound
    ensures r.Ok? ==> r.value.handle == created.value && r.value.requirements == requirements
    ensures r.Ok? ==> Suitable(requirements, props, info.visibility, r.value.memoryTypeIndex)
    ensures r.Ok? ==> forall j :: 0 <= j < r.value.memoryTypeIndex ==> !Suitable(requirements, props, info.visibility, j)
  {
    var handle :- created;
    match FindMemoryTypeIndex(requirements, props, info.visibility)
    case None => Err(MemoryTypeNotFound)
    case Some(index) => Ok(RawBuffer(handle, BufferInfoAsWritten(info, size), requirements, index))
  }
}
