/** `Subbuffer<T>` in the `ash` stack: a raw buffer with its own memory
    allocation, mapped and filled at creation when host visibility was asked for.
    Mapped memory is modelled as the sequence of elements it holds. */
module Subbuffers {

  import opened Results
  import opened Vk
  import opened RawBuffers

  /** `VkMemoryAllocateInfo`. */
  datatype AllocateInfo = AllocateInfo(allocationSize: nat, memoryTypeIndex: nat)

  /** A live `vkMapMemory` mapping: the byte range mapped and the elements it holds. */
  datatype Mapping<T> = Mapping(pointer: Handle, offset: nat, size: nat, contents: seq<T>)

  /** `Subbuffer<T>`; `elemSize` is `size_of::<T>()`, `mapping` the `align` field. */
  datatype Subbuffer<T> = Subbuffer(
    buffer: RawBuffer,
    size: nat,
    memory: Handle,
    offset: nat,
    elemSize: nat,
    allocation: AllocateInfo,
    mapping: Option<Mapping<T>>)
  {
    /** What `from_data` establishes and every accessor relies on: the mapping, if
        any, covers the whole data range and holds `size / elemSize` elements. */
    predicate Valid() {
      && elemSize > 0
      && size % elemSize == 0
      && (mapping.Some? ==>
            mapping.value.offset == 0 && mapping.value.size == size
            && |mapping.value.contents| * elemSize == size)
    }
  }

  predicate HostVisible(info: BufferCreateInfo) {
    Contains(info.visibility, MEMORY_PROPERTY_HOST_VISIBLE)
  }

  /** `Subbuffer::from_data`. The `Result` parameters are the driver's answers to
      `vkCreateBuffer`, `vkAllocateMemory` and `vkMapMemory`; `requirements` is the
      answer of `vkGetBufferMemoryRequirements`. A mapping answer is only consulted
      when the buffer is host-visible. */
  function FromData<T>(props: MemoryProperties, info: BufferCreateInfo, data: seq<T>, elemSize: nat,
                       created: Result<Handle>, requirements: MemoryRequirements,
                       allocAnswer: Result<Handle>, mapped: Result<Handle>): (r: Result<Subbuffer<T>>)
    requires props.Valid()
    ensures r.Ok? <==>
      && created.Ok?
      && FindMemoryTypeIndex(requirements, props, info.visibility).Some?
      && allocAnswer.Ok?
      && (HostVisible(info) ==> mapped.Ok?)
    ensures r.Ok? ==> r.value.size == |data| * elemSize && r.value.offset == 0
    ensures r.Ok? ==>
      r.value.allocation == AllocateInfo(r.value.buffer.requirements.size, r.value.buffer.memoryTypeIndex)
    ensures r.Ok? ==> r.value.buffer.requirements == requirements && r.value.elemSize == elemSize
    ensures r.Ok? ==> r.value.buffer.createInfo == BufferInfoAsWritten(info, r.value.size)
    ensures r.Ok? ==> (r.value.mapping.Some? <==> HostVisible(info))
    ensures r.Ok? && r.value.mapping.Some? ==>
      r.value.mapping.value.contents == data
      && r.value.mapping.value.offset == 0 && r.value.mapping.value.size == r.value.size
    ensures r.Ok? && elemSize > 0 ==> r.value.Valid()
  {
    var size := |data| * elemSize;
    MultipleFacts(|data|, elemSize);
    var buffer :- NewRawBuffer(props, info, size, created, requirements);
    var allocation := AllocateInfo(buffer.requirements.size, buffer.memoryTypeIndex);
    var memory :- allocAnswer;
    if HostVisible(info) then
      var pointer :- mapped;
      Ok(Subbuffer(buffer, size, memory, 0, elemSize, allocation, Some(Mapping(pointer, 0, size, data))))
    else
      Ok(Subbuffer(buffer, size, memory, 0, elemSize, allocation, None))
  }

  /** `Subbuffer::size`: the byte size of the data, a whole number of elements. */
  function Size<T>(b: Subbuffer<T>): (n: nat)
    ensures b.Valid() ==> n % b.elemSize == 0
    ensures b.Valid() && b.mapping.Some? ==> n == |b.mapping.value.contents| * b.elemSize
  {
    b.size
  }

  /** `Subbuffer::len`: the number of elements, `size / size_of::<T>()`. */
  function Len<T>(b: Subbuffer<T>): (n: nat)
    requires b.Valid()
    ensures n * b.elemSize == b.size
    ensures b.mapping.Some? ==> n == |b.mapping.value.contents|
  {
    LenOfMapping(b);
    b.size / b.elemSize
  }

  lemma LenOfMapping<T>(b: Subbuffer<T>)
    requires b.Valid()
    ensures (b.size / b.elemSize) * b.elemSize == b.size
    ensures b.mapping.Some? ==> b.size / b.elemSize == |b.mapping.value.contents|
  {
    if b.mapping.Some? {
      var n := |b.mapping.value.contents|;
      assert n * b.elemSize == b.size;
      MultipleFacts(n, b.elemSize);
    }
  }

  /** `n * k` is a multiple of `k` whose quotient is `n` (trivial for `k == 0`). */
  lemma MultipleFacts(n: nat, k: nat)
    ensures k > 0 ==> (n * k) % k == 0 && (n * k) / k == n
  {
    if k > 0 {
      var q, r := (n * k) / k, (n * k) % k;
      assert n * k == q * k + r && 0 <= r < k;
      QuotientUnique(n, q, k, r);
    }
  }

  lemma QuotientUnique(n: int, q: int, k: int, r: int)
    requires k > 0 && 0 <= r < k && n * k == q * k + r
    ensures n == q && r == 0
  {
    var d := n - q;
    assert d * k == r by {
      assert d * k == n * k - q * k;
    }
    if d >= 1 {
      assert d * k == (d - 1) * k + k;
      NonNegProduct(d - 1, k);
    } else if d <= -1 {
      assert d * k == (d + 1) * k - k;
      NonNegProduct(-(d + 1), k);
    }
  }

  lemma NonNegProduct(a: int, b: int)
    requires a >= 0 && b >= 0
    ensures a * b >= 0
  {
  }

  /** `Subbuffer::read`: the first `len()` elements of the mapped memory; a
      buffer that was never mapped makes the `unwrap` panic. */
  function Read<T>(b: Subbuffer<T>): (r: Result<seq<T>>)
    requires b.Valid()
    ensures r.Ok? <==> b.mapping.Some?
    ensures r.Err? ==> r.Panicked()
    ensures r.Ok? ==> |r.value| * b.elemSize == b.size
  {
    match b.mapping
    case None => Err(Panic(UNWRAP_NONE))
    case Some(m) => Ok(m.contents[..Len(b)])
  }

  /** Round trip: a host-visible buffer made from `data` reads back exactly `data`,
      whatever its length, and reports `data.len()` elements. */
  lemma FromDataThenRead<T>(props: MemoryProperties, info: BufferCreateInfo, data: seq<T>,
                            elemSize: nat, created: Result<Handle>,
                            requirements: MemoryRequirements,
                            allocAnswer: Result<Handle>, mapped: Result<Handle>)
    requires props.Valid() && elemSize > 0 && HostVisible(info)
    requires FromData(props, info, data, elemSize, created, requirements, allocAnswer, mapped).Ok?
    ensures var b := FromData(props, info, data, elemSize, created, requirements, allocAnswer, mapped).value;
      Read(b) == Ok(data) && Len(b) == |data|
  {
    var b := FromData(props, info, data, elemSize, created, requirements, allocAnswer, mapped).value;
    var n := Len(b);
    assert n == |data|;
    assert data[..n] == data;
  }

  /** A buffer created without host visibility has no mapping, and reading it panics. */
  lemma ReadWithoutHostVisibilityPanics<T>(props: MemoryProperties, info: BufferCreateInfo, data: seq<T>,
                                           elemSize: nat, created: Result<Handle>,
                                           requirements: MemoryRequirements,
                                           allocAnswer: Result<Handle>, mapped: Result<Handle>)
    requires props.Valid() && elemSize > 0 && !HostVisible(info)
    requires FromData(props, info, data, elemSize, created, requirements, allocAnswer, mapped).Ok?
    ensures Read(FromData(props, info, data, elemSize, created, requirements, allocAnswer, mapped).value).Panicked()
  {
  }

  /** Mapping is legal: when a buffer is mapped, the memory type it was allocated
      from carries HOST_VISIBLE, because the visibility asked for took part in
      choosing that type. */
  lemma MappedMemoryIsHostVisible<T>(props: MemoryProperties, info: BufferCreateInfo, data: seq<T>,
                                     elemSize: nat, created: Result<Handle>,
                                     requirements: MemoryRequirements,
                                     allocAnswer: Result<Handle>, mapped: Result<Handle>)
    requires props.Valid()
    requires FromData(props, info, data, elemSize, created, requirements, allocAnswer, mapped).Ok?
    ensures var b := FromData(props, info, data, elemSize, created, requirements, allocAnswer, mapped).value;
      b.mapping.Some? ==>
        Contains(props.memoryTypes[b.allocation.memoryTypeIndex].propertyFlags, MEMORY_PROPERTY_HOST_VISIBLE)
  {
    var b := FromData(props, info, data, elemSize, created, requirements, allocAnswer, mapped).value;
    if b.mapping.Some? {
      var t := props.memoryTypes[b.allocation.memoryTypeIndex].propertyFlags;
      BitsContainTransitive(t, info.visibility, MEMORY_PROPERTY_HOST_VISIBLE);
    }
  }
}
