/** `DescriptorType` of the `ash` stack and its two conversions, into a
    `VkDescriptorPoolSize` and into a `VkDescriptorSetLayoutBinding`, which the
    pool and the set layout apply to every element of their descriptor list. */
module Descriptors {

  import opened Results
  import opened Vk

  datatype DescriptorType = DescriptorType(ty: nat, stageFlags: Flags, count: u32, binding: u32)

  datatype PoolSize = PoolSize(ty: nat, descriptorCount: u32)

  /** `VkDescriptorSetLayoutBinding`; `immutableSamplers` is the pointer the
      conversion leaves at its default, null. */
  datatype LayoutBinding = LayoutBinding(
    binding: u32,
    descriptorType: nat,
    descriptorCount: u32,
    stageFlags: Flags,
    immutableSamplers: Option<seq<Handle>>)

  /** `Into<vk::DescriptorPoolSize>`. */
  function ToPoolSize(d: DescriptorType): (p: PoolSize)
    ensures p.ty == d.ty && p.descriptorCount == d.count
  {
    PoolSize(d.ty, d.count)
  }

  /** `Into<vk::DescriptorSetLayoutBinding>`. */
  function ToLayoutBinding(d: DescriptorType): (b: LayoutBinding)
    ensures b.binding == d.binding && b.descriptorType == d.ty
    ensures b.descriptorCount == d.count && b.stageFlags == d.stageFlags
    ensures b.immutableSamplers.None?
  {
    LayoutBinding(d.binding, d.ty, d.count, d.stageFlags, None)
  }

  /** Reads a descriptor back out of a layout binding. */
  function FromLayoutBinding(b: LayoutBinding): DescriptorType {
    DescriptorType(b.descriptorType, b.stageFlags, b.descriptorCount, b.binding)
  }

  /** The layout binding loses nothing: the descriptor can be read back from it. */
  lemma LayoutBindingRoundTrip(d: DescriptorType)
    ensures FromLayoutBinding(ToLayoutBinding(d)) == d
  {
  }

  /** The pool size depends only on type and count: descriptors that differ only
      in binding or stages give the same pool size. */
  lemma PoolSizeIgnoresBindingAndStages(d: DescriptorType, e: DescriptorType)
    requires d.ty == e.ty && d.count == e.count
    ensures ToPoolSize(d) == ToPoolSize(e)
  {
  }

  /** The pool sizes of `DescriptorPool::new`, one per descriptor, in order. */
  function PoolSizes(ds: seq<DescriptorType>): (ps: seq<PoolSize>)
    ensures |ps| == |ds|
    ensures forall i :: 0 <= i < |ds| ==> ps[i].ty == ds[i].ty && ps[i].descriptorCount == ds[i].count
  {
    if |ds| == 0 then [] else [ToPoolSize(ds[0])] + PoolSizes(ds[1..])
  }

  /** The bindings of `DescriptorSetLayout::new`, one per descriptor, in order. */
  function LayoutBindings(ds: seq<DescriptorType>): (bs: seq<LayoutBinding>)
    ensures |bs| == |ds|
    ensures forall i :: 0 <= i < |ds| ==> FromLayoutBinding(bs[i]) == ds[i] && bs[i].immutableSamplers.None?
  {
    if |ds| == 0 then [] else [ToLayoutBinding(ds[0])] + LayoutBindings(ds[1..])
  }

  /** A pool and a layout built from the same list agree: each pool size has the
      type and count of the binding at the same position. */
  lemma PoolMatchesLayout(ds: seq<DescriptorType>)
    ensures |PoolSizes(ds)| == |LayoutBindings(ds)|
    ensures forall i :: 0 <= i < |ds| ==>
      PoolSizes(ds)[i] == PoolSize(LayoutBindings(ds)[i].descriptorType, LayoutBindings(ds)[i].descriptorCount)
  {
  }
}
