/** The slice of the Vulkan 1.3 API the bound code reads or writes: fixed-width
    integers, flag words with the bit values the specification assigns, and the
    records the driver hands back (capabilities, formats, physical devices). */
module Vk {

  import opened Results

  const U32_MAX: int := 0xFFFF_FFFF
  const U64_MAX: int := 0xFFFF_FFFF_FFFF_FFFF

  type u32 = x: int | 0 <= x <= 0xFFFF_FFFF
  type u64 = x: int | 0 <= x <= 0xFFFF_FFFF_FFFF_FFFF
  type i32 = x: int | -0x8000_0000 <= x < 0x8000_0000

  /** A non-dispatchable or dispatchable object handle; its value is opaque. */
  type Handle = nat

  /** A `Vk*Flags` word. */
  type Flags = bv32

  /** `flags.contains(required)`: every requested bit is present. */
  predicate Contains(flags: Flags, required: Flags) {
    flags & required == required
  }

  /** `flags.intersects(other)`: at least one bit is shared. */
  predicate Intersects(flags: Flags, other: Flags) {
    flags & other != 0
  }

  /** Release-mode `u32` addition, which wraps modulo 2^32. */
  function WrappingAdd(a: u32, b: u32): (r: u32)
    ensures a + b <= U32_MAX ==> r == a + b
    ensures a + b > U32_MAX ==> r == a + b - (U32_MAX + 1)
  {
    (a + b) % (U32_MAX + 1)
  }

  /** The `as u32` cast of a signed 32-bit value: the two's-complement bits reread. */
  function I32AsU32(x: i32): (r: u32)
    ensures 0 <= x ==> r == x
    ensures x < 0 ==> r == x + U32_MAX + 1
  {
    x % (U32_MAX + 1)
  }

  // VkMemoryPropertyFlagBits
  const MEMORY_PROPERTY_DEVICE_LOCAL: Flags := 0x1
  const MEMORY_PROPERTY_HOST_VISIBLE: Flags := 0x2
  const MEMORY_PROPERTY_HOST_COHERENT: Flags := 0x4

  // VkQueueFlagBits
  const QUEUE_GRAPHICS: Flags := 0x1
  const QUEUE_COMPUTE: Flags := 0x2
  const QUEUE_TRANSFER: Flags := 0x4

  // VkFenceCreateFlagBits
  const FENCE_CREATE_SIGNALED: Flags := 0x1

  // VkSurfaceTransformFlagBitsKHR
  const SURFACE_TRANSFORM_IDENTITY: Flags := 0x1

  // VkCompositeAlphaFlagBitsKHR
  const COMPOSITE_ALPHA_OPAQUE: Flags := 0x1
  const COMPOSITE_ALPHA_PRE_MULTIPLIED: Flags := 0x2
  const COMPOSITE_ALPHA_POST_MULTIPLIED: Flags := 0x4
  const COMPOSITE_ALPHA_INHERIT: Flags := 0x8

  // VkImageUsageFlagBits
  const IMAGE_USAGE_STORAGE: Flags := 0x8
  const IMAGE_USAGE_COLOR_ATTACHMENT: Flags := 0x10

  /** VkPresentModeKHR; the driver may report values outside the four named ones. */
  type PresentMode = nat

  const PRESENT_MODE_IMMEDIATE: PresentMode := 0
  const PRESENT_MODE_MAILBOX: PresentMode := 1
  const PRESENT_MODE_FIFO: PresentMode := 2
  const PRESENT_MODE_FIFO_RELAXED: PresentMode := 3

  /** VkSharingMode. */
  datatype SharingMode = Exclusive | Concurrent

  datatype Extent2D = Extent2D(width: u32, height: u32)

  /** VkSurfaceFormatKHR: a VkFormat and a VkColorSpaceKHR, both opaque here. */
  datatype SurfaceFormat = SurfaceFormat(format: nat, colorSpace: nat)

  /** VkSurfaceCapabilitiesKHR. A `maxImageCount` of 0 means "no limit", and a
      `currentExtent.width` of `U32_MAX` means "the swapchain decides the extent"
      (Surface Capabilities section of the WSI chapter of the Vulkan 1.3 specification). */
  datatype SurfaceCapabilities = SurfaceCapabilities(
    minImageCount: u32,
    maxImageCount: u32,
    currentExtent: Extent2D,
    supportedTransforms: Flags,
    currentTransform: Flags,
    supportedCompositeAlpha: Flags,
    supportedUsageFlags: Flags)

  /** VkQueueFamilyProperties (timestamp and granularity fields omitted). */
  datatype QueueFamilyProperties = QueueFamilyProperties(queueFlags: Flags, queueCount: u32)

  /** VkPhysicalDeviceType; `Unrecognized` stands for any value a newer driver may report. */
  datatype PhysicalDeviceType = Other | IntegratedGpu | DiscreteGpu | VirtualGpu | Cpu | Unrecognized

  /** One enumerated physical device, with the answers to the per-device queries
      the selection code makes: its type, whether it offers VK_KHR_swapchain,
      and its queue families in index order. */
  datatype PhysicalDevice = PhysicalDevice(
    handle: Handle,
    deviceType: PhysicalDeviceType,
    supportsSwapchain: bool,
    queueFamilies: seq<QueueFamilyProperties>)

  /** `vkGetPhysicalDeviceSurfaceSupportKHR` for one surface: for a physical
      device and a queue-family index, either an answer or a driver error. */
  type SurfaceSupport = (Handle, nat) -> Result<bool>
}
