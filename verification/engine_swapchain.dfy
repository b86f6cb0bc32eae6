/** The engine's `Swapchain` wrapper over `vulkano`: the parameters `new` picks
    and the `recreate_swapchain` flag `recreate` clears. Fields left to
    `..Default::default()` take `vulkano`'s defaults. */
module EngineSwapchains {

  import opened Results
  import opened Vk

  /** `vulkano`'s default colour space, `SrgbNonLinear` (value 0 in Vulkan). */
  const COLOR_SPACE_SRGB_NONLINEAR: nat := 0

  /** The order in which `vulkano` iterates a `CompositeAlphas` set: by bit. */
  const COMPOSITE_ALPHA_ORDER: seq<Flags> :=
    [COMPOSITE_ALPHA_OPAQUE, COMPOSITE_ALPHA_PRE_MULTIPLIED, COMPOSITE_ALPHA_POST_MULTIPLIED, COMPOSITE_ALPHA_INHERIT]

  datatype EngineSwapchainCreateInfo = EngineSwapchainCreateInfo(
    minImageCount: u32,
    imageFormat: nat,
    imageColorSpace: nat,
    imageExtent: Extent2D,
    imageArrayLayers: nat,
    imageUsage: Flags,
    imageSharingMode: SharingMode,
    preTransform: Flags,
    compositeAlpha: Flags,
    presentMode: PresentMode,
    clipped: bool)

  /** `Swapchain`: the `vulkano` swapchain (its handle and create info), its images
      and the flag the draw step sets when the swapchain no longer fits. */
  datatype EngineSwapchain = EngineSwapchain(
    handle: Handle,
    createInfo: EngineSwapchainCreateInfo,
    images: seq<Handle>,
    recreateSwapchain: bool)

  /** `min_image_count.max(2)`: at least double buffering, never clamped to the
      surface's maximum. */
  function MinImageCount(caps: SurfaceCapabilities): (n: u32)
    ensures n >= 2 && n >= caps.minImageCount
    ensures n == caps.minImageCount || n == 2
  {
    if caps.minImageCount >= 2 then caps.minImageCount else 2
  }

  /** The position in `order` of the first flag `supported` contains, or `None`. */
  function FirstContained(order: seq<Flags>, supported: Flags): (r: Option<nat>)
    ensures r.Some? ==> r.value < |order| && Contains(supported, order[r.value])
    ensures r.Some? ==> forall j :: 0 <= j < r.value ==> !Contains(supported, order[j])
    ensures r.None? ==> forall j :: 0 <= j < |order| ==> !Contains(supported, order[j])
  {
    if |order| == 0 then None
    else if Contains(supported, order[0]) then Some(0)
    else match FirstContained(order[1..], supported)
      case None => None
      case Some(k) => Some(k + 1)
  }

  /** `supported_composite_alpha.into_iter().next()`: the first supported mode in
      bit order. */
  function FirstCompositeAlpha(supported: Flags): (r: Option<Flags>)
    ensures r.Some? ==> r.value in COMPOSITE_ALPHA_ORDER && Contains(supported, r.value)
    ensures r.None? <==> forall m :: m in COMPOSITE_ALPHA_ORDER ==> !Contains(supported, m)
  {
    match FirstContained(COMPOSITE_ALPHA_ORDER, supported)
    case None => None
    case Some(k) => Some(COMPOSITE_ALPHA_ORDER[k])
  }

  /** A surface offering OPAQUE gets OPAQUE, whatever else it offers. */
  lemma OpaquePreferredWhenSupported(supported: Flags)
    requires Contains(supported, COMPOSITE_ALPHA_OPAQUE)
    ensures FirstCompositeAlpha(supported) == Some(COMPOSITE_ALPHA_OPAQUE)
  {
  }

  /** `Swapchain::new`. The arguments are the driver's answers to the capability
      and format queries and to `vulkano::swapchain::Swapchain::new` (handle and
      images); each is `unwrap`ped, as are the first format and the first
      composite alpha. `size` is the window's inner size. */
  function NewEngineSwapchain(capabilities: Result<SurfaceCapabilities>, formats: Result<seq<SurfaceFormat>>,
                              size: Extent2D, created: Result<(Handle, seq<Handle>)>): (r: Result<EngineSwapchain>)
    ensures r.Ok? <==> capabilities.Ok? && formats.Ok? && |formats.value| > 0
                       && FirstCompositeAlpha(capabilities.value.supportedCompositeAlpha).Some? && created.Ok?
    ensures r.Err? ==> r.Panicked()
    ensures r.Ok? ==> !r.value.recreateSwapchain
    ensures r.Ok? ==> r.value.handle == created.value.0 && r.value.images == created.value.1
    ensures r.Ok? ==>
      var c := r.value.createInfo;
      var caps := capabilities.value;
      && c.minImageCount == MinImageCount(caps)
      && c.imageFormat == formats.value[0].format && c.imageColorSpace == COLOR_SPACE_SRGB_NONLINEAR
      && c.imageExtent == size && c.imageArrayLayers == 1
      && c.imageUsage == IMAGE_USAGE_STORAGE && c.imageSharingMode == Exclusive
      && c.preTransform == SURFACE_TRANSFORM_IDENTITY && c.presentMode == PRESENT_MODE_IMMEDIATE && c.clipped
      && Contains(caps.supportedCompositeAlpha, c.compositeAlpha)
      && Some(c.compositeAlpha) == FirstCompositeAlpha(caps.supportedCompositeAlpha)
  {
    if capabilities.Err? then Err(Panic(UNWRAP_ERR))
    else if formats.Err? then Err(Panic(UNWRAP_ERR))
    else if |formats.value| == 0 then Err(Panic(INDEX_OUT_OF_BOUNDS))
    else
      var alpha := FirstCompositeAlpha(capabilities.value.supportedCompositeAlpha);
      if alpha.None? then Err(Panic(UNWRAP_NONE))
      else if created.Err? then Err(Panic(UNWRAP_ERR))
      else
        var createInfo := EngineSwapchainCreateInfo(
          MinImageCount(capabilities.value), formats.value[0].format, COLOR_SPACE_SRGB_NONLINEAR,
          size, 1, IMAGE_USAGE_STORAGE, Exclusive, SURFACE_TRANSFORM_IDENTITY, alpha.value,
          PRESENT_MODE_IMMEDIATE, true);
        Ok(EngineSwapchain(created.value.0, createInfo, created.value.1, false))
  }

  /** `Swapchain::recreate`: `answer` is the driver's new swapchain and images for
      the old create info with the extent replaced; it is `unwrap`ped. */
  function Recreate(sc: EngineSwapchain, extent: Extent2D, answer: Result<(Handle, seq<Handle>)>): (r: Result<EngineSwapchain>)
    ensures r.Ok? <==> answer.Ok?
    ensures r.Err? ==> r.Panicked()
    ensures r.Ok? ==> r.value.createInfo.imageExtent == extent
    ensures r.Ok? ==> r.value.createInfo.(imageExtent := sc.createInfo.imageExtent) == sc.createInfo
    ensures r.Ok? ==> r.value.handle == answer.value.0 && r.value.images == answer.value.1
    ensures r.Ok? ==> !r.value.recreateSwapchain
  {
    if answer.Err? then Err(Panic(UNWRAP_ERR))
    else Ok(EngineSwapchain(answer.value.0, sc.createInfo.(imageExtent := extent), answer.value.1, false))
  }

  /** Recreating twice is recreating once with the later extent and answer: no
      earlier parameter survives except through the create info both keep. */
  lemma RecreateTwiceIsRecreateOnce(sc: EngineSwapchain, e1: Extent2D, a1: Result<(Handle, seq<Handle>)>,
                                    e2: Extent2D, a2: Result<(Handle, seq<Handle>)>)
    requires Recreate(sc, e1, a1).Ok?
    ensures Recreate(Recreate(sc, e1, a1).value, e2, a2) == Recreate(sc, e2, a2)
  {
  }

  /** Recreation never changes what `new` chose from the surface. */
  lemma RecreateKeepsNegotiatedParameters(capabilities: Result<SurfaceCapabilities>, formats: Result<seq<SurfaceFormat>>,
                                          size: Extent2D, created: Result<(Handle, seq<Handle>)>,
                                          extent: Extent2D, answer: Result<(Handle, seq<Handle>)>)
    requires NewEngineSwapchain(capabilities, formats, size, created).Ok? && answer.Ok?
    ensures var c := Recreate(NewEngineSwapchain(capabilities, formats, size, created).value, extent, answer).value.createInfo;
      && c.minImageCount == MinImageCount(capabilities.value)
      && c.imageFormat == formats.value[0].format
      && c.presentMode == PRESENT_MODE_IMMEDIATE
      && c.imageExtent == extent
  {
  }
}
