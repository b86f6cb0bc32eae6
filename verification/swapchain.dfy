/** The swapchain of the `ash` stack (the newer `swapchain/mod.rs`), together with
    the parameter rules it shares with the older `swapchain.rs`: the image-count
    clamp, the pre-transform choice and the fixed create-info fields. */
module Swapchains {

  import opened Results
  import opened Vk
  import opened SurfaceCaches

  /** `min_image_count + 1`, lowered to `max_image_count` when that bound is set
      and exceeded. The `u32` addition wraps in a release build. */
  function DesiredImageCount(caps: SurfaceCapabilities): (n: u32)
    ensures caps.maxImageCount > 0 ==> n <= caps.maxImageCount
    ensures caps.minImageCount < U32_MAX ==> n <= caps.minImageCount + 1
    ensures caps.minImageCount < U32_MAX && caps.maxImageCount == 0 ==> n == caps.minImageCount + 1
    ensures caps.minImageCount < U32_MAX && caps.maxImageCount > caps.minImageCount ==> n == caps.minImageCount + 1
    ensures caps.minImageCount < U32_MAX && (caps.maxImageCount == 0 || caps.minImageCount <= caps.maxImageCount) ==>
      caps.minImageCount <= n
  {
    var desired := WrappingAdd(caps.minImageCount, 1);
    if caps.maxImageCount > 0 && desired > caps.maxImageCount then caps.maxImageCount else desired
  }

  /** For capabilities a driver may report (at least one image, and a maximum
      that is unlimited or not below the minimum), the count lies inside the
      surface's limits. */
  lemma ImageCountWithinLimits(caps: SurfaceCapabilities)
    requires 1 <= caps.minImageCount < U32_MAX
    requires caps.maxImageCount == 0 || caps.minImageCount <= caps.maxImageCount
    ensures caps.minImageCount <= DesiredImageCount(caps)
    ensures caps.maxImageCount > 0 ==> DesiredImageCount(caps) <= caps.maxImageCount
    ensures caps.maxImageCount == caps.minImageCount ==> DesiredImageCount(caps) == caps.minImageCount
  {
  }

  /** At `min_image_count == u32::MAX` the release-build addition wraps to 0. */
  lemma ImageCountWrapsAtU32Max(caps: SurfaceCapabilities)
    requires caps.minImageCount == U32_MAX
    ensures DesiredImageCount(caps) == 0
  {
  }

  /** IDENTITY when the surface supports it, its current transform otherwise. */
  function PreTransform(caps: SurfaceCapabilities): (t: Flags)
    ensures Contains(caps.supportedTransforms, SURFACE_TRANSFORM_IDENTITY) ==> t == SURFACE_TRANSFORM_IDENTITY
    ensures !Contains(caps.supportedTransforms, SURFACE_TRANSFORM_IDENTITY) ==> t == caps.currentTransform
  {
    if Contains(caps.supportedTransforms, SURFACE_TRANSFORM_IDENTITY) then SURFACE_TRANSFORM_IDENTITY
    else caps.currentTransform
  }

  /** The chosen transform is one the surface supports whenever its current
      transform is, as a valid `preTransform` must be. */
  lemma PreTransformIsSupported(caps: SurfaceCapabilities)
    requires Contains(caps.supportedTransforms, caps.currentTransform)
    ensures Contains(caps.supportedTransforms, PreTransform(caps))
  {
  }

  /** The fields of `VkSwapchainCreateInfoKHR` both `ash` swapchains set. */
  datatype SwapchainCreateInfo = SwapchainCreateInfo(
    surface: Handle,
    minImageCount: u32,
    imageColorSpace: nat,
    imageFormat: nat,
    imageExtent: Extent2D,
    imageUsage: Flags,
    imageSharingMode: SharingMode,
    preTransform: Flags,
    compositeAlpha: Flags,
    presentMode: PresentMode,
    clipped: bool,
    imageArrayLayers: nat)

  /** The create info built from a surface's capabilities, format and present
      mode for a given extent. */
  function CreateInfo(surface: Handle, caps: SurfaceCapabilities, format: SurfaceFormat,
                      presentMode: PresentMode, extent: Extent2D): (c: SwapchainCreateInfo)
    ensures c.surface == surface && c.imageExtent == extent && c.presentMode == presentMode
    ensures c.imageFormat == format.format && c.imageColorSpace == format.colorSpace
    ensures c.minImageCount == DesiredImageCount(caps) && c.preTransform == PreTransform(caps)
    ensures c.imageUsage == IMAGE_USAGE_COLOR_ATTACHMENT && c.imageSharingMode == Exclusive
    ensures c.compositeAlpha == COMPOSITE_ALPHA_OPAQUE && c.clipped && c.imageArrayLayers == 1
  {
    SwapchainCreateInfo(surface, DesiredImageCount(caps), format.colorSpace, format.format, extent,
                        IMAGE_USAGE_COLOR_ATTACHMENT, Exclusive, PreTransform(caps),
                        COMPOSITE_ALPHA_OPAQUE, presentMode, true, 1)
  }

  /** `Swapchain`; `createInfo` is the create info its handle was made from.
      The surface is shared (an `Arc`), so the swapchain keeps only its handle:
      what the surface holds is read from the shared surface at call time. */
  datatype Swapchain = Swapchain(
    handle: Handle,
    images: seq<Handle>,
    surface: Handle,
    presentSemaphore: Handle,
    createInfo: SwapchainCreateInfo)

  /** `Swapchain::new`. It first refreshes the surface's cached infos (and
      `unwrap`s that), then answers come from `vkCreateSwapchainKHR` (`unwrap`ped),
      `vkGetSwapchainImagesKHR` and `vkCreateSemaphore` (both propagated). The
      surface is returned too, since `setup_infos` writes its cache. */
  function NewSwapchain(surface: CachedSurface, capabilities: Result<SurfaceCapabilities>,
                        modes: Result<seq<PresentMode>>, formats: Result<seq<SurfaceFormat>>,
                        created: Result<Handle>, images: Result<seq<Handle>>,
                        semaphore: Result<Handle>): (r: (CachedSurface, Result<Swapchain>))
    ensures SetupInfos(surface, capabilities, modes, formats).1.Err? ==> r.0 == surface && r.1.Panicked()
    ensures SetupInfos(surface, capabilities, modes, formats).1.Ok? && created.Err? ==> r.1.Panicked()
    ensures SetupInfos(surface, capabilities, modes, formats).1.Ok? && created.Ok? && images.Err? ==>
      r.1 == Err(images.error)
    ensures SetupInfos(surface, capabilities, modes, formats).1.Ok? && created.Ok? && images.Ok? && semaphore.Err? ==>
      r.1 == Err(semaphore.error)
    ensures r.0 == SetupInfos(surface, capabilities, modes, formats).0
    ensures r.1.Ok? <==>
      SetupInfos(surface, capabilities, modes, formats).1.Ok? && created.Ok? && images.Ok? && semaphore.Ok?
    ensures r.1.Ok? ==>
      var sc := r.1.value;
      && sc.surface == surface.handle && sc.handle == created.value && sc.images == images.value
      && sc.presentSemaphore == semaphore.value
      && r.0.infos == Some(SurfaceInfos(capabilities.value, modes.value[0], formats.value[0]))
      && sc.createInfo == CreateInfo(surface.handle, capabilities.value, formats.value[0], modes.value[0], Size(surface))
  {
    var (s, setup) := SetupInfos(surface, capabilities, modes, formats);
    if setup.Err? then (s, Err(Panic(UNWRAP_ERR)))
    else
      var infos := setup.value;
      var createInfo := CreateInfo(s.handle, infos.capabilities, infos.format, infos.presentMode, Size(s));
      if created.Err? then (s, Err(Panic(UNWRAP_ERR)))
      else if images.Err? then (s, Err(images.error))
      else if semaphore.Err? then (s, Err(semaphore.error))
      else (s, Ok(Swapchain(created.value, images.value, s.handle, semaphore.value, createInfo)))
  }

  /** `Swapchain::resolution`: the inner size of the shared surface's window
      now, which need not be the extent the swapchain was created with. */
  function Resolution(sc: Swapchain, shared: CachedSurface): (e: Extent2D)
    requires shared.handle == sc.surface
    ensures e.width == shared.window.innerWidth && e.height == shared.window.innerHeight
  {
    Size(shared)
  }

  /** `Swapchain::format`: the format in the shared surface's cached infos now,
      with the cache's panic when it was never filled. */
  function Format(sc: Swapchain, shared: CachedSurface): (r: Result<SurfaceFormat>)
    requires shared.handle == sc.surface
    ensures r.Ok? <==> shared.infos.Some?
    ensures r.Ok? ==> r.value == shared.infos.value.format
    ensures r.Err? ==> r == Err(Panic(INFOS_NOT_SET_UP))
  {
    var infos :- Infos(shared);
    Ok(infos.format)
  }

  /** Right after `new`, the swapchain reports the format and resolution it was
      created with. */
  lemma NewSwapchainReportsItsParameters(surface: CachedSurface, capabilities: Result<SurfaceCapabilities>,
                                         modes: Result<seq<PresentMode>>, formats: Result<seq<SurfaceFormat>>,
                                         created: Result<Handle>, images: Result<seq<Handle>>,
                                         semaphore: Result<Handle>)
    requires NewSwapchain(surface, capabilities, modes, formats, created, images, semaphore).1.Ok?
    ensures var (shared, r) := NewSwapchain(surface, capabilities, modes, formats, created, images, semaphore);
            var sc := r.value;
      && shared.handle == sc.surface
      && Format(sc, shared) == Ok(SurfaceFormat(sc.createInfo.imageFormat, sc.createInfo.imageColorSpace))
      && Resolution(sc, shared) == sc.createInfo.imageExtent
  {
  }

  /** The reports follow the shared surface, not the swapchain: once the window
      is resized, `resolution` gives the new size, and once another
      `setup_infos` succeeds on the surface, `format` gives the new format, while
      the swapchain's create info is unchanged. */
  lemma ReportsFollowTheSharedSurface(sc: Swapchain, shared: CachedSurface, window: WinitWindow,
                                      capabilities: Result<SurfaceCapabilities>,
                                      modes: Result<seq<PresentMode>>, formats: Result<seq<SurfaceFormat>>)
    requires shared.handle == sc.surface
    requires SetupInfos(shared.(window := window), capabilities, modes, formats).1.Ok?
    ensures var later := SetupInfos(shared.(window := window), capabilities, modes, formats).0;
      && later.handle == sc.surface
      && Resolution(sc, later) == Extent2D(window.innerWidth, window.innerHeight)
      && Format(sc, later) == Ok(formats.value[0])
  {
  }

  /** The arguments of `vkAcquireNextImageKHR`. */
  datatype AcquireCall = AcquireCall(swapchain: Handle, timeout: u64, semaphore: Option<Handle>, fence: Option<Handle>)

  /** `Swapchain::aquire_next_image`: waits without limit, signals the present
      semaphore, passes no fence; `answer` (image index, suboptimal) is `unwrap`ped. */
  function AcquireNextImage(sc: Swapchain, answer: Result<(u32, bool)>): (r: (AcquireCall, Result<(u32, bool)>))
    ensures r.0.swapchain == sc.handle && r.0.timeout == U64_MAX
    ensures r.0.semaphore == Some(sc.presentSemaphore) && r.0.fence.None?
    ensures r.1.Ok? <==> answer.Ok?
    ensures r.1.Ok? ==> r.1 == answer
    ensures r.1.Err? ==> r.1.Panicked()
  {
    (AcquireCall(sc.handle, U64_MAX, Some(sc.presentSemaphore), None),
     if answer.Ok? then answer else Err(Panic(UNWRAP_ERR)))
  }

  /** The arguments of `vkQueuePresentKHR`. */
  datatype PresentCall = PresentCall(queue: Handle, waitSemaphores: seq<Handle>, swapchains: seq<Handle>, imageIndices: seq<u32>)

  /** `Swapchain::present`: one swapchain, one image index, one wait on the present
      semaphore; `answer` is `unwrap`ped, so an out-of-date report panics. */
  function Present(sc: Swapchain, index: u32, queue: Handle, answer: Result<bool>): (r: (PresentCall, Result<()>))
    ensures r.0.queue == queue
    ensures r.0.swapchains == [sc.handle] && r.0.imageIndices == [index]
    ensures r.0.waitSemaphores == [sc.presentSemaphore]
    ensures r.1.Ok? <==> answer.Ok?
    ensures r.1.Err? ==> r.1.Panicked()
  {
    (PresentCall(queue, [sc.presentSemaphore], [sc.handle], [index]),
     if answer.Ok? then Ok(()) else Err(Panic(UNWRAP_ERR)))
  }

  /** Acquire and present pair up: the one semaphore acquire signals is the one
      semaphore present waits on, for the same swapchain. */
  lemma AcquireSignalsWhatPresentWaits(sc: Swapchain, acquired: Result<(u32, bool)>, index: u32,
                                       queue: Handle, presented: Result<bool>)
    ensures var a := AcquireNextImage(sc, acquired).0;
            var p := Present(sc, index, queue, presented).0;
      a.semaphore.Some? && p.waitSemaphores == [a.semaphore.value] && p.swapchains == [a.swapchain]
  {
  }
}
