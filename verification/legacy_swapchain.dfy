/** The older `Swapchain::new` of the `ash` stack: the same image-count and
    transform rules, but the parameters come from a built `Surface` and the
    extent from its resolution, so the `u32::MAX` sentinel falls back to the
    window size. */
module LegacySwapchains {

  import opened Results
  import opened Vk
  import opened Surfaces
  import opened Swapchains

  /** `Swapchain`: the handle and the surface's device; `createInfo` is the create
      info the handle was made from. */
  datatype LegacySwapchain = LegacySwapchain(handle: Handle, device: Handle, createInfo: SwapchainCreateInfo)

  /** `Swapchain::new`; `window` is the surface's window as it is when `new`
      runs, and `created` the answer of `vkCreateSwapchainKHR`, which is
      `unwrap`ped. */
  function NewLegacySwapchain(surface: Surface, window: GlfwWindow, created: Result<Handle>): (r: Result<LegacySwapchain>)
    requires window.id == surface.window
    ensures r.Ok? <==> created.Ok?
    ensures r.Err? ==> r.Panicked()
    ensures r.Ok? ==> r.value.handle == created.value && r.value.device == surface.device
    ensures r.Ok? ==>
      var c := r.value.createInfo;
      && c.surface == surface.handle
      && c.minImageCount == DesiredImageCount(surface.capabilities)
      && c.preTransform == PreTransform(surface.capabilities)
      && c.imageFormat == surface.format.format && c.imageColorSpace == surface.format.colorSpace
      && c.presentMode == surface.presentMode
      && c.imageExtent == Surfaces.Resolution(surface, window)
      && c.imageUsage == IMAGE_USAGE_COLOR_ATTACHMENT && c.imageSharingMode == Exclusive
      && c.compositeAlpha == COMPOSITE_ALPHA_OPAQUE && c.clipped && c.imageArrayLayers == 1
  {
    var createInfo := CreateInfo(surface.handle, surface.capabilities, surface.format, surface.presentMode,
                                 Surfaces.Resolution(surface, window));
    if created.Err? then Err(Panic(UNWRAP_ERR))
    else Ok(LegacySwapchain(created.value, surface.device, createInfo))
  }

  /** Through a built surface, the legacy swapchain asks for MAILBOX exactly when
      the driver offered it, and, when the driver leaves the extent open, for the
      window's size at the time `new` runs, whatever it was at `build`. */
  lemma LegacySwapchainFromBuiltSurface(loader: SurfaceLoader, device: Handle,
                                        formats: Result<seq<SurfaceFormat>>,
                                        capabilities: Result<SurfaceCapabilities>,
                                        modes: Result<seq<PresentMode>>, window: GlfwWindow,
                                        created: Result<Handle>)
    requires Build(loader, device, formats, capabilities, modes).Ok? && created.Ok?
    requires window.id == loader.window
    requires 0 <= window.width && 0 <= window.height
    ensures var sc := NewLegacySwapchain(Build(loader, device, formats, capabilities, modes).value, window, created).value;
      && (sc.createInfo.presentMode == PRESENT_MODE_MAILBOX <==> PRESENT_MODE_MAILBOX in modes.value)
      && (capabilities.value.currentExtent.width == U32_MAX ==>
            sc.createInfo.imageExtent.width == window.width
            && sc.createInfo.imageExtent.height == window.height)
      && sc.device == device
  {
    BuiltResolution(loader, device, formats, capabilities, modes, window);
  }
}
