/** `SurfaceLoader` and `Surface` in the `ash` stack: building a surface picks
    the first reported format and MAILBOX when offered, else FIFO; the resolution
    honours the `currentExtent` sentinel of the Surface Capabilities section of
    the WSI chapter of the Vulkan 1.3 specification. */
module Surfaces {

  import opened Results
  import opened Vk

  /** The GLFW window the surface presents to, as `get_size` finds it at the
      moment of the call: its identity and its signed size. */
  datatype GlfwWindow = GlfwWindow(id: Handle, width: i32, height: i32)

  /** Loader and surface share the window (an `Arc`); they keep only its
      identity, since its size is read afresh on every call. */
  datatype SurfaceLoader = SurfaceLoader(surface: Handle, window: Handle)

  datatype Surface = Surface(
    handle: Handle,
    device: Handle,
    format: SurfaceFormat,
    capabilities: SurfaceCapabilities,
    presentMode: PresentMode,
    window: Handle)

  /** The present mode `build` keeps: MAILBOX if the driver lists it, else FIFO,
      which every implementation must support. */
  function ChoosePresentMode(modes: seq<PresentMode>): (m: PresentMode)
    ensures m == PRESENT_MODE_MAILBOX <==> PRESENT_MODE_MAILBOX in modes
    ensures m == PRESENT_MODE_MAILBOX || m == PRESENT_MODE_FIFO
  {
    if PRESENT_MODE_MAILBOX in modes then PRESENT_MODE_MAILBOX else PRESENT_MODE_FIFO
  }

  /** `SurfaceLoader::build`. The arguments are the driver's answers to the format,
      capability and present-mode queries, made in that order; each is `unwrap`ped,
      and an empty format list panics on `[0]`. */
  function Build(loader: SurfaceLoader, device: Handle, formats: Result<seq<SurfaceFormat>>,
                 capabilities: Result<SurfaceCapabilities>, modes: Result<seq<PresentMode>>): (r: Result<Surface>)
    ensures r.Ok? <==> formats.Ok? && |formats.value| > 0 && capabilities.Ok? && modes.Ok?
    ensures r.Err? ==> r.Panicked()
    ensures r.Ok? ==> r.value.handle == loader.surface && r.value.window == loader.window && r.value.device == device
    ensures r.Ok? ==> r.value.format == formats.value[0] && r.value.capabilities == capabilities.value
    ensures r.Ok? ==> r.value.presentMode in modes.value + [PRESENT_MODE_FIFO]
    ensures r.Ok? ==> (r.value.presentMode == PRESENT_MODE_MAILBOX <==> PRESENT_MODE_MAILBOX in modes.value)
  {
    if formats.Err? then Err(Panic(UNWRAP_ERR))
    else if |formats.value| == 0 then Err(Panic(INDEX_OUT_OF_BOUNDS))
    else if capabilities.Err? then Err(Panic(UNWRAP_ERR))
    else if modes.Err? then Err(Panic(UNWRAP_ERR))
    else Ok(Surface(loader.surface, device, formats.value[0], capabilities.value,
                    ChoosePresentMode(modes.value), loader.window))
  }

  /** `Surface::resolution`: the size `window` reports now when
      `currentExtent.width` is the `u32::MAX` sentinel, the extent reported at
      build time otherwise. `window` is the surface's own window at the time of
      the call. */
  function Resolution(s: Surface, window: GlfwWindow): (e: Extent2D)
    requires window.id == s.window
    ensures s.capabilities.currentExtent.width != U32_MAX ==> e == s.capabilities.currentExtent
    ensures s.capabilities.currentExtent.width == U32_MAX ==>
      e == Extent2D(I32AsU32(window.width), I32AsU32(window.height))
  {
    if s.capabilities.currentExtent.width == U32_MAX
    then Extent2D(I32AsU32(window.width), I32AsU32(window.height))
    else s.capabilities.currentExtent
  }

  /** For a built surface, the resolution is the window's size at the time of
      the call exactly when the driver leaves the extent to the swapchain, and
      otherwise the driver's extent. */
  lemma BuiltResolution(loader: SurfaceLoader, device: Handle, formats: Result<seq<SurfaceFormat>>,
                        capabilities: Result<SurfaceCapabilities>, modes: Result<seq<PresentMode>>,
                        window: GlfwWindow)
    requires Build(loader, device, formats, capabilities, modes).Ok?
    requires window.id == loader.window
    requires 0 <= window.width && 0 <= window.height
    ensures var e := Resolution(Build(loader, device, formats, capabilities, modes).value, window);
      && (capabilities.value.currentExtent.width == U32_MAX ==>
            e.width == window.width && e.height == window.height)
      && (capabilities.value.currentExtent.width != U32_MAX ==> e == capabilities.value.currentExtent)
  {
  }

  /** At the sentinel the resolution follows the window: two different
      non-negative sizes of the same window give two different resolutions, so
      a resize after `build` shows in the next call. */
  lemma ResolutionFollowsTheWindow(s: Surface, before: GlfwWindow, after: GlfwWindow)
    requires s.capabilities.currentExtent.width == U32_MAX
    requires before.id == s.window && after.id == s.window
    requires 0 <= before.width && 0 <= before.height && 0 <= after.width && 0 <= after.height
    ensures Resolution(s, before) == Resolution(s, after) <==>
      before.width == after.width && before.height == after.height
  {
  }

  /** A window reporting a negative size (which GLFW's signed API allows) is reread
      as a huge unsigned extent by the cast, not clamped. */
  lemma NegativeWindowSizeWraps(s: Surface, window: GlfwWindow)
    requires s.capabilities.currentExtent.width == U32_MAX
    requires window.id == s.window && window.width == -1
    ensures Resolution(s, window).width == U32_MAX
  {
  }
}
