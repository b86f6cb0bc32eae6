/** The `Surface` of the newer `ash` swapchain: it caches the driver's answers
    (`SurfaceInfos`) written by `setup_infos` and read by `infos`. */
module SurfaceCaches {

  import opened Results
  import opened Vk

  /** The winit window as `inner_size` reports it at the time of a call (the
      size is read afresh on every call, and is already unsigned). A resize
      shows as a surface carrying the new size. */
  datatype WinitWindow = WinitWindow(innerWidth: u32, innerHeight: u32)

  datatype SurfaceInfos = SurfaceInfos(capabilities: SurfaceCapabilities, presentMode: PresentMode, format: SurfaceFormat)

  datatype CachedSurface = CachedSurface(handle: Handle, window: WinitWindow, infos: Option<SurfaceInfos>)

  /** `Surface::new`: the cache starts empty. */
  function NewSurface(created: Result<Handle>, window: WinitWindow): (r: Result<CachedSurface>)
    ensures r.Ok? <==> created.Ok?
    ensures created.Err? ==> r == Err(created.error)
    ensures r.Ok? ==> r.value.infos.None? && r.value.handle == created.value && r.value.window == window
  {
    var handle :- created;
    Ok(CachedSurface(handle, window, None))
  }

  /** `Surface::size`: the window's inner size. */
  function Size(s: CachedSurface): (e: Extent2D)
    ensures e.width == s.window.innerWidth && e.height == s.window.innerHeight
  {
    Extent2D(s.window.innerWidth, s.window.innerHeight)
  }

  const INFOS_NOT_SET_UP: string := "you need to call setup_infos() first"

  /** `Surface::setup_infos`. The arguments are the driver's answers to the
      capability, present-mode and format queries, made in that order; an error
      is returned with `?`, an empty list panics on `[0]`. The first present mode
      is taken as it is. Only a complete answer reaches the cache. */
  function SetupInfos(s: CachedSurface, capabilities: Result<SurfaceCapabilities>,
                      modes: Result<seq<PresentMode>>, formats: Result<seq<SurfaceFormat>>): (r: (CachedSurface, Result<SurfaceInfos>))
    ensures r.0.handle == s.handle && r.0.window == s.window
    ensures r.1.Ok? <==> capabilities.Ok? && modes.Ok? && |modes.value| > 0 && formats.Ok? && |formats.value| > 0
    ensures r.1.Ok? ==> r.1.value == SurfaceInfos(capabilities.value, modes.value[0], formats.value[0])
    ensures r.1.Ok? ==> r.0.infos == Some(r.1.value)
    ensures r.1.Err? ==> r.0 == s
    ensures capabilities.Err? ==> r.1 == Err(capabilities.error)
    ensures capabilities.Ok? && modes.Err? ==> r.1 == Err(modes.error)
    ensures capabilities.Ok? && modes.Ok? && |modes.value| == 0 ==> r.1 == Err(Panic(INDEX_OUT_OF_BOUNDS))
    ensures capabilities.Ok? && modes.Ok? && |modes.value| > 0 && formats.Err? ==> r.1 == Err(formats.error)
    ensures capabilities.Ok? && modes.Ok? && |modes.value| > 0 && formats.Ok? && |formats.value| == 0 ==>
      r.1 == Err(Panic(INDEX_OUT_OF_BOUNDS))
  {
    if capabilities.Err? then (s, Err(capabilities.error))
    else if modes.Err? then (s, Err(modes.error))
    else if |modes.value| == 0 then (s, Err(Panic(INDEX_OUT_OF_BOUNDS)))
    else if formats.Err? then (s, Err(formats.error))
    else if |formats.value| == 0 then (s, Err(Panic(INDEX_OUT_OF_BOUNDS)))
    else
      var infos := SurfaceInfos(capabilities.value, modes.value[0], formats.value[0]);
      (s.(infos := Some(infos)), Ok(infos))
  }

  /** `Surface::infos`: the cached answers, or a panic before any setup. */
  function Infos(s: CachedSurface): (r: Result<SurfaceInfos>)
    ensures r.Ok? <==> s.infos.Some?
    ensures r.Ok? ==> r.value == s.infos.value
    ensures r.Err? ==> r == Err(Panic(INFOS_NOT_SET_UP))
  {
    match s.infos
    case None => Err(Panic(INFOS_NOT_SET_UP))
    case Some(i) => Ok(i)
  }

  /** Setup then read: `infos()` returns what the last successful `setup_infos`
      returned, and a failed setup leaves whatever `infos()` returned before. */
  lemma SetupThenInfos(s: CachedSurface, capabilities: Result<SurfaceCapabilities>,
                       modes: Result<seq<PresentMode>>, formats: Result<seq<SurfaceFormat>>)
    ensures var (s', r) := SetupInfos(s, capabilities, modes, formats);
      && (r.Ok? ==> Infos(s') == r)
      && (r.Err? ==> Infos(s') == Infos(s))
  {
  }

  /** A fresh surface cannot be read: `infos()` panics until `setup_infos` succeeds. */
  lemma InfosBeforeSetupPanics(created: Result<Handle>, window: WinitWindow)
    requires created.Ok?
    ensures Infos(NewSurface(created, window).value).Panicked()
  {
  }

  /** A later successful setup overwrites the cache: only the newest answer is read. */
  lemma LaterSetupOverwrites(s: CachedSurface,
                             c1: Result<SurfaceCapabilities>, m1: Result<seq<PresentMode>>, f1: Result<seq<SurfaceFormat>>,
                             c2: Result<SurfaceCapabilities>, m2: Result<seq<PresentMode>>, f2: Result<seq<SurfaceFormat>>)
    requires SetupInfos(s, c1, m1, f1).1.Ok?
    requires SetupInfos(SetupInfos(s, c1, m1, f1).0, c2, m2, f2).1.Ok?
    ensures var second := SetupInfos(SetupInfos(s, c1, m1, f1).0, c2, m2, f2);
      Infos(second.0) == second.1 && second.1.value.format == f2.value[0]
  {
  }
}
