/** The engine's per-frame step `Scene::draw` and the scene state `Scene::new`
    prepares. `draw` is a small state machine over the swapchain's
    `recreate_swapchain` flag and the renderer's pending GPU future; the
    outcomes of acquiring an image and of flushing the frame are inputs. */
module Draws {

  import opened Results
  import opened Vk
  import opened EngineSwapchains

  /** The octree root word the voxel buffer starts with. */
  const ROOT: u64 := 129526
  const VOXEL_COUNT: nat := 1000

  /** The workgroup edge of the compute shader: one group covers 32 x 32 pixels. */
  const GROUP_SIZE: nat := 32

  const ACQUIRE_FAILED: string := "failed to acquire next image"
  const FLUSH_FAILED: string := "failed to flush future"

  /** The renderer's `gpu_future`: `now(device)`, or the future of a flushed frame
      (identified by the number the driver's answer carries). */
  datatype GpuFuture = Now | InFlight(id: nat)

  /** The part of `Renderer` that `draw` reads or writes. */
  datatype Renderer = Renderer(swapchain: EngineSwapchain, renderQueue: Handle, gpuFuture: Option<GpuFuture>)

  /** The part of `Scene` that `draw` reads: one descriptor set per swapchain
      image of the time the scene was built, and the voxel buffer's contents. */
  datatype Scene = Scene(descriptorSets: seq<Handle>, voxels: seq<u64>)

  /** How `acquire_next_image` ended, once its `Validated` error has been
      unwrapped: `AcquireFailed` covers only a `VulkanError`. A validation error
      panics inside `Validated::unwrap` and is not modelled. */
  datatype AcquireOutcome =
    | Acquired(index: u32, suboptimal: bool)
    | AcquireOutOfDate
    | AcquireFailed(code: int)

  /** How `then_signal_fence_and_flush` ended, once its `Validated` error has
      been unwrapped: `FlushFailed` covers only a `VulkanError`. A validation
      error panics inside `Validated::unwrap` and is not modelled. */
  datatype FlushOutcome =
    | Flushed(future: nat)
    | FlushOutOfDate
    | FlushFailed(code: int)

  /** What one frame hands to the render queue: the compute dispatch over the
      image's descriptor set, followed by the present of that image. */
  datatype Submission = Submission(
    queue: Handle,
    descriptorSet: Handle,
    groups: (u32, u32, u32),
    swapchain: Handle,
    imageIndex: u32)

  /** The renderer after `draw`, and the frame it submitted, if any. */
  datatype Frame = Frame(renderer: Renderer, submitted: Option<Submission>)

  /** `Buffer::from_iter` over a thousand zeros, then `write()[0] = ROOT`. */
  function InitialVoxels(): seq<u64> {
    seq(VOXEL_COUNT, i requires 0 <= i < VOXEL_COUNT => if i == 0 then ROOT else 0)
  }

  /** `Scene::new`, as far as `draw` depends on it. `makeSet` is the driver's
      answer to creating the image view and descriptor set of one image; the
      sets are made in image order and the first failure panics at its
      `unwrap`. */
  function DescriptorSets(images: seq<Handle>, makeSet: Handle -> Result<Handle>): (r: Result<seq<Handle>>)
    ensures r.Ok? <==> forall i :: 0 <= i < |images| ==> makeSet(images[i]).Ok?
    ensures r.Ok? ==> |r.value| == |images|
    ensures r.Ok? ==> forall i :: 0 <= i < |images| ==> r.value[i] == makeSet(images[i]).value
    ensures r.Err? ==> r.Panicked()
  {
    if |images| == 0 then Ok([])
    else
      var first := makeSet(images[0]);
      if first.Err? then Err(Panic(UNWRAP_ERR))
      else
        var rest := DescriptorSets(images[1..], makeSet);
        if rest.Err? then rest
        else
          assert forall i :: 1 <= i < |images| ==> images[i] == images[1..][i - 1];
          Ok([first.value] + rest.value)
  }

  /** `Scene::new`: the descriptor sets of the swapchain's current images and the
      initial voxel contents. */
  function NewScene(sc: EngineSwapchain, makeSet: Handle -> Result<Handle>): (r: Result<Scene>)
    ensures r.Ok? <==> forall i :: 0 <= i < |sc.images| ==> makeSet(sc.images[i]).Ok?
    ensures r.Err? ==> r.Panicked()
    ensures r.Ok? ==> |r.value.descriptorSets| == |sc.images|
    ensures r.Ok? ==> forall i :: 0 <= i < |sc.images| ==> r.value.descriptorSets[i] == makeSet(sc.images[i]).value
    ensures r.Ok? ==> |r.value.voxels| == VOXEL_COUNT && r.value.voxels[0] == ROOT
    ensures r.Ok? ==> forall i :: 0 < i < VOXEL_COUNT ==> r.value.voxels[i] == 0
  {
    var sets :- DescriptorSets(sc.images, makeSet);
    Ok(Scene(sets, InitialVoxels()))
  }

  /** The dispatch size for an extent: `(w + 31) / 32` groups across and
      `(h + 31) / 32` down, in `u32` arithmetic that wraps in a release build.
      Below the wrap this is division by 32 rounded up: the groups cover the
      image and no group lies wholly outside it. */
  function DispatchGroups(e: Extent2D): (g: (u32, u32, u32))
    ensures g.2 == 1
    ensures e.width <= U32_MAX - 31 ==> e.width <= g.0 * GROUP_SIZE < e.width + GROUP_SIZE
    ensures e.height <= U32_MAX - 31 ==> e.height <= g.1 * GROUP_SIZE < e.height + GROUP_SIZE
  {
    (WrappingAdd(e.width, 31) / 32, WrappingAdd(e.height, 31) / 32, 1)
  }

  /** The three reads of the window's inner size in one `draw`: for the
      zero-size check, for the recreate, and for the dispatch. The window is
      owned by the windowing system and may be resized between them. */
  datatype WindowReads = WindowReads(check: Extent2D, recreate: Extent2D, dispatch: Extent2D)

  /** `Scene::draw`. `window` holds the window sizes it reads; `recreated` is the
      driver's answer to `Swapchain::recreate` when the flag asks for it;
      `acquired` and `flushed` are the outcomes of acquiring an image and of
      flushing the frame. Recording the command buffer is taken to succeed.
      Both a successful flush and an out-of-date one count as submitted. */
  function Draw(scene: Scene, r: Renderer, window: WindowReads, recreated: Result<(Handle, seq<Handle>)>,
                acquired: AcquireOutcome, flushed: FlushOutcome): (out: Result<Frame>)
    ensures window.check.width == 0 || window.check.height == 0 ==> out == Ok(Frame(r, None))
    ensures window.check.width > 0 && window.check.height > 0 && r.gpuFuture.None? ==> out == Err(Panic(UNWRAP_NONE))
    ensures out.Err? ==> out.Panicked()
    ensures out.Ok? && out.value.submitted.Some? ==>
      var s := out.value.submitted.value;
      && acquired.Acquired? && s.imageIndex == acquired.index
      && acquired.index as nat < |scene.descriptorSets|
      && s.descriptorSet == scene.descriptorSets[acquired.index]
      && s.queue == r.renderQueue && s.groups == DispatchGroups(window.dispatch)
      && s.swapchain == out.value.renderer.swapchain.handle
    // Once the frame reaches the acquire, its failure and a later flush failure panic.
    ensures window.check.width > 0 && window.check.height > 0 && r.gpuFuture.Some?
            && (r.swapchain.recreateSwapchain ==> Recreate(r.swapchain, window.recreate, recreated).Ok?)
            ==> && (acquired.AcquireFailed? ==> out == Err(Panic(ACQUIRE_FAILED)))
                && (acquired.Acquired? && acquired.index as nat < |scene.descriptorSets| && flushed.FlushFailed?
                    ==> out == Err(Panic(FLUSH_FAILED)))
    ensures window.check.width > 0 && window.check.height > 0 && acquired.AcquireFailed? ==> out.Err?
    ensures window.check.width > 0 && window.check.height > 0 && acquired.Acquired? && flushed.FlushFailed? ==> out.Err?
    // A plain successful flush keeps the new future; an out-of-date one restarts from `now`.
    ensures out.Ok? && out.value.submitted.Some? && flushed.Flushed? ==>
      out.value.renderer.gpuFuture == Some(InFlight(flushed.future))
    ensures out.Ok? && out.value.submitted.Some? && flushed.FlushOutOfDate? ==>
      out.value.renderer.gpuFuture == Some(Now) && out.value.renderer.swapchain.recreateSwapchain
    // Nothing else changes: the render queue is kept, the swapchain is recreated
    // exactly when the flag asks for it, and apart from the flag the frame ends
    // with the swapchain it started with or the one just recreated.
    ensures out.Ok? ==> out.value.renderer.renderQueue == r.renderQueue
    ensures out.Ok? && !r.swapchain.recreateSwapchain ==>
      out.value.renderer.swapchain.(recreateSwapchain := false) == r.swapchain
    ensures out.Ok? && window.check.width > 0 && window.check.height > 0 && r.swapchain.recreateSwapchain ==>
      && recreated.Ok?
      && out.value.renderer.swapchain.(recreateSwapchain := false) == Recreate(r.swapchain, window.recreate, recreated).value
  {
    if window.check.width == 0 || window.check.height == 0 then Ok(Frame(r, None))
    else if r.gpuFuture.None? then Err(Panic(UNWRAP_NONE))
    else
      var sc :- if r.swapchain.recreateSwapchain then Recreate(r.swapchain, window.recreate, recreated) else Ok(r.swapchain);
      match acquired
      case AcquireOutOfDate => Ok(Frame(r.(swapchain := sc.(recreateSwapchain := true)), None))
      case AcquireFailed(_) => Err(Panic(ACQUIRE_FAILED))
      case Acquired(index, suboptimal) =>
        var sc := if suboptimal then sc.(recreateSwapchain := true) else sc;
        if index as nat >= |scene.descriptorSets| then Err(Panic(INDEX_OUT_OF_BOUNDS))
        else
          var submission := Submission(r.renderQueue, scene.descriptorSets[index], DispatchGroups(window.dispatch), sc.handle, index);
          match flushed
          case Flushed(id) => Ok(Frame(Renderer(sc, r.renderQueue, Some(InFlight(id))), Some(submission)))
          case FlushOutOfDate =>
            Ok(Frame(Renderer(sc.(recreateSwapchain := true), r.renderQueue, Some(Now)), Some(submission)))
          case FlushFailed(_) => Err(Panic(FLUSH_FAILED))
  }

  /** A frame that gets past the size check always acquires from an up-to-date
      swapchain: a set flag is answered by recreating first, for the size read at
      that moment (which may be zero after a non-zero check), so the submitted
      image belongs to the new swapchain. */
  lemma FlagRecreatesBeforeAcquire(scene: Scene, r: Renderer, window: WindowReads,
                                   recreated: Result<(Handle, seq<Handle>)>,
                                   acquired: AcquireOutcome, flushed: FlushOutcome)
    requires r.swapchain.recreateSwapchain
    requires Draw(scene, r, window, recreated, acquired, flushed).Ok?
    requires Draw(scene, r, window, recreated, acquired, flushed).value.submitted.Some?
    ensures recreated.Ok?
    ensures var sc := Draw(scene, r, window, recreated, acquired, flushed).value.renderer.swapchain;
      && sc.handle == recreated.value.0 && sc.images == recreated.value.1
      && sc.createInfo.imageExtent == window.recreate
      && Draw(scene, r, window, recreated, acquired, flushed).value.submitted.value.swapchain == recreated.value.0
  {
  }

  /** The flag after a drawn frame is exactly the record of a swapchain that no
      longer fits: it is set when acquire reported out-of-date or suboptimal or
      the flush reported out-of-date, and cleared otherwise. */
  lemma FlagAfterDraw(scene: Scene, r: Renderer, window: WindowReads, recreated: Result<(Handle, seq<Handle>)>,
                      acquired: AcquireOutcome, flushed: FlushOutcome)
    requires window.check.width > 0 && window.check.height > 0
    requires Draw(scene, r, window, recreated, acquired, flushed).Ok?
    ensures Draw(scene, r, window, recreated, acquired, flushed).value.renderer.swapchain.recreateSwapchain <==>
      acquired.AcquireOutOfDate? || (acquired.Acquired? && acquired.suboptimal) || flushed.FlushOutOfDate?
  {
  }

  /** Out-of-date on acquire: nothing is submitted, the future is kept, the flag
      is set, and the call still returns `Ok`. */
  lemma AcquireOutOfDateSkipsFrame(scene: Scene, r: Renderer, window: WindowReads,
                                   recreated: Result<(Handle, seq<Handle>)>, flushed: FlushOutcome)
    requires window.check.width > 0 && window.check.height > 0 && r.gpuFuture.Some?
    requires !r.swapchain.recreateSwapchain || recreated.Ok?
    ensures var out := Draw(scene, r, window, recreated, AcquireOutOfDate, flushed);
      && out.Ok? && out.value.submitted.None?
      && out.value.renderer.gpuFuture == r.gpuFuture
      && out.value.renderer.swapchain.recreateSwapchain
  {
  }

  /** A suboptimal image is still drawn: with a successful flush the frame is
      submitted, its future becomes the renderer's, and the flag asks for a
      recreate on the next frame. */
  lemma SuboptimalStillSubmits(scene: Scene, r: Renderer, window: WindowReads,
                               recreated: Result<(Handle, seq<Handle>)>, index: u32, id: nat)
    requires window.check.width > 0 && window.check.height > 0 && r.gpuFuture.Some?
    requires !r.swapchain.recreateSwapchain || recreated.Ok?
    requires index as nat < |scene.descriptorSets|
    ensures var out := Draw(scene, r, window, recreated, Acquired(index, true), Flushed(id));
      && out.Ok? && out.value.submitted.Some?
      && out.value.renderer.gpuFuture == Some(InFlight(id))
      && out.value.renderer.swapchain.recreateSwapchain
  {
  }

  /** Out-of-date on flush: the frame was handed over, the future restarts at
      `now`, and the flag is set. */
  lemma FlushOutOfDateRestartsFuture(scene: Scene, r: Renderer, window: WindowReads,
                                     recreated: Result<(Handle, seq<Handle>)>, acquired: AcquireOutcome)
    requires Draw(scene, r, window, recreated, acquired, FlushOutOfDate).Ok?
    requires Draw(scene, r, window, recreated, acquired, FlushOutOfDate).value.submitted.Some?
    ensures Draw(scene, r, window, recreated, acquired, FlushOutOfDate).value.renderer.gpuFuture == Some(Now)
    ensures Draw(scene, r, window, recreated, acquired, FlushOutOfDate).value.renderer.swapchain.recreateSwapchain
  {
  }

  /** The sets are never rebuilt: once a recreate leaves the swapchain with more
      images than the scene has sets, acquiring one of the new images panics on
      the index. */
  lemma StaleSetsPanicOnNewImages(scene: Scene, r: Renderer, window: WindowReads,
                                  recreated: Result<(Handle, seq<Handle>)>, index: u32, flushed: FlushOutcome)
    requires window.check.width > 0 && window.check.height > 0 && r.gpuFuture.Some?
    requires !r.swapchain.recreateSwapchain || recreated.Ok?
    requires index as nat >= |scene.descriptorSets|
    ensures Draw(scene, r, window, recreated, Acquired(index, false), flushed) == Err(Panic(INDEX_OUT_OF_BOUNDS))
  {
  }

  /** The sets are bound to the images of the swapchain the scene was built
      from: after a recreate, the frame dispatches over the set made for image
      `index` of that old swapchain, while image `index` of the new swapchain is
      the one presented. */
  lemma RecreatedFrameUsesSetOfOldImage(built: EngineSwapchain, makeSet: Handle -> Result<Handle>, r: Renderer,
                                        window: WindowReads, recreated: Result<(Handle, seq<Handle>)>,
                                        acquired: AcquireOutcome, flushed: FlushOutcome)
    requires NewScene(built, makeSet).Ok?
    requires r.swapchain.recreateSwapchain
    requires Draw(NewScene(built, makeSet).value, r, window, recreated, acquired, flushed).Ok?
    requires Draw(NewScene(built, makeSet).value, r, window, recreated, acquired, flushed).value.submitted.Some?
    ensures recreated.Ok? && acquired.Acquired? && acquired.index as nat < |built.images|
    ensures var out := Draw(NewScene(built, makeSet).value, r, window, recreated, acquired, flushed).value;
      && out.submitted.value.descriptorSet == makeSet(built.images[acquired.index]).value
      && out.submitted.value.swapchain == recreated.value.0
      && out.renderer.swapchain.images == recreated.value.1
  {
  }
}
