# NeutronEngine Vulkan core in Dafny

NeutronEngine drives the Vulkan API through two parallel stacks. One is a hand-written
`ash` crate under `crates/rendering`. The other is a `vulkano`-based engine under
`src/engine`. Most of both stacks is FFI plumbing. This project models the rules
underneath the plumbing as pure Dafny functions over immutable records:

- memory-type selection and buffer creation;
- the host-visible `Subbuffer` and its read-back;
- the fence's pin list of submitted command buffers and its signal state;
- physical-device and queue-family selection in both stacks;
- surface format, present-mode and extent negotiation, and the cached surface infos;
- the swapchain parameters of the three swapchain constructors, with acquire and present;
- the engine's per-frame draw step over the `recreate_swapchain` flag;
- the descriptor-type conversions.

Every driver query is an input to the model. Lists of memory types, queue families,
present modes and formats are inputs, and so are capability records and the outcomes
of submit, acquire and flush. Surface support is a function from (device, family) to
an answer. Each query answer is a `Result`: `Ok` holds the driver's value and `Err`
holds a `VkResult` error. The model keeps three kinds of failure apart:

- an error the code propagates with `?` is `Err(Vk(code))`;
- the one descriptive error of `RawBuffer::new` is `Err(MemoryTypeNotFound)`;
- a panic (`unwrap`, `expect`, an out-of-range index) is `Err(Panic(message))`.

Rust's `u32` additions that can overflow are written out as release-build
wrap-around (`Vk.WrappingAdd`), and the `i32 as u32` cast as reduction modulo 2^32
(`Vk.I32AsU32`).

Files, one module each:

| file | module | models |
|---|---|---|
| `results.dfy` | `Results` | option, result and error types |
| `vk.dfy` | `Vk` | Vulkan records and flag constants |
| `raw_buffer.dfy` | `RawBuffers` | memory-type search, sharing mode, `RawBuffer::new` |
| `sub_buffer.dfy` | `Subbuffers` | `Subbuffer<T>` |
| `fence.dfy` | `Fences` | `Fence` |
| `device.dfy` | `Devices` | the crate's `Device::new` |
| `engine_device.dfy` | `EngineDevices` | the engine's `device::new` and `Queues` |
| `surface.dfy` | `Surfaces` | the crate's `SurfaceLoader` and `Surface` |
| `surface_cache.dfy` | `SurfaceCaches` | the newer crate `Surface` with its info cache |
| `swapchain.dfy` | `Swapchains` | the newer crate `Swapchain`, and the rules both crate swapchains share |
| `legacy_swapchain.dfy` | `LegacySwapchains` | the older crate `Swapchain` |
| `engine_swapchain.dfy` | `EngineSwapchains` | the engine's `Swapchain` |
| `draw.dfy` | `Draws` | `Scene::new` and `Scene::draw` |
| `descriptors.dfy` | `Descriptors` | `DescriptorType` conversions |

A fence's pin list is never cleared: `wait_for_finished` leaves the list alone, and
nothing else removes from it.

## Model

| member | source | states |
|---|---|---|
| RawBuffers.FindFrom | crates/rendering/src/prelude/buffer/raw_buffer.rs:56-63 | The scan from a given index returns the first index at or after it that is inside the reported prefix, allowed by the bitmask and carries the flags. It returns none only when no such index exists. |
| RawBuffers.FindMemoryTypeIndex | crates/rendering/src/prelude/buffer/raw_buffer.rs:51-64 | The index is below `memory_type_count`, its bit is set in `memory_type_bits`, and its property flags contain every requested flag. No smaller index qualifies. The result is none exactly when no index in the prefix qualifies. |
| RawBuffers.EmptyFlagsPickFirstAllowed | crates/rendering/src/prelude/buffer/raw_buffer.rs:59-62 | With no requested flags the result is the first index of the prefix whose bit is set, or none if there is no such index. |
| RawBuffers.MoreFlagsNeverPickEarlier | crates/rendering/src/prelude/buffer/raw_buffer.rs:59-62 | Requesting a superset of flags can only move the answer later or remove it. |
| RawBuffers.BufferInfoAsWritten | crates/rendering/src/prelude/buffer/raw_buffer.rs:17-24 | Usage and size pass through. Both sharing variants select EXCLUSIVE. Only the concurrent variant attaches its queue-family indices. |
| RawBuffers.ConcurrentRequestIsLost | crates/rendering/src/prelude/buffer/raw_buffer.rs:19-24 | As written, a concurrent request naming two or more families yields a buffer no two families may own at once. |
| RawBuffers.BufferInfo | crates/rendering/src/prelude/buffer/raw_buffer.rs:19-24 | Corrected mapping: CONCURRENT exactly when the concurrent variant is requested. |
| RawBuffers.BufferInfoKeepsRequestedSharing | crates/rendering/src/prelude/buffer/raw_buffer.rs:19-24 | With the corrected mapping, the families that may share the buffer are exactly the requested ones. The exclusive case is unchanged from the code as written. |
| RawBuffers.NewRawBuffer | crates/rendering/src/prelude/buffer/raw_buffer.rs:16-42 | A create error propagates unchanged. The call fails with the memory-type error exactly when no type fits the requirements and the visibility. Otherwise the buffer keeps the create info built as written for the given size (EXCLUSIVE sharing), the reported requirements and the lowest fitting type. |
| Subbuffers.FromData | crates/rendering/src/prelude/buffer/sub_buffer.rs:19-59 | It succeeds exactly when creation, memory-type choice, allocation and (for host-visible buffers) mapping succeed. The size is `data.len() * size_of::<T>()` and the offset is 0. The raw buffer is created for exactly that byte size. The allocation uses the raw buffer's `requirements.size` and memory type. Memory is mapped exactly when HOST_VISIBLE was requested; the mapping covers the data size at offset 0 and holds `data`. |
| Subbuffers.Size | crates/rendering/src/prelude/buffer/sub_buffer.rs:66-68 | The size is a whole number of elements. For a mapped buffer it is the number of stored elements times the element size. |
| Subbuffers.Len | crates/rendering/src/prelude/buffer/sub_buffer.rs:70-72 | The length times the element size is the byte size. For a mapped buffer the length is the number of stored elements. |
| Subbuffers.Read | crates/rendering/src/prelude/buffer/sub_buffer.rs:61-64 | It returns elements exactly when the buffer is mapped, and panics on the `unwrap` otherwise. The elements returned fill the byte size. |
| Subbuffers.FromDataThenRead | crates/rendering/src/prelude/buffer/sub_buffer.rs:36-64 | Round trip: a host-visible buffer made from `data` reads back exactly `data`, for every length, and `len()` is `data.len()`. |
| Subbuffers.ReadWithoutHostVisibilityPanics | crates/rendering/src/prelude/buffer/sub_buffer.rs:30-62 | Reading a buffer created without HOST_VISIBLE panics. |
| Subbuffers.MappedMemoryIsHostVisible | crates/rendering/src/prelude/buffer/sub_buffer.rs:24-38 | A mapped buffer's allocation comes from a memory type carrying HOST_VISIBLE, so the mapping is legal. |
| Fences.NewFence | crates/rendering/src/prelude/fence.rs:15-26 | A new fence is created with the SIGNALED flag, so it starts signaled, with an empty pin list. A create error propagates. |
| Fences.RawHandles | crates/rendering/src/prelude/fence.rs:33-37 | The raw handles keep the batch's length and order. |
| Fences.Submit | crates/rendering/src/prelude/fence.rs:28-49 | One submit of the batch's raw handles, in order, guarded by this fence in whatever signal state it is in (no reset precedes it). On success exactly one entry, the whole batch, is appended. On failure the error is returned and the fence is unchanged. |
| Fences.WaitForFinished | crates/rendering/src/prelude/fence.rs:51-58 | It waits on this fence alone, for all, with timeout `u64::MAX`. It has to wait for the device exactly when the fence is unsignaled; a success leaves the fence signaled. The pin list is unchanged. Errors propagate. |
| Fences.PendingOnlyGrows | crates/rendering/src/prelude/fence.rs:28-58 | After any sequence of submits and waits, the pin list is the old list followed by exactly the accepted batches in call order. Nothing is ever removed. |
| Fences.SubmittedBatchStaysPinned | crates/rendering/src/prelude/fence.rs:47 | An accepted batch stays at its position in the pin list after any later calls. |
| Fences.SignaledFenceStaysSignaled | crates/rendering/src/prelude/fence.rs:28-58 | No submit or wait resets the fence: once signaled, it stays signaled through any sequence of calls. |
| Fences.SubmitsSeeSignaledFence | crates/rendering/src/prelude/fence.rs:16-45 | As written, after any earlier calls every submit on a fence from `new` passes a signaled fence, against section 7.3 of the Vulkan 1.3 specification, and the wait after it returns without waiting for the batch. |
| Fences.SubmitAfterReset | crates/rendering/src/prelude/fence.rs:28-49 | Corrected submit: a reset error is returned and nothing is submitted. Otherwise the submit passes an unsignaled fence, and the batch is pinned exactly when the submit succeeds. |
| Fences.ResetSubmitThenWaitSeesCompletion | crates/rendering/src/prelude/fence.rs:28-58 | With the reset, a successful wait after a successful submit has to wait for the device's signal, so it returns only after the batch finished, with the batch pinned. |
| Devices.SearchFamilies | crates/rendering/src/prelude/device.rs:35-51 | It stops at the lowest family that has GRAPHICS and either answers surface support with true or fails the query. It passes over every family before that one. |
| Devices.SearchDevices | crates/rendering/src/prelude/device.rs:27-53 | It stops at the first device with a stopping family; every earlier device has none. |
| Devices.SelectPhysicalDevice | crates/rendering/src/prelude/device.rs:24-54 | An enumeration error propagates. A result is the first device in enumeration order with a qualifying family, together with that device's lowest qualifying family. The call panics with "Couldn't find suitable device." exactly when no device has a family where the search stops. When every query answers, it succeeds exactly when some qualifying pair exists. |
| Devices.NewDeviceAsWritten | crates/rendering/src/prelude/device.rs:22-95 | A failed selection is returned unchanged: the enumeration error, or the search's panic. One queue-create entry for the chosen family. Graphics and compute are fetched from that family at indices 0 and 1. A failed `vkCreateDevice` panics. |
| Devices.ComputeQueueWasNeverCreated | crates/rendering/src/prelude/device.rs:66-85 | As written, the graphics queue was created, but the compute queue index 1 is outside the one queue requested. |
| Devices.NewDevice | crates/rendering/src/prelude/device.rs:22-95 | Corrected request: it fails exactly when, and with the same error as, the code as written. Same device, family and single entry, asking for two queues only when the family offers two. |
| Devices.NewDeviceQueuesWereCreated | crates/rendering/src/prelude/device.rs:66-85 | With the corrected request both fetched queues were created. They are distinct when the family offers two queues. |
| EngineDevices.BestCandidate | src/engine/rendering/device.rs:25-37 | Only devices supporting the swapchain extension are considered. The pick has minimal rank (Discrete 0, Integrated 1, Virtual 2, Cpu 3, Other 4, else 5), and every earlier candidate ranks strictly worse. It is none exactly when there is no candidate. |
| EngineDevices.FirstEligible | src/engine/rendering/device.rs:44-55 | The lowest family at or after the start that intersects the role, answers surface support with true (an error counts as false) and is unused. It is none exactly when there is none. |
| EngineDevices.AssignFamilies | src/engine/rendering/device.rs:39-58 | Each role in order gets the lowest eligible family given the families taken by earlier roles. The assigned families extend a distinct used list distinctly. A role with no family left panics. |
| EngineDevices.StarvedRolePanics | src/engine/rendering/device.rs:48-55 | A role with no eligible family makes the assignment panic. |
| EngineDevices.NewEngineDevice | src/engine/rendering/device.rs:20-85 | A failed enumeration and the lack of a candidate device panic. Otherwise the device is the best-ranked candidate; a starved role panics with the assignment's panic, and with families assigned the call succeeds exactly when `Device::new` does. The device has three create infos of priorities 0.7, 0.5 and 0.3. Queue k is queue 0 of the family the assignment gives role k. The three families are pairwise distinct. |
| EngineDevices.Render | src/engine/rendering/device.rs:88-90 | The first queue, the one created for GRAPHICS; an empty list panics on the index. |
| EngineDevices.Compute | src/engine/rendering/device.rs:91-93 | The second queue, the one created for COMPUTE; a shorter list panics on the index. |
| EngineDevices.Transfer | src/engine/rendering/device.rs:94-96 | The third queue, the one created for TRANSFER; a shorter list panics on the index. |
| EngineDevices.AccessorsServeTheirRoles | src/engine/rendering/device.rs:87-96 | `render`, `compute` and `transfer` return queues of three distinct families that serve GRAPHICS, COMPUTE and TRANSFER respectively. The render family can present. |
| Surfaces.ChoosePresentMode | crates/rendering/src/prelude/surface.rs:73-77 | MAILBOX exactly when the driver lists it, otherwise FIFO. |
| Surfaces.Build | crates/rendering/src/prelude/surface.rs:55-88 | It succeeds exactly when the three queries answer and the format list is non-empty; otherwise it panics. The surface keeps the loader's handle and window, the given device, the first format, the capabilities as reported, and MAILBOX exactly when offered. |
| Surfaces.Resolution | crates/rendering/src/prelude/surface.rs:96-105 | With `current_extent.width == u32::MAX` the result is the size the surface's window reports at the time of the call, cast to `u32`; otherwise it is `current_extent` unchanged. |
| Surfaces.BuiltResolution | crates/rendering/src/prelude/surface.rs:96-105 | For a built surface whose window has a non-negative size at the time of the call, the resolution is that size exactly at the sentinel, and the driver's extent otherwise. |
| Surfaces.ResolutionFollowsTheWindow | crates/rendering/src/prelude/surface.rs:96-105 | The surface shares its window, so at the sentinel two non-negative window sizes give the same resolution exactly when they are equal: a resize after `build` shows in the next call. |
| Surfaces.NegativeWindowSizeWraps | crates/rendering/src/prelude/surface.rs:97-101 | A window width of -1 becomes `u32::MAX` through the cast. |
| SurfaceCaches.NewSurface | crates/rendering/src/prelude/swapchain/surface.rs:26-47 | A new surface has an empty cache and keeps the created handle and the window. A create error is returned unchanged. |
| SurfaceCaches.Size | crates/rendering/src/prelude/swapchain/surface.rs:56-62 | The size is the window's inner width and height. |
| SurfaceCaches.SetupInfos | crates/rendering/src/prelude/swapchain/surface.rs:64-89 | It succeeds exactly when all three queries answer with non-empty mode and format lists. Checked in the source's order, a query error is returned unchanged and an empty mode or format list panics on `[0]`. It returns the capabilities, the first present mode (no MAILBOX preference) and the first format, and caches them. A failure leaves the surface unchanged. |
| SurfaceCaches.Infos | crates/rendering/src/prelude/swapchain/surface.rs:91-97 | It returns the cached infos, or panics with "you need to call setup_infos() first" when nothing is cached. |
| SurfaceCaches.SetupThenInfos | crates/rendering/src/prelude/swapchain/surface.rs:64-97 | After a successful setup, `infos()` returns what setup returned. After a failed one, it returns what it returned before. |
| SurfaceCaches.InfosBeforeSetupPanics | crates/rendering/src/prelude/swapchain/surface.rs:39-97 | On a fresh surface `infos()` panics. |
| SurfaceCaches.LaterSetupOverwrites | crates/rendering/src/prelude/swapchain/surface.rs:86-88 | A later successful setup replaces the cached value. |
| Swapchains.DesiredImageCount | crates/rendering/src/prelude/swapchain/mod.rs:27-32 | The count never exceeds a non-zero maximum. Without overflow it is at most `min + 1`, exactly `min + 1` when the maximum is 0 or above the minimum, and at least the minimum when `min <= max` or `max == 0`. |
| Swapchains.ImageCountWithinLimits | crates/rendering/src/prelude/swapchain/mod.rs:27-32 | For capabilities a driver may report, the count lies within the surface's limits. |
| Swapchains.ImageCountWrapsAtU32Max | crates/rendering/src/prelude/swapchain/mod.rs:27 | At `min_image_count == u32::MAX` the release-build addition wraps to 0. |
| Swapchains.PreTransform | crates/rendering/src/prelude/swapchain/mod.rs:34-41 | IDENTITY when supported, otherwise `current_transform`. |
| Swapchains.PreTransformIsSupported | crates/rendering/src/prelude/swapchain/mod.rs:34-41 | The chosen transform is supported whenever the current one is. |
| Swapchains.CreateInfo | crates/rendering/src/prelude/swapchain/mod.rs:43-55 | The create info carries the surface, the count and transform rules, the format and colour space, the present mode and the extent. Fixed fields: COLOR_ATTACHMENT, EXCLUSIVE, OPAQUE, clipped, one layer. |
| Swapchains.NewSwapchain | crates/rendering/src/prelude/swapchain/mod.rs:20-77 | A failed setup or a failed create panics, and a failed setup leaves the surface as it was. An image error, and then a semaphore error, is returned unchanged. On success the cache holds the fresh infos, the swapchain refers to the surface by handle, and the create info is built from the infos with the surface's size as extent. |
| Swapchains.Resolution | crates/rendering/src/prelude/swapchain/mod.rs:107-109 | The inner size of the shared surface's window at the time of the call. |
| Swapchains.Format | crates/rendering/src/prelude/swapchain/mod.rs:110-112 | The format cached in the shared surface at the time of the call, or the cache's panic when it was never filled. |
| Swapchains.NewSwapchainReportsItsParameters | crates/rendering/src/prelude/swapchain/mod.rs:20-112 | Read from the surface `new` left behind, `format()` and `resolution()` are the format, colour space and extent the swapchain was created with. |
| Swapchains.ReportsFollowTheSharedSurface | crates/rendering/src/prelude/swapchain/mod.rs:107-112 | After the window is resized and another setup succeeds on the shared surface, `resolution()` reports the new size and `format()` the new format, whatever the swapchain was created with. |
| Swapchains.AcquireNextImage | crates/rendering/src/prelude/swapchain/mod.rs:79-89 | The acquire uses timeout `u64::MAX`, the present semaphore and no fence. The answer is returned, or the call panics. |
| Swapchains.Present | crates/rendering/src/prelude/swapchain/mod.rs:91-101 | The present lists exactly one swapchain and the given index, and waits on the present semaphore. A failure panics. |
| Swapchains.AcquireSignalsWhatPresentWaits | crates/rendering/src/prelude/swapchain/mod.rs:79-101 | Present waits on exactly the semaphore acquire signals, for the same swapchain. |
| LegacySwapchains.NewLegacySwapchain | crates/rendering/src/prelude/swapchain.rs:13-59 | The older constructor applies the same count and transform rules. Format, colour space, present mode and capabilities come from the surface, and the extent is `surface.resolution()` read when `new` runs. The fixed fields are the same, and the stored device is the surface's device. A failed create panics. |
| LegacySwapchains.LegacySwapchainFromBuiltSurface | crates/rendering/src/prelude/swapchain.rs:39 | Through a built surface, MAILBOX is requested exactly when offered. At the sentinel the extent is the window's size when `new` runs, whatever it was at `build`. |
| EngineSwapchains.MinImageCount | src/engine/rendering/swapchain.rs:32 | The count is at least 2 and at least the minimum, and equals one of them. There is no clamp to the maximum. |
| EngineSwapchains.FirstContained | src/engine/rendering/swapchain.rs:37-41 | The first position whose flag the supported set contains, or none when there is none. |
| EngineSwapchains.FirstCompositeAlpha | src/engine/rendering/swapchain.rs:37-41 | The result is a supported mode among OPAQUE, PRE_MULTIPLIED, POST_MULTIPLIED and INHERIT. It is none exactly when none of them is supported. |
| EngineSwapchains.OpaquePreferredWhenSupported | src/engine/rendering/swapchain.rs:37-41 | A surface supporting OPAQUE gets OPAQUE. |
| EngineSwapchains.NewEngineSwapchain | src/engine/rendering/swapchain.rs:16-53 | It succeeds exactly when both queries answer, a format exists, some composite alpha is supported and creation succeeds; it panics otherwise. The create info has `max(min, 2)` images, the first format, the given size, STORAGE usage, IMMEDIATE, the first supported composite alpha and `vulkano`'s defaults. The flag starts false. |
| EngineSwapchains.Recreate | src/engine/rendering/swapchain.rs:55-68 | Every create-info field except the extent is kept; the extent is the given one. Swapchain and images are replaced and the flag is cleared. A failure panics. |
| EngineSwapchains.RecreateTwiceIsRecreateOnce | src/engine/rendering/swapchain.rs:55-68 | Two recreations equal one recreation with the later extent and answer. |
| EngineSwapchains.RecreateKeepsNegotiatedParameters | src/engine/rendering/swapchain.rs:56-61 | After a recreate, the image count, format and present mode are still those `new` chose. |
| Draws.DescriptorSets | src/engine/rendering/update/mod.rs:67-98 | One set per image, in image order. It succeeds exactly when every image's set can be made; otherwise it panics. |
| Draws.NewScene | src/engine/rendering/update/mod.rs:36-138 | The scene holds one descriptor set per swapchain image at creation, in order, and a voxel buffer of 1000 words: `ROOT` (129526) first and zeros after it. A failed set panics. |
| Draws.DispatchGroups | src/engine/rendering/update/mod.rs:205-214 | The groups are `[(w+31)/32, (h+31)/32, 1]` in wrapping `u32`. Below the wrap they are the ceiling of the size over 32: they cover the image, and no group lies wholly outside it. |
| Draws.Draw | src/engine/rendering/update/mod.rs:140-248 | A zero width or height at the first size read returns Ok with the renderer unchanged and nothing submitted; past it, a missing future panics. Every failure is a panic; once the frame reaches the acquire, an acquire failure and a flush failure each panic with their own message. A plain successful flush stores its new future; an out-of-date flush restarts from `now` and sets the flag. A submitted frame was acquired and uses the scene's descriptor set at the acquired index (made, when the scene was built, for that index of the swapchain of that time), the render queue and the dispatch size of the third size read. It presents on the swapchain the renderer ends with. The render queue never changes. Apart from the flag, an Ok frame ends with the swapchain it started with when the flag was clear, and with the freshly recreated one when the flag was set and the size non-zero, also when the acquire then reports out-of-date. |
| Draws.FlagRecreatesBeforeAcquire | src/engine/rendering/update/mod.rs:149-151 | With the flag set, a submitted frame comes from the swapchain recreated for the window size read at the recreate, which may differ from the size checked before. |
| Draws.FlagAfterDraw | src/engine/rendering/update/mod.rs:149-241 | After a drawn frame, the flag is set exactly when acquire reported out-of-date or suboptimal, or flush reported out-of-date. |
| Draws.AcquireOutOfDateSkipsFrame | src/engine/rendering/update/mod.rs:158-161 | Out-of-date on acquire sets the flag, keeps the future, submits nothing and returns Ok. |
| Draws.SuboptimalStillSubmits | src/engine/rendering/update/mod.rs:165-167 | A suboptimal image sets the flag, but the frame is still submitted and its future kept. |
| Draws.FlushOutOfDateRestartsFuture | src/engine/rendering/update/mod.rs:234-241 | Out-of-date on flush sets the flag and resets the future to `now`. |
| Draws.StaleSetsPanicOnNewImages | src/engine/rendering/update/mod.rs:192 | The sets are never rebuilt, so an image index beyond the scene's sets panics. |
| Draws.RecreatedFrameUsesSetOfOldImage | src/engine/rendering/update/mod.rs:67-98 | After a recreate, a submitted frame dispatches over the set `Scene::new` made for image `index` of the swapchain of that time, while it presents image `index` of the new swapchain. |
| Descriptors.ToPoolSize | crates/rendering/src/prelude/descriptors/mod.rs:21-28 | A pool size carries `ty` unchanged, with `descriptor_count == count`. |
| Descriptors.ToLayoutBinding | crates/rendering/src/prelude/descriptors/mod.rs:30-40 | A layout binding keeps binding, type, count and stage flags. The immutable-sampler pointer is the null default. |
| Descriptors.LayoutBindingRoundTrip | crates/rendering/src/prelude/descriptors/mod.rs:30-40 | The descriptor can be read back from its layout binding. |
| Descriptors.PoolSizeIgnoresBindingAndStages | crates/rendering/src/prelude/descriptors/mod.rs:21-28 | The pool size does not depend on binding or stage flags. |
| Descriptors.PoolSizes | crates/rendering/src/prelude/descriptors/pool.rs:15 | Pool sizes are built element-wise, same length and order. |
| Descriptors.LayoutBindings | crates/rendering/src/prelude/descriptors/layout.rs:14-15 | Layout bindings are built element-wise, and each reads back to its descriptor. |
| Descriptors.PoolMatchesLayout | crates/rendering/src/prelude/descriptors/mod.rs:21-40 | A pool and a layout built from the same list agree position by position on type and count. |

## Left out

- Instance creation, the debug messenger, command pools and buffers, images, render passes and pipelines. They pass constant create-info records to the driver and hold no rule of their own.
- The creation calls of descriptor pools, set layouts and sets. Only the conversions they apply are modelled.
- Destruction order through `Arc` and `Drop`. Rust's ownership enforces it, not stateable code.
- Window and event-loop code, and the `RwLock` and `Mutex` poisoning behind the `unwrap`s on their locks.
- Floating point: the queue priorities are plain `real` constants, and the `iTime` push constant is not modelled.
- GPU futures, semaphores and real fence waits run on the device asynchronously. Only their outcomes are inputs.
- Shader loading, the compute pipeline and the voxel buffer's creation in `Scene::new` are not modelled. The voxel contents are modelled.
- The `unwrap`s that record and chain the frame in `draw` (update/mod.rs:170-224) are taken to succeed: `RecordingCommandBuffer::new`, `push_constants`, both `bind_descriptor_sets`, `bind_pipeline_compute`, `dispatch`, `end` and `then_execute`. Each can panic in the code.
- Debug output has no effect on the model: `dbg!` in `Scene::new` and `surface.rs`, the `println!` in `Scene::new`, and the `log::info!` in the engine's `device::new`.
- Draws.Draw: a validation error from `acquire_next_image` or from the flush panics inside `Validated::unwrap` before the frame's own `match`. The model covers only the `VulkanError` outcomes, whose failures panic with the frame's own messages.
- Swapchains.NewSwapchain: the `vk::SwapchainKHR` made by the create call is not destroyed when the image query or the semaphore creation fails, because the error returns before any `Swapchain` owns it. The model returns the error and does not track the leaked handle.
- RawBuffers.NewRawBuffer: the `vk::Buffer` created before the memory-type search is not destroyed when the search fails, because the error returns before any `RawBuffer` owns it. The model returns the error and does not track the leaked handle. The same holds for the memory of `Subbuffer::from_data` when mapping fails.
- `cleanup_finished` on the pending future is a no-op in the model. Only its `unwrap` of the future is kept.
- Overflow in a debug build panics. The model follows the release build, which wraps.
- Subbuffers.Len: divides by a positive element size; zero-sized `T` and the `f64` rounding of the source's division are not modelled.
- RawBuffers.FindMemoryTypeIndex: requires `memory_type_count <= 32` and a 32-entry type array, which Vulkan guarantees, instead of modelling the slice panic a larger count would cause.
- Swapchains.DesiredImageCount: the bounds are stated for `min_image_count < u32::MAX`. At `u32::MAX` the wrap to 0 is stated separately.
- Draws.DispatchGroups: ceiling division is stated for sizes up to `u32::MAX - 31`. Beyond that the sum wraps, as the release build does.
- Swapchains.Resolution, Swapchains.Format: the shared surface is passed in, and the precondition names it by handle; the model does not represent the `Arc` itself.
- Swapchains.AcquireNextImage: the returned index is not checked against the number of images, just as the code does not check it.

## Findings

| source | as written | input that shows it | evidently intended | confidence | as-written member | corrected member |
|---|---|---|---|---|---|---|
| crates/rendering/src/prelude/buffer/raw_buffer.rs:21-23 | The `Concuttrnt(v)` variant sets `SharingMode::EXCLUSIVE` and attaches `v`. The index list is ignored under EXCLUSIVE. | `share_mode = Concuttrnt(&[0, 1])`: the buffer is created for exclusive ownership by one family at a time. | `SharingMode::CONCURRENT` with the listed families. | not executed; the variant name and the attached list indicate the intent | RawBuffers.ConcurrentRequestIsLost | RawBuffers.BufferInfoKeepsRequestedSharing |
| crates/rendering/src/prelude/device.rs:66-85 | One queue is requested (`priorities = [1.0]`), but the compute queue is fetched at index 1 of the same family. | Any device the search accepts: `vkGetDeviceQueue(family, 1)` names a queue that was never created, against section 5.3 of the Vulkan 1.3 specification. | Request a second queue when the family has one, or share queue 0. | not executed | Devices.ComputeQueueWasNeverCreated | Devices.NewDeviceQueuesWereCreated |
| crates/rendering/src/prelude/fence.rs:16-45 | The fence is created SIGNALED and nothing resets it, so every `queue_submit` passes a signaled fence. | `Fence::new`, then `submit_command_buffers`: the fence handed to `vkQueueSubmit` is signaled, against VUID-vkQueueSubmit-fence-00063, and `wait_for_finished` returns at once, before the batch has run. | `vkResetFences` on the fence before each submit. | not executed; a signaled start suits a wait-then-reset loop, but no reset exists anywhere | Fences.SubmitsSeeSignaledFence | Fences.ResetSubmitThenWaitSeesCompletion |
