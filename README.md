# vulkan-guide engine core in Dafny

A model of the two parts of the vulkan-guide engine (`VulkanEngine`) that have checkable behaviour:

- **The deferred release queue** (`DeletionQueue`). Teardown actions are pushed as their resources are created. `flush` runs them newest first and empties the queue.
- **The frame protocol.** It covers:
  - the two frame slots picked round-robin by the frame number;
  - start-up, which creates each slot's fence signalled;
  - the fixed sequence of one `draw`: fence wait and reset, acquire, slot queue flush, command-buffer reset and begin, layout transitions, compute dispatch, copy, end, submit, present, next frame;
  - the minimise/restore/quit flag machine of `run`;
  - the teardown order of `cleanup`.

Graphics-API, window-system and allocator calls are not executed. Each one is a `Command` appended to a ghost `trace`. A protocol monitor (`Commands.Step` / `Commands.Replay`) replays the trace. It tracks:

- which slots have a submission the CPU has not waited for;
- which semaphores are signalled;
- which command buffer is recording;
- each image's layout;
- which fences are known to be signalled: created signalled, or waited for, and not reset since.

It rejects any call that breaks these rules:

- a second device creation while a device exists;
- a fence wait on a fence that is neither known signalled nor guarding a pending submission, since such a wait never returns;
- a fence reset, command-buffer reset or slot-queue flush while that slot's submission is still in flight;
- a submit whose fence is still signalled;
- a transition whose old layout is not the image's current one (Undefined is always allowed as the old layout, because it discards the contents);
- a dispatch outside the General layout;
- a copy whose source is not a transfer source or whose destination is not a transfer destination;
- a submit that does not wait on a signalled semaphore, or that signals one already signalled;
- a present of an image not in the present layout;
- destroying the device with work in flight.

The engine class keeps `Replay(NoDevice, trace) == Some(view)` as its invariant. Every method that issues calls therefore proves they keep the protocol.

Modules:

- `DeletionQueues` (deletion_queue.dfy): the queue class, `Reversed`, and lemmas about it.
- `Frames` (frames.dfy): `FRAME_OVERLAP` and slot selection. `_frameNumber` is a signed `int` that C++ converts to `unsigned int` before the `%`; this is modelled as reduction modulo 2^32.
- `Commands` (commands.dfy): the command log, the monitor, the dispatch-grid arithmetic, the per-phase command lists of one frame and their conformance lemmas.
- `FrameLoop` (frame_loop.dfy): the events, the stop-rendering flag and which loop iterations draw.
- `Engine` (engine.dfy): `FrameData`, the single-instance registry (`loadedEngine`) and the `VulkanEngine` class with `init`, `draw`, `run` and `cleanup`.

The input that the device, the presentation engine and the window system supply becomes parameters:

- the number of swapchain images (`Init`'s `imageCount`);
- the image index each acquire returns (`Draw`'s `acquired`, a `Tick`'s `acquired`);
- the batches of window events each main-loop pass polls (`Tick.events`);
- the device finishing a slot's submission (`VulkanEngine.DeviceSignalsFence`), which only a slot with a pending submission can do.

`Draw`'s `blocked` result says whether the fence wait had to wait, meaning the slot's fence was still unsignalled. The engine's invariant ties each slot's `fenceSignaled` to the monitor: the fence either guards the slot's pending submission, or it is signalled and the monitor knows it. So every wait returns, and a blocking wait is always on a submitted fence.

`draw` flushes the slot's deletion queue after the acquire (src/vk_engine.cpp:356-358), which is still after the fence wait; `Draw` follows this order.

## Model

| member | source | states |
|---|---|---|
| DeletionQueues.DeletionQueue.constructor | src/vk_engine.h:10-12 | a new queue holds no actions |
| DeletionQueues.DeletionQueue.PushFunction | src/vk_engine.h:13-16 | the queue becomes the old queue with exactly the new action appended at the back; earlier entries are unchanged |
| DeletionQueues.DeletionQueue.Flush | src/vk_engine.h:18-26 | the actions run are exactly the pending ones in reverse push order, and the queue is empty afterwards |
| DeletionQueues.Reversed | src/vk_engine.h:20-24 | reverse iteration: same length, element k of the result is element \|s\|-1-k of the queue |
| DeletionQueues.ReversedIsPermutation | src/vk_engine.h:20-24 | a flush runs every pending action exactly once (same multiset) |
| DeletionQueues.ReversedPush | src/vk_engine.h:13-24 | the action pushed last runs first, followed by the older ones in reverse |
| DeletionQueues.PushFlushScenario | src/vk_engine.h:13-26 | pushes allocator, draw image, pipeline run as pipeline, draw image, allocator; an immediate second flush runs nothing |
| Frames.AsUnsigned32 | src/vk_engine.h:105 | the signed frame number converted to `unsigned int` lies below 2^32 |
| Frames.CurrentSlot | src/vk_engine.h:105 | the selected slot lies in [0, FRAME_OVERLAP) |
| Frames.SlotIsParity | src/vk_engine.h:105 | the slot is the frame number mod 2 for every int frame number, negative ones included, because 2^32 is even |
| Frames.SlotsAlternate | src/vk_engine.h:105 | frames k and k+1 use different slots; frames k and k+2 use the same slot |
| Frames.SlotVisitsBalanced | src/vk_engine.h:105 | over n consecutive frames each slot is used ceil(n/2) or floor(n/2) times, the first frame's slot getting the larger share |
| Commands.GroupCount | src/vk_engine.cpp:446 | the workgroup count along one axis is the least whose 16-pixel groups cover the extent |
| Commands.DispatchGroups | src/vk_engine.cpp:446 | the dispatch grid covers the draw extent with no spare row or column of groups, and has depth 1 |
| Commands.DefaultDispatch | src/vk_engine.h:63 | the default 1700 x 900 extent gives a 107 x 57 x 1 grid |
| Commands.FrameStartConforms | src/vk_engine.cpp:350-374 | from any state between frames, even with the slot still in flight, wait, reset, acquire, slot flush, buffer reset and begin are accepted; the slot is no longer in flight, the acquire semaphore is signalled and the slot's buffer is recording |
| Commands.RecordComputeConforms | src/vk_engine.cpp:376-379 | the draw image goes Undefined to General and the bound dispatch runs in General |
| Commands.RecordCopyConforms | src/vk_engine.cpp:381-389 | draw image General to TransferSrc, swapchain image Undefined to TransferDst, copy while they are in those layouts, swapchain image ends in PresentSrc |
| Commands.SubmitFrameConforms | src/vk_engine.cpp:392-423 | end, then submit waiting on the slot's swapchain semaphore and signalling its render semaphore and fence, then present waiting on that render semaphore; the slot is in flight afterwards |
| Commands.DrawConforms | src/vk_engine.cpp:348-427 | one whole frame is accepted from any state between frames whose slot fence is known signalled or guards a pending submission; afterwards the slot is in flight with its fence unsignalled, no semaphore is left signalled, the draw image is TransferSrc and the presented image PresentSrc |
| Commands.EarlyFlushRejected | src/vk_engine.cpp:351-358 | while the slot's submission is in flight, a log whose next command is the slot's queue flush (so the flush comes before the fence wait) is rejected, whatever follows |
| Commands.SkippedWaitRejected | src/vk_engine.cpp:351-352 | while the slot's submission is in flight, a frame without the fence wait is rejected at the fence reset |
| Commands.UnsignaledWaitRejected | src/vk_engine.cpp:351 | a wait on a fence that is neither known signalled nor guarding a pending submission is rejected, whatever follows |
| Commands.FenceCreatedSignaledConforms | src/vk_engine.cpp:222-228 | with nothing in flight on the slot, a frame right after creating its fence unsignalled is rejected at the first wait; after creating it signalled, the frame is accepted |
| Commands.SecondDeviceRejected | src/vk_engine.cpp:25-27 | creating a device while one exists is rejected, whatever follows |
| Commands.SetupKeepsView | src/vk_engine.cpp:218-232 | creating objects other than fences and devices on an existing device leaves the monitor state unchanged |
| Commands.ReleaseKeepsView | src/vk_engine.cpp:322-331 | destroying command pools, fences and semaphores with nothing in flight and no semaphore signalled leaves the monitor state unchanged |
| FrameLoop.StopAfterWithoutWindowEvents | src/vk_engine.cpp:456-469 | a batch without minimise or restore events leaves `stop_rendering` unchanged |
| FrameLoop.StopAfterLastWindowEvent | src/vk_engine.cpp:456-469 | otherwise the batch's last minimise (sets) or restore (clears) event decides the flag |
| FrameLoop.StopAfterStaysSet | src/vk_engine.cpp:463-468 | without a restore event a set flag stays set |
| FrameLoop.StopAfterStaysClear | src/vk_engine.cpp:463-468 | without a minimise event a clear flag stays clear |
| FrameLoop.QuitEndsLoop | src/vk_engine.cpp:453-480 | nothing after the pass that receives a quit event is drawn |
| FrameLoop.MinimizedDrawsNothing | src/vk_engine.cpp:472-479 | while minimised and not restored, no pass draws |
| FrameLoop.RenderingDrawsEveryTick | src/vk_engine.cpp:472-479 | while not minimised and not quitting, every pass draws |
| FrameLoop.LoopPass | src/vk_engine.cpp:453-480 | one pass of the loop preserves the loop invariant relating frames drawn so far, the flag and the passes still to come to the whole run |
| Engine.FrameData.constructor | src/vk_engine.h:29-37 | each slot owns a fresh, empty deletion queue |
| Engine.FrameData.SetCommandObjects | src/vk_engine.cpp:209-214 | the slot's command pool and buffer are the ones created for it |
| Engine.FrameData.SetSyncObjects | src/vk_engine.cpp:228-230 | the slot's fence and semaphores are the ones created for it, and the fence starts signalled |
| Engine.FrameData.StartFrame | src/vk_engine.cpp:351-358 | the slot's side of the start of `draw`: the wait blocks iff the fence is unsignalled, the fence ends unsignalled, and exactly the slot's queue runs, newest first, leaving it empty |
| Engine.SyncObjectsConform | src/vk_engine.cpp:226-231 | creating one slot's fence (signalled) and semaphores makes the fence known signalled and changes nothing else in the monitor state |
| Engine.Registry.constructor | src/vk_engine.cpp:20 | no engine is loaded at first |
| Engine.FramesConform | src/vk_engine.cpp:449-481 | any number of consecutive frames on their round-robin slots, with any acquired images, is accepted from a state between frames where each slot's fence is known signalled or guards a pending submission, and ends in such a state with no semaphore signalled |
| Engine.TeardownConforms | src/vk_engine.cpp:316-342 | from any state between frames, device wait idle, main flush, per-slot destruction and the final destroys are accepted and leave no device |
| Engine.ShutdownConforms | src/vk_engine.cpp:334-341 | with the device idle, swapchain, surface, device, debug messenger, instance and window are destroyed in an order the monitor accepts |
| Engine.VulkanEngine.constructor | src/vk_engine.h:60-63 | not initialised, frame 0, rendering on, window 1700 x 900, empty queues, two distinct slots |
| Engine.VulkanEngine.CurrentFrame | src/vk_engine.h:105 | the returned slot data is `frames[CurrentSlot(frameNumber)]`, one of the two slots |
| Engine.VulkanEngine.Init | src/vk_engine.cpp:23-52 | requires that no engine is loaded and that this engine has no live device (a live device means this engine set the process-wide pointer and has not cleaned up); claims the registry; issues the start-up calls in source order; queues the allocator, draw-image and pipeline teardowns in that order; both fences are signalled; the engine is ready to draw |
| Engine.VulkanEngine.InitVulkan | src/vk_engine.cpp:54-117 | creates the device and queues the allocator's destruction |
| Engine.VulkanEngine.InitSwapchain | src/vk_engine.cpp:119-122 | creates the swapchain at the window extent (see CreateSwapchain) |
| Engine.VulkanEngine.CreateSwapchain | src/vk_engine.cpp:124-181 | records the image count; the draw image takes the window's extent; queues the draw image's destruction |
| Engine.VulkanEngine.InitCommands | src/vk_engine.cpp:196-216 | every slot gets its own command pool and buffer; each slot's fence and semaphore handles and fence state are unchanged |
| Engine.VulkanEngine.InitSyncStructures | src/vk_engine.cpp:218-232 | every slot gets its fence, created signalled, and its two semaphores; both fences end signalled and known so to the monitor, so the first wait on each slot returns at once; each slot's command pool and buffer handles are unchanged |
| Engine.VulkanEngine.InitDescriptors | src/vk_engine.cpp:234-267 | creates the draw image's descriptors, with no queued teardown |
| Engine.VulkanEngine.InitPipelines | src/vk_engine.cpp:269-272 | delegates to InitBackgroundPipelines |
| Engine.VulkanEngine.InitBackgroundPipelines | src/vk_engine.cpp:274-312 | creates the gradient pipeline and queues its destruction |
| Engine.VulkanEngine.Draw | src/vk_engine.cpp:348-427 | issues exactly `DrawCommands` for the current slot, in order and all on that slot (see the Commands rows); blocks iff the slot's fence was unsignalled, and blocks only on a fence guarding the slot's pending submission; leaves the fence unsignalled; runs exactly the slot's queue, newest first, and empties it; leaves the other slot's queue and the main queue alone; presents the acquired image; advances the frame number by one; the monitor accepts the new trace |
| Engine.VulkanEngine.DrawBackground | src/vk_engine.cpp:429-447 | binds the pipeline and descriptors, then dispatches the grid for the draw extent |
| Engine.VulkanEngine.DeviceSignalsFence | src/vk_engine.cpp:404-406 | the device signals a slot's fence only when the fence guards a pending submission; the engine stays ready |
| Engine.VulkanEngine.StartupFrames | src/vk_engine.cpp:348-352 | from the state start-up leaves, frames 0 and 1 do not block and frame 2 blocks on slot 0's fence, whose submission the device has not finished |
| Engine.VulkanEngine.CompletedSlotDoesNotBlock | src/vk_engine.cpp:348-352 | once the device has finished the current slot's pending submission, the next frame on that slot does not block |
| Engine.VulkanEngine.PollEvents | src/vk_engine.cpp:456-469 | quit is reported iff the batch holds a quit event; the flag ends as `StopAfter` of the batch |
| Engine.VulkanEngine.MainLoopPass | src/vk_engine.cpp:453-480 | reports a quit event iff the batch has one; a pass whose flag is set after the poll changes no trace, monitor state, released action, draw extent, slot or slot queue; otherwise it issues exactly `DrawCommands` for the current slot, runs exactly that slot's queue and empties it, leaves the slot's fence unsignalled, leaves the other slot's queue and fence flag unchanged, sets the draw extent and moves the monitor state as `Draw` does |
| Engine.VulkanEngine.Run | src/vk_engine.cpp:449-481 | the final flag, the number of frames drawn and the images presented are those of `DrawnTicks`: minimised passes do not draw, and the quit pass is the last |
| Engine.VulkanEngine.Cleanup | src/vk_engine.cpp:314-346 | if initialised: idles the device, runs the main queue newest first (pipeline, draw image, allocator), destroys each slot's objects, then swapchain, surface, device, messenger, instance, window, all accepted by the monitor; otherwise issues nothing; always clears the registry |
| Engine.ShutdownScenario | src/vk_engine.cpp:316-321 | start-up followed by shutdown runs the pipeline teardown, then the draw image's, then the allocator's |

## Left out

- Vulkan, SDL, VMA and vk-bootstrap internals: instance, device, surface, swapchain, image and view creation, descriptor writes and shader loading. Each is one abstract command. A shader that fails to load is only logged in `init_background_pipelines`, so it is not modelled.
- `vk_pipelines.cpp`, `vk_pipelines.h` and `vk_descriptors.h`. The descriptor helpers' bodies are not part of this model.
- The GPU running concurrently with the CPU. `VulkanEngine.DeviceSignalsFence` is the only device-side step.
- Timeouts of the fence wait and the acquire. A failing call's `VK_CHECK` abort is not modelled either: every call is taken to succeed, and a call the monitor would refuse is ruled out by the proof rather than handled. In particular there is no out-of-date swapchain recovery, as in the code.
- `resize_requested` (src/vk_engine.h:125) is never set or read by the code here, so it is left out.
- The floating-point clear colour in `draw_background`. `std::ceil(w / 16.0)` is modelled as the integer ceiling division `(w + 15) / 16`, which is exact for 32-bit extents.
- The frames' deletion queues are never pushed to by this code. `Draw` still runs them, with `FrameResource` tags standing for whatever a caller might queue.
- `sleep_for` throttling and `SDL_PollEvent`. The events of each pass are an input batch, and `run` stops when its input runs out, whereas the code loops until a quit event.
- Run: states the final flag, how many frames are drawn and which images are presented. It does not state the concatenated command trace of all the frames, nor the actions released or the slot queues' contents afterwards. The command list of each frame is stated by `Draw`, and `FramesConform` proves that any sequence of frames keeps the protocol.
- Signed overflow of `_frameNumber` after 2^31 frames is not modelled. The frame number is an unbounded int.
- Cleanup: a second `cleanup` after a successful one is excluded. The code does not reset `_isInitialized`, so it would destroy every object again. `Cleanup` requires the engine to be ready whenever it is initialised, which rules that call out.
- `VulkanEngine::Get()`, `immediate_submit`, `upload_mesh`, `resize_swapchain` and the mesh and imgui functions declared in src/vk_engine.h. They are either only an accessor or not defined in these files.
