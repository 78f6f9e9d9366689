/**
 * The engine: per-slot frame data, the process-wide deletion queue, the
 * single-instance guard, start-up, the per-frame draw, the main loop and
 * shutdown. Calls into the graphics API, the window system and the memory
 * allocator are not modelled; each one is recorded as a command in the ghost
 * `trace`, which the protocol monitor of `Commands` must accept.
 */
module Engine {
  import opened DeletionQueues
  import opened Frames
  import opened Commands
  import opened FrameLoop

  datatype Extent2D = Extent2D(width: nat, height: nat)

  /** The per-slot resources (`FrameData`): handles are named by their slot index once created. */
  class FrameData {
    var commandPool: nat
    var mainCommandBuffer: nat
    var swapchainSemaphore: nat
    var renderSemaphore: nat
    var renderFence: nat
    /** Whether `renderFence` is signalled: set by the device when the slot's submission completes. */
    var fenceSignaled: bool
    /** The slot's own queue of frame-scoped teardown actions. */
    const deletionQueue: DeletionQueue

    constructor ()
      ensures fresh(deletionQueue) && deletionQueue.deletors == [] && !fenceSignaled
    {
      deletionQueue := new DeletionQueue();
      fenceSignaled := false;
    }

    /** `init_commands` has created the slot's command pool and buffer. */
    ghost predicate CommandsBound(slot: nat)
      reads this`commandPool, this`mainCommandBuffer
    {
      commandPool == slot && mainCommandBuffer == slot
    }

    /** `init_sync_structures` has created the slot's fence and semaphores. */
    ghost predicate SyncBound(slot: nat)
      reads this`renderFence, this`swapchainSemaphore, this`renderSemaphore
    {
      renderFence == slot && swapchainSemaphore == slot && renderSemaphore == slot
    }

    /** The slot's command pool and buffer handles, as one value. */
    ghost function CommandObjects(): (nat, nat)
      reads this`commandPool, this`mainCommandBuffer
    {
      (commandPool, mainCommandBuffer)
    }

    /** The slot's fence and semaphore handles and the fence's state, as one value. */
    ghost function SyncObjects(): (nat, nat, nat, bool)
      reads this`renderFence, this`swapchainSemaphore, this`renderSemaphore, this`fenceSignaled
    {
      (renderFence, swapchainSemaphore, renderSemaphore, fenceSignaled)
    }

    /** The handles of slot `slot` have been created. */
    ghost predicate BoundTo(slot: nat)
      reads this`commandPool, this`mainCommandBuffer, this`renderFence, this`swapchainSemaphore, this`renderSemaphore
    {
      CommandsBound(slot) && SyncBound(slot)
    }

    /**
     * The slot's part of the start of `draw`: the fence wait (which has to
     * block iff the fence is unsignalled), the fence reset, and the flush of
     * the slot's deletion queue, returning the actions run.
     */
    method StartFrame() returns (blocked: bool, executed: seq<Action>)
      modifies this`fenceSignaled, deletionQueue
      ensures blocked == !old(fenceSignaled) && !fenceSignaled
      ensures executed == Reversed(old(deletionQueue.deletors)) && deletionQueue.deletors == []
    {
      blocked := !fenceSignaled;
      fenceSignaled := false;
      executed := deletionQueue.Flush();
    }

    /** Stores the command pool and buffer created for `slot`. */
    method SetCommandObjects(slot: nat)
      modifies this`commandPool, this`mainCommandBuffer
      ensures CommandsBound(slot)
    {
      commandPool := slot;
      mainCommandBuffer := slot;
    }

    /** Stores the fence (created signalled) and the two semaphores created for `slot`. */
    method SetSyncObjects(slot: nat)
      modifies this`renderFence, this`fenceSignaled, this`swapchainSemaphore, this`renderSemaphore
      ensures SyncBound(slot) && fenceSignaled
    {
      renderFence := slot;
      fenceSignaled := true;
      swapchainSemaphore := slot;
      renderSemaphore := slot;
    }
  }

  /** The process-wide pointer to the one initialised engine (`loadedEngine`). */
  class Registry {
    var loaded: VulkanEngine?

    constructor ()
      ensures loaded == null
    {
      loaded := null;
    }
  }

  /** The commands of every drawn frame, the k-th drawn tick being frame first + k. */
  function FramesTrace(first: int, drawn: seq<Tick>, groups: (nat, nat, nat)): seq<Command>
    decreases |drawn|
  {
    if drawn == [] then []
    else
      var k := |drawn| - 1;
      FramesTrace(first, drawn[..k], groups) + DrawCommands(CurrentSlot(first + k), drawn[k].acquired, groups)
  }

  lemma AcquiredImagesGrow(start: seq<nat>, before: seq<nat>, after: seq<nat>, drawn: seq<Tick>, tick: Tick)
    requires before == start + AcquiredImages(drawn)
    requires after == before + [tick.acquired]
    ensures after == start + AcquiredImages(drawn + [tick])
  {
    assert (drawn + [tick])[..|drawn|] == drawn;
    AppendAssoc(start, AcquiredImages(drawn), [tick.acquired]);
  }

  /**
   * Any number of consecutive frames keeps the protocol: starting between
   * frames with no semaphore signalled, the log of all of them replays, and
   * ends between frames again with no semaphore signalled and only frame
   * slots in flight. Each slot's fence must start known signalled or guard a
   * pending submission, and so it is again at the end.
   */
  lemma {:induction false} FramesConform(v: View, first: int, drawn: seq<Tick>, groups: (nat, nat, nat))
    requires v.device && v.recording == None && v.signaled == {} && {0, 1} <= v.fences + v.inFlight
    ensures Replay(v, FramesTrace(first, drawn, groups)).Some?
    ensures var w := Replay(v, FramesTrace(first, drawn, groups)).value;
      && w.device && w.recording == None && w.signaled == {} && w.inFlight <= v.inFlight + {0, 1}
      && {0, 1} <= w.fences + w.inFlight
    decreases |drawn|
  {
    if drawn != [] {
      var k := |drawn| - 1;
      FramesConform(v, first, drawn[..k], groups);
      var w := Replay(v, FramesTrace(first, drawn[..k], groups)).value;
      ReplayAppend(v, FramesTrace(first, drawn[..k], groups), DrawCommands(CurrentSlot(first + k), drawn[k].acquired, groups));
      DrawConforms(w, CurrentSlot(first + k), drawn[k].acquired, groups);
    }
  }

  class VulkanEngine {
    var isInitialized: bool
    var frameNumber: int
    var stopRendering: bool
    const windowExtent: Extent2D
    var swapchainImageCount: nat
    var drawImageExtent: Extent2D
    var drawExtent: Extent2D
    /** `_frames[FRAME_OVERLAP]`: the array is never replaced, only its slots' fields change. */
    const frames: array<FrameData>
    const mainDeletionQueue: DeletionQueue
    /** Every teardown action run so far, in the order it ran. */
    var released: seq<Action>
    /** Every API call issued so far, and the monitor's state after them. */
    ghost var trace: seq<Command>
    /** The swapchain images handed to the presentation engine so far, in order. */
    ghost var presented: seq<nat>
    ghost var view: View

    /** Object structure, and a trace the monitor accepts that ends between frames. */
    ghost predicate Valid()
      reads this, frames
    {
      && frames.Length == FRAME_OVERLAP
      && frames[0] != frames[1]
      && frames[0].deletionQueue != frames[1].deletionQueue
      && mainDeletionQueue != frames[0].deletionQueue
      && mainDeletionQueue != frames[1].deletionQueue
      && Replay(NoDevice, trace) == Some(view)
      && view.signaled == {} && view.recording == None
    }

    /**
     * The slot's fence either guards the slot's pending submission, or is
     * signalled and known so to the monitor: a wait on it always returns.
     */
    ghost predicate FenceTracked(slot: nat)
      reads this, frames, frames[..]
      requires slot < frames.Length
    {
      slot in view.inFlight || (frames[slot].fenceSignaled && slot in view.fences)
    }

    /** Initialised, with a device, bound slot handles, tracked fences and a swapchain: `draw` may run. */
    ghost predicate Ready()
      reads this, frames, frames[..]
    {
      && Valid()
      && isInitialized
      && view.device
      && frames[0].BoundTo(0) && frames[1].BoundTo(1)
      && FenceTracked(0) && FenceTracked(1)
      && swapchainImageCount > 0
    }

    /** The engine as declared: nothing created yet, frame 0, window 1700 x 900. */
    constructor ()
      ensures Valid() && fresh(frames) && fresh(mainDeletionQueue)
      ensures fresh(frames[0]) && fresh(frames[1]) && fresh(frames[0].deletionQueue) && fresh(frames[1].deletionQueue)
      ensures !isInitialized && frameNumber == 0 && !stopRendering
      ensures windowExtent == Extent2D(1700, 900)
      ensures mainDeletionQueue.deletors == [] && released == []
      ensures frames[0].deletionQueue.deletors == [] && frames[1].deletionQueue.deletors == []
      ensures trace == [] && view == NoDevice && presented == []
    {
      var slot0 := new FrameData();
      var slot1 := new FrameData();
      frames := new FrameData[FRAME_OVERLAP] [slot0, slot1];
      mainDeletionQueue := new DeletionQueue();
      isInitialized, frameNumber, stopRendering := false, 0, false;
      windowExtent := Extent2D(1700, 900);
      drawImageExtent, drawExtent := Extent2D(0, 0), Extent2D(0, 0);
      swapchainImageCount := 0;
      released := [];
      trace, view, presented := [], NoDevice, [];
    }

    /** The slot `get_current_frame` returns. */
    function CurrentFrame(): (frame: FrameData)
      reads this, frames
      requires Valid()
      ensures frame == frames[CurrentSlot(frameNumber)]
      ensures frame == frames[0] || frame == frames[1]
    {
      frames[CurrentSlot(frameNumber)]
    }

    /** Records an API call the monitor accepts. */
    ghost method Issue(c: Command)
      requires Replay(NoDevice, trace) == Some(view) && Step(view, c).Some?
      modifies this`trace, this`view
      ensures trace == old(trace) + [c] && view == Step(old(view), c).value
      ensures Replay(NoDevice, trace) == Some(view)
    {
      assert (trace + [c])[..|trace|] == trace;
      trace := trace + [c];
      view := Step(view, c).value;
    }

    /** Records a run of API calls the monitor accepts, ending in `next`. */
    ghost method IssueAll(log: seq<Command>, next: View)
      requires Replay(NoDevice, trace) == Some(view) && Replay(view, log) == Some(next)
      modifies this`trace, this`view
      ensures trace == old(trace) + log && view == next
      ensures Replay(NoDevice, trace) == Some(view)
    {
      ReplayAppend(NoDevice, trace, log);
      trace := trace + log;
      view := next;
    }

    /**
     * Records one frame's API calls, logged phase by phase; the monitor
     * accepts them whenever the engine is ready.
     */
    ghost method IssueFrame(started: seq<Command>, computed: seq<Command>, copied: seq<Command>, submitted: seq<Command>,
                            slot: nat, image: nat, groups: (nat, nat, nat))
      requires started == FrameStart(slot, image) && computed == RecordCompute(groups)
      requires copied == RecordCopy(image) && submitted == SubmitFrame(slot, image)
      requires Replay(NoDevice, trace) == Some(view)
      requires view.device && view.signaled == {} && view.recording == None
      requires slot in view.fences || slot in view.inFlight
      requires frames.Length == FRAME_OVERLAP && slot < FRAME_OVERLAP && FenceTracked(1 - slot)
      modifies this`trace, this`view
      ensures FenceTracked(0) && FenceTracked(1)
      ensures trace == old(trace) + DrawCommands(slot, image, groups)
      ensures view == old(view).(inFlight := old(view.inFlight) + {slot}, fences := old(view.fences) - {slot},
                                 layouts := old(view.layouts)[DrawImage := TransferSrc][SwapchainImage(image) := PresentSrc])
      ensures Replay(NoDevice, trace) == Some(view)
    {
      DrawConforms(view, slot, image, groups);
      IssueAll(DrawCommands(slot, image, groups), Replay(view, DrawCommands(slot, image, groups)).value);
    }

    /**
     * `init`: claims the single-instance slot, opens the window, then creates
     * the device, swapchain, per-slot command buffers, fences (signalled) and
     * semaphores, descriptors and the compute pipeline, registering the
     * allocator, draw image and pipeline teardowns on the main queue in that
     * order. The single-instance assertion stands for the process-wide
     * pointer; an engine whose device is still live has set it, so `Init`
     * also requires that this engine has no device.
     */
    method Init(registry: Registry, imageCount: nat)
      requires Valid() && registry.loaded == null && !view.device && imageCount > 0
      modifies this`isInitialized, this`swapchainImageCount, this`drawImageExtent, this`trace, this`view
      modifies registry, mainDeletionQueue, frames[0], frames[1]
      ensures Ready() && registry.loaded == this
      ensures mainDeletionQueue.deletors ==
        old(mainDeletionQueue.deletors) + [DestroyAllocator] + [DestroyDrawImage] + [DestroyGradientPipeline]
      ensures frames[0].fenceSignaled && frames[1].fenceSignaled
      ensures unchanged(frames[0].deletionQueue, frames[1].deletionQueue)
      ensures swapchainImageCount == imageCount && drawImageExtent == windowExtent
      ensures trace == old(trace) + InitSequence(imageCount) && view == FreshDevice.(fences := {0, 1})
    {
      InitSequenceSplits(trace, imageCount);
      registry.loaded := this;
      Issue(Setup(CreateWindow));
      InitVulkan();
      InitSwapchain(imageCount);
      InitCommands();
      InitSyncStructures();
      InitDescriptors();
      InitPipelines();
      isInitialized := true;
    }

    /** Creates instance, device and allocator; registers the allocator's destruction. */
    method InitVulkan()
      requires Valid() && !view.device
      modifies this`trace, this`view, mainDeletionQueue
      ensures Valid() && view == FreshDevice && trace == old(trace) + [Setup(CreateDevice)]
      ensures mainDeletionQueue.deletors == old(mainDeletionQueue.deletors) + [DestroyAllocator]
    {
      Issue(Setup(CreateDevice));
      mainDeletionQueue.PushFunction(DestroyAllocator);
    }

    method InitSwapchain(imageCount: nat)
      requires Valid() && view.device
      modifies this`trace, this`view, this`swapchainImageCount, this`drawImageExtent, mainDeletionQueue
      ensures Valid() && view == old(view)
      ensures trace == old(trace) + [Setup(SetupCall.CreateSwapchain(imageCount)), Setup(CreateDrawImage)]
      ensures swapchainImageCount == imageCount && drawImageExtent == windowExtent
      ensures mainDeletionQueue.deletors == old(mainDeletionQueue.deletors) + [DestroyDrawImage]
    {
      CreateSwapchain(windowExtent.width, windowExtent.height, imageCount);
    }

    /**
     * `create_swapchain`: the presentation engine supplies `imageCount`
     * images; the draw image takes the window's extent (not the requested
     * one); its destruction is registered on the main queue.
     */
    method CreateSwapchain(width: nat, height: nat, imageCount: nat)
      requires Valid() && view.device
      modifies this`trace, this`view, this`swapchainImageCount, this`drawImageExtent, mainDeletionQueue
      ensures Valid() && view == old(view)
      ensures trace == old(trace) + [Setup(SetupCall.CreateSwapchain(imageCount)), Setup(CreateDrawImage)]
      ensures swapchainImageCount == imageCount && drawImageExtent == windowExtent
      ensures mainDeletionQueue.deletors == old(mainDeletionQueue.deletors) + [DestroyDrawImage]
    {
      Issue(Setup(SetupCall.CreateSwapchain(imageCount)));
      swapchainImageCount := imageCount;
      drawImageExtent := windowExtent;
      Issue(Setup(CreateDrawImage));
      mainDeletionQueue.PushFunction(DestroyDrawImage);
    }

    /** `init_commands`: one command pool and buffer per slot. */
    method InitCommands()
      requires Valid() && view.device
      modifies this`trace, this`view, frames[0], frames[1]
      ensures Valid() && view == old(view)
      ensures trace == old(trace) + CommandPoolsCreated(FRAME_OVERLAP)
      ensures frames[0].CommandsBound(0) && frames[1].CommandsBound(1)
      ensures frames[0].SyncObjects() == old(frames[0].SyncObjects())
      ensures frames[1].SyncObjects() == old(frames[1].SyncObjects())
    {
      for i := 0 to FRAME_OVERLAP
        invariant Valid() && view == old(view)
        invariant trace == old(trace) + CommandPoolsCreated(i)
        invariant forall j :: 0 <= j < i ==> frames[j].CommandsBound(j)
        invariant frames[0].SyncObjects() == old(frames[0].SyncObjects())
        invariant frames[1].SyncObjects() == old(frames[1].SyncObjects())
      {
        Issue(Setup(CreateCommandPool(i)));
        frames[i].SetCommandObjects(i);
      }
    }

    /** `init_sync_structures`: per slot a fence created signalled and two semaphores. */
    method InitSyncStructures()
      requires Valid() && view.device
      modifies this`trace, this`view, frames[0], frames[1]
      ensures Valid() && view == old(view).(fences := old(view.fences) + {0, 1})
      ensures trace == old(trace) + SyncObjectsCreated(FRAME_OVERLAP)
      ensures frames[0].SyncBound(0) && frames[1].SyncBound(1)
      ensures frames[0].fenceSignaled && frames[1].fenceSignaled && FenceTracked(0) && FenceTracked(1)
      ensures frames[0].CommandObjects() == old(frames[0].CommandObjects())
      ensures frames[1].CommandObjects() == old(frames[1].CommandObjects())
    {
      for i := 0 to FRAME_OVERLAP
        invariant Valid() && view == old(view).(fences := view.fences) && view.fences == old(view.fences) + SlotsBelow(i)
        invariant trace == old(trace) + SyncObjectsCreated(i)
        invariant 0 < i ==> frames[0].SyncBound(0) && frames[0].fenceSignaled
        invariant 1 < i ==> frames[1].SyncBound(1) && frames[1].fenceSignaled
        invariant frames[0].CommandObjects() == old(frames[0].CommandObjects())
        invariant frames[1].CommandObjects() == old(frames[1].CommandObjects())
      {
        SyncObjectsConform(view, i);
        IssueAll(SyncObjectsFor(i), view.(fences := view.fences + {i}));
        frames[i].SetSyncObjects(i);
        assert SlotsBelow(i) + {i} == SlotsBelow(i + 1);
      }
      assert SlotsBelow(FRAME_OVERLAP) == {0, 1};
    }

    /** `init_descriptors`: the descriptor pool, layout and set for the draw image. */
    method InitDescriptors()
      requires Valid() && view.device
      modifies this`trace, this`view
      ensures Valid() && view == old(view) && trace == old(trace) + [Setup(CreateDescriptors)]
    {
      Issue(Setup(CreateDescriptors));
    }

    method InitPipelines()
      requires Valid() && view.device
      modifies this`trace, this`view, mainDeletionQueue
      ensures Valid() && view == old(view) && trace == old(trace) + [Setup(CreateComputePipeline)]
      ensures mainDeletionQueue.deletors == old(mainDeletionQueue.deletors) + [DestroyGradientPipeline]
    {
      InitBackgroundPipelines();
    }

    /** `init_background_pipelines`: the gradient compute pipeline; registers its destruction. */
    method InitBackgroundPipelines()
      requires Valid() && view.device
      modifies this`trace, this`view, mainDeletionQueue
      ensures Valid() && view == old(view) && trace == old(trace) + [Setup(CreateComputePipeline)]
      ensures mainDeletionQueue.deletors == old(mainDeletionQueue.deletors) + [DestroyGradientPipeline]
    {
      Issue(Setup(CreateComputePipeline));
      mainDeletionQueue.PushFunction(DestroyGradientPipeline);
    }

    /**
     * `draw`: waits for the slot's fence and resets it, acquires swapchain
     * image `acquired`, runs the slot's deletion queue, records the compute
     * pass and the copy into the acquired image, submits the command buffer
     * (waiting on the slot's swapchain semaphore, signalling its render
     * semaphore and fence) and presents; then moves to the next frame.
     * `blocked` tells whether the fence was still unsignalled, i.e. whether
     * the CPU had to wait for the slot's previous submission; it only ever
     * waits on a fence that guards a pending submission.
     */
    method Draw(acquired: nat) returns (blocked: bool)
      requires Ready() && acquired < swapchainImageCount
      modifies this`frameNumber, this`drawExtent, this`released, this`trace, this`view, this`presented
      modifies CurrentFrame()`fenceSignaled, CurrentFrame().deletionQueue
      ensures Ready()
      ensures var slot := CurrentSlot(old(frameNumber));
        && frameNumber == old(frameNumber) + 1
        && blocked == !old(frames[slot].fenceSignaled) && !frames[slot].fenceSignaled
        && (blocked ==> slot in old(view.inFlight))
        && frames[slot].deletionQueue.deletors == []
        && frames[1 - slot].deletionQueue.deletors == old(frames[1 - slot].deletionQueue.deletors)
        && mainDeletionQueue.deletors == old(mainDeletionQueue.deletors)
        && released == old(released) + Reversed(old(frames[slot].deletionQueue.deletors))
        && drawExtent == drawImageExtent
        && presented == old(presented) + [acquired]
        && trace == old(trace) + DrawCommands(slot, acquired, DispatchGroups(drawImageExtent.width, drawImageExtent.height))
        && view == old(view).(inFlight := old(view.inFlight) + {slot}, fences := old(view.fences) - {slot},
                              layouts := old(view.layouts)[DrawImage := TransferSrc][SwapchainImage(acquired) := PresentSrc])
    {
      var frame := CurrentFrame();
      ghost var slot := CurrentSlot(frameNumber);
      // the wait returns once the device has signalled the fence (it guards a pending submission if
      // unsignalled); the acquire between the reset and the flush only signals the swapchain semaphore,
      // and the presentation engine chooses the image index
      var executed;
      blocked, executed := frame.StartFrame();
      released := released + executed;
      ghost var started := [Sync(WaitForFence(frame.renderFence)), Sync(ResetFence(frame.renderFence)),
                            Sync(AcquireNextImage(SwapchainSemaphore(frame.swapchainSemaphore), acquired)),
                            Teardown(FlushFrameQueue(slot))];
      var cmd := frame.mainCommandBuffer;
      started := started + [Recording(ResetCommandBuffer(cmd))];
      drawExtent := drawImageExtent;
      started := started + [Recording(BeginCommandBuffer(cmd))];

      ghost var computed := [Recording(TransitionImage(DrawImage, Undefined, General))];
      var background := DrawBackground();
      computed := computed + background;
      ghost var drawGroups := DispatchGroups(drawImageExtent.width, drawImageExtent.height);

      ghost var copied := [Recording(TransitionImage(DrawImage, General, TransferSrc))];
      copied := copied + [Recording(TransitionImage(SwapchainImage(acquired), Undefined, TransferDst))];
      copied := copied + [Recording(CopyImage(DrawImage, SwapchainImage(acquired)))];
      copied := copied + [Recording(TransitionImage(SwapchainImage(acquired), TransferDst, PresentSrc))];

      ghost var submitted := [Recording(EndCommandBuffer(cmd))];
      submitted := submitted + [Sync(QueueSubmit(cmd, SwapchainSemaphore(frame.swapchainSemaphore),
                                                RenderSemaphore(frame.renderSemaphore), frame.renderFence))];
      submitted := submitted + [Sync(QueuePresent(RenderSemaphore(frame.renderSemaphore), acquired))];
      presented := presented + [acquired];
      frameNumber := frameNumber + 1;

      IssueFrame(started, computed, copied, submitted, slot, acquired, drawGroups);
    }

    /**
     * `draw_background`: binds the gradient pipeline and its descriptors and
     * covers the draw extent with 16 x 16 workgroups; returns what it recorded.
     */
    method DrawBackground() returns (recorded: seq<Command>)
      ensures recorded == RecordCompute(DispatchGroups(drawExtent.width, drawExtent.height))[1..]
    {
      recorded := [Recording(BindComputePipeline), Recording(BindDrawImageDescriptors)];
      var groups := DispatchGroups(drawExtent.width, drawExtent.height);
      recorded := recorded + [Recording(Dispatch(groups.0, groups.1, groups.2))];
    }


    /**
     * The device finishes the slot's pending submission and signals the
     * fence that `draw` handed to the submit. Only a fence guarding a
     * pending submission is signalled this way.
     */
    method DeviceSignalsFence(slot: nat)
      requires Ready() && slot < FRAME_OVERLAP && slot in view.inFlight
      modifies (frames[slot] as FrameData)`fenceSignaled
      ensures Ready() && frames[slot].fenceSignaled
    {
      frames[slot].fenceSignaled := true;
    }

    /**
     * Three frames from the state `init` leaves (nothing in flight): slots 0
     * and 1 find their fences signalled; the third frame reuses slot 0 while
     * the device has not yet finished that slot's submission, so it has to
     * wait on the fence.
     */
    method StartupFrames() returns (blocked: seq<bool>)
      requires Ready() && frameNumber == 0 && swapchainImageCount >= 3 && view.inFlight == {}
      modifies this`frameNumber, this`drawExtent, this`released, this`trace, this`view, this`presented
      modifies frames[0], frames[1], frames[0].deletionQueue, frames[1].deletionQueue
      ensures blocked == [false, false, true]
    {
      assert CurrentSlot(0) == 0 && CurrentSlot(1) == 1 && CurrentSlot(2) == 0;
      var first := Draw(0);
      assert !first && frameNumber == 1 && !frames[0].fenceSignaled;
      var second := Draw(1);
      assert !second && frameNumber == 2 && !frames[0].fenceSignaled;
      var third := Draw(2);
      blocked := [first, second, third];
    }

    /**
     * Once the device has finished the current slot's pending submission and
     * signalled its fence, the next frame on that slot does not wait.
     */
    method CompletedSlotDoesNotBlock(acquired: nat) returns (blocked: bool)
      requires Ready() && acquired < swapchainImageCount && CurrentSlot(frameNumber) in view.inFlight
      modifies this`frameNumber, this`drawExtent, this`released, this`trace, this`view, this`presented
      modifies frames[0], frames[1], frames[0].deletionQueue, frames[1].deletionQueue
      ensures !blocked
    {
      DeviceSignalsFence(CurrentSlot(frameNumber));
      blocked := Draw(acquired);
    }

    /**
     * `run`: each pass of the main loop polls one tick's events (quit,
     * minimise and restore decide `bQuit` and `stop_rendering`), then draws
     * into the tick's acquired image unless rendering is stopped. The pass
     * that sees the quit event still draws. The loop also ends when the
     * ticks run out.
     */
    method Run(ticks: seq<Tick>)
      requires Ready()
      requires forall t :: 0 <= t < |ticks| ==> ticks[t].acquired < swapchainImageCount
      modifies this`frameNumber, this`stopRendering, this`drawExtent, this`released, this`trace, this`view, this`presented
      modifies frames[0], frames[1], frames[0].deletionQueue, frames[1].deletionQueue
      ensures Ready()
      ensures stopRendering == FinalStop(old(stopRendering), ticks)
      ensures frameNumber == old(frameNumber) + |DrawnTicks(old(stopRendering), ticks)|
      ensures presented == old(presented) + AcquiredImages(DrawnTicks(old(stopRendering), ticks))
    {
      ghost var drawn: seq<Tick> := [];
      ghost var rest := ticks;
      var quit := false;
      var t := 0;
      while !quit && t < |ticks|
        invariant Ready() && t <= |ticks|
        invariant rest == if quit then [] else ticks[t..]
        invariant frameNumber == old(frameNumber) + |drawn|
        invariant presented == old(presented) + AcquiredImages(drawn)
        invariant DrawnTicks(old(stopRendering), ticks) == drawn + DrawnTicks(stopRendering, rest)
        invariant FinalStop(old(stopRendering), ticks) == FinalStop(stopRendering, rest)
        decreases |ticks| - t
      {
        assert rest[0] == ticks[t] && rest[1..] == ticks[t + 1..];
        ghost var (stop, pending, drawnBefore) := (stopRendering, rest, drawn);
        ghost var shown := presented;
        quit := MainLoopPass(ticks[t]);
        rest := if quit then [] else ticks[t + 1..];
        if !stopRendering {
          AcquiredImagesGrow(old(presented), shown, presented, drawn, ticks[t]);
          drawn := drawn + [ticks[t]];
        }
        LoopPass(old(stopRendering), ticks, stop, pending, drawnBefore, stopRendering, rest, drawn);
        t := t + 1;
      }
      assert rest == [];
      assert drawn + DrawnTicks(stopRendering, rest) == drawn;
    }

    /** One pass of `run`'s main loop: poll the tick's events, then draw unless rendering is stopped. */
    method MainLoopPass(tick: Tick) returns (quit: bool)
      requires Ready() && tick.acquired < swapchainImageCount
      modifies this`frameNumber, this`stopRendering, this`drawExtent, this`released, this`trace, this`view, this`presented
      modifies frames[0], frames[1], frames[0].deletionQueue, frames[1].deletionQueue
      ensures Ready()
      ensures quit <==> Quit in tick.events
      ensures stopRendering == StopAfter(old(stopRendering), tick.events)
      ensures stopRendering ==>
        && frameNumber == old(frameNumber) && presented == old(presented) && drawExtent == old(drawExtent)
        && trace == old(trace) && view == old(view) && released == old(released)
        && unchanged(frames[0], frames[1], frames[0].deletionQueue, frames[1].deletionQueue)
      ensures !stopRendering ==> var slot := CurrentSlot(old(frameNumber));
        && frameNumber == old(frameNumber) + 1 && presented == old(presented) + [tick.acquired]
        && trace == old(trace) + DrawCommands(slot, tick.acquired, DispatchGroups(drawImageExtent.width, drawImageExtent.height))
        && released == old(released) + Reversed(old(frames[slot].deletionQueue.deletors))
        && frames[slot].deletionQueue.deletors == []
        && frames[1 - slot].deletionQueue.deletors == old(frames[1 - slot].deletionQueue.deletors)
        && !frames[slot].fenceSignaled && frames[1 - slot].fenceSignaled == old(frames[1 - slot].fenceSignaled)
        && drawExtent == drawImageExtent
        && view == old(view).(inFlight := old(view.inFlight) + {slot}, fences := old(view.fences) - {slot},
                              layouts := old(view.layouts)[DrawImage := TransferSrc][SwapchainImage(tick.acquired) := PresentSrc])
    {
      quit := PollEvents(tick.events);
      if !stopRendering {
        var _ := Draw(tick.acquired);
      }
    }

    /**
     * The event loop of one pass of `run`: a quit event sets the returned
     * flag, a minimise event stops rendering and a restore event resumes it.
     */
    method PollEvents(events: seq<Event>) returns (quit: bool)
      modifies this`stopRendering
      ensures stopRendering == StopAfter(old(stopRendering), events)
      ensures quit <==> Quit in events
    {
      quit := false;
      var j := 0;
      while j < |events|
        invariant j <= |events|
        invariant stopRendering == StopAfter(old(stopRendering), events[..j])
        invariant quit <==> Quit in events[..j]
      {
        assert events[..j + 1] == events[..j] + [events[j]];
        if events[j] == Quit {
          quit := true;
        }
        if events[j] == Minimized {
          stopRendering := true;
        }
        if events[j] == Restored {
          stopRendering := false;
        }
        j := j + 1;
      }
      assert events[..j] == events;
    }

    /**
     * `cleanup`: if initialised, waits for the device to go idle, runs the
     * main deletion queue, destroys each slot's command pool, fence and
     * semaphores, then the swapchain, surface, device, debug messenger,
     * instance and window. Always clears the single-instance slot.
     */
    method Cleanup(registry: Registry)
      requires Valid() && (isInitialized ==> Ready())
      modifies this`released, this`trace, this`view, registry, mainDeletionQueue
      ensures Valid() && registry.loaded == null
      ensures old(isInitialized) ==>
        && released == old(released) + Reversed(old(mainDeletionQueue.deletors))
        && mainDeletionQueue.deletors == []
        && trace == old(trace) + TeardownSequence()
        && view == NoDevice
      ensures !old(isInitialized) ==>
        released == old(released) && unchanged(mainDeletionQueue) && trace == old(trace)
    {
      if isInitialized {
        ghost var log := [Sync(DeviceWaitIdle)];
        var executed := mainDeletionQueue.Flush();
        released := released + executed;
        log := log + [Teardown(FlushMainQueue)];
        for i := 0 to FRAME_OVERLAP
          invariant log == [Sync(DeviceWaitIdle), Teardown(FlushMainQueue)] + FrameObjectsDestroyed(i)
        {
          log := log + FrameObjectsFor(i);
        }
        log := log + [Teardown(TeardownCall.DestroySwapchain)];  // destroy_swapchain: the swapchain and its image views
        log := log + [Teardown(DestroySurface), Teardown(DestroyDevice)];
        log := log + [Teardown(DestroyDebugMessenger), Teardown(DestroyInstance), Teardown(DestroyWindow)];
        assert log == TeardownSequence();
        TeardownConforms(view);
        IssueAll(log, NoDevice);
      }
      registry.loaded := null;
    }
  }

  /** Everything `init` issues, in order. */
  function InitSequence(imageCount: nat): seq<Command> {
    [Setup(CreateWindow), Setup(CreateDevice), Setup(SetupCall.CreateSwapchain(imageCount)), Setup(CreateDrawImage)]
    + CommandPoolsCreated(FRAME_OVERLAP) + SyncObjectsCreated(FRAME_OVERLAP)
    + [Setup(CreateDescriptors), Setup(CreateComputePipeline)]
  }

  lemma InitSequenceSplits(t: seq<Command>, imageCount: nat)
    ensures t + InitSequence(imageCount)
         == t + [Setup(CreateWindow)] + [Setup(CreateDevice)]
            + [Setup(SetupCall.CreateSwapchain(imageCount)), Setup(CreateDrawImage)]
            + CommandPoolsCreated(FRAME_OVERLAP) + SyncObjectsCreated(FRAME_OVERLAP)
            + [Setup(CreateDescriptors)] + [Setup(CreateComputePipeline)]
  {
  }

  /** Everything `cleanup` issues for an initialised engine, in order. */
  function TeardownSequence(): seq<Command> {
    [Sync(DeviceWaitIdle), Teardown(FlushMainQueue)] + FrameObjectsDestroyed(FRAME_OVERLAP)
    + [Teardown(TeardownCall.DestroySwapchain), Teardown(DestroySurface), Teardown(DestroyDevice),
       Teardown(DestroyDebugMessenger), Teardown(DestroyInstance), Teardown(DestroyWindow)]
  }

  /** From any state between frames with a device, the whole of `cleanup` keeps the protocol and ends with no device. */
  lemma TeardownConforms(v: View)
    requires v.device && v.signaled == {} && v.recording == None
    ensures Replay(v, TeardownSequence()) == Some(NoDevice)
  {
    var idle := v.(inFlight := {}, fences := v.fences + v.inFlight);
    assert Replay(v, [Sync(DeviceWaitIdle), Teardown(FlushMainQueue)]) == Some(idle);
    ReleaseKeepsView(idle, FrameObjectsDestroyed(FRAME_OVERLAP));
    ReplayAppend(v, [Sync(DeviceWaitIdle), Teardown(FlushMainQueue)], FrameObjectsDestroyed(FRAME_OVERLAP));
    var shutdown := [Teardown(TeardownCall.DestroySwapchain), Teardown(DestroySurface), Teardown(DestroyDevice),
                     Teardown(DestroyDebugMessenger), Teardown(DestroyInstance), Teardown(DestroyWindow)];
    ShutdownConforms(idle);
    ReplayAppend(v, [Sync(DeviceWaitIdle), Teardown(FlushMainQueue)] + FrameObjectsDestroyed(FRAME_OVERLAP), shutdown);
  }

  lemma ShutdownConforms(v: View)
    requires v.device && v.inFlight == {}
    ensures Replay(v, [Teardown(TeardownCall.DestroySwapchain), Teardown(DestroySurface), Teardown(DestroyDevice),
                       Teardown(DestroyDebugMessenger), Teardown(DestroyInstance), Teardown(DestroyWindow)])
         == Some(NoDevice)
  {
    var d := [Teardown(TeardownCall.DestroySwapchain), Teardown(DestroySurface), Teardown(DestroyDevice),
              Teardown(DestroyDebugMessenger), Teardown(DestroyInstance), Teardown(DestroyWindow)];
    assert Replay(v, d[..0]) == Some(v);
    var w := ReplayNext(v, d, 0, v);
    w := ReplayNext(v, d, 1, v);
    w := ReplayNext(v, d, 2, v);
    w := ReplayNext(v, d, 3, NoDevice);
    w := ReplayNext(v, d, 4, NoDevice);
    w := ReplayNext(v, d, 5, NoDevice);
    assert d[..6] == d;
  }

  function FrameObjectsDestroyed(slots: nat): seq<Command> {
    if slots == 0 then [] else FrameObjectsDestroyed(slots - 1) + FrameObjectsFor(slots - 1)
  }

  /** One slot's command pool, fence and semaphores, in the order `cleanup` destroys them. */
  function FrameObjectsFor(slot: nat): seq<Command> {
    [Teardown(DestroyCommandPool(slot)), Teardown(DestroyFence(slot)),
     Teardown(DestroySemaphore(RenderSemaphore(slot))), Teardown(DestroySemaphore(SwapchainSemaphore(slot)))]
  }

  function CommandPoolsCreated(slots: nat): seq<Command> {
    if slots == 0 then [] else CommandPoolsCreated(slots - 1) + [Setup(CreateCommandPool(slots - 1))]
  }

  function SyncObjectsCreated(slots: nat): seq<Command> {
    if slots == 0 then []
    else
      SyncObjectsCreated(slots - 1) + SyncObjectsFor(slots - 1)
  }

  /** Creating a slot's sync objects makes its fence known signalled and changes nothing else in the monitor's view. */
  lemma SyncObjectsConform(v: View, slot: nat)
    requires v.device
    ensures Replay(v, SyncObjectsFor(slot)) == Some(v.(fences := v.fences + {slot}))
  {
    var created := SyncObjectsFor(slot);
    assert created == [created[0]] + created[1..];
    ReplayAppend(v, [created[0]], created[1..]);
    SetupKeepsView(v.(fences := v.fences + {slot}), created[1..]);
  }

  /** The slots 0 .. n - 1. */
  function SlotsBelow(n: nat): set<nat> {
    if n == 0 then {} else SlotsBelow(n - 1) + {n - 1}
  }

  /** The fence, created signalled, and the two semaphores of one slot. */
  function SyncObjectsFor(slot: nat): seq<Command> {
    [Setup(CreateFence(slot, true)), Setup(CreateSemaphore(SwapchainSemaphore(slot))),
     Setup(CreateSemaphore(RenderSemaphore(slot)))]
  }

  /** `init` then `cleanup`: the main queue's deletors run newest first. */
  method ShutdownScenario() returns (released: seq<Action>)
    ensures released == [DestroyGradientPipeline, DestroyDrawImage, DestroyAllocator]
  {
    var registry := new Registry();
    var engine := new VulkanEngine();
    engine.Init(registry, 3);
    engine.Cleanup(registry);
    released := engine.released;
  }
}
