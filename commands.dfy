/**
 * The graphics-API calls the engine issues, as an abstract command log, and
 * a monitor that replays such a log against the synchronisation rules the
 * engine relies on: fences, semaphores, command-buffer recording and image
 * layouts. Per-slot objects (command pool and buffer, fence, semaphores,
 * deletion queue) are named by their slot index.
 */
module Commands {

  datatype Option<T> = None | Some(value: T)

  /** The image layouts the draw loop moves images through. */
  datatype Layout = Undefined | General | TransferSrc | TransferDst | PresentSrc

  /** The offscreen draw image, or one image of the swapchain image set. */
  datatype Image = DrawImage | SwapchainImage(index: nat)

  /** The two semaphores of a frame slot. */
  datatype Semaphore = SwapchainSemaphore(slot: nat) | RenderSemaphore(slot: nat)

  /** One call into the graphics API or the window system, grouped by what it does. */
  datatype Command =
    | Setup(setup: SetupCall)
    | Sync(sync: SyncCall)
    | Recording(recorded: RecordedCall)
    | Teardown(teardown: TeardownCall)

  datatype SetupCall =
    | CreateWindow
    | CreateDevice                 // instance, surface, device, queue and allocator
    | CreateSwapchain(imageCount: nat)
    | CreateDrawImage
    | CreateCommandPool(pool: nat)
    | CreateFence(fence: nat, signaled: bool)
    | CreateSemaphore(semaphore: Semaphore)
    | CreateDescriptors
    | CreateComputePipeline

  /** Calls that wait for, or signal, fences and semaphores. */
  datatype SyncCall =
    | WaitForFence(fence: nat)
    | ResetFence(fence: nat)
    | AcquireNextImage(signal: Semaphore, imageIndex: nat)
    | QueueSubmit(buffer: nat, wait: Semaphore, signal: Semaphore, fence: nat)
    | QueuePresent(wait: Semaphore, imageIndex: nat)
    | DeviceWaitIdle

  /** Calls on a command buffer: restarting it, and the commands recorded into it. */
  datatype RecordedCall =
    | ResetCommandBuffer(buffer: nat)
    | BeginCommandBuffer(buffer: nat)
    | TransitionImage(image: Image, from: Layout, to: Layout)
    | BindComputePipeline
    | BindDrawImageDescriptors
    | Dispatch(x: nat, y: nat, z: nat)
    | CopyImage(src: Image, dst: Image)
    | EndCommandBuffer(buffer: nat)

  /** Running a deletion queue, and destroying objects. */
  datatype TeardownCall =
    | FlushFrameQueue(queue: nat)
    | FlushMainQueue
    | DestroyCommandPool(pool: nat)
    | DestroyFence(fence: nat)
    | DestroySemaphore(semaphore: Semaphore)
    | DestroySwapchain
    | DestroySurface
    | DestroyDevice
    | DestroyDebugMessenger
    | DestroyInstance
    | DestroyWindow

  /**
   * What the monitor knows after a prefix of the log: whether a device
   * exists, which slots have a submission the CPU has not yet waited for,
   * which semaphores are signalled and not yet waited on, which command
   * buffer is recording, each image's layout as of the recorded commands
   * (an image missing from the map is Undefined), and which fences are known
   * to be signalled: created signalled, or waited for, and not reset since.
   * A wait on a fence that is neither known signalled nor guarding a pending
   * submission could never return.
   */
  datatype View = View(
    device: bool,
    inFlight: set<nat>,
    signaled: set<Semaphore>,
    recording: Option<nat>,
    layouts: map<Image, Layout>,
    fences: set<nat>)

  const NoDevice := View(false, {}, {}, None, map[], {})
  const FreshDevice := View(true, {}, {}, None, map[], {})

  function LayoutOf(v: View, image: Image): Layout {
    if image in v.layouts then v.layouts[image] else Undefined
  }

  /** Whether `c` may be issued in state `v`, and the state after it; None is a protocol violation. */
  function Step(v: View, c: Command): Option<View> {
    match c
    case Setup(call) => SetupStep(v, call)
    case Sync(call) => if v.device then SyncStep(v, call) else None
    case Recording(call) => if v.device then RecordedStep(v, call) else None
    case Teardown(call) => TeardownStep(v, call)
  }

  function SetupStep(v: View, call: SetupCall): Option<View> {
    match call
    case CreateWindow => Some(v)
    // only one device per engine: a second one would forget the work in flight
    case CreateDevice => if v.device then None else Some(FreshDevice)
    case CreateFence(f, signaled) =>
      if !v.device then None
      else Some(v.(fences := if signaled then v.fences + {f} else v.fences - {f}))
    case _ => if v.device then Some(v) else None
  }

  function SyncStep(v: View, call: SyncCall): Option<View> {
    match call
    case WaitForFence(f) =>
      if f !in v.fences && f !in v.inFlight then None
      else Some(v.(inFlight := v.inFlight - {f}, fences := v.fences + {f}))
    case ResetFence(f) => if f in v.inFlight then None else Some(v.(fences := v.fences - {f}))
    case AcquireNextImage(sem, _) =>
      if sem in v.signaled then None else Some(v.(signaled := v.signaled + {sem}))
    case QueueSubmit(b, wait, signal, f) =>
      // a slot's fence guards that slot's command buffer, and must be unsignalled when submitted
      if v.recording.Some? || b != f || f in v.inFlight || f in v.fences || wait !in v.signaled || signal in v.signaled then None
      else Some(v.(inFlight := v.inFlight + {f}, signaled := v.signaled - {wait} + {signal}))
    case QueuePresent(wait, image) =>
      if wait !in v.signaled || LayoutOf(v, SwapchainImage(image)) != PresentSrc then None
      else Some(v.(signaled := v.signaled - {wait}))
    case DeviceWaitIdle => Some(v.(inFlight := {}, fences := v.fences + v.inFlight))
  }

  function RecordedStep(v: View, call: RecordedCall): Option<View> {
    match call
    case ResetCommandBuffer(b) =>
      if b in v.inFlight || v.recording.Some? then None else Some(v)
    case BeginCommandBuffer(b) =>
      if b in v.inFlight || v.recording.Some? then None else Some(v.(recording := Some(b)))
    case EndCommandBuffer(b) => if v.recording != Some(b) then None else Some(v.(recording := None))
    case TransitionImage(image, from, to) =>
      // an old layout of Undefined discards the contents and is allowed from any layout
      if v.recording.None? || (from != Undefined && from != LayoutOf(v, image)) then None
      else Some(v.(layouts := v.layouts[image := to]))
    case Dispatch(_, _, _) =>
      // the compute shader writes the draw image as a storage image in the General layout
      if v.recording.None? || LayoutOf(v, DrawImage) != General then None else Some(v)
    case CopyImage(src, dst) =>
      if v.recording.None? || LayoutOf(v, src) != TransferSrc || LayoutOf(v, dst) != TransferDst then None
      else Some(v)
    case _ => if v.recording.None? then None else Some(v)
  }

  function TeardownStep(v: View, call: TeardownCall): Option<View> {
    match call
    case DestroyDebugMessenger => Some(v)
    case DestroyInstance => Some(v)
    case DestroyWindow => Some(v)
    case _ =>
      if !v.device then None
      else match call
        case FlushFrameQueue(q) => if q in v.inFlight then None else Some(v)
        case DestroyCommandPool(p) => if p in v.inFlight then None else Some(v)
        case DestroyFence(f) => if f in v.inFlight then None else Some(v)
        case DestroySemaphore(sem) => if sem in v.signaled then None else Some(v)
        case DestroySurface => Some(v)
        case DestroyDevice => if v.inFlight != {} then None else Some(NoDevice)
        case _ => if v.inFlight != {} then None else Some(v)  // main queue flush, swapchain
  }

  /** Replays a command log from state `v`; None if some command breaks the protocol. */
  function Replay(v: View, log: seq<Command>): Option<View>
    decreases |log|
  {
    if log == [] then Some(v)
    else match Replay(v, log[..|log| - 1])
      case None => None
      case Some(w) => Step(w, log[|log| - 1])
  }

  /** Once a device exists, creating objects other than fences and devices leaves the monitor's view as it was. */
  lemma {:induction false} SetupKeepsView(v: View, log: seq<Command>)
    requires v.device
    requires forall k :: 0 <= k < |log| ==> log[k].Setup? && !log[k].setup.CreateDevice? && !log[k].setup.CreateFence?
    ensures Replay(v, log) == Some(v)
    decreases |log|
  {
    if log != [] {
      SetupKeepsView(v, log[..|log| - 1]);
    }
  }

  /**
   * With nothing in flight and no semaphore signalled, destroying command
   * pools, fences and semaphores leaves the monitor's view as it was.
   */
  lemma {:induction false} ReleaseKeepsView(v: View, log: seq<Command>)
    requires v.device && v.inFlight == {} && v.signaled == {}
    requires forall k :: 0 <= k < |log| ==>
      && log[k].Teardown?
      && (log[k].teardown.DestroyCommandPool? || log[k].teardown.DestroyFence? || log[k].teardown.DestroySemaphore?)
    ensures Replay(v, log) == Some(v)
    decreases |log|
  {
    if log != [] {
      ReleaseKeepsView(v, log[..|log| - 1]);
    }
  }

  /** Replaying a concatenation replays the first part, then the second from where the first ended. */
  lemma {:induction false} ReplayAppend(v: View, a: seq<Command>, b: seq<Command>)
    ensures Replay(v, a + b) == match Replay(v, a) case None => None case Some(w) => Replay(w, b)
    decreases |b|
  {
    if b == [] {
      assert a + b == a;
    } else {
      var n := |b| - 1;
      assert (a + b)[..|a + b| - 1] == a + b[..n];
      ReplayAppend(v, a, b[..n]);
    }
  }

  /** Side of the compute shader's square workgroup, in pixels. */
  const WORKGROUP_SIZE: nat := 16

  /**
   * Workgroups needed along one axis of the draw extent: the fewest whose
   * 16 pixels each cover the whole extent, so no group lies wholly outside it.
   */
  function GroupCount(extent: nat): (groups: nat)
    ensures WORKGROUP_SIZE * groups >= extent
    ensures groups == 0 || WORKGROUP_SIZE * (groups - 1) < extent
  {
    (extent + WORKGROUP_SIZE - 1) / WORKGROUP_SIZE
  }

  /** The dispatch grid for a draw extent: one layer, enough groups to cover every pixel. */
  function DispatchGroups(width: nat, height: nat): (groups: (nat, nat, nat))
    ensures groups.2 == 1
    ensures WORKGROUP_SIZE * groups.0 >= width && (groups.0 == 0 || WORKGROUP_SIZE * (groups.0 - 1) < width)
    ensures WORKGROUP_SIZE * groups.1 >= height && (groups.1 == 0 || WORKGROUP_SIZE * (groups.1 - 1) < height)
  {
    (GroupCount(width), GroupCount(height), 1)
  }

  /** The default 1700 x 900 window gives a 107 x 57 x 1 grid. */
  lemma DefaultDispatch()
    ensures DispatchGroups(1700, 900) == (107, 57, 1)
  {
  }

  /**
   * The commands of one `draw` on frame slot `slot` that renders into
   * swapchain image `image`, in the order they are issued.
   */
  function DrawCommands(slot: nat, image: nat, groups: (nat, nat, nat)): seq<Command> {
    FrameStart(slot, image) + RecordCompute(groups) + RecordCopy(image) + SubmitFrame(slot, image)
  }

  /** Wait for and reset the slot's fence, acquire an image, drain the slot's queue, restart its command buffer. */
  function FrameStart(slot: nat, image: nat): seq<Command> {
    [ Sync(WaitForFence(slot)),
      Sync(ResetFence(slot)),
      Sync(AcquireNextImage(SwapchainSemaphore(slot), image)),
      Teardown(FlushFrameQueue(slot)),
      Recording(ResetCommandBuffer(slot)),
      Recording(BeginCommandBuffer(slot)) ]
  }

  /** Record the compute pass: the draw image goes to General, the gradient pipeline is dispatched over it. */
  function RecordCompute(groups: (nat, nat, nat)): seq<Command> {
    [ Recording(TransitionImage(DrawImage, Undefined, General)),
      Recording(BindComputePipeline),
      Recording(BindDrawImageDescriptors),
      Recording(Dispatch(groups.0, groups.1, groups.2)) ]
  }

  /** Record the copy of the draw image into the swapchain image and ready the latter for presenting. */
  function RecordCopy(image: nat): seq<Command> {
    [ Recording(TransitionImage(DrawImage, General, TransferSrc)),
      Recording(TransitionImage(SwapchainImage(image), Undefined, TransferDst)),
      Recording(CopyImage(DrawImage, SwapchainImage(image))),
      Recording(TransitionImage(SwapchainImage(image), TransferDst, PresentSrc)) ]
  }

  /** End recording, submit with the slot's semaphores and fence, present after the render semaphore. */
  function SubmitFrame(slot: nat, image: nat): seq<Command> {
    [ Recording(EndCommandBuffer(slot)),
      Sync(QueueSubmit(slot, SwapchainSemaphore(slot), RenderSemaphore(slot), slot)),
      Sync(QueuePresent(RenderSemaphore(slot), image)) ]
  }

  /**
   * One frame obeys the protocol from every state between frames whose slot
   * fence is known signalled or guards a pending submission (so the wait
   * returns), including one where the slot's previous submission is still
   * running: the fence wait comes before the slot's queue is flushed and its command buffer reset, the
   * compute pass sees the draw image in the General layout, the copy sees it
   * as a transfer source and the swapchain image as a transfer destination,
   * submission consumes the acquire semaphore and signals the render semaphore
   * that presentation then consumes. Afterwards the slot is in flight with
   * its fence unsignalled, no semaphore is left signalled, the draw image is
   * a transfer source and the presented image is in the present layout.
   */
  lemma DrawConforms(v: View, slot: nat, image: nat, groups: (nat, nat, nat))
    requires v.device && v.recording == None && (slot in v.fences || slot in v.inFlight)
    requires SwapchainSemaphore(slot) !in v.signaled && RenderSemaphore(slot) !in v.signaled
    ensures Replay(v, DrawCommands(slot, image, groups)) ==
      Some(v.(inFlight := v.inFlight + {slot}, fences := v.fences - {slot},
              layouts := v.layouts[DrawImage := TransferSrc][SwapchainImage(image) := PresentSrc]))
  {
    var started := v.(inFlight := v.inFlight - {slot}, signaled := v.signaled + {SwapchainSemaphore(slot)},
                      recording := Some(slot), fences := v.fences - {slot});
    var computed := started.(layouts := v.layouts[DrawImage := General]);
    var copied := started.(layouts := v.layouts[DrawImage := TransferSrc][SwapchainImage(image) := PresentSrc]);
    var start, compute, copy, submit := FrameStart(slot, image), RecordCompute(groups), RecordCopy(image), SubmitFrame(slot, image);
    FrameStartConforms(v, slot, image);
    RecordComputeConforms(started, groups);
    RecordCopyConforms(computed, image);
    assert computed.layouts[DrawImage := TransferSrc] == v.layouts[DrawImage := TransferSrc];
    SubmitFrameConforms(copied, slot, image);
    ReplayAppend(v, start, compute);
    ReplayAppend(v, start + compute, copy);
    ReplayAppend(v, start + compute + copy, submit);
    assert v.inFlight - {slot} + {slot} == v.inFlight + {slot};
    assert v.signaled + {SwapchainSemaphore(slot)} - {SwapchainSemaphore(slot)} == v.signaled;
  }

  /**
   * The order inside a frame matters: while the slot's previous submission
   * is in flight, a log that flushes the slot's deletion queue before waiting
   * on its fence is rejected, whatever follows.
   */
  lemma EarlyFlushRejected(v: View, slot: nat, rest: seq<Command>)
    requires slot in v.inFlight
    ensures Replay(v, [Teardown(FlushFrameQueue(slot))] + rest) == None
  {
    ReplayAppend(v, [Teardown(FlushFrameQueue(slot))], rest);
  }

  /**
   * A wait on a fence that is neither known signalled nor guarding a pending
   * submission never returns; the monitor rejects it, whatever follows.
   */
  lemma UnsignaledWaitRejected(v: View, fence: nat, rest: seq<Command>)
    requires fence !in v.fences && fence !in v.inFlight
    ensures Replay(v, [Sync(WaitForFence(fence))] + rest) == None
  {
    ReplayAppend(v, [Sync(WaitForFence(fence))], rest);
  }

  /**
   * Why the slots' fences are created signalled: with nothing in flight on
   * the slot, a frame right after creating its fence unsignalled is rejected
   * at its first wait, and the same frame after creating the fence signalled
   * is accepted.
   */
  lemma FenceCreatedSignaledConforms(v: View, slot: nat, image: nat, groups: (nat, nat, nat))
    requires v.device && v.recording == None && slot !in v.inFlight
    requires SwapchainSemaphore(slot) !in v.signaled && RenderSemaphore(slot) !in v.signaled
    ensures Replay(v, [Setup(CreateFence(slot, false))] + DrawCommands(slot, image, groups)) == None
    ensures Replay(v, [Setup(CreateFence(slot, true))] + DrawCommands(slot, image, groups)).Some?
  {
    var unsignaled := v.(fences := v.fences - {slot});
    var frame := DrawCommands(slot, image, groups);
    assert frame == [Sync(WaitForFence(slot))] + frame[1..];
    ReplayAppend(v, [Setup(CreateFence(slot, false))], frame);
    UnsignaledWaitRejected(unsignaled, slot, frame[1..]);
    ReplayAppend(v, [Setup(CreateFence(slot, true))], frame);
    DrawConforms(v.(fences := v.fences + {slot}), slot, image, groups);
  }

  /** Creating a device while one exists is rejected, whatever follows: it would forget the work in flight. */
  lemma SecondDeviceRejected(v: View, rest: seq<Command>)
    requires v.device
    ensures Replay(v, [Setup(CreateDevice)] + rest) == None
  {
    ReplayAppend(v, [Setup(CreateDevice)], rest);
  }

  /** Likewise a frame that leaves out the fence wait is rejected while the slot is in flight. */
  lemma SkippedWaitRejected(v: View, slot: nat, image: nat, rest: seq<Command>)
    requires slot in v.inFlight
    ensures Replay(v, FrameStart(slot, image)[1..] + rest) == None
  {
    var tail := FrameStart(slot, image)[1..];
    assert tail == [Sync(ResetFence(slot))] + tail[1..];
    assert tail + rest == [Sync(ResetFence(slot))] + (tail[1..] + rest);
    ReplayAppend(v, [Sync(ResetFence(slot))], tail[1..] + rest);
  }

  lemma FrameStartConforms(v: View, slot: nat, image: nat)
    requires v.device && v.recording == None && SwapchainSemaphore(slot) !in v.signaled
    requires slot in v.fences || slot in v.inFlight
    ensures Replay(v, FrameStart(slot, image)) ==
      Some(v.(inFlight := v.inFlight - {slot}, signaled := v.signaled + {SwapchainSemaphore(slot)},
              recording := Some(slot), fences := v.fences - {slot}))
  {
    var d := FrameStart(slot, image);
    assert Replay(v, d[..0]) == Some(v);
    var w := v;
    w := ReplayNext(v, d, 0, w);
    w := ReplayNext(v, d, 1, w);
    w := ReplayNext(v, d, 2, w);
    w := ReplayNext(v, d, 3, w);
    w := ReplayNext(v, d, 4, w);
    w := ReplayNext(v, d, 5, w);
    assert d[..6] == d;
    assert v.fences + {slot} - {slot} == v.fences - {slot};
  }

  lemma RecordComputeConforms(v: View, groups: (nat, nat, nat))
    requires v.device && v.recording.Some?
    ensures Replay(v, RecordCompute(groups)) == Some(v.(layouts := v.layouts[DrawImage := General]))
  {
    var d := RecordCompute(groups);
    var general := v.(layouts := v.layouts[DrawImage := General]);
    assert Replay(v, d[..0]) == Some(v);
    var w := ReplayNext(v, d, 0, v);
    assert w == general && LayoutOf(general, DrawImage) == General;
    w := ReplayNext(v, d, 1, general);
    w := ReplayNext(v, d, 2, general);
    w := ReplayNext(v, d, 3, general);
    assert d[..4] == d;
  }

  lemma RecordCopyConforms(v: View, image: nat)
    requires v.device && v.recording.Some? && LayoutOf(v, DrawImage) == General
    ensures Replay(v, RecordCopy(image)) ==
      Some(v.(layouts := v.layouts[DrawImage := TransferSrc][SwapchainImage(image) := PresentSrc]))
  {
    var d := RecordCopy(image);
    assert Replay(v, d[..0]) == Some(v);
    var w := v;
    w := ReplayNext(v, d, 0, w);
    w := ReplayNext(v, d, 1, w);
    w := ReplayNext(v, d, 2, w);
    w := ReplayNext(v, d, 3, w);
    assert d[..4] == d;
    assert w.layouts == v.layouts[DrawImage := TransferSrc][SwapchainImage(image) := PresentSrc];
  }

  lemma SubmitFrameConforms(v: View, slot: nat, image: nat)
    requires v.device && v.recording == Some(slot) && slot !in v.inFlight && slot !in v.fences
    requires SwapchainSemaphore(slot) in v.signaled && RenderSemaphore(slot) !in v.signaled
    requires LayoutOf(v, SwapchainImage(image)) == PresentSrc
    ensures Replay(v, SubmitFrame(slot, image)) ==
      Some(v.(inFlight := v.inFlight + {slot}, signaled := v.signaled - {SwapchainSemaphore(slot)},
              recording := None))
  {
    var d := SubmitFrame(slot, image);
    assert Replay(v, d[..0]) == Some(v);
    var w := v;
    w := ReplayNext(v, d, 0, w);
    w := ReplayNext(v, d, 1, w);
    w := ReplayNext(v, d, 2, w);
    assert d[..3] == d;
  }

  /** Extends a replayed prefix of `log` by one command. */
  lemma ReplayNext(v: View, log: seq<Command>, k: nat, w: View) returns (next: View)
    requires k < |log| && Replay(v, log[..k]) == Some(w) && Step(w, log[k]).Some?
    ensures next == Step(w, log[k]).value && Replay(v, log[..k + 1]) == Some(next)
  {
    assert log[..k + 1][..k] == log[..k];
    next := Step(w, log[k]).value;
  }
}
