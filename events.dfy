/** `window_event`: what each kind of window event does to the part of the
    application state that events change. A close request only asks the
    event loop to exit; a redraw request moves the circle and renders a
    frame; a resize recreates the swapchain from what the window and the
    surface report (the size carried by the event itself is never read) and
    asks for a redraw; every other event is ignored. */
module Events {
  import opened Vulkan
  import opened Selection
  import opened Animation
  import opened FrameCounter
  import opened Lifecycle
  import opened Frame

  datatype WindowEvent = CloseRequested | RedrawRequested | Resized(width: u32, height: u32) | OtherEvent

  /** The part of the object that events change. */
  datatype AppState = AppState(
    chain: Chain,
    nextId: nat,
    counter: Counter,
    motion: Motion,
    lastTime: Option<real>,       // the `LAST_TIME` static of `update_circle_position`
    exitRequested: bool)          // `event_loop.exit()` has been called

  /** The calls made while handling one event, the state after it, and the
      panic it ends in, if any. */
  datatype EventResult = EventResult(ops: seq<Op>, state: AppState, panic: Option<Panic>)

  /** `update_circle_position` at time `now`, within the current extent. */
  function UpdatePosition(s: AppState, now: real): AppState
  {
    s.(motion := Step(s.motion, DeltaTime(s.lastTime, now), Bounds(s.chain.extent)), lastTime := Some(now))
  }

  /** The `RedrawRequested` arm: move the circle at `moveTime`, then render
      the frame, whose counter reads the clock at `frameTime`. */
  function RedrawFrame(s: AppState, res: Resources, report: SurfaceReport,
                       acquire: VkResult<AcquiredImage>, present: VkResult<bool>,
                       moveTime: real, frameTime: real): EventResult
  {
    var moved := UpdatePosition(s, moveTime);
    var f := RenderFrame(res, moved.chain, moved.nextId, moved.counter, moved.motion.position,
                         report, acquire, present, frameTime);
    EventResult(f.ops, moved.(chain := f.chain, nextId := f.nextId, counter := f.counter),
      match f.outcome
      case Panicked(reason) => Some(reason)
      case _ => None)
  }

  /** The `Resized` arm: recreate the swapchain and, if that succeeds, ask
      for a redraw. */
  function ResizeSwapchain(s: AppState, res: Resources, report: SurfaceReport): EventResult
  {
    var rc := Recreate(s.chain, res.renderPass, s.nextId, report);
    EventResult(if rc.failure.None? then rc.ops + [RequestRedraw] else rc.ops,
                s.(chain := rc.chain, nextId := rc.nextId), rc.failure)
  }

  /** `window_event`. The circle is moved at `moveTime` and the frame counter
      reads the clock at `frameTime`; the surface report and the results of
      acquire and present are what the driver answers. */
  function HandleEvent(s: AppState, res: Resources, event: WindowEvent, report: SurfaceReport,
                       acquire: VkResult<AcquiredImage>, present: VkResult<bool>,
                       moveTime: real, frameTime: real): EventResult
  {
    match event
    case CloseRequested => EventResult([], s.(exitRequested := true), None)
    case RedrawRequested => RedrawFrame(s, res, report, acquire, present, moveTime, frameTime)
    case Resized(_, _) => ResizeSwapchain(s, res, report)
    case OtherEvent => EventResult([], s, None)
  }

  /** A close request makes no call and changes nothing but the exit flag,
      and an unrecognised event changes nothing at all. */
  lemma CloseOnlyRequestsExit(s: AppState, res: Resources, report: SurfaceReport,
                              acquire: VkResult<AcquiredImage>, present: VkResult<bool>,
                              moveTime: real, frameTime: real)
    ensures var r := HandleEvent(s, res, CloseRequested, report, acquire, present, moveTime, frameTime);
      r.ops == [] && r.panic.None? && r.state.exitRequested && r.state == s.(exitRequested := true)
    ensures HandleEvent(s, res, OtherEvent, report, acquire, present, moveTime, frameTime) == EventResult([], s, None)
  {
  }

  /** Only a close request sets the exit flag; no event clears it. */
  lemma ExitOnlyOnClose(s: AppState, res: Resources, event: WindowEvent, report: SurfaceReport,
                        acquire: VkResult<AcquiredImage>, present: VkResult<bool>,
                        moveTime: real, frameTime: real)
    ensures var r := HandleEvent(s, res, event, report, acquire, present, moveTime, frameTime);
      r.state.exitRequested <==> s.exitRequested || event == CloseRequested
  {
  }

  /** The new size carried by a resize event plays no part: the swapchain is
      rebuilt with the window's size as the report gives it. */
  lemma ResizeIgnoresEventSize(s: AppState, res: Resources, w1: u32, h1: u32, w2: u32, h2: u32,
                               report: SurfaceReport, acquire: VkResult<AcquiredImage>, present: VkResult<bool>,
                               moveTime: real, frameTime: real)
    ensures HandleEvent(s, res, Resized(w1, h1), report, acquire, present, moveTime, frameTime)
         == HandleEvent(s, res, Resized(w2, h2), report, acquire, present, moveTime, frameTime)
    ensures var r := HandleEvent(s, res, Resized(w1, h1), report, acquire, present, moveTime, frameTime);
      r.state.chain.extent == report.windowSize
  {
    RecreateBuildsMatchingGeneration(s.chain, res.renderPass, s.nextId, report);
  }

  /** A resize asks for a redraw exactly when the recreation succeeded, and
      then as its last call, after the whole new generation is built. */
  lemma ResizeRedrawsAfterRecreation(s: AppState, res: Resources, w: u32, h: u32,
                                     report: SurfaceReport, acquire: VkResult<AcquiredImage>, present: VkResult<bool>,
                                     moveTime: real, frameTime: real)
    ensures var r := HandleEvent(s, res, Resized(w, h), report, acquire, present, moveTime, frameTime);
      var rc := Recreate(s.chain, res.renderPass, s.nextId, report);
      && (RequestRedraw in r.ops <==> r.panic.None?)
      && (r.panic.None? ==> r.ops == rc.ops + [RequestRedraw])
      && r.ops[..|rc.ops|] == rc.ops
  {
    var rc := Recreate(s.chain, res.renderPass, s.nextId, report);
    RecreationOnlyRebuilds(s.chain, res.renderPass, s.nextId, report);
    if rc.failure.None? {
      assert (rc.ops + [RequestRedraw])[..|rc.ops|] == rc.ops;
    }
  }

  /** A redraw moves the circle before the frame is rendered, so the frame
      draws the moved circle; the frame counter and the swapchain generation
      are those the frame leaves, and the panic is the frame's. */
  lemma RedrawMovesThenRenders(s: AppState, res: Resources, report: SurfaceReport,
                               acquire: VkResult<AcquiredImage>, present: VkResult<bool>,
                               moveTime: real, frameTime: real)
    ensures var r := HandleEvent(s, res, RedrawRequested, report, acquire, present, moveTime, frameTime);
      var moved := Step(s.motion, DeltaTime(s.lastTime, moveTime), Bounds(s.chain.extent));
      && r.state.motion == moved
      && r.state.lastTime == Some(moveTime)
      && (r.panic.None? <==> !RenderFrame(res, s.chain, s.nextId, s.counter, moved.position,
                                           report, acquire, present, frameTime).outcome.Panicked?)
      && (acquire.Ok? && acquire.value.imageIndex < |s.chain.framebuffers| && present.Ok? ==>
            && r.panic.None?
            && r.ops[8] == PushTransform(res.pipelineLayout, moved.position.x, moved.position.y, s.chain.extent)
            && r.state.counter == CountFrame(s.counter, frameTime))
  {
    var moved := Step(s.motion, DeltaTime(s.lastTime, moveTime), Bounds(s.chain.extent));
    PresentedFrameLog(res, s.chain, s.nextId, s.counter, moved.position, report, acquire, present, frameTime);
  }
}
