/** `render`: one frame, as a function from the state it reads and the
    driver's answers to the calls it makes, the new swapchain generation and
    frame counter, and how the frame ended. */
module Frame {
  import opened Vulkan
  import opened Selection
  import opened Lifecycle
  import opened FrameCounter
  import opened Circle
  import opened Animation

  /** The handles `render` uses and never replaces. */
  datatype Resources = Resources(
    renderPass: RenderPass,
    pipeline: Pipeline,
    pipelineLayout: PipelineLayout,
    vertexBuffer: Buffer,
    commandBuffer: CommandBuffer,
    imageAvailable: Semaphore,
    renderFinished: Semaphore)

  /** What a successful `acquire_next_image` returns; the suboptimal flag is
      ignored by `render`. */
  datatype AcquiredImage = AcquiredImage(imageIndex: u32, suboptimal: bool)

  datatype FrameOutcome = Presented(imageIndex: nat) | Recreated | Panicked(reason: Panic)

  /** The commands recorded for one frame once recording has begun: clear
      and draw the 34-vertex fan into `target`, translated to `position` under
      an orthographic projection of `extent`, and end the recording. */
  function RecordCommands(res: Resources, target: Framebuffer, extent: Extent, position: Vec2): (r: seq<Op>)
    ensures |r| == 9
  {
    [ BeginRenderPass(res.renderPass, target, extent),
      BindPipeline(res.pipeline),
      SetViewport(extent),
      SetScissor(extent),
      BindVertexBuffer(res.vertexBuffer),
      PushTransform(res.pipelineLayout, position.x, position.y, extent),
      Draw(DRAW_VERTEX_COUNT, 1),
      EndRenderPass,
      EndCommandBuffer(res.commandBuffer) ]
  }

  /** The first two calls of every frame. */
  function Prologue(res: Resources, chain: Chain): seq<Op>
  {
    [ResetCommandBuffer(res.commandBuffer), AcquireNextImage(chain.swapchain, res.imageAvailable)]
  }

  datatype FrameResult = FrameResult(ops: seq<Op>, chain: Chain, nextId: nat, counter: Counter, outcome: FrameOutcome)

  /** The frame is abandoned for `recreate_swapchain` after the calls `ops`. */
  function AfterRecreate(ops: seq<Op>, rc: Recreation, counter: Counter): FrameResult
  {
    FrameResult(ops + rc.ops, rc.chain, rc.nextId, counter,
      match rc.failure
      case Some(p) => Panicked(p)
      case None => Recreated)
  }

  /** The calls `ops` come before those of the rest of the frame `r`. */
  function Prefixed(ops: seq<Op>, r: FrameResult): FrameResult
  {
    r.(ops := ops + r.ops)
  }

  /** `render` once image `i` has been handed to the presentation engine: an
      out-of-date swapchain abandons the frame for a recreation, any other
      error panics; otherwise the frame is counted (the rate is published once
      a second has passed) and the next redraw is requested. */
  function AfterPresent(res: Resources, chain: Chain, nextId: nat, counter: Counter,
                        report: SurfaceReport, i: nat, present: VkResult<bool>, now: real): FrameResult
  {
    match present
    case Err(code) =>
      if code == ERROR_OUT_OF_DATE_KHR then
        AfterRecreate([], Recreate(chain, res.renderPass, nextId, report), counter)
      else
        FrameResult([], chain, nextId, counter, Panicked(PresentFailed(code)))
    case Ok(_) =>
      var counted := CountFrame(counter, now);
      var title := if Publishes(counter, now) then [SetTitle(counted.fps)] else [];
      FrameResult(title + [RequestRedraw], chain, nextId, counted, Presented(i))
  }

  /** `render` from the acquired image on: begin recording, look up the
      image's framebuffer, record the draw into it, submit, and present the
      image. */
  function FrameAfterAcquire(res: Resources, chain: Chain, nextId: nat, counter: Counter, position: Vec2,
                             report: SurfaceReport, i: nat, present: VkResult<bool>, now: real): FrameResult
  {
    Prefixed([BeginCommandBuffer(res.commandBuffer)],
      if i >= |chain.framebuffers| then
        // the framebuffer is looked up after recording has begun
        FrameResult([], chain, nextId, counter, Panicked(ImageIndexOutOfRange))
      else
        Prefixed(Submission(res, chain, position, i), AfterPresent(res, chain, nextId, counter, report, i, present, now)))
  }

  /** The draw recorded into the framebuffer of image `i`, its submission,
      and the presentation of the image. */
  function Submission(res: Resources, chain: Chain, position: Vec2, i: nat): seq<Op>
    requires i < |chain.framebuffers|
  {
    RecordCommands(res, chain.framebuffers[i], chain.extent, position)
      + [QueueSubmit(res.commandBuffer, res.imageAvailable, res.renderFinished),
         QueuePresent(chain.swapchain, i, res.renderFinished)]
  }

  /** `render`: reset the command buffer and acquire an image; an out-of-date
      swapchain abandons the frame for a recreation, any other error panics,
      and an acquired image is drawn and presented. */
  function RenderFrame(res: Resources, chain: Chain, nextId: nat, counter: Counter, position: Vec2,
                       report: SurfaceReport, acquire: VkResult<AcquiredImage>, present: VkResult<bool>,
                       now: real): FrameResult
  {
    var prologue := Prologue(res, chain);
    match acquire
    case Err(code) =>
      if code == ERROR_OUT_OF_DATE_KHR then
        AfterRecreate(prologue, Recreate(chain, res.renderPass, nextId, report), counter)
      else
        FrameResult(prologue, chain, nextId, counter, Panicked(AcquireFailed(code)))
    case Ok(image) =>
      Prefixed(prologue, FrameAfterAcquire(res, chain, nextId, counter, position, report, image.imageIndex, present, now))
  }

  /** Every frame begins by resetting the command buffer and then acquiring
      an image from the current swapchain, signalling the image-available
      semaphore. */
  lemma FrameStartsWithResetThenAcquire(res: Resources, chain: Chain, nextId: nat, counter: Counter, position: Vec2,
                                        report: SurfaceReport, acquire: VkResult<AcquiredImage>, present: VkResult<bool>,
                                        now: real)
    ensures var r := RenderFrame(res, chain, nextId, counter, position, report, acquire, present, now);
      && |r.ops| >= 2
      && r.ops[0] == ResetCommandBuffer(res.commandBuffer)
      && r.ops[1] == AcquireNextImage(chain.swapchain, res.imageAvailable)
  {
  }

  /** A recreation makes only swapchain-generation calls: it never submits,
      presents or asks for a redraw. */
  lemma RecreationOnlyRebuilds(chain: Chain, renderPass: RenderPass, nextId: nat, report: SurfaceReport)
    ensures var ops := Recreate(chain, renderPass, nextId, report).ops;
      && (forall k :: 0 <= k < |ops| ==> Phase(ops[k]) <= 6)
      && RequestRedraw !in ops
      && (forall op :: op in ops ==> !op.QueueSubmit? && !op.QueuePresent? && !op.Draw?)
  {
    var ops := Recreate(chain, renderPass, nextId, report).ops;
    RecreatePhasesOrdered(chain, renderPass, nextId, report);
    forall op | op in ops ensures Phase(op) <= 6 {
      var k :| 0 <= k < |ops| && ops[k] == op;
    }
  }

  /** An out-of-date swapchain at acquire drops the frame: nothing is recorded,
      submitted or presented, the swapchain is recreated from the report, the
      frame is not counted and no redraw is requested. */
  lemma AcquireOutOfDateDropsFrame(res: Resources, chain: Chain, nextId: nat, counter: Counter, position: Vec2,
                                   report: SurfaceReport, present: VkResult<bool>, now: real)
    ensures var r := RenderFrame(res, chain, nextId, counter, position, report, Err(ERROR_OUT_OF_DATE_KHR), present, now);
      var rc := Recreate(chain, res.renderPass, nextId, report);
      && r.ops == Prologue(res, chain) + rc.ops
      && r.chain == rc.chain && r.nextId == rc.nextId
      && r.counter == counter
      && !r.outcome.Presented?
      && RequestRedraw !in r.ops
      && (forall op :: op in r.ops ==> !op.QueueSubmit? && !op.QueuePresent? && !op.Draw?)
  {
    var r := RenderFrame(res, chain, nextId, counter, position, report, Err(ERROR_OUT_OF_DATE_KHR), present, now);
    var rc := Recreate(chain, res.renderPass, nextId, report);
    RecreationOnlyRebuilds(chain, res.renderPass, nextId, report);
    assert r.ops == Prologue(res, chain) + rc.ops;
    forall op | op in r.ops ensures !op.QueueSubmit? && !op.QueuePresent? && !op.Draw? && op != RequestRedraw {
      if op !in rc.ops {
        assert op in Prologue(res, chain);
      }
    }
  }

  /** An out-of-date swapchain at present comes after the frame was submitted
      and handed to the presentation engine; the swapchain is then recreated,
      the frame is not counted and no redraw is requested. */
  lemma PresentOutOfDateRecreates(res: Resources, chain: Chain, nextId: nat, counter: Counter, position: Vec2,
                                  report: SurfaceReport, image: AcquiredImage, now: real)
    requires image.imageIndex < |chain.framebuffers|
    ensures var r := RenderFrame(res, chain, nextId, counter, position, report, Ok(image), Err(ERROR_OUT_OF_DATE_KHR), now);
      var rc := Recreate(chain, res.renderPass, nextId, report);
      var n := |r.ops| - |rc.ops|;
      && n == 14
      && r.ops[n..] == rc.ops
      && r.ops[n - 2] == QueueSubmit(res.commandBuffer, res.imageAvailable, res.renderFinished)
      && r.ops[n - 1] == QueuePresent(chain.swapchain, image.imageIndex, res.renderFinished)
      && r.chain == rc.chain && r.nextId == rc.nextId
      && r.counter == counter
      && !r.outcome.Presented?
      && RequestRedraw !in r.ops
  {
    var r := RenderFrame(res, chain, nextId, counter, position, report, Ok(image), Err(ERROR_OUT_OF_DATE_KHR), now);
    var rc := Recreate(chain, res.renderPass, nextId, report);
    var i := image.imageIndex;
    var sent := [BeginCommandBuffer(res.commandBuffer)] + Submission(res, chain, position, i);
    assert r.ops == Prologue(res, chain) + ([BeginCommandBuffer(res.commandBuffer)] + (Submission(res, chain, position, i) + ([] + rc.ops)));
    assert r.ops == (Prologue(res, chain) + sent) + rc.ops;
    RecreationOnlyRebuilds(chain, res.renderPass, nextId, report);
    assert RequestRedraw !in Prologue(res, chain) + sent;
  }

  /** Any other error from acquire or present panics with that code, leaving
      the swapchain generation and the counter as they were. */
  lemma UnexpectedErrorsAreFatal(res: Resources, chain: Chain, nextId: nat, counter: Counter, position: Vec2,
                                 report: SurfaceReport, acquire: VkResult<AcquiredImage>, present: VkResult<bool>,
                                 now: real)
    ensures var r := RenderFrame(res, chain, nextId, counter, position, report, acquire, present, now);
      && (acquire.Err? && acquire.code != ERROR_OUT_OF_DATE_KHR ==>
            r.outcome == Panicked(AcquireFailed(acquire.code)) && r.ops == Prologue(res, chain))
      && (acquire.Ok? && acquire.value.imageIndex < |chain.framebuffers| &&
          present.Err? && present.code != ERROR_OUT_OF_DATE_KHR ==>
            r.outcome == Panicked(PresentFailed(present.code)))
      && (r.outcome.Panicked? && r.outcome.reason != ImageIndexOutOfRange ==>
            || (acquire.Err? && r.outcome.reason == AcquireFailed(acquire.code))
            || (present.Err? && r.outcome.reason == PresentFailed(present.code))
            || r.outcome.reason == SwapchainSettings(report.capabilities, report.formats, report.presentModes, report.windowSize).panic)
      && (r.outcome.Panicked? && !r.outcome.reason.NoSurfaceFormat? && !r.outcome.reason.ImageCountOverflow? ==>
            r.chain == chain && r.nextId == nextId && r.counter == counter)
  {
  }

  /** The frame is presented exactly when the image is acquired, its index
      names a framebuffer and presenting succeeds. The calls are then: reset,
      acquire, the recorded commands drawing into the framebuffer of the
      acquired image, submit (waiting on image-available, signalling
      render-finished), present of that image (waiting on render-finished),
      the title when a second has passed, and a redraw request. */
  lemma PresentedFrameLog(res: Resources, chain: Chain, nextId: nat, counter: Counter, position: Vec2,
                          report: SurfaceReport, acquire: VkResult<AcquiredImage>, present: VkResult<bool>,
                          now: real)
    ensures var r := RenderFrame(res, chain, nextId, counter, position, report, acquire, present, now);
      r.outcome.Presented? <==> acquire.Ok? && acquire.value.imageIndex < |chain.framebuffers| && present.Ok?
    ensures var r := RenderFrame(res, chain, nextId, counter, position, report, acquire, present, now);
      r.outcome.Presented? ==>
        var i := r.outcome.imageIndex;
        var counted := CountFrame(counter, now);
        && i == acquire.value.imageIndex
        && r.ops == Prologue(res, chain) + [BeginCommandBuffer(res.commandBuffer)]
             + RecordCommands(res, chain.framebuffers[i], chain.extent, position)
             + [QueueSubmit(res.commandBuffer, res.imageAvailable, res.renderFinished),
                QueuePresent(chain.swapchain, i, res.renderFinished)]
             + (if Publishes(counter, now) then [SetTitle(counted.fps)] else [])
             + [RequestRedraw]
        && r.chain == chain && r.nextId == nextId
  {
  }

  /** In a well-formed generation the presented frame is drawn into the view
      of the very image that was acquired, with the current extent, and the
      draw covers the whole mesh uploaded at start-up. */
  lemma RendersIntoAcquiredImage(res: Resources, chain: Chain, nextId: nat, counter: Counter, position: Vec2,
                                 report: SurfaceReport, acquire: VkResult<AcquiredImage>, present: VkResult<bool>,
                                 now: real)
    requires WellFormed(chain, res.renderPass)
    ensures var r := RenderFrame(res, chain, nextId, counter, position, report, acquire, present, now);
      r.outcome.Presented? ==>
        var i := r.outcome.imageIndex;
        && r.ops[3].BeginRenderPass?
        && r.ops[3].target.view.image == chain.images[i]
        && r.ops[3].target.renderPass == res.renderPass
        && r.ops[3].renderArea == chain.extent == r.ops[3].target.extent
        && r.ops[9] == Draw(|CircleVertices(CIRCLE_RADIUS, CIRCLE_SEGMENTS)|, 1)
        && r.ops[13] == QueuePresent(chain.swapchain, i, res.renderFinished)
  {
    var r := RenderFrame(res, chain, nextId, counter, position, report, acquire, present, now);
    if r.outcome.Presented? {
      DrawCountMatchesMesh();
    }
  }

  /** A presented frame sets the viewport and the scissor to the current
      extent, so after a recreation it draws at the window's new size. */
  lemma ViewportFollowsExtent(res: Resources, chain: Chain, nextId: nat, counter: Counter, position: Vec2,
                              report: SurfaceReport, acquire: VkResult<AcquiredImage>, present: VkResult<bool>,
                              now: real)
    ensures var r := RenderFrame(res, chain, nextId, counter, position, report, acquire, present, now);
      r.outcome.Presented? ==>
        && r.ops[5] == SetViewport(chain.extent)
        && r.ops[6] == SetScissor(chain.extent)
  {
  }

  /** Only a presented frame moves the counter, and it moves it by exactly
      one `CountFrame`; a redraw is requested exactly for presented frames, so
      a dropped frame ends the redraw chain. */
  lemma OnlyPresentedFramesAreCounted(res: Resources, chain: Chain, nextId: nat, counter: Counter, position: Vec2,
                                      report: SurfaceReport, acquire: VkResult<AcquiredImage>, present: VkResult<bool>,
                                      now: real)
    ensures var r := RenderFrame(res, chain, nextId, counter, position, report, acquire, present, now);
      && (r.outcome.Presented? ==> r.counter == CountFrame(counter, now))
      && (!r.outcome.Presented? ==> r.counter == counter)
      && (RequestRedraw in r.ops <==> r.outcome.Presented?)
  {
    var r := RenderFrame(res, chain, nextId, counter, position, report, acquire, present, now);
    if acquire.Err? && acquire.code == ERROR_OUT_OF_DATE_KHR {
      AcquireOutOfDateDropsFrame(res, chain, nextId, counter, position, report, present, now);
    } else if acquire.Ok? && acquire.value.imageIndex < |chain.framebuffers| &&
              present.Err? && present.code == ERROR_OUT_OF_DATE_KHR {
      PresentOutOfDateRecreates(res, chain, nextId, counter, position, report, acquire.value, now);
    }
  }

  /** A frame that does not panic leaves a well-formed generation whose
      handles were all issued before the new bound: either the old one, or
      the one a recreation built. */
  lemma RenderFrameKeepsGenerationValid(res: Resources, chain: Chain, nextId: nat, counter: Counter, position: Vec2,
                                        report: SurfaceReport, acquire: VkResult<AcquiredImage>, present: VkResult<bool>,
                                        now: real)
    requires WellFormed(chain, res.renderPass) && IssuedBefore(chain, nextId)
    ensures var r := RenderFrame(res, chain, nextId, counter, position, report, acquire, present, now);
      && nextId <= r.nextId
      && (!r.outcome.Panicked? ==> WellFormed(r.chain, res.renderPass) && IssuedBefore(r.chain, r.nextId))
  {
    var r := RenderFrame(res, chain, nextId, counter, position, report, acquire, present, now);
    if r.chain != chain {
      RecreateBuildsMatchingGeneration(chain, res.renderPass, nextId, report);
      RecreateIssuesFreshHandles(chain, res.renderPass, nextId, report);
    }
  }
}
