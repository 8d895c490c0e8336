/** The `App` object: its fields, `init_vulkan` and the helpers it calls,
    `update_circle_position`, `render`, `recreate_swapchain` and the
    `window_event` dispatch. Each method that changes the object is proved
    to leave it in the state, and to make the calls, that the functions of
    `Lifecycle`, `Frame`, `Animation`, `FrameCounter`, `Events` and `Startup`
    describe.

    Handles are minted from `nextId`, which starts at 1 so that id 0 is the
    null handle of every kind. Every method returns, as the ghost `ops`, the
    calls it made on the Vulkan device and on the window, in order. */
module Application {
  import opened Vulkan
  import opened Selection
  import opened Memory
  import opened Circle
  import opened Animation
  import opened FrameCounter
  import opened Lifecycle
  import opened Frame
  import opened Events
  import opened Startup

  /** The calls of `create_graphics_pipeline` when ids are issued from
      `firstId`: two shader modules, the layout, the pipeline for
      `renderPass`, then the destruction of both modules. Every module created
      is destroyed, and only once the pipeline exists. */
  function PipelineOps(firstId: nat, renderPass: RenderPass): (r: seq<Op>)
    ensures |r| == 6
    ensures r[3] == Op.CreateGraphicsPipeline(Pipeline(firstId + 3), PipelineLayout(firstId + 2), renderPass)
    ensures forall i :: 0 <= i < |r| && r[i].CreateShaderModule? ==>
      i < 3 && DestroyShaderModule(r[i].shaderModule) in r[4..]
    ensures forall j :: 0 <= j < |r| && r[j].DestroyShaderModule? ==> 3 < j
  {
    var vertexShader := ShaderModule(firstId);
    var fragmentShader := ShaderModule(firstId + 1);
    [ Op.CreateShaderModule(vertexShader),
      Op.CreateShaderModule(fragmentShader),
      CreatePipelineLayout(PipelineLayout(firstId + 2)),
      Op.CreateGraphicsPipeline(Pipeline(firstId + 3), PipelineLayout(firstId + 2), renderPass),
      DestroyShaderModule(vertexShader),
      DestroyShaderModule(fragmentShader) ]
  }

  /** `ops` ends with the upload of the circle's vertices into `memory`, the
      calls of `create_graphics_pipeline` building `pipeline` with `layout`
      for `renderPass`, then a redraw request. */
  ghost predicate EndsWithDrawingSetup(ops: seq<Op>, memory: DeviceMemory, renderPass: RenderPass, pipeline: Pipeline,
                                       layout: PipelineLayout)
  {
    && |ops| >= 8
    && ops[|ops| - 8] == UploadVertices(memory, DRAW_VERTEX_COUNT)
    && ops[|ops| - 1] == RequestRedraw
    && exists first: nat ::
         && ops[|ops| - 7..|ops| - 1] == PipelineOps(first, renderPass)
         && pipeline == Pipeline(first + 3)
         && layout == PipelineLayout(first + 2)
  }

  lemma EndsWithDrawingSetupAfter(prefix: seq<Op>, ops: seq<Op>, memory: DeviceMemory, renderPass: RenderPass,
                                  pipeline: Pipeline, layout: PipelineLayout)
    requires EndsWithDrawingSetup(ops, memory, renderPass, pipeline, layout)
    ensures EndsWithDrawingSetup(prefix + ops, memory, renderPass, pipeline, layout)
  {
    var first: nat :| ops[|ops| - 7..|ops| - 1] == PipelineOps(first, renderPass)
      && pipeline == Pipeline(first + 3) && layout == PipelineLayout(first + 2);
    var all := prefix + ops;
    assert all[|all| - 8] == ops[|ops| - 8];
    assert all[|all| - 7..|all| - 1] == ops[|ops| - 7..|ops| - 1];
  }

  /** The calls `init_vulkan` ends with: the four vertex-buffer calls, the
      pipeline build and the redraw request. */
  lemma DrawingSetupCalls(ops: seq<Op>, bufferOps: seq<Op>, buffer: Buffer, memory: DeviceMemory, first: nat,
                          renderPass: RenderPass)
    requires bufferOps == [CreateBuffer(buffer, DRAW_VERTEX_COUNT * VERTEX_STRIDE), AllocateMemory(memory),
                           BindBufferMemory(buffer, memory), UploadVertices(memory, DRAW_VERTEX_COUNT)]
    requires ops == bufferOps + PipelineOps(first, renderPass) + [RequestRedraw]
    ensures EndsWithDrawingSetup(ops, memory, renderPass, Pipeline(first + 3), PipelineLayout(first + 2))
    ensures ops[..4] == bufferOps
  {
    assert ops[..4] == bufferOps;
    assert ops[|ops| - 7..|ops| - 1] == PipelineOps(first, renderPass);
  }

  class App {
    var swapchain: Swapchain
    var images: seq<Image>
    var imageViews: seq<ImageView>
    var framebuffers: seq<Framebuffer>
    var extent: Extent
    var renderPass: RenderPass
    var pipeline: Pipeline
    var pipelineLayout: PipelineLayout
    var vertexBuffer: Buffer
    var vertexBufferMemory: DeviceMemory
    var commandPool: CommandPool
    var commandBuffer: CommandBuffer
    var imageAvailableSemaphore: Semaphore
    var renderFinishedSemaphore: Semaphore
    var circlePosition: Vec2
    var circleVelocity: Vec2
    /** The `LAST_TIME` static of `update_circle_position`. */
    var lastTime: Option<real>
    var frameCount: nat
    var fps: real
    var lastTitleUpdate: real
    /** `event_loop.exit()` has been called. */
    var exitRequested: bool
    var nextId: nat

    function Generation(): Chain
      reads this`swapchain, this`images, this`imageViews, this`framebuffers, this`extent
    {
      Chain(swapchain, images, imageViews, framebuffers, extent)
    }

    function FrameResources(): Resources
      reads this`renderPass, this`pipeline, this`pipelineLayout, this`vertexBuffer, this`commandBuffer,
        this`imageAvailableSemaphore, this`renderFinishedSemaphore
    {
      Resources(renderPass, pipeline, pipelineLayout, vertexBuffer, commandBuffer,
        imageAvailableSemaphore, renderFinishedSemaphore)
    }

    function FpsCounter(): Counter
      reads this`frameCount, this`fps, this`lastTitleUpdate
    {
      Counter(frameCount, fps, lastTitleUpdate)
    }

    function CircleMotion(): Motion
      reads this`circlePosition, this`circleVelocity
    {
      Motion(circlePosition, circleVelocity)
    }

    function State(): AppState
      reads this
    {
      AppState(Generation(), nextId, FpsCounter(), CircleMotion(), lastTime, exitRequested)
    }

    /** The swapchain generation is well formed for the render pass, and every
        handle held was issued before `nextId`. */
    ghost predicate Valid()
      reads this`swapchain, this`images, this`imageViews, this`framebuffers, this`extent, this`renderPass, this`nextId
    {
      && Lifecycle.WellFormed(Generation(), renderPass)
      && IssuedBefore(Generation(), nextId)
      && renderPass.id < nextId
    }

    /** `main`'s initial object: every handle null, nothing created yet. */
    constructor (now: real)
      ensures Generation() == Chain(NullSwapchain, [], [], [], Extent(0, 0))
      ensures FpsCounter() == Counter(0, 0.0, now)
      ensures CircleMotion() == Motion(Vec2(0.0, 0.0), Vec2(0.0, 0.0))
      ensures lastTime == None && !exitRequested
      ensures renderPass.id == 0 && nextId == 1
      ensures FrameResources() == Resources(RenderPass(0), Pipeline(0), PipelineLayout(0), Buffer(0),
                                            CommandBuffer(0), Semaphore(0), Semaphore(0))
      ensures vertexBufferMemory.id == 0 && commandPool == CommandPool(0)
      ensures Valid()
    {
      swapchain := NullSwapchain;
      images := [];
      imageViews := [];
      framebuffers := [];
      extent := Extent(0, 0);
      renderPass := RenderPass(0);
      pipeline := Pipeline(0);
      pipelineLayout := PipelineLayout(0);
      vertexBuffer := Buffer(0);
      vertexBufferMemory := DeviceMemory(0, 0);
      commandPool := CommandPool(0);
      commandBuffer := CommandBuffer(0);
      imageAvailableSemaphore := Semaphore(0);
      renderFinishedSemaphore := Semaphore(0);
      circlePosition := Vec2(0.0, 0.0);
      circleVelocity := Vec2(0.0, 0.0);
      lastTime := None;
      frameCount := 0;
      fps := 0.0;
      lastTitleUpdate := now;
      exitRequested := false;
      nextId := 1;
    }

    /** One view per swapchain image, in order, each with the given format. */
    method CreateImageViews(format: int) returns (ghost ops: seq<Op>)
      modifies this`imageViews, this`nextId
      ensures imageViews == ViewsFor(images, format, old(nextId))
      ensures nextId == old(nextId) + |images|
      ensures ops == CreateImageViewOps(imageViews)
    {
      ops := [];
      var views: seq<ImageView> := [];
      var i := 0;
      while i < |images|
        invariant 0 <= i <= |images|
        invariant nextId == old(nextId) + i
        invariant |views| == i
        invariant forall k :: 0 <= k < i ==> views[k] == ImageView(old(nextId) + k, images[k], format)
        invariant ops == CreateImageViewOps(views)
      {
        var view := ImageView(nextId, images[i], format);
        nextId := nextId + 1;
        assert CreateImageViewOps(views + [view]) == CreateImageViewOps(views) + [CreateImageView(view)];
        views := views + [view];
        ops := ops + [CreateImageView(view)];
        i := i + 1;
      }
      imageViews := views;
    }

    /** One framebuffer per view, in order, for the render pass and `size`. */
    method CreateFramebuffers(size: Extent) returns (ghost ops: seq<Op>)
      modifies this`framebuffers, this`nextId
      ensures framebuffers == FramebuffersFor(imageViews, renderPass, size, old(nextId))
      ensures nextId == old(nextId) + |imageViews|
      ensures ops == CreateFramebufferOps(framebuffers)
    {
      ops := [];
      var fbs: seq<Framebuffer> := [];
      var i := 0;
      while i < |imageViews|
        invariant 0 <= i <= |imageViews|
        invariant nextId == old(nextId) + i
        invariant |fbs| == i
        invariant forall k :: 0 <= k < i ==> fbs[k] == Framebuffer(old(nextId) + k, renderPass, imageViews[k], size)
        invariant ops == CreateFramebufferOps(fbs)
      {
        var fb := Framebuffer(nextId, renderPass, imageViews[i], size);
        nextId := nextId + 1;
        assert CreateFramebufferOps(fbs + [fb]) == CreateFramebufferOps(fbs) + [CreateFramebuffer(fb)];
        fbs := fbs + [fb];
        ops := ops + [CreateFramebuffer(fb)];
        i := i + 1;
      }
      framebuffers := fbs;
    }

    /** The first half of `recreate_swapchain`: wait for the device, then
        destroy every framebuffer, every view and the swapchain. The fields
        keep naming the destroyed handles. */
    method DestroyGeneration() returns (ghost ops: seq<Op>)
      ensures ops == Teardown(Generation())
    {
      ops := [DeviceWaitIdle];
      for i := 0 to |framebuffers|
        invariant ops == [DeviceWaitIdle] + DestroyFramebufferOps(framebuffers[..i])
      {
        assert DestroyFramebufferOps(framebuffers[..i + 1]) ==
          DestroyFramebufferOps(framebuffers[..i]) + [DestroyFramebuffer(framebuffers[i])];
        ops := ops + [DestroyFramebuffer(framebuffers[i])];
      }
      assert framebuffers[..|framebuffers|] == framebuffers;
      ghost var destroyedFramebuffers := ops;
      for i := 0 to |imageViews|
        invariant ops == destroyedFramebuffers + DestroyImageViewOps(imageViews[..i])
      {
        assert DestroyImageViewOps(imageViews[..i + 1]) ==
          DestroyImageViewOps(imageViews[..i]) + [DestroyImageView(imageViews[i])];
        ops := ops + [DestroyImageView(imageViews[i])];
      }
      assert imageViews[..|imageViews|] == imageViews;
      ops := ops + [DestroySwapchain(swapchain)];
    }

    /** The second half of `recreate_swapchain` once the settings are known: a
        new swapchain, its images, a view per image and a framebuffer per view
        at the current extent. */
    method BuildGeneration(info: SwapchainCreateInfo, imageCount: nat) returns (ghost ops: seq<Op>)
      modifies this`swapchain, this`images, this`imageViews, this`framebuffers, this`nextId
      ensures var views := ViewsFor(SwapchainImages(old(nextId), imageCount), info.format.format, old(nextId) + 1);
        var fbs := FramebuffersFor(views, renderPass, extent, old(nextId) + 1 + |views|);
        && Generation() == Chain(Swapchain(old(nextId), info), SwapchainImages(old(nextId), imageCount), views, fbs, extent)
        && nextId == old(nextId) + 1 + |views| + |fbs|
        && ops == BuildOps(swapchain, views, fbs)
    {
      swapchain := Swapchain(nextId, info);
      nextId := nextId + 1;
      images := SwapchainImages(swapchain.id, imageCount);
      var viewOps := CreateImageViews(info.format.format);
      var framebufferOps := CreateFramebuffers(extent);
      ops := [CreateSwapchain(swapchain)] + viewOps + framebufferOps;
    }

    /** `recreate_swapchain`. On a panic the old handles are already destroyed
        and the extent already replaced, while the fields still name the
        destroyed handles. */
    method RecreateSwapchain(report: SurfaceReport) returns (failure: Option<Panic>, ghost ops: seq<Op>)
      modifies this`swapchain, this`images, this`imageViews, this`framebuffers, this`extent, this`nextId
      ensures var r := Recreate(old(Generation()), renderPass, old(nextId), report);
        && Generation() == r.chain
        && nextId == r.nextId
        && ops == r.ops
        && failure == r.failure
      ensures old(Valid()) && failure.None? ==> Valid()
    {
      ops := DestroyGeneration();
      extent := report.windowSize;
      var settings := SwapchainSettings(report.capabilities, report.formats, report.presentModes, extent);
      if settings.Failure? {
        return Some(settings.panic), ops;
      }
      var buildOps := BuildGeneration(settings.value, report.swapchainImageCount);
      ops := ops + buildOps;
      failure := None;
      RecreateBuildsMatchingGeneration(old(Generation()), renderPass, old(nextId), report);
      if old(Valid()) {
        RecreateIssuesFreshHandles(old(Generation()), renderPass, old(nextId), report);
      }
    }

    /** `update_circle_position`: one `Animation.Step` over the time since the
        previous call (1/60 s on the first call) within the current extent. */
    method UpdateCirclePosition(now: real)
      modifies this`circlePosition, this`circleVelocity, this`lastTime
      ensures CircleMotion() == Step(old(CircleMotion()), DeltaTime(old(lastTime), now), Bounds(extent))
      ensures lastTime == Some(now)
    {
      var dt := match lastTime
        case Some(last) => now - last
        case None => 1.0 / 60.0;
      lastTime := Some(now);
      circlePosition := Vec2(circlePosition.x + circleVelocity.x * dt, circlePosition.y + circleVelocity.y * dt);
      var radius := 50.0;
      var bounds := Vec2(extent.width as real, extent.height as real);
      if circlePosition.x - radius < 0.0 || circlePosition.x + radius > bounds.x {
        circleVelocity := circleVelocity.(x := -circleVelocity.x);
      }
      if circlePosition.y - radius < 0.0 || circlePosition.y + radius > bounds.y {
        circleVelocity := circleVelocity.(y := -circleVelocity.y);
      }
    }

    /** `window_event`: one `Events.HandleEvent` over the object's state. A
        frame or a recreation that does not panic keeps the object valid. */
    method HandleWindowEvent(event: WindowEvent, report: SurfaceReport, acquire: VkResult<AcquiredImage>,
                             present: VkResult<bool>, moveTime: real, frameTime: real)
      returns (panic: Option<Panic>, ghost ops: seq<Op>)
      modifies this`swapchain, this`images, this`imageViews, this`framebuffers, this`extent, this`nextId
      modifies this`frameCount, this`fps, this`lastTitleUpdate
      modifies this`circlePosition, this`circleVelocity, this`lastTime, this`exitRequested
      ensures var r := HandleEvent(old(State()), FrameResources(), event, report, acquire, present, moveTime, frameTime);
        && State() == r.state
        && ops == r.ops
        && panic == r.panic
      ensures old(Valid()) && panic.None? ==> Valid()
    {
      match event {
        case CloseRequested =>
          exitRequested := true;
          panic, ops := None, [];
        case RedrawRequested =>
          panic, ops := Redraw(report, acquire, present, moveTime, frameTime);
        case Resized(_, _) =>
          panic, ops := Resize(report);
        case OtherEvent =>
          panic, ops := None, [];
      }
    }

    /** The `RedrawRequested` arm of `window_event`: move the circle, then
        render. */
    method Redraw(report: SurfaceReport, acquire: VkResult<AcquiredImage>, present: VkResult<bool>,
                  moveTime: real, frameTime: real)
      returns (panic: Option<Panic>, ghost ops: seq<Op>)
      modifies this`swapchain, this`images, this`imageViews, this`framebuffers, this`extent, this`nextId
      modifies this`frameCount, this`fps, this`lastTitleUpdate
      modifies this`circlePosition, this`circleVelocity, this`lastTime
      ensures var r := RedrawFrame(old(State()), FrameResources(), report, acquire, present, moveTime, frameTime);
        && State() == r.state
        && ops == r.ops
        && panic == r.panic
      ensures old(Valid()) && panic.None? ==> Valid()
    {
      UpdateCirclePosition(moveTime);
      var outcome;
      outcome, ops := Render(report, acquire, present, frameTime);
      panic := if outcome.Panicked? then Some(outcome.reason) else None;
    }

    /** The `Resized` arm of `window_event`: recreate the swapchain and, when
        that succeeds, ask for a redraw. The new size is not read. */
    method Resize(report: SurfaceReport)
      returns (panic: Option<Panic>, ghost ops: seq<Op>)
      modifies this`swapchain, this`images, this`imageViews, this`framebuffers, this`extent, this`nextId
      ensures var r := ResizeSwapchain(old(State()), FrameResources(), report);
        && State() == r.state
        && ops == r.ops
        && panic == r.panic
      ensures old(Valid()) && panic.None? ==> Valid()
    {
      panic, ops := RecreateSwapchain(report);
      if panic.None? {
        ops := ops + [RequestRedraw];
      }
    }

    /** `render`: one `Frame.RenderFrame` over the object's handles, swapchain
        generation, counter and circle position. */
    method Render(report: SurfaceReport, acquire: VkResult<AcquiredImage>, present: VkResult<bool>, now: real)
      returns (outcome: FrameOutcome, ghost ops: seq<Op>)
      modifies this`swapchain, this`images, this`imageViews, this`framebuffers, this`extent, this`nextId
      modifies this`frameCount, this`fps, this`lastTitleUpdate
      ensures var r := RenderFrame(FrameResources(), old(Generation()), old(nextId), old(FpsCounter()),
                                   circlePosition, report, acquire, present, now);
        && Generation() == r.chain
        && nextId == r.nextId
        && FpsCounter() == r.counter
        && ops == r.ops
        && outcome == r.outcome
      ensures old(Valid()) && !outcome.Panicked? ==> Valid()
    {
      ops := [ResetCommandBuffer(commandBuffer), AcquireNextImage(swapchain, imageAvailableSemaphore)];
      match acquire {
        case Err(code) =>
          if code == ERROR_OUT_OF_DATE_KHR {
            var failure, recreateOps := RecreateSwapchain(report);
            ops := ops + recreateOps;
            outcome := if failure.Some? then Panicked(failure.value) else Recreated;
          } else {
            outcome := Panicked(AcquireFailed(code));
          }
        case Ok(image) =>
          ghost var frameOps;
          outcome, frameOps := DrawAndPresent(image.imageIndex, report, present, now);
          ops := ops + frameOps;
      }
    }

    /** `render` once an image is acquired. */
    method DrawAndPresent(imageIndex: nat, report: SurfaceReport, present: VkResult<bool>, now: real)
      returns (outcome: FrameOutcome, ghost ops: seq<Op>)
      modifies this`swapchain, this`images, this`imageViews, this`framebuffers, this`extent, this`nextId
      modifies this`frameCount, this`fps, this`lastTitleUpdate
      ensures var r := FrameAfterAcquire(FrameResources(), old(Generation()), old(nextId), old(FpsCounter()),
                                         circlePosition, report, imageIndex, present, now);
        && Generation() == r.chain
        && nextId == r.nextId
        && FpsCounter() == r.counter
        && ops == r.ops
        && outcome == r.outcome
      ensures old(Valid()) && !outcome.Panicked? ==> Valid()
    {
      if imageIndex >= |framebuffers| {
        return Panicked(ImageIndexOutOfRange), [BeginCommandBuffer(commandBuffer)];
      }
      var drawOps := RecordDraw(framebuffers[imageIndex]);
      ghost var submission := drawOps + [QueueSubmit(commandBuffer, imageAvailableSemaphore, renderFinishedSemaphore),
                    QueuePresent(swapchain, imageIndex, renderFinishedSemaphore)];
      ghost var restOps;
      outcome, restOps := FinishFrame(imageIndex, report, present, now);
      ops := [BeginCommandBuffer(commandBuffer)] + (submission + restOps);
    }

    /** The end of `render`, once image `imageIndex` has been presented. */
    method FinishFrame(imageIndex: nat, report: SurfaceReport, present: VkResult<bool>, now: real)
      returns (outcome: FrameOutcome, ghost ops: seq<Op>)
      modifies this`swapchain, this`images, this`imageViews, this`framebuffers, this`extent, this`nextId
      modifies this`frameCount, this`fps, this`lastTitleUpdate
      ensures var r := AfterPresent(FrameResources(), old(Generation()), old(nextId), old(FpsCounter()),
                                    report, imageIndex, present, now);
        && Generation() == r.chain
        && nextId == r.nextId
        && FpsCounter() == r.counter
        && ops == r.ops
        && outcome == r.outcome
      ensures old(Valid()) && !outcome.Panicked? ==> Valid()
    {
      match present {
        case Err(code) =>
          if code == ERROR_OUT_OF_DATE_KHR {
            var failure, recreateOps := RecreateSwapchain(report);
            return (if failure.Some? then Panicked(failure.value) else Recreated), [] + recreateOps;
          }
          return Panicked(PresentFailed(code)), [];
        case Ok(_) =>
      }
      var titleOps := CountPresentedFrame(now);
      return Presented(imageIndex), titleOps + [RequestRedraw];
    }

    /** The commands `render` records after beginning the command buffer:
        the render pass into `target`, the pipeline, viewport and scissor of
        the current extent, the vertex buffer, the circle's transform and the
        34-vertex draw. */
    method RecordDraw(target: Framebuffer) returns (ghost ops: seq<Op>)
      ensures ops == RecordCommands(FrameResources(), target, extent, circlePosition)
    {
      ops := [
        BeginRenderPass(renderPass, target, extent),
        BindPipeline(pipeline),
        SetViewport(extent),
        SetScissor(extent),
        BindVertexBuffer(vertexBuffer),
        PushTransform(pipelineLayout, circlePosition.x, circlePosition.y, extent),
        Draw(34, 1),
        EndRenderPass,
        EndCommandBuffer(commandBuffer)];
    }

    /** The frame counter at the end of `render`: count the frame, and once a
        second has passed publish the rate in the title and start again. */
    method CountPresentedFrame(now: real) returns (ghost ops: seq<Op>)
      modifies this`frameCount, this`fps, this`lastTitleUpdate
      ensures FpsCounter() == CountFrame(old(FpsCounter()), now)
      ensures ops == if Publishes(old(FpsCounter()), now) then [SetTitle(fps)] else []
    {
      ops := [];
      frameCount := frameCount + 1;
      var elapsed := now - lastTitleUpdate;
      if elapsed >= 1.0 {
        fps := frameCount as real / elapsed;
        ops := [SetTitle(fps)];
        lastTitleUpdate := now;
        frameCount := 0;
      }
    }

    /** `create_shader_module`. */
    method CreateShaderModule() returns (m: ShaderModule, ghost ops: seq<Op>)
      modifies this`nextId
      ensures m == ShaderModule(old(nextId)) && nextId == old(nextId) + 1
      ensures ops == [Op.CreateShaderModule(m)]
    {
      m := ShaderModule(nextId);
      nextId := nextId + 1;
      ops := [Op.CreateShaderModule(m)];
    }

    /** `create_graphics_pipeline`: both shader modules are created, used for
        the pipeline and destroyed straight after it is built. */
    method CreateGraphicsPipeline() returns (ghost ops: seq<Op>)
      modifies this`pipeline, this`pipelineLayout, this`nextId
      ensures pipelineLayout == PipelineLayout(old(nextId) + 2)
      ensures pipeline == Pipeline(old(nextId) + 3)
      ensures nextId == old(nextId) + 4
      ensures ops == PipelineOps(old(nextId), renderPass)
    {
      var vertexShader, vertexOps := CreateShaderModule();
      var fragmentShader, fragmentOps := CreateShaderModule();
      pipelineLayout := PipelineLayout(nextId);
      nextId := nextId + 1;
      pipeline := Pipeline(nextId);
      nextId := nextId + 1;
      ops := vertexOps + fragmentOps + [
        CreatePipelineLayout(pipelineLayout),
        Op.CreateGraphicsPipeline(pipeline, pipelineLayout, renderPass),
        DestroyShaderModule(vertexShader),
        DestroyShaderModule(fragmentShader)];
    }

    /** `create_vertex_buffer`: a buffer sized for the vertices, bound to
        memory of the lowest suitable host-visible, host-coherent type, and
        filled with the vertices; no such type is the panic. */
    method CreateVertexBuffer(vertices: seq<Vertex>, memoryTypeBits: bv32, memoryProperties: MemoryProperties)
      returns (failure: Option<Panic>, ghost ops: seq<Op>)
      requires Memory.WellFormed(memoryProperties)
      modifies this`vertexBuffer, this`vertexBufferMemory, this`nextId
      ensures failure.None? <==> HasSuitableType(memoryProperties, memoryTypeBits, VERTEX_MEMORY_PROPERTIES)
      ensures failure.Some? ==> failure.value == NoSuitableMemoryType && ops == [CreateBuffer(vertexBuffer, |vertices| * VERTEX_STRIDE)]
      ensures vertexBuffer == Buffer(old(nextId)) && old(nextId) < nextId
      ensures failure.None? ==>
        && vertexBufferMemory.id == old(nextId) + 1
        && nextId == old(nextId) + 2
        && vertexBufferMemory.memoryTypeIndex < memoryProperties.memoryTypeCount
        && Suitable(memoryProperties, memoryTypeBits, VERTEX_MEMORY_PROPERTIES, vertexBufferMemory.memoryTypeIndex)
        && (forall j :: 0 <= j < vertexBufferMemory.memoryTypeIndex ==>
              !Suitable(memoryProperties, memoryTypeBits, VERTEX_MEMORY_PROPERTIES, j))
        && ops == [
             CreateBuffer(vertexBuffer, |vertices| * VERTEX_STRIDE),
             AllocateMemory(vertexBufferMemory),
             BindBufferMemory(vertexBuffer, vertexBufferMemory),
             UploadVertices(vertexBufferMemory, |vertices|)]
    {
      var bufferSize := |vertices| * VERTEX_STRIDE;
      vertexBuffer := Buffer(nextId);
      nextId := nextId + 1;
      ops := [CreateBuffer(vertexBuffer, bufferSize)];
      var memoryTypeIndex := FindMemoryType(memoryProperties, memoryTypeBits, VERTEX_MEMORY_PROPERTIES);
      if memoryTypeIndex.None? {
        return Some(NoSuitableMemoryType), ops;
      }
      vertexBufferMemory := DeviceMemory(nextId, memoryTypeIndex.value);
      nextId := nextId + 1;
      ops := ops + [
        AllocateMemory(vertexBufferMemory),
        BindBufferMemory(vertexBuffer, vertexBufferMemory),
        UploadVertices(vertexBufferMemory, |vertices|)];
      return None, ops;
    }

    /** What `init_vulkan` leaves behind: a valid swapchain generation built
        with `info` and holding the `imageCount` images the driver returned,
        their views in the chosen surface format, vertex memory of the lowest
        suitable type, and the circle at the centre of the extent moving at
        the start velocity. */
    ghost predicate Initialised(info: SwapchainCreateInfo, imageCount: nat, device: DeviceReport)
      reads this
      requires Memory.WellFormed(device.memoryProperties)
    {
      && Valid()
      && swapchain.Swapchain? && swapchain.info == info
      && extent == info.extent
      && |images| == imageCount
      && (forall k :: 0 <= k < |imageViews| ==> imageViews[k].format == info.format.format)
      && CircleMotion() == Motion(Vec2(extent.width as real / 2.0, extent.height as real / 2.0), START_VELOCITY)
      && vertexBufferMemory.memoryTypeIndex < device.memoryProperties.memoryTypeCount
      && Suitable(device.memoryProperties, device.vertexMemoryTypeBits, VERTEX_MEMORY_PROPERTIES,
                  vertexBufferMemory.memoryTypeIndex)
      && (forall j :: 0 <= j < vertexBufferMemory.memoryTypeIndex ==>
            !Suitable(device.memoryProperties, device.vertexMemoryTypeBits, VERTEX_MEMORY_PROPERTIES, j))
    }

    /** `init_vulkan`: the checks of `Startup.StartupPanic` in order, then the
        swapchain generation, the render pass, the command buffer, the
        semaphores, the vertex buffer and the pipeline; the circle starts at
        the centre of the extent and a redraw is requested. Instance and
        surface creation are taken to succeed. */
    method InitVulkan(platform: Platform, device: DeviceReport, report: SurfaceReport)
      returns (failure: Option<Panic>, ghost ops: seq<Op>)
      requires Memory.WellFormed(device.memoryProperties)
      modifies this`swapchain, this`images, this`imageViews, this`framebuffers, this`extent, this`renderPass
      modifies this`pipeline, this`pipelineLayout, this`vertexBuffer, this`vertexBufferMemory, this`commandPool
      modifies this`commandBuffer, this`imageAvailableSemaphore, this`renderFinishedSemaphore
      modifies this`circlePosition, this`circleVelocity, this`nextId
      ensures failure == StartupPanic(platform, device, report)
      ensures |ops| >= 1 && ops[0] == CreateInstance(InstanceExtensions(platform.os))
      ensures failure.Some? ==> RequestRedraw !in ops
      ensures failure.None? ==>
        && CreateCommandPool(commandPool, FirstGraphicsFamily(device.queueFamilies).value) in ops
        && EndsWithDrawingSetup(ops, vertexBufferMemory, renderPass, pipeline, pipelineLayout)
      ensures failure.None? ==>
        Initialised(SwapchainSettings(report.capabilities, report.formats, report.presentModes, InitExtent(report)).value,
                    report.swapchainImageCount, device)
      ensures failure.None? ==>
        && 1 <= swapchain.info.minImageCount
        && (report.swapchainImageCount >= swapchain.info.minImageCount ==> |images| > 0)
    {
      var family, info;
      ghost var setupOps;
      failure, family, info, setupOps := SelectDevice(platform, device, report);
      ops := setupOps;
      if failure.None? {
        ghost var resourceOps;
        failure, resourceOps := InitResources(info, report.swapchainImageCount, family, device);
        if failure.None? {
          EndsWithDrawingSetupAfter(setupOps, resourceOps, vertexBufferMemory, renderPass, pipeline, pipelineLayout);
        }
        ops := setupOps + resourceOps;
      }
    }

    /** The first half of `init_vulkan`: the instance, the surface, the
        physical device and its graphics queue family, the logical device and
        the swapchain settings, each check ending in its panic. On success
        only the vertex buffer's memory type can still make start-up fail. */
    method SelectDevice(platform: Platform, device: DeviceReport, report: SurfaceReport)
      returns (failure: Option<Panic>, family: nat, info: SwapchainCreateInfo, ghost ops: seq<Op>)
      requires Memory.WellFormed(device.memoryProperties)
      ensures |ops| >= 1 && ops[0] == CreateInstance(InstanceExtensions(platform.os))
      ensures RequestRedraw !in ops
      ensures failure.Some? ==> failure == StartupPanic(platform, device, report)
      ensures failure.None? ==>
        && SurfaceExtension(platform.os, platform.window, platform.display).Success?
        && FirstGraphicsFamily(device.queueFamilies) == Some(family)
        && SwapchainSettings(report.capabilities, report.formats, report.presentModes, InitExtent(report)) == Success(info)
        && ops == [CreateInstance(InstanceExtensions(platform.os)),
                   CreateSurface(SurfaceExtension(platform.os, platform.window, platform.display).value),
                   CreateDevice(family)]
        && StartupPanic(platform, device, report) ==
             if HasSuitableType(device.memoryProperties, device.vertexMemoryTypeBits, VERTEX_MEMORY_PROPERTIES)
             then None else Some(NoSuitableMemoryType)
    {
      family, info := 0, SwapchainCreateInfo(0, SurfaceFormat(0, 0), Extent(0, 0), Fifo);
      var instance := CreateInstance(InstanceExtensions(platform.os));
      var surface := SurfaceExtension(platform.os, platform.window, platform.display);
      if surface.Failure? {
        return Some(surface.panic), family, info, [instance];
      }
      if device.physicalDeviceCount == 0 {
        return Some(NoPhysicalDevice), family, info, [instance, CreateSurface(surface.value)];
      }
      var graphics := FirstGraphicsFamily(device.queueFamilies);
      if graphics.None? {
        return Some(NoGraphicsQueueFamily), family, info, [instance, CreateSurface(surface.value)];
      }
      family := graphics.value;
      ops := [instance, CreateSurface(surface.value), CreateDevice(family)];
      var initExtent := ChooseInitExtent(report.capabilities, report.windowSize);
      var settings := SwapchainSettings(report.capabilities, report.formats, report.presentModes, initExtent);
      if settings.Failure? {
        return Some(settings.panic), family, info, ops;
      }
      failure, info := None, settings.value;
    }

    /** `init_vulkan` from the swapchain on, once the settings are known. */
    method InitResources(info: SwapchainCreateInfo, imageCount: nat, family: nat, device: DeviceReport)
      returns (failure: Option<Panic>, ghost ops: seq<Op>)
      requires Memory.WellFormed(device.memoryProperties)
      modifies this`swapchain, this`images, this`imageViews, this`framebuffers, this`extent, this`renderPass
      modifies this`pipeline, this`pipelineLayout, this`vertexBuffer, this`vertexBufferMemory, this`commandPool
      modifies this`commandBuffer, this`imageAvailableSemaphore, this`renderFinishedSemaphore
      modifies this`circlePosition, this`circleVelocity, this`nextId
      ensures failure.None? <==>
        HasSuitableType(device.memoryProperties, device.vertexMemoryTypeBits, VERTEX_MEMORY_PROPERTIES)
      ensures failure.Some? ==> failure.value == NoSuitableMemoryType && RequestRedraw !in ops
      ensures failure.None? ==>
        && Initialised(info, imageCount, device)
        && CreateCommandPool(commandPool, family) in ops
        && EndsWithDrawingSetup(ops, vertexBufferMemory, renderPass, pipeline, pipelineLayout)
    {
      var generationOps := InitGeneration(info, imageCount);
      ghost var built := Chain(swapchain, images, imageViews, framebuffers, info.extent);
      ghost var issued := nextId;
      ghost var restOps;
      failure, restOps := InitCommandsAndDrawing(family, info.extent, device);
      if failure.None? {
        assert Generation() == built;
        IssuedBeforeLater(built, issued, nextId);
      }
      ops := generationOps + restOps;
      if failure.None? {
        assert ops[|generationOps|] == CreateCommandPool(commandPool, family);
        EndsWithDrawingSetupAfter(generationOps, restOps, vertexBufferMemory, renderPass, pipeline, pipelineLayout);
      }
    }

    /** `init_vulkan` after the swapchain generation: the command objects,
        then the vertex buffer, the pipeline and the circle's start. */
    method InitCommandsAndDrawing(family: nat, size: Extent, device: DeviceReport)
      returns (failure: Option<Panic>, ghost ops: seq<Op>)
      requires Memory.WellFormed(device.memoryProperties)
      modifies this`pipeline, this`pipelineLayout, this`vertexBuffer, this`vertexBufferMemory, this`commandPool
      modifies this`commandBuffer, this`imageAvailableSemaphore, this`renderFinishedSemaphore
      modifies this`extent, this`circlePosition, this`circleVelocity, this`nextId
      ensures old(nextId) <= nextId
      ensures failure.None? <==>
        HasSuitableType(device.memoryProperties, device.vertexMemoryTypeBits, VERTEX_MEMORY_PROPERTIES)
      ensures failure.Some? ==> failure.value == NoSuitableMemoryType && RequestRedraw !in ops
      ensures failure.None? ==>
        && extent == size
        && CircleMotion() == Motion(Vec2(size.width as real / 2.0, size.height as real / 2.0), START_VELOCITY)
        && vertexBufferMemory.memoryTypeIndex < device.memoryProperties.memoryTypeCount
        && Suitable(device.memoryProperties, device.vertexMemoryTypeBits, VERTEX_MEMORY_PROPERTIES,
                    vertexBufferMemory.memoryTypeIndex)
        && (forall j :: 0 <= j < vertexBufferMemory.memoryTypeIndex ==>
              !Suitable(device.memoryProperties, device.vertexMemoryTypeBits, VERTEX_MEMORY_PROPERTIES, j))
      ensures failure.None? ==>
        && |ops| > 0 && ops[0] == CreateCommandPool(commandPool, family)
        && EndsWithDrawingSetup(ops, vertexBufferMemory, renderPass, pipeline, pipelineLayout)
    {
      var commandOps := InitCommands(family);
      ghost var drawingOps;
      failure, drawingOps := InitDrawing(size, device);
      ops := commandOps + drawingOps;
      if failure.None? {
        EndsWithDrawingSetupAfter(commandOps, drawingOps, vertexBufferMemory, renderPass, pipeline, pipelineLayout);
      }
    }

    /** The command pool for queue family `family`, its command buffer and
        the two semaphores. */
    method InitCommands(family: nat) returns (ghost ops: seq<Op>)
      modifies this`commandPool, this`commandBuffer, this`imageAvailableSemaphore, this`renderFinishedSemaphore
      modifies this`nextId
      ensures old(nextId) <= nextId
      ensures ops == [
        CreateCommandPool(commandPool, family),
        AllocateCommandBuffer(commandBuffer, commandPool),
        CreateSemaphore(imageAvailableSemaphore),
        CreateSemaphore(renderFinishedSemaphore)]
    {
      commandPool := CommandPool(nextId);
      commandBuffer := CommandBuffer(nextId + 1);
      imageAvailableSemaphore := Semaphore(nextId + 2);
      renderFinishedSemaphore := Semaphore(nextId + 3);
      nextId := nextId + 4;
      ops := [
        CreateCommandPool(commandPool, family),
        AllocateCommandBuffer(commandBuffer, commandPool),
        CreateSemaphore(imageAvailableSemaphore),
        CreateSemaphore(renderFinishedSemaphore)];
    }

    /** The end of `init_vulkan`: the circle's vertex buffer, the pipeline,
        the extent, the circle's starting motion and the first redraw
        request. */
    method InitDrawing(size: Extent, device: DeviceReport) returns (failure: Option<Panic>, ghost ops: seq<Op>)
      requires Memory.WellFormed(device.memoryProperties)
      modifies this`pipeline, this`pipelineLayout, this`vertexBuffer, this`vertexBufferMemory
      modifies this`extent, this`circlePosition, this`circleVelocity, this`nextId
      ensures old(nextId) <= nextId
      ensures failure.None? <==>
        HasSuitableType(device.memoryProperties, device.vertexMemoryTypeBits, VERTEX_MEMORY_PROPERTIES)
      ensures failure.Some? ==> failure.value == NoSuitableMemoryType && ops == [CreateBuffer(vertexBuffer, DRAW_VERTEX_COUNT * VERTEX_STRIDE)]
      ensures failure.None? ==>
        && extent == size
        && CircleMotion() == Motion(Vec2(size.width as real / 2.0, size.height as real / 2.0), START_VELOCITY)
        && vertexBufferMemory.memoryTypeIndex < device.memoryProperties.memoryTypeCount
        && Suitable(device.memoryProperties, device.vertexMemoryTypeBits, VERTEX_MEMORY_PROPERTIES,
                    vertexBufferMemory.memoryTypeIndex)
        && (forall j :: 0 <= j < vertexBufferMemory.memoryTypeIndex ==>
              !Suitable(device.memoryProperties, device.vertexMemoryTypeBits, VERTEX_MEMORY_PROPERTIES, j))
      ensures failure.None? ==> EndsWithDrawingSetup(ops, vertexBufferMemory, renderPass, pipeline, pipelineLayout)
      ensures failure.None? ==>
        ops[..4] == [CreateBuffer(vertexBuffer, DRAW_VERTEX_COUNT * VERTEX_STRIDE),
                     AllocateMemory(vertexBufferMemory),
                     BindBufferMemory(vertexBuffer, vertexBufferMemory),
                     UploadVertices(vertexBufferMemory, DRAW_VERTEX_COUNT)]
    {
      ghost var bufferOps;
      failure, bufferOps := InitVertexBuffer(device);
      if failure.Some? {
        return failure, bufferOps;
      }
      ghost var first := nextId;
      var pipelineOps := CreateGraphicsPipeline();
      StartCircle(size);
      ops := bufferOps + pipelineOps + [RequestRedraw];
      DrawingSetupCalls(ops, bufferOps, vertexBuffer, vertexBufferMemory, first, renderPass);
    }

    /** The extent and the circle's starting motion: at the centre of
        `size`, moving at the start velocity. */
    method StartCircle(size: Extent)
      modifies this`extent, this`circlePosition, this`circleVelocity
      ensures extent == size
      ensures CircleMotion() == Motion(Vec2(size.width as real / 2.0, size.height as real / 2.0), START_VELOCITY)
    {
      extent := size;
      circlePosition := Vec2(extent.width as real / 2.0, extent.height as real / 2.0);
      circleVelocity := START_VELOCITY;
    }

    /** The circle's vertex buffer, in memory of the lowest suitable type,
        holding the 34 vertices of the triangle fan. */
    method InitVertexBuffer(device: DeviceReport) returns (failure: Option<Panic>, ghost ops: seq<Op>)
      requires Memory.WellFormed(device.memoryProperties)
      modifies this`vertexBuffer, this`vertexBufferMemory, this`nextId
      ensures old(nextId) <= nextId
      ensures failure.None? <==>
        HasSuitableType(device.memoryProperties, device.vertexMemoryTypeBits, VERTEX_MEMORY_PROPERTIES)
      ensures failure.Some? ==> failure.value == NoSuitableMemoryType && ops == [CreateBuffer(vertexBuffer, DRAW_VERTEX_COUNT * VERTEX_STRIDE)]
      ensures failure.None? ==>
        && vertexBufferMemory.memoryTypeIndex < device.memoryProperties.memoryTypeCount
        && Suitable(device.memoryProperties, device.vertexMemoryTypeBits, VERTEX_MEMORY_PROPERTIES,
                    vertexBufferMemory.memoryTypeIndex)
        && (forall j :: 0 <= j < vertexBufferMemory.memoryTypeIndex ==>
              !Suitable(device.memoryProperties, device.vertexMemoryTypeBits, VERTEX_MEMORY_PROPERTIES, j))
        && ops == [CreateBuffer(vertexBuffer, DRAW_VERTEX_COUNT * VERTEX_STRIDE),
                   AllocateMemory(vertexBufferMemory),
                   BindBufferMemory(vertexBuffer, vertexBufferMemory),
                   UploadVertices(vertexBufferMemory, DRAW_VERTEX_COUNT)]
    {
      var vertices := CreateCircleVertices(CIRCLE_RADIUS, CIRCLE_SEGMENTS);
      DrawCountMatchesMesh();
      failure, ops := CreateVertexBuffer(vertices, device.vertexMemoryTypeBits, device.memoryProperties);
    }

    /** The swapchain generation `init_vulkan` builds: the swapchain, its
        images, a view per image, the render pass, and a framebuffer per view
        with the extent of `info`. */
    method InitGeneration(info: SwapchainCreateInfo, imageCount: nat) returns (ghost ops: seq<Op>)
      modifies this`swapchain, this`images, this`imageViews, this`framebuffers, this`renderPass, this`nextId
      ensures Lifecycle.WellFormed(Chain(swapchain, images, imageViews, framebuffers, info.extent), renderPass)
      ensures IssuedBefore(Chain(swapchain, images, imageViews, framebuffers, info.extent), nextId)
      ensures renderPass.id < nextId && old(nextId) <= nextId
      ensures swapchain == Swapchain(old(nextId), info) && images == SwapchainImages(old(nextId), imageCount)
      ensures forall k :: 0 <= k < |imageViews| ==> imageViews[k].format == info.format.format
      ensures forall op :: op in ops ==>
        op.CreateSwapchain? || op.CreateImageView? || op.CreateRenderPass? || op.CreateFramebuffer?
    {
      swapchain := Swapchain(nextId, info);
      nextId := nextId + 1;
      images := SwapchainImages(swapchain.id, imageCount);
      var viewOps := CreateImageViews(info.format.format);
      renderPass := RenderPass(nextId);
      nextId := nextId + 1;
      var framebufferOps := CreateFramebuffers(info.extent);
      BuiltGeneration(swapchain, images, info.format.format, swapchain.id + 1, renderPass, info.extent,
                      renderPass.id + 1);
      BuildOpsOnlyCreate(imageViews, framebuffers);
      ops := [CreateSwapchain(swapchain)] + viewOps + [CreateRenderPass(renderPass)] + framebufferOps;
    }
  }
}
