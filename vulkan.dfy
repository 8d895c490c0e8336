/** The Vulkan vocabulary the renderer works with: 32-bit integers, extents,
    surface properties, result codes, opaque handles, the ways the program can
    panic, and the log of calls it makes on the device and on the window.

    A handle is modelled by a numeric id together with the create-info it was
    built from (an image view remembers its image, a framebuffer its view,
    render pass and extent); id 0 plays the part of VK_NULL_HANDLE. */
module Vulkan {

  const U32_MAX: int := 0xFFFF_FFFF

  /** Rust's `u32`. */
  type u32 = x: int | 0 <= x <= U32_MAX

  datatype Option<+T> = None | Some(value: T)

  datatype Extent = Extent(width: u32, height: u32)

  datatype PresentMode = Immediate | Mailbox | Fifo | FifoRelaxed | OtherPresentMode(raw: int)

  datatype SurfaceFormat = SurfaceFormat(format: int, colorSpace: int)

  /** The part of VkSurfaceCapabilitiesKHR the program reads.
      `maxImageCount == 0` means that the surface sets no maximum, and
      `currentExtent.width == U32_MAX` means that the application chooses the extent. */
  datatype SurfaceCapabilities = SurfaceCapabilities(
    minImageCount: u32,
    maxImageCount: u32,
    currentExtent: Extent)

  /** VK_ERROR_OUT_OF_DATE_KHR. */
  const ERROR_OUT_OF_DATE_KHR: int := -1000001004

  /** Rust's `Result<T, vk::Result>` as returned by ash. */
  datatype VkResult<+T> = Ok(value: T) | Err(code: int)

  /** The fields of VkSwapchainCreateInfoKHR that the program chooses. */
  datatype SwapchainCreateInfo = SwapchainCreateInfo(
    minImageCount: u32,
    format: SurfaceFormat,
    extent: Extent,
    presentMode: PresentMode)

  datatype Swapchain = NullSwapchain | Swapchain(id: nat, info: SwapchainCreateInfo)
  {
    function Id(): nat { if NullSwapchain? then 0 else id }
  }

  /** A swapchain image is owned by its swapchain and named by its position in it. */
  datatype Image = Image(swapchainId: nat, index: nat)
  datatype ImageView = ImageView(id: nat, image: Image, format: int)
  datatype RenderPass = RenderPass(id: nat)
  datatype Framebuffer = Framebuffer(id: nat, renderPass: RenderPass, view: ImageView, extent: Extent)
  datatype Pipeline = Pipeline(id: nat)
  datatype PipelineLayout = PipelineLayout(id: nat)
  datatype ShaderModule = ShaderModule(id: nat)
  datatype Buffer = Buffer(id: nat)
  datatype DeviceMemory = DeviceMemory(id: nat, memoryTypeIndex: nat)
  datatype CommandPool = CommandPool(id: nat)
  datatype CommandBuffer = CommandBuffer(id: nat)
  datatype Semaphore = Semaphore(id: nat)

  /** The ways the modelled code panics. */
  datatype Panic =
    | UnsupportedPlatform            // `_ => panic!("Unsupported platform.")`
    | DisplayHandleMismatch          // an X11/Wayland window with another kind of display
    | NoPhysicalDevice               // `physical_devices[0]` on an empty list
    | NoGraphicsQueueFamily          // `.expect("No graphics queue family found")`
    | NoSurfaceFormat                // `surface_formats[0]` on an empty list
    | ImageCountOverflow             // `min_image_count + 1` overflowing u32
    | NoSuitableMemoryType           // `panic!("Failed to find suitable memory type")`
    | AcquireFailed(code: int)       // `panic!("Failed to acquire next image: ...")`
    | ImageIndexOutOfRange           // `self.framebuffers[image_index as usize]` out of bounds
    | PresentFailed(code: int)       // `panic!("Failed to present queue: ...")`

  /** The instance extensions the program knows by name. */
  datatype Extension =
    | KhrSurface                   // "VK_KHR_surface"
    | KhrPortabilityEnumeration    // "VK_KHR_portability_enumeration"
    | KhrWin32Surface              // "VK_KHR_win32_surface"
    | ExtMetalSurface              // "VK_EXT_metal_surface"
    | KhrXlibSurface               // "VK_KHR_xlib_surface"
    | KhrWaylandSurface            // "VK_KHR_wayland_surface"

  /** A step that either yields a value or panics. */
  datatype Result<+T> = Success(value: T) | Failure(panic: Panic)

  /** One call the program makes on the device, the queue or the window. */
  datatype Op =
    // swapchain generation
    | DeviceWaitIdle
    | DestroyFramebuffer(framebuffer: Framebuffer)
    | DestroyImageView(view: ImageView)
    | DestroySwapchain(swapchain: Swapchain)
    | CreateSwapchain(created: Swapchain)
    | CreateImageView(createdView: ImageView)
    | CreateFramebuffer(createdFramebuffer: Framebuffer)
    // start-up only
    | CreateInstance(extensions: seq<Extension>)
    | CreateSurface(surfaceExtension: Extension)
    | CreateDevice(queueFamilyIndex: nat)
    | CreateRenderPass(renderPass: RenderPass)
    | CreateCommandPool(pool: CommandPool, poolQueueFamily: nat)
    | AllocateCommandBuffer(commandBuffer: CommandBuffer, fromPool: CommandPool)
    | CreateSemaphore(semaphore: Semaphore)
    | CreateBuffer(buffer: Buffer, sizeInBytes: nat)
    | AllocateMemory(memory: DeviceMemory)
    | BindBufferMemory(boundBuffer: Buffer, boundMemory: DeviceMemory)
    | UploadVertices(uploadTo: DeviceMemory, vertexCount: nat)
    | CreateShaderModule(shaderModule: ShaderModule)
    | CreatePipelineLayout(layout: PipelineLayout)
    | CreateGraphicsPipeline(pipeline: Pipeline, pipelineLayout: PipelineLayout, pipelineRenderPass: RenderPass)
    | DestroyShaderModule(destroyedModule: ShaderModule)
    // per frame
    | ResetCommandBuffer(resetBuffer: CommandBuffer)
    | AcquireNextImage(acquireFrom: Swapchain, signal: Semaphore)
    | BeginCommandBuffer(begun: CommandBuffer)
    | BeginRenderPass(pass: RenderPass, target: Framebuffer, renderArea: Extent)
    | BindPipeline(bound: Pipeline)
    | SetViewport(viewport: Extent)
    | SetScissor(scissor: Extent)
    | BindVertexBuffer(vertexBuffer: Buffer)
    | PushTransform(pushLayout: PipelineLayout, x: real, y: real, projection: Extent)
    | Draw(vertexCount: nat, instanceCount: nat)
    | EndRenderPass
    | EndCommandBuffer(ended: CommandBuffer)
    | QueueSubmit(submitted: CommandBuffer, waitOn: Semaphore, signalWhenDone: Semaphore)
    | QueuePresent(presentFrom: Swapchain, imageIndex: nat, presentWaitsOn: Semaphore)
    // window
    | SetTitle(fps: real)
    | RequestRedraw
}
