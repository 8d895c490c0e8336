/** The choices `init_vulkan` and `recreate_swapchain` make from what the
    loader, the surface and the window report: instance extensions, the
    surface-creation path, the queue family, and the swapchain's format,
    present mode, extent and image count. */
module Selection {
  import opened Vulkan

  /** What the window and the surface report at the moment a swapchain is built. */
  datatype SurfaceReport = SurfaceReport(
    windowSize: Extent,                // window.inner_size()
    capabilities: SurfaceCapabilities,
    formats: seq<SurfaceFormat>,
    presentModes: seq<PresentMode>,
    swapchainImageCount: nat)          // how many images get_swapchain_images hands back

  // ---------------------------------------------------------------------------
  // Instance extensions and surface creation

  datatype Os = Windows | MacOs | Linux | OtherOs
  datatype WindowHandle = Win32Window | AppKitWindow | XlibWindow | WaylandWindow | OtherWindow
  datatype DisplayHandle = XlibDisplay | WaylandDisplay | OtherDisplay

  /** The instance extensions requested for the target operating system. */
  function InstanceExtensions(os: Os): (r: seq<Extension>)
    ensures |r| >= 2 && r[0] == KhrSurface && r[1] == KhrPortabilityEnumeration
    ensures KhrWin32Surface in r <==> os == Windows
    ensures ExtMetalSurface in r <==> os == MacOs
    ensures KhrXlibSurface in r <==> os == Linux
    ensures KhrWaylandSurface in r <==> os == Linux
    ensures forall i, j :: 0 <= i < j < |r| ==> r[i] != r[j]
    ensures os == Linux ==> r[2] == KhrXlibSurface && r[3] == KhrWaylandSurface
  {
    [KhrSurface, KhrPortabilityEnumeration] +
    match os
    case Windows => [KhrWin32Surface]
    case MacOs => [ExtMetalSurface]
    case Linux => [KhrXlibSurface, KhrWaylandSurface]
    case OtherOs => []
  }

  /** The extension whose create-surface call the platform dispatch makes, or
      the panic it reaches. Only the arms compiled for `os` exist; every other
      handle kind falls into the catch-all panic. */
  function SurfaceExtension(os: Os, window: WindowHandle, display: DisplayHandle): (r: Result<Extension>)
    ensures r.Success? ==> r.value in InstanceExtensions(os)
    ensures r.Success? <==>
      || (os == Windows && window == Win32Window)
      || (os == MacOs && window == AppKitWindow)
      || (os == Linux && window == XlibWindow && display == XlibDisplay)
      || (os == Linux && window == WaylandWindow && display == WaylandDisplay)
    ensures r.Success? && window == Win32Window ==> r.value == KhrWin32Surface
    ensures r.Success? && window == AppKitWindow ==> r.value == ExtMetalSurface
    ensures r.Success? && window == XlibWindow ==> r.value == KhrXlibSurface
    ensures r.Success? && window == WaylandWindow ==> r.value == KhrWaylandSurface
    ensures r.Failure? && os == Linux && (window == XlibWindow || window == WaylandWindow) ==>
      r.panic == DisplayHandleMismatch
    ensures r.Failure? && !(os == Linux && (window == XlibWindow || window == WaylandWindow)) ==>
      r.panic == UnsupportedPlatform
  {
    match (os, window)
    case (Windows, Win32Window) => Success(KhrWin32Surface)
    case (MacOs, AppKitWindow) => Success(ExtMetalSurface)
    case (Linux, XlibWindow) =>
      if display == XlibDisplay then Success(KhrXlibSurface) else Failure(DisplayHandleMismatch)
    case (Linux, WaylandWindow) =>
      if display == WaylandDisplay then Success(KhrWaylandSurface) else Failure(DisplayHandleMismatch)
    case _ => Failure(UnsupportedPlatform)
  }

  // ---------------------------------------------------------------------------
  // Queue family

  const QUEUE_GRAPHICS_BIT: bv32 := 0x1

  predicate HasGraphics(flags: bv32)
  {
    flags & QUEUE_GRAPHICS_BIT == QUEUE_GRAPHICS_BIT
  }

  /** `position(|props| props.queue_flags.contains(GRAPHICS))`: the first family
      that can do graphics, if any. */
  function FirstGraphicsFamily(families: seq<bv32>): (r: Option<nat>)
    ensures r.Some? ==> r.value < |families| && HasGraphics(families[r.value])
    ensures r.Some? ==> forall j :: 0 <= j < r.value ==> !HasGraphics(families[j])
    ensures r.None? ==> forall j :: 0 <= j < |families| ==> !HasGraphics(families[j])
  {
    if families == [] then None
    else if HasGraphics(families[0]) then Some(0)
    else match FirstGraphicsFamily(families[1..])
      case None => None
      case Some(i) => Some(i + 1)
  }

  // ---------------------------------------------------------------------------
  // Swapchain parameters

  /** `iter.find(|&mode| mode == wanted)`: the first offered mode equal to `wanted`. */
  function FindPresentMode(modes: seq<PresentMode>, wanted: PresentMode): (r: Option<PresentMode>)
    ensures r.Some? <==> wanted in modes
    ensures r.Some? ==> r.value == wanted
  {
    if modes == [] then None
    else if modes[0] == wanted then Some(modes[0])
    else FindPresentMode(modes[1..], wanted)
  }

  /** MAILBOX when the surface offers it, IMMEDIATE otherwise (whether or not
      IMMEDIATE is offered). */
  function ChoosePresentMode(modes: seq<PresentMode>): (r: PresentMode)
    ensures Mailbox in modes ==> r == Mailbox
    ensures Mailbox !in modes ==> r == Immediate
  {
    match FindPresentMode(modes, Mailbox)
    case Some(mode) => mode
    case None => Immediate
  }

  function Min(a: int, b: int): int { if a <= b then a else b }

  /** `min_image_count + 1`, clamped by a nonzero `max_image_count`. The
      addition is u32 arithmetic; the model follows a debug build, where it
      panics on overflow. */
  function ImageCount(caps: SurfaceCapabilities): (r: Option<u32>)
    ensures r.Some? <==> caps.minImageCount < U32_MAX
    ensures r.Some? ==> 1 <= r.value
    ensures r.Some? && caps.maxImageCount > 0 ==> r.value <= caps.maxImageCount
    ensures r.Some? && (caps.maxImageCount == 0 || caps.maxImageCount > caps.minImageCount) ==>
      r.value == caps.minImageCount + 1
    ensures r.Some? && 0 < caps.maxImageCount <= caps.minImageCount ==> r.value == caps.maxImageCount
  {
    if caps.minImageCount == U32_MAX then None
    else
      var count := caps.minImageCount + 1;
      Some(if caps.maxImageCount > 0 then Min(count, caps.maxImageCount) else count)
  }

  /** The extent `init_vulkan` uses: the window's size when the surface reports
      the U32_MAX sentinel, the surface's current extent otherwise. */
  function ChooseInitExtent(caps: SurfaceCapabilities, windowSize: Extent): (r: Extent)
    ensures caps.currentExtent.width == U32_MAX ==> r == windowSize
    ensures caps.currentExtent.width != U32_MAX ==> r == caps.currentExtent
  {
    if caps.currentExtent.width == U32_MAX then windowSize else caps.currentExtent
  }

  /** The window's size is consulted at start-up exactly when the surface
      reports the sentinel: otherwise some window size is ignored. */
  lemma InitExtentFollowsWindowIffSentinel(caps: SurfaceCapabilities)
    ensures (forall w :: ChooseInitExtent(caps, w) == w) <==> caps.currentExtent.width == U32_MAX
  {
    if caps.currentExtent.width != U32_MAX {
      var w := if caps.currentExtent == Extent(0, 0) then Extent(1, 1) else Extent(0, 0);
      assert ChooseInitExtent(caps, w) != w;
    }
  }

  /** The create-info both `init_vulkan` and `recreate_swapchain` build, for a
      given extent: the first format, the chosen present mode and the clamped
      image count, or the panic reached on the way (an empty format list is
      indexed before the image count is computed). */
  function SwapchainSettings(caps: SurfaceCapabilities, formats: seq<SurfaceFormat>,
                             modes: seq<PresentMode>, extent: Extent): (r: Result<SwapchainCreateInfo>)
    ensures r.Success? <==> |formats| > 0 && caps.minImageCount < U32_MAX
    ensures |formats| == 0 ==> r == Failure(NoSurfaceFormat)
    ensures |formats| > 0 && caps.minImageCount == U32_MAX ==> r == Failure(ImageCountOverflow)
    ensures r.Success? ==> r.value.format == formats[0] && r.value.extent == extent
    ensures r.Success? ==> (r.value.presentMode == Mailbox <==> Mailbox in modes)
    ensures r.Success? ==> r.value.presentMode == Mailbox || r.value.presentMode == Immediate
    ensures r.Success? ==> ImageCount(caps) == Some(r.value.minImageCount)
  {
    if |formats| == 0 then Failure(NoSurfaceFormat)
    else
      var format := formats[0];
      var presentMode := ChoosePresentMode(modes);
      match ImageCount(caps)
      case None => Failure(ImageCountOverflow)
      case Some(count) => Success(SwapchainCreateInfo(count, format, extent, presentMode))
  }
}
