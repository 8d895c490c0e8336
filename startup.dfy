/** The checks `init_vulkan` makes on its way to a running renderer, in the
    order it makes them, and the panic each failed check ends in. */
module Startup {
  import opened Vulkan
  import opened Selection
  import opened Memory

  /** The platform the program was built for and the handles the window gives. */
  datatype Platform = Platform(os: Os, window: WindowHandle, display: DisplayHandle)

  /** What the loader and the first physical device report during start-up. */
  datatype DeviceReport = DeviceReport(
    physicalDeviceCount: nat,
    queueFamilies: seq<bv32>,            // queue_flags of each family
    vertexMemoryTypeBits: bv32,          // memory_type_bits of the vertex buffer
    memoryProperties: MemoryProperties)

  /** Host-visible and host-coherent: the properties asked of vertex memory. */
  const VERTEX_MEMORY_PROPERTIES: bv32 := HOST_VISIBLE | HOST_COHERENT

  /** The extent the first swapchain is built with. */
  function InitExtent(report: SurfaceReport): Extent
  {
    ChooseInitExtent(report.capabilities, report.windowSize)
  }

  /** The first panic `init_vulkan` reaches, if any: the surface dispatch,
      `physical_devices[0]`, the graphics queue family, the swapchain
      settings and the vertex buffer's memory type, in that order. */
  ghost function StartupPanic(platform: Platform, device: DeviceReport, report: SurfaceReport): Option<Panic>
    requires WellFormed(device.memoryProperties)
  {
    var surface := SurfaceExtension(platform.os, platform.window, platform.display);
    if surface.Failure? then Some(surface.panic)
    else if device.physicalDeviceCount == 0 then Some(NoPhysicalDevice)
    else if FirstGraphicsFamily(device.queueFamilies).None? then Some(NoGraphicsQueueFamily)
    else match SwapchainSettings(report.capabilities, report.formats, report.presentModes, InitExtent(report))
      case Failure(p) => Some(p)
      case Success(_) =>
        if HasSuitableType(device.memoryProperties, device.vertexMemoryTypeBits, VERTEX_MEMORY_PROPERTIES)
        then None
        else Some(NoSuitableMemoryType)
  }

  /** Start-up succeeds exactly when every check passes; a missing physical
      device is reported only once the surface was created; and every panic
      other than the two of the platform dispatch comes after the surface. */
  lemma StartupPanicCases(platform: Platform, device: DeviceReport, report: SurfaceReport)
    requires WellFormed(device.memoryProperties)
    ensures StartupPanic(platform, device, report).None? <==>
      && SurfaceExtension(platform.os, platform.window, platform.display).Success?
      && device.physicalDeviceCount > 0
      && (exists j :: 0 <= j < |device.queueFamilies| && HasGraphics(device.queueFamilies[j]))
      && |report.formats| > 0
      && report.capabilities.minImageCount < U32_MAX
      && HasSuitableType(device.memoryProperties, device.vertexMemoryTypeBits, VERTEX_MEMORY_PROPERTIES)
    ensures StartupPanic(platform, device, report) == Some(NoPhysicalDevice) <==>
      SurfaceExtension(platform.os, platform.window, platform.display).Success? && device.physicalDeviceCount == 0
    ensures var r := StartupPanic(platform, device, report);
      r.Some? && !r.value.UnsupportedPlatform? && !r.value.DisplayHandleMismatch? ==>
      SurfaceExtension(platform.os, platform.window, platform.display).Success?
  {
  }
}
