/** The values the Vulkan API hands to the application and the constants the
    application compares them with. Only the fields the application reads are
    kept; every handle is an opaque number. */
module Vulkan {
  import opened Helpers

  /** An opaque Vulkan handle; 0 is VK_NULL_HANDLE. */
  type Handle = nat

  const NullHandle: Handle := 0

  /** VK_FORMAT_B8G8R8A8_SRGB. */
  const FormatB8g8r8a8Srgb: uint32 := 50

  /** VK_COLOR_SPACE_SRGB_NONLINEAR_KHR. */
  const ColorSpaceSrgbNonlinear: uint32 := 0

  /** VK_PRESENT_MODE_MAILBOX_KHR. */
  const PresentModeMailbox: uint32 := 1

  /** VK_PRESENT_MODE_FIFO_KHR, the mode every implementation supports. */
  const PresentModeFifo: uint32 := 2

  /** VK_QUEUE_GRAPHICS_BIT. */
  const QueueGraphicsBit: bv32 := 0x1

  datatype Extent2D = Extent2D(width: uint32, height: uint32)

  datatype SurfaceFormat = SurfaceFormat(format: uint32, colorSpace: uint32)

  datatype SurfaceCapabilities = SurfaceCapabilities(
    minImageCount: uint32,
    maxImageCount: uint32,
    currentExtent: Extent2D,
    minImageExtent: Extent2D,
    maxImageExtent: Extent2D)

  /** What PhysicalDevice.SwapchainSupport queries for the application's surface. */
  datatype SwapchainSupport = SwapchainSupport(
    capabilities: SurfaceCapabilities,
    formats: seq<SurfaceFormat>,
    presentModes: seq<uint32>)

  datatype QueueFamilyProperties = QueueFamilyProperties(queueFlags: bv32)

  /** A physical device with the names of its layers and extensions. */
  datatype PhysicalDevice = PhysicalDevice(
    handle: Handle,
    layerNames: seq<string>,
    extensionNames: seq<string>,
    queueFamilies: seq<QueueFamilyProperties>)

  /** The VkResult codes the application distinguishes. */
  datatype VkResult = VkSuccess | Suboptimal | ErrorOutOfDate | OtherError(code: int)

  /** The surface-support query: can family `index` of the device `handle`
      present to the application's surface? */
  type SurfaceSupportQuery = (Handle, uint32) -> bool

  /** The swapchain-support query of the device `handle` for the application's surface. */
  type SwapchainSupportQuery = Handle -> SwapchainSupport
}
