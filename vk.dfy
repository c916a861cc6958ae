/**
 * The Vulkan and window-system values the swapchain component reads and writes,
 * as plain data. The format, colour-space and present-mode enumerations keep
 * the constants the component names, their zero values, and one
 * `Other…(code)` case whose code is none of the named ones.
 */
module Vk {
  import opened Wrappers

  /** C's `uint32_t`. */
  type uint32 = x: int | 0 <= x < 0x1_0000_0000

  /** C's `int` (32-bit two's complement), as returned for framebuffer sizes. */
  type int32 = x: int | -0x8000_0000 <= x < 0x8000_0000

  /** A non-dispatchable Vulkan handle (64 bits); 0 is `VK_NULL_HANDLE`. */
  type Handle = x: int | 0 <= x < 0x1_0000_0000_0000_0000

  const Uint32Max: uint32 := 0xFFFF_FFFF
  const NullHandle: Handle := 0

  /** A `VkFormat` code other than `VK_FORMAT_UNDEFINED` (0) and `VK_FORMAT_B8G8R8A8_SRGB` (50). */
  type OtherFormatCode = c: int | c != 0 && c != 50 witness 43

  /** A `VkColorSpaceKHR` code other than `VK_COLOR_SPACE_SRGB_NONLINEAR_KHR` (0). */
  type OtherColorSpaceCode = c: int | c != 0 witness 1

  /** A `VkPresentModeKHR` code other than those of immediate (0), mailbox (1) and FIFO (2). */
  type OtherPresentModeCode = c: int | !(0 <= c <= 2) witness 3

  /** `VkFormat`; `FormatUndefined` is the zero value. */
  datatype Format = FormatUndefined | FormatB8G8R8A8Srgb | OtherFormat(code: OtherFormatCode)

  /** `VkColorSpaceKHR`; `ColorSpaceSrgbNonlinear` is the zero value. */
  datatype ColorSpace = ColorSpaceSrgbNonlinear | OtherColorSpace(code: OtherColorSpaceCode)

  /** `VkPresentModeKHR`; `PresentModeImmediate` is the zero value. */
  datatype PresentMode =
    | PresentModeImmediate
    | PresentModeMailbox
    | PresentModeFifo
    | OtherPresentMode(code: OtherPresentModeCode)

  /** `VkSharingMode`; `SharingExclusive` is the zero value. */
  datatype SharingMode = SharingExclusive | SharingConcurrent

  const ImageUsageColorAttachmentBit: uint32 := 0x10
  const CompositeAlphaOpaqueBit: uint32 := 0x1

  datatype Extent2D = Extent2D(width: uint32, height: uint32)

  datatype SurfaceFormat = SurfaceFormat(format: Format, colorSpace: ColorSpace)

  /**
   * The members of `VkSurfaceCapabilitiesKHR` the component reads. A
   * `currentExtent.width` of `Uint32Max` means the surface size is set by the
   * swapchain; a `maxImageCount` of 0 means there is no upper limit.
   */
  datatype SurfaceCapabilities = SurfaceCapabilities(
    minImageCount: uint32,
    maxImageCount: uint32,
    currentExtent: Extent2D,
    minImageExtent: Extent2D,
    maxImageExtent: Extent2D,
    currentTransform: uint32)

  /** What `SwapChainSupportDetails::querySwapChainSupport` reports for a device and surface. */
  datatype SupportDetails = SupportDetails(
    capabilities: SurfaceCapabilities,
    formats: seq<SurfaceFormat>,
    presentModes: seq<PresentMode>)

  /** What `QueuFamilyIndices::find_family_indices` reports; either family may be missing. */
  datatype QueueFamilyIndices = QueueFamilyIndices(
    graphicsFamily: Option<uint32>,
    presentFamily: Option<uint32>)

  /** The members of `VkSwapchainCreateInfoKHR` the component sets. */
  datatype CreateInfo = CreateInfo(
    surface: Handle,
    minImageCount: uint32,
    imageFormat: Format,
    imageColorSpace: ColorSpace,
    imageExtent: Extent2D,
    imageArrayLayers: uint32,
    imageUsage: uint32,
    imageSharingMode: SharingMode,
    queueFamilyIndexCount: uint32,
    queueFamilyIndices: seq<uint32>,
    preTransform: uint32,
    compositeAlpha: uint32,
    presentMode: PresentMode,
    clipped: bool,
    oldSwapchain: Handle)

  /** A value-initialised create-info record (`VkSwapchainCreateInfoKHR createInfo{}`): every member zero. */
  const ZeroCreateInfo: CreateInfo := CreateInfo(
    NullHandle, 0, FormatUndefined, ColorSpaceSrgbNonlinear, Extent2D(0, 0), 0, 0,
    SharingExclusive, 0, [], 0, 0, PresentModeImmediate, false, NullHandle)
}
