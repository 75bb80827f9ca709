/**
 * The parts of the Vulkan API that the selection policy reads and writes.
 * Formats, colour spaces and present modes keep their numeric codes from the
 * Vulkan headers, so a driver may report any code, including ones the
 * application never names. Sharing mode and vertex input rate are abstract.
 */
module Vulkan {

  /** `uint32_t`. */
  type Uint32 = x: int | 0 <= x < 0x1_0000_0000

  /** `uint16_t`. */
  type Uint16 = x: int | 0 <= x < 0x1_0000

  /** `std::numeric_limits<uint32_t>::max()`, the "extent is undefined" sentinel. */
  const Uint32Max: Uint32 := 0xFFFF_FFFF

  /** `VkFormat`, a C enumeration. */
  type Format = int

  const FormatUndefined: Format := 0
  const FormatB8G8R8A8Unorm: Format := 44
  const FormatR32G32Sfloat: Format := 103
  const FormatR32G32B32Sfloat: Format := 106

  /** `VkColorSpaceKHR`. */
  type ColorSpace = int

  const ColorSpaceSrgbNonlinear: ColorSpace := 0

  /** `VkPresentModeKHR`. */
  type PresentMode = int

  /** Immediate and FIFO-relaxed are codes a driver may list; the application never asks for them. */
  const PresentModeImmediate: PresentMode := 0
  const PresentModeMailbox: PresentMode := 1
  const PresentModeFifo: PresentMode := 2
  const PresentModeFifoRelaxed: PresentMode := 3

  /** `VkQueueFlags` and its graphics bit. */
  type QueueFlags = bv32

  const QueueGraphicsBit: QueueFlags := 0x1

  /** `VkSurfaceTransformFlagBitsKHR`, `VkCompositeAlphaFlagBitsKHR`, `VkImageUsageFlags`. */
  type SurfaceTransform = bv32
  type CompositeAlpha = bv32
  type ImageUsage = bv32

  const CompositeAlphaOpaqueBit: CompositeAlpha := 0x1
  const ImageUsageColorAttachmentBit: ImageUsage := 0x10

  /** `VkSharingMode`. */
  datatype SharingMode = Exclusive | Concurrent

  /** `VkVertexInputRate`. */
  datatype VertexInputRate = PerVertex | PerInstance

  /** `VK_KHR_SWAPCHAIN_EXTENSION_NAME`. */
  const SwapchainExtensionName: string := "VK_KHR_swapchain"

  /** `VkExtent2D`. */
  datatype Extent2D = Extent2D(width: Uint32, height: Uint32)

  /** `VkSurfaceFormatKHR`. */
  datatype SurfaceFormat = SurfaceFormat(format: Format, colorSpace: ColorSpace)

  /** The fields of `VkSurfaceCapabilitiesKHR` that the application reads. */
  datatype SurfaceCapabilities = SurfaceCapabilities(
    minImageCount: Uint32,
    maxImageCount: Uint32,
    currentExtent: Extent2D,
    minImageExtent: Extent2D,
    maxImageExtent: Extent2D,
    currentTransform: SurfaceTransform)

  /** The fields of `VkQueueFamilyProperties` that the application reads. */
  datatype QueueFamilyProperties = QueueFamilyProperties(queueFlags: QueueFlags, queueCount: Uint32)

  /** `VkDeviceQueueCreateInfo` without its priority pointer. */
  datatype DeviceQueueCreateInfo = DeviceQueueCreateInfo(queueFamilyIndex: Uint32, queueCount: Uint32)

  /** `VkDeviceCreateInfo`, with the arrays it points to as sequences. */
  datatype DeviceCreateInfo = DeviceCreateInfo(
    queueCreateInfos: seq<DeviceQueueCreateInfo>,
    enabledExtensionNames: seq<string>,
    enabledLayerNames: seq<string>)

  /** `VkSwapchainCreateInfoKHR`, without the surface and old-swapchain handles. */
  datatype SwapchainCreateInfo = SwapchainCreateInfo(
    minImageCount: Uint32,
    imageFormat: Format,
    imageColorSpace: ColorSpace,
    imageExtent: Extent2D,
    imageArrayLayers: Uint32,
    imageUsage: ImageUsage,
    imageSharingMode: SharingMode,
    queueFamilyIndices: seq<Uint32>,
    preTransform: SurfaceTransform,
    compositeAlpha: CompositeAlpha,
    presentMode: PresentMode,
    clipped: bool)

  /** `VkVertexInputBindingDescription`. */
  datatype VertexInputBindingDescription = VertexInputBindingDescription(
    binding: Uint32, stride: Uint32, inputRate: VertexInputRate)

  /** `VkVertexInputAttributeDescription`. */
  datatype VertexInputAttributeDescription = VertexInputAttributeDescription(
    location: Uint32, binding: Uint32, format: Format, offset: Uint32)

  /** A queue retrieved by `vkGetDeviceQueue`: its family and its index within the family. */
  datatype QueueRef = QueueRef(familyIndex: Uint32, queueIndex: Uint32)
}
