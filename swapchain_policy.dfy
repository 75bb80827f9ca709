/**
 * How the swapchain is configured from what the surface supports:
 * the surface format, the present mode, the image extent, the number of
 * images and whether the images are shared between two queue families.
 */
module SwapchainPolicy {
  import opened Wrappers
  import opened Vulkan
  import opened HelloTriangleApp
  import opened DeviceSelection

  /** The format the application prefers: 8-bit BGRA in the sRGB non-linear colour space. */
  const PreferredSurfaceFormat: SurfaceFormat := SurfaceFormat(FormatB8G8R8A8Unorm, ColorSpaceSrgbNonlinear)

  /** The format the application settles on: the preferred one wherever it is listed, otherwise the first listed. */
  function SurfaceFormatChoice(formats: seq<SurfaceFormat>): SurfaceFormat
    requires |formats| > 0
  {
    if PreferredSurfaceFormat in formats then PreferredSurfaceFormat else formats[0]
  }

  /** `chooseSwapSurfaceFormat`: a front-to-back search for the preferred format. */
  method ChooseSwapSurfaceFormat(availableFormats: seq<SurfaceFormat>) returns (r: SurfaceFormat)
    requires |availableFormats| > 0
    ensures r in availableFormats
    ensures PreferredSurfaceFormat in availableFormats ==> r == PreferredSurfaceFormat
    ensures PreferredSurfaceFormat !in availableFormats ==> r == availableFormats[0]
    ensures r == SurfaceFormatChoice(availableFormats)
  {
    for k := 0 to |availableFormats|
      invariant PreferredSurfaceFormat !in availableFormats[..k]
    {
      var availableFormat := availableFormats[k];
      if availableFormat.format == FormatB8G8R8A8Unorm && availableFormat.colorSpace == ColorSpaceSrgbNonlinear {
        return availableFormat;
      }
    }
    assert availableFormats[..|availableFormats|] == availableFormats;
    return availableFormats[0];
  }

  /** The chosen format depends only on which formats are listed and on which one is listed first. */
  lemma SurfaceFormatChoiceIgnoresOrder(a: seq<SurfaceFormat>, b: seq<SurfaceFormat>)
    requires |a| > 0 && |b| > 0
    requires multiset(a) == multiset(b)
    requires PreferredSurfaceFormat in a || a[0] == b[0]
    ensures SurfaceFormatChoice(a) == SurfaceFormatChoice(b)
  {
    assert PreferredSurfaceFormat in a <==> PreferredSurfaceFormat in multiset(a);
    assert PreferredSurfaceFormat in b <==> PreferredSurfaceFormat in multiset(b);
  }

  /** The present mode the application settles on: mailbox if listed, otherwise FIFO. */
  function PresentModeChoice(modes: seq<PresentMode>): PresentMode {
    if PresentModeMailbox in modes then PresentModeMailbox else PresentModeFifo
  }

  /** `chooseSwapPresentMode`: a search for mailbox with FIFO, which every surface supports, as fallback. */
  method ChooseSwapPresentMode(availablePresentModes: seq<PresentMode>) returns (r: PresentMode)
    ensures r == PresentModeMailbox <==> PresentModeMailbox in availablePresentModes
    ensures r == PresentModeFifo <==> PresentModeMailbox !in availablePresentModes
    ensures r == PresentModeChoice(availablePresentModes)
  {
    for k := 0 to |availablePresentModes|
      invariant PresentModeMailbox !in availablePresentModes[..k]
    {
      if availablePresentModes[k] == PresentModeMailbox {
        return availablePresentModes[k];
      }
    }
    assert availablePresentModes[..|availablePresentModes|] == availablePresentModes;
    return PresentModeFifo;
  }

  /** `std::max(lo, std::min(hi, requested))` on unsigned integers: `requested` clamped into [lo, hi], with lo winning when the range is empty. */
  function ClampDimension(requested: Uint32, lo: Uint32, hi: Uint32): (r: Uint32)
    ensures lo <= hi ==> lo <= r <= hi
    ensures lo <= requested <= hi ==> r == requested
    ensures requested < lo ==> r == lo
    ensures lo <= hi < requested ==> r == hi
    ensures hi < lo ==> r == lo
  {
    var capped := if hi < requested then hi else requested;
    if lo < capped then capped else lo
  }

  /**
   * `chooseSwapExtent`: the surface's current extent, unless its width is
   * the undefined-size sentinel; then the window size (800 by 600) clamped
   * into the surface's minimum and maximum extents, component by component.
   */
  function ChooseSwapExtent(capabilities: SurfaceCapabilities): (r: Extent2D)
    ensures capabilities.currentExtent.width != Uint32Max ==> r == capabilities.currentExtent
    ensures capabilities.currentExtent.width == Uint32Max ==>
      && r.width == ClampDimension(Width, capabilities.minImageExtent.width, capabilities.maxImageExtent.width)
      && r.height == ClampDimension(Height, capabilities.minImageExtent.height, capabilities.maxImageExtent.height)
    ensures capabilities.currentExtent.width == Uint32Max
            && capabilities.minImageExtent.width <= capabilities.maxImageExtent.width
            && capabilities.minImageExtent.height <= capabilities.maxImageExtent.height ==>
      && capabilities.minImageExtent.width <= r.width <= capabilities.maxImageExtent.width
      && capabilities.minImageExtent.height <= r.height <= capabilities.maxImageExtent.height
  {
    if capabilities.currentExtent.width != Uint32Max then
      capabilities.currentExtent
    else
      var actualExtent := Extent2D(Width, Height);
      Extent2D(
        ClampDimension(actualExtent.width, capabilities.minImageExtent.width, capabilities.maxImageExtent.width),
        ClampDimension(actualExtent.height, capabilities.minImageExtent.height, capabilities.maxImageExtent.height))
  }

  /**
   * The number of swapchain images requested in `createSwapChain`: one more
   * than the minimum, lowered to the maximum when the surface has one
   * (a maximum of 0 means no limit). The addition is on `uint32_t`, so a
   * minimum of `UINT32_MAX` wraps to 0.
   */
  function ImageCount(capabilities: SurfaceCapabilities): (count: Uint32)
    ensures capabilities.minImageCount < Uint32Max ==>
      (count == capabilities.minImageCount + 1 <==>
         capabilities.maxImageCount == 0 || capabilities.minImageCount + 1 <= capabilities.maxImageCount)
    ensures capabilities.minImageCount < Uint32Max ==>
      count == capabilities.minImageCount + 1 || count == capabilities.maxImageCount
    ensures capabilities.maxImageCount > 0 && capabilities.minImageCount < Uint32Max ==> count <= capabilities.maxImageCount
    ensures 0 < capabilities.minImageCount <= capabilities.maxImageCount && capabilities.minImageCount < Uint32Max ==>
      capabilities.minImageCount <= count <= capabilities.maxImageCount
    ensures capabilities.maxImageCount == 0 && capabilities.minImageCount < Uint32Max ==> count == capabilities.minImageCount + 1
    ensures capabilities.minImageCount == Uint32Max ==> count == 0
  {
    var imageCount: Uint32 := (capabilities.minImageCount + 1) % 0x1_0000_0000;
    if capabilities.maxImageCount > 0 && imageCount > capabilities.maxImageCount then
      capabilities.maxImageCount
    else
      imageCount
  }

  /** The two worked cases: minimum 2, maximum 3 asks for 3; minimum 3, maximum 3 is capped at 3. */
  lemma ImageCountExamples(extent: Extent2D, transform: SurfaceTransform)
    ensures ImageCount(SurfaceCapabilities(2, 3, extent, extent, extent, transform)) == 3
    ensures ImageCount(SurfaceCapabilities(3, 3, extent, extent, extent, transform)) == 3
    ensures ImageCount(SurfaceCapabilities(3, 0, extent, extent, extent, transform)) == 4
  {
  }

  /** How swapchain images are shared: the mode and the queue families listed in the create info. */
  datatype ImageSharing = ImageSharing(mode: SharingMode, queueFamilyIndices: seq<Uint32>)

  /**
   * The sharing decision of `createSwapChain`: concurrent between the two
   * families when graphics and presentation use different families,
   * exclusive (and no family list) when they use the same one.
   */
  function ImageSharingFor(indices: QueueFamilyIndices): (r: ImageSharing)
    requires indices.IsComplete()
    ensures r.mode == Concurrent <==> indices.graphicsFamily.value != indices.presentFamily.value
    ensures r.mode == Concurrent ==> r.queueFamilyIndices == [indices.graphicsFamily.value, indices.presentFamily.value]
    ensures r.mode == Exclusive ==> r.queueFamilyIndices == []
  {
    if indices.graphicsFamily != indices.presentFamily then
      ImageSharing(Concurrent, [indices.graphicsFamily.value, indices.presentFamily.value])
    else
      ImageSharing(Exclusive, [])
  }

  /**
   * Sharing and queue creation agree: images are shared concurrently exactly
   * when the device has queues from two families, and then the families
   * listed for sharing are exactly those families.
   */
  lemma SharingMatchesUniqueFamilies(indices: QueueFamilyIndices)
    requires indices.IsComplete()
    ensures ImageSharingFor(indices).mode == Concurrent <==> |UniqueQueueFamilySet(indices)| == 2
    ensures ImageSharingFor(indices).mode == Exclusive <==> |UniqueQueueFamilySet(indices)| == 1
    ensures ImageSharingFor(indices).mode == Concurrent ==>
      forall f :: f in ImageSharingFor(indices).queueFamilyIndices <==> f in UniqueQueueFamilySet(indices)
  {
  }

  /**
   * The swapchain create info that `createSwapChain` fills from a suitable
   * device's surface support and queue families: the preferred-or-first
   * listed format, mailbox only when listed (FIFO otherwise), the image count
   * and extent rules, and concurrent sharing exactly when two queue families
   * are involved. The image count lies within the surface's limits only when
   * 0 < min <= max and min < `UINT32_MAX` (it wraps to 0 at `UINT32_MAX`),
   * and the clamped extent only when min <= max; a current extent is passed
   * through unchecked.
   */
  function SwapchainCreateInfoFor(support: SwapChainSupportDetails, indices: QueueFamilyIndices): (r: SwapchainCreateInfo)
    requires |support.formats| > 0
    requires indices.IsComplete()
    ensures SurfaceFormat(r.imageFormat, r.imageColorSpace) == SurfaceFormatChoice(support.formats)
    ensures SurfaceFormat(r.imageFormat, r.imageColorSpace) in support.formats
    ensures r.presentMode == PresentModeChoice(support.presentModes)
    ensures r.presentMode in support.presentModes || r.presentMode == PresentModeFifo
    ensures r.presentMode == PresentModeMailbox <==> PresentModeMailbox in support.presentModes
    ensures r.minImageCount == ImageCount(support.capabilities)
    ensures r.imageExtent == ChooseSwapExtent(support.capabilities)
    ensures r.imageSharingMode == Concurrent <==> indices.graphicsFamily.value != indices.presentFamily.value
    ensures r.imageSharingMode == Concurrent <==> |r.queueFamilyIndices| == 2
    ensures r.queueFamilyIndices == ImageSharingFor(indices).queueFamilyIndices
    ensures r.imageArrayLayers == 1 && r.clipped
  {
    var surfaceFormat := SurfaceFormatChoice(support.formats);
    var sharing := ImageSharingFor(indices);
    SwapchainCreateInfo(
      minImageCount := ImageCount(support.capabilities),
      imageFormat := surfaceFormat.format,
      imageColorSpace := surfaceFormat.colorSpace,
      imageExtent := ChooseSwapExtent(support.capabilities),
      imageArrayLayers := 1,
      imageUsage := ImageUsageColorAttachmentBit,
      imageSharingMode := sharing.mode,
      queueFamilyIndices := sharing.queueFamilyIndices,
      preTransform := support.capabilities.currentTransform,
      compositeAlpha := CompositeAlphaOpaqueBit,
      presentMode := PresentModeChoice(support.presentModes),
      clipped := true)
  }
}
