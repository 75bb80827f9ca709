/**
 * The start-up steps of `HelloTriangleApplication` that pick and set up the
 * GPU: the application object keeps what each step chose in its fields.
 */
module Application {
  import opened Wrappers
  import opened Vulkan
  import opened HelloTriangleApp
  import opened DeviceSelection
  import opened SwapchainPolicy

  /** The `std::runtime_error`s these steps throw. */
  datatype Error =
    | NoVulkanGpu                   // "failed to find GPUs with Vulkan support!"
    | NoSuitableGpu                 // "failed to find a suitable GPU!"
    | LogicalDeviceCreationFailed   // "failed to create logical device!"
    | SwapChainCreationFailed       // "failed to create swap chain!"

  /**
   * The fields of `HelloTriangleApplication` that device and swapchain
   * set-up write. A handle the driver creates is recorded by the create info
   * it was made from; `None` is `VK_NULL_HANDLE`.
   */
  class HelloTriangleApplication {
    var physicalDevice: Option<PhysicalDevice>
    var device: Option<DeviceCreateInfo>
    var graphicsQueue: Option<QueueRef>
    var presentQueue: Option<QueueRef>
    var swapChain: Option<SwapchainCreateInfo>
    var swapChainImageFormat: Format
    var swapChainExtent: Extent2D

    /** No device is chosen yet: `physicalDevice` starts as the null handle. */
    constructor ()
      ensures physicalDevice == None && device == None
      ensures graphicsQueue == None && presentQueue == None && swapChain == None
    {
      physicalDevice := None;
      device := None;
      graphicsQueue := None;
      presentQueue := None;
      swapChain := None;
      swapChainImageFormat := FormatUndefined;
      swapChainExtent := Extent2D(0, 0);
    }

    /**
     * `pickPhysicalDevice`: fails when the driver enumerates no GPU;
     * otherwise takes the first suitable device in enumeration order. The
     * null handle is the "none found" marker, so a device chosen earlier
     * stays and counts as found.
     */
    method PickPhysicalDevice(devices: seq<PhysicalDevice>) returns (outcome: Outcome<Error>)
      modifies this`physicalDevice
      ensures |devices| == 0 ==> outcome == Fail(NoVulkanGpu) && physicalDevice == old(physicalDevice)
      ensures |devices| > 0 && FirstSuitable(devices).Some? ==>
        physicalDevice == Some(devices[FirstSuitable(devices).value]) && outcome == Pass
      ensures |devices| > 0 && FirstSuitable(devices).None? ==>
        && physicalDevice == old(physicalDevice)
        && outcome == if old(physicalDevice).None? then Fail(NoSuitableGpu) else Pass
    {
      var deviceCount := |devices|;
      if deviceCount == 0 {
        return Fail(NoVulkanGpu);
      }
      var i := 0;
      while i < |devices|
        invariant 0 <= i <= |devices|
        invariant forall j :: 0 <= j < i ==> !Suitable(devices[j])
        invariant physicalDevice == old(physicalDevice)
      {
        var suitable := IsDeviceSuitable(devices[i]);
        if suitable {
          physicalDevice := Some(devices[i]);
          assert FirstSuitable(devices) == Some(i);
          break;
        }
        i := i + 1;
      }
      if physicalDevice == None {
        return Fail(NoSuitableGpu);
      }
      return Pass;
    }

    /**
     * `createLogicalDevice`: one queue from each distinct family of the
     * chosen device's graphics and present families, the required device
     * extensions, and the validation layers when they are enabled; then the
     * two queues are fetched. `created` is whether the driver accepted the
     * create info.
     */
    method CreateLogicalDevice(enableValidationLayers: bool, created: bool) returns (outcome: Outcome<Error>)
      requires physicalDevice.Some? && Suitable(physicalDevice.value)
      modifies this`device, this`graphicsQueue, this`presentQueue
      ensures outcome == if created then Pass else Fail(LogicalDeviceCreationFailed)
      ensures !created ==> device == old(device) && graphicsQueue == old(graphicsQueue) && presentQueue == old(presentQueue)
      ensures created ==>
        var indices := QueueFamiliesOf(physicalDevice.value.queueFamilies);
        var families := UniqueQueueFamilySet(indices);
        && device.Some?
        && |device.value.queueCreateInfos| == |families|
        && (forall k :: 0 <= k < |families| ==> device.value.queueCreateInfos[k] == DeviceQueueCreateInfo(families[k], 1))
        && device.value.enabledExtensionNames == DeviceExtensions
        && device.value.enabledLayerNames == (if enableValidationLayers then ValidationLayers else [])
        && graphicsQueue == Some(QueueRef(indices.graphicsFamily.value, 0))
        && presentQueue == Some(QueueRef(indices.presentFamily.value, 0))
    {
      var indices := FindQueueFamilies(physicalDevice.value);
      var queueCreateInfos := CreateQueueCreateInfos(indices);
      var enabledLayerNames := if enableValidationLayers then ValidationLayers else [];
      var createInfo := DeviceCreateInfo(queueCreateInfos, DeviceExtensions, enabledLayerNames);
      if !created {
        return Fail(LogicalDeviceCreationFailed);
      }
      device := Some(createInfo);
      graphicsQueue := Some(QueueRef(indices.graphicsFamily.value, 0));
      presentQueue := Some(QueueRef(indices.presentFamily.value, 0));
      return Pass;
    }

    /**
     * `createSwapChain`: chooses the surface format, present mode, extent,
     * image count and sharing mode from the chosen device's surface support,
     * and on success records the swapchain with its format and extent.
     * `created` is whether the driver accepted the create info.
     */
    method CreateSwapChain(created: bool) returns (outcome: Outcome<Error>)
      requires physicalDevice.Some? && Suitable(physicalDevice.value)
      requires device.Some?
      modifies this`swapChain, this`swapChainImageFormat, this`swapChainExtent
      ensures outcome == if created then Pass else Fail(SwapChainCreationFailed)
      ensures !created ==>
        swapChain == old(swapChain) && swapChainImageFormat == old(swapChainImageFormat) && swapChainExtent == old(swapChainExtent)
      ensures created ==>
        var info := SwapchainCreateInfoFor(QuerySwapChainSupport(physicalDevice.value), QueueFamiliesOf(physicalDevice.value.queueFamilies));
        && swapChain == Some(info)
        && swapChainImageFormat == info.imageFormat
        && swapChainExtent == info.imageExtent
    {
      var swapChainSupport := QuerySwapChainSupport(physicalDevice.value);
      var capabilities := swapChainSupport.capabilities;
      var surfaceFormat := ChooseSwapSurfaceFormat(swapChainSupport.formats);
      var presentMode := ChooseSwapPresentMode(swapChainSupport.presentModes);
      var extent := ChooseSwapExtent(capabilities);

      var imageCount: Uint32 := (capabilities.minImageCount + 1) % 0x1_0000_0000;
      if capabilities.maxImageCount > 0 && imageCount > capabilities.maxImageCount {
        imageCount := capabilities.maxImageCount;
      }
      assert imageCount == ImageCount(capabilities);

      var indices := FindQueueFamilies(physicalDevice.value);
      var queueFamilyIndices := [indices.graphicsFamily.value, indices.presentFamily.value];
      var sharingMode, sharedFamilies;
      if indices.graphicsFamily != indices.presentFamily {
        sharingMode, sharedFamilies := Concurrent, queueFamilyIndices;
      } else {
        sharingMode, sharedFamilies := Exclusive, [];
      }
      assert ImageSharing(sharingMode, sharedFamilies) == ImageSharingFor(indices);

      var createInfo := SwapchainCreateInfo(
        minImageCount := imageCount,
        imageFormat := surfaceFormat.format,
        imageColorSpace := surfaceFormat.colorSpace,
        imageExtent := extent,
        imageArrayLayers := 1,
        imageUsage := ImageUsageColorAttachmentBit,
        imageSharingMode := sharingMode,
        queueFamilyIndices := sharedFamilies,
        preTransform := capabilities.currentTransform,
        compositeAlpha := CompositeAlphaOpaqueBit,
        presentMode := presentMode,
        clipped := true);
      assert createInfo == SwapchainCreateInfoFor(swapChainSupport, indices);
      if !created {
        return Fail(SwapChainCreationFailed);
      }
      swapChain := Some(createInfo);
      swapChainImageFormat := surfaceFormat.format;
      swapChainExtent := extent;
      return Pass;
    }
  }
}
