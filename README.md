# Device and swapchain selection of a Vulkan "hello triangle" application

This project models, in Dafny, the selection policy inside the start-up
sequence of `HelloTriangleApplication`: which GPU is used, which of its queue
families draw and present, and how the swapchain is configured from what the
window surface supports. Everything the driver would be asked is input data: a
GPU is a `PhysicalDevice` record holding its queue families (queue count,
queue flags, whether the family can present to the surface), the names of its
extensions, and its surface capabilities, formats and present modes.

Modules:

- `Wrappers` (wrappers.dfy): `Option` for `std::optional` and null handles, `Outcome` for thrown errors.
- `Vulkan` (vulkan.dfy): the API's records and codes. Formats, colour spaces and present modes stay open integer codes, with the values of the Vulkan headers, so a driver may report codes the application never names.
- `HelloTriangleApp` (hello_triangle_app.dfy): the header's data. This covers `WIDTH`/`HEIGHT`, `validationLayers`, `deviceExtensions`, `QueueFamilyIndices` with `IsComplete`, `SwapChainSupportDetails`, the vertex and index data, and the vertex binding and attribute descriptions.
- `DeviceSelection` (device_selection.dfy): the queue-family search, the extension and layer checks, suitability, the first-fit pick, and the queue create infos of the logical device.
- `SwapchainPolicy` (swapchain_policy.dfy): the choices of surface format, present mode, extent, image count and sharing mode, and the swapchain create info built from them.
- `Application` (application.dfy): the class `HelloTriangleApplication`. Its fields (`physicalDevice`, `device`, the two queues, `swapChain`, `swapChainImageFormat`, `swapChainExtent`) are written by `PickPhysicalDevice`, `CreateLogicalDevice` and `CreateSwapChain`.

Code structure. The loops of the source are methods with loops: the format, present-mode and layer searches, the queue-family search with its `break`, the erase-from-set extension check, the device pick, and the create-info push loop. Most of these methods are proved equal to a specification function whose properties are proved separately; `CheckValidationLayerSupport` states its property, every requested layer being available, directly in its `ensures`. `chooseSwapExtent`, the image-count rule and the sharing decision are plain expressions in the source, so they are functions here.

Points where the code decides and the model follows it:

- `findQueueFamilies` overwrites an index each time a later family qualifies, until both indices are set. So it reports the LAST qualifying family within the examined prefix, not the first. `QueueFamiliesOf` states exactly that.
- The image count `minImageCount + 1` is computed in `uint32_t`. A minimum of `UINT32_MAX` wraps to 0, and the cap is not applied then. `ImageCount` models the wrap. Its bounds are stated for minima below `UINT32_MAX`.
- `std::set<uint32_t>` iterates in ascending order. So the queue create infos come in ascending family order, not in "graphics first" order.
- The requested extent is the constant 800 by 600, not the current window size.
- The required sharing families in the concurrent case are `[graphics, present]`, in that order.

## Model

| member | source | states |
|---|---|---|
| HelloTriangleApp.QuadIndicesFormTriangleList | HelloTriangleApp.h:83-92 | 4 vertices and 6 indices. Every index is below the vertex count and the count is a multiple of 3, so the data is a triangle list. No triangle repeats a vertex, and every vertex is used. |
| HelloTriangleApp.QueueFamilyIndices.IsComplete | HelloTriangleApp.h:117-120 | Complete exactly when the indices are some graphics family together with some present family. |
| HelloTriangleApp.GetBindingDescription | HelloTriangleApp.h:58-64 | Binding 0, advanced per vertex, with the vertex size as stride. |
| HelloTriangleApp.GetAttributeDescriptions | HelloTriangleApp.h:66-80 | Two attributes, the k-th at location k, both on binding 0: `pos` as R32G32_SFLOAT at its offset, `color` as R32G32B32_SFLOAT at its offset. |
| HelloTriangleApp.VertexDescriptionsAgree | HelloTriangleApp.h:58-80 | The binding is binding 0, per vertex, with the given stride. There are two attributes, both on that binding, at locations 0 and 1, with the given offsets. `pos` is read as R32G32_SFLOAT and `color` as R32G32B32_SFLOAT. |
| HelloTriangleApp.RequiredNamesAndSize | HelloTriangleApp.h:28-38 | The only required device extension is `VK_KHR_swapchain`. The only validation layer is `VK_LAYER_KHRONOS_validation`. The requested size is 800 by 600. |
| SwapchainPolicy.ChooseSwapSurfaceFormat | HelloTriangleApplication.cpp:300-312 | On a nonempty list: returns BGRA8-UNORM/sRGB-nonlinear if it is listed anywhere, otherwise element 0. The result is always a listed format. |
| SwapchainPolicy.SurfaceFormatChoiceIgnoresOrder | HelloTriangleApplication.cpp:302-311 | Reordering the list never changes the choice when the preferred format is present. Without it, only the first element matters. |
| SwapchainPolicy.ChooseSwapPresentMode | HelloTriangleApplication.cpp:315-323 | Total on every list, including the empty one. Returns mailbox iff mailbox is listed, FIFO iff it is not. |
| SwapchainPolicy.ClampDimension | HelloTriangleApplication.cpp:334-335 | `max(lo, min(hi, v))` lies in [lo, hi] when lo <= hi. It is v inside the range, lo below it, hi above it, and lo when the range is empty. |
| SwapchainPolicy.ChooseSwapExtent | HelloTriangleApplication.cpp:326-339 | If the current width is not `UINT32_MAX`, returns the current extent exactly, height included. Otherwise 800 and 600 are clamped component-wise into [minImageExtent, maxImageExtent], and the result lies in those bounds whenever min <= max. |
| SwapchainPolicy.ImageCount | HelloTriangleApplication.cpp:353-360 | The count is min + 1, unless a nonzero max is smaller; then it is max. It never exceeds a nonzero max. It is min + 1 when max is 0. It lies in [min, max] when 0 < min <= max. It wraps to 0 when min is `UINT32_MAX`. |
| SwapchainPolicy.ImageCountExamples | HelloTriangleApplication.cpp:353-360 | (2, 3) gives 3; (3, 3) gives 3; (3, unbounded) gives 4. |
| SwapchainPolicy.ImageSharingFor | HelloTriangleApplication.cpp:373-392 | Concurrent iff the graphics and present families differ, and then the family list is `[graphics, present]`. Otherwise exclusive, with no families. |
| SwapchainPolicy.SharingMatchesUniqueFamilies | HelloTriangleApplication.cpp:205-218 | Concurrent sharing exactly when the logical device has queues from two distinct families; exclusive exactly when from one. The shared families are exactly those distinct families. |
| SwapchainPolicy.SwapchainCreateInfoFor | HelloTriangleApplication.cpp:345-397 | The create info takes the preferred-or-first listed format, mailbox only when listed (else FIFO), the sharing families `ImageSharingFor` picks, the `ImageCount` and `ChooseSwapExtent` results, and concurrent sharing exactly with two families. It also sets one array layer and clipping. The count is within the surface limits only when 0 < min <= max and min < `UINT32_MAX`; the clamped extent is in bounds only when min <= max. |
| DeviceSelection.QuerySwapChainSupport | HelloTriangleApplication.cpp:259-297 | The details hold the device's reported surface capabilities and its whole format and present-mode lists, in the driver's order (empty when the count is 0). |
| DeviceSelection.LastServing | HelloTriangleApplication.cpp:180-196 | The index of the last family with queues that serves a role. It is absent iff no family serves the role, and no later family serves it. |
| DeviceSelection.ExaminedCount | HelloTriangleApplication.cpp:192-194 | The number of families the search looks at: the shortest prefix that holds both a graphics and a present family, or the whole list. |
| DeviceSelection.QueueFamiliesOf | HelloTriangleApplication.cpp:171-199 | Every reported index is below the family count. The graphics index is a family with queues and the graphics bit. The present index is a family with queues and present support. The result is complete iff the device has both kinds of family. |
| DeviceSelection.QueueFamilySearchStopsAtCompletion | HelloTriangleApplication.cpp:192-194 | Once both roles are found, families after that index are never looked at. Any list that agrees on the examined prefix gives the same answer. |
| DeviceSelection.FindQueueFamilies | HelloTriangleApplication.cpp:171-199 | The loop with its early `break` computes `QueueFamiliesOf`. |
| DeviceSelection.ExtensionsSupported | HelloTriangleApplication.cpp:161-168 | A device supports the required extensions iff it reports `VK_KHR_swapchain`. |
| DeviceSelection.ExtensionSupportIgnoresOrder | HelloTriangleApplication.cpp:160-168 | Support depends only on which names are reported, not on their order or repetition. |
| DeviceSelection.CheckDeviceExtensionSupport | HelloTriangleApplication.cpp:152-169 | Erasing each reported name from the required set leaves it empty iff every required name is reported. |
| DeviceSelection.CheckValidationLayerSupport | HelloTriangleApplication.cpp:629-658 | True iff every requested layer name occurs among the available layers. The loop returns false at the first missing one. |
| DeviceSelection.SuitableMeans | HelloTriangleApplication.cpp:138-149 | Suitable iff there is a graphics family and a present family, the swapchain extension is present, and the format and present-mode lists are both nonempty. |
| DeviceSelection.IsDeviceSuitable | HelloTriangleApplication.cpp:123-150 | The method, which queries surface support only once the extensions are supported, computes `Suitable`. |
| DeviceSelection.FirstFrom | HelloTriangleApplication.cpp:111-116 | The first-fit scan from a position: the result satisfies the test, everything between the start and it fails the test, and it is absent iff nothing from the start on passes. |
| DeviceSelection.FirstSuitable | HelloTriangleApplication.cpp:111-116 | The least index of a suitable device, if any. All earlier devices are unsuitable, and it is absent iff no device is suitable. |
| DeviceSelection.Insert | HelloTriangleApplication.cpp:206-208 | Inserting into a `std::set<uint32_t>`, seen as an ascending sequence, keeps it strictly ascending and adds exactly the new element; the size grows only when the element is new. |
| DeviceSelection.UniqueQueueFamilySet | HelloTriangleApplication.cpp:206-208 | `{graphics, present}` holds exactly those two families, ascending: one element when they coincide, two otherwise. |
| DeviceSelection.CreateQueueCreateInfos | HelloTriangleApplication.cpp:205-218 | One create info per distinct family: 1 if graphics == present, otherwise 2. Each asks for one queue. The infos come in ascending family order and name both families. |
| Application.HelloTriangleApplication.constructor | HelloTriangleApp.h:146 | `physicalDevice` starts as the null handle, and nothing is created yet. |
| Application.HelloTriangleApplication.PickPhysicalDevice | HelloTriangleApplication.cpp:98-121 | Zero devices fails with "no GPU" and changes nothing. Otherwise the first suitable device is chosen. With none suitable, the null-handle marker decides: fails with "no suitable GPU" when nothing was chosen before. |
| Application.HelloTriangleApplication.CreateLogicalDevice | HelloTriangleApplication.cpp:201-257 | The device is created with one queue per distinct family, the required extension, and the validation layers only when enabled. The graphics and present queues are queue 0 of their families. If the driver refuses, it fails and changes nothing. |
| Application.HelloTriangleApplication.CreateSwapChain | HelloTriangleApplication.cpp:342-410 | Records the swapchain built from `SwapchainCreateInfoFor`, together with its format and extent. If the driver refuses, it fails and changes nothing. |


## Left out

- The queue priority `1.0f` that every queue create info of `createLogicalDevice` points to, and the empty `VkPhysicalDeviceFeatures` it passes, are constant floating-point and feature fields with no selection logic; `DeviceQueueCreateInfo` and `DeviceCreateInfo` leave them out.
- Instance, surface and debug-messenger set-up are driver and GLFW calls with no selection logic. This covers `createInstance`, `createSurface`, `setupDebugMessenger`, `populateDebugMessengerCreateInfo`, `getRequiredExtensions`, the create/destroy debug-messenger wrappers and `debugCallback`.
- `initWindow`, `initVulkan`, `mainLoop` and `run` are GLFW plumbing and call order. The order shows up only as preconditions: a device must be chosen before the logical device and the swapchain are created.
- `readFile`, `createImageViews`, `createShaderModule` and the body of `createGraphicsPipeline` are file I/O and struct filling with float fields. Only a pipeline layout is ever created there, so there is no pipeline behaviour to model.
- `cleanup` is a fixed sequence of destroy calls.
- The standard-error output of `checkValidationLayerSupport` (one line per available layer examined, up to and including the match) is not modelled. So the early return at the first missing layer cannot be observed in a contract.
- IsDeviceSuitable: the model is silent on query order. The surface-support query is a pure read here, so "queried only when the extensions are supported" is visible in the method's code but not in its contract.
- Members declared without a body have no code to model, and neither do the matrices of `UniformBufferObject`. This covers `drawFrame`, `recreateSwapChain`, `cleanupSwapChain`, the buffer, memory, descriptor, command and synchronisation functions, and `framebufferResizeCallback`. It also rules out a frame-in-flight scheduler, a resource allocator, mipmap generation and swapchain rebuilding. `MAX_FRAMES_IN_FLIGHT` and `currentFrame` are declared but never used.
- `sizeof(Vertex)` and `offsetof` depend on GLM's alignment macros, which cannot be seen here. So they are parameters of `GetBindingDescription` and `GetAttributeDescriptions`.
- Driver outcomes are parameters. These are whether `vkCreateDevice` and `vkCreateSwapchainKHR` succeed (`created`) and whether the build enables validation layers (`enableValidationLayers`, set by `NDEBUG`). Enumerations and queries are fields of `PhysicalDevice`.
- Handles are not modelled: devices, swapchains and queues are recorded by the create info they were made from. The image count reported back by `vkGetSwapchainImagesKHR` and the `swapChainImages` list are not modelled.
- Vertex components are exact reals, not 32-bit floats.
- Name comparison by `strcmp` and by `std::string` is string equality, assuming names hold no embedded NUL.
