/**
 * Which GPU the application uses and which of its queue families: the
 * queue-family search, the extension and layer checks, the suitability
 * test, the first-fit pick over the enumerated devices, and the queue
 * create infos of the logical device.
 */
module DeviceSelection {
  import opened Wrappers
  import opened Vulkan
  import opened HelloTriangleApp

  /** One queue family of a device, with whether it can present to the application's surface. */
  datatype QueueFamily = QueueFamily(properties: QueueFamilyProperties, presentSupport: bool)

  /** The queue families a device reports; their count is a `uint32_t`. */
  type QueueFamilyList = s: seq<QueueFamily> | |s| < 0x1_0000_0000

  /**
   * A physical device as the application sees it through the driver's
   * queries: its handle, its queue families, the names of its extensions,
   * and what it supports for the application's surface. The handle only
   * tells apart two GPUs that report the same properties; no choice reads it.
   */
  datatype PhysicalDevice = PhysicalDevice(
    handle: nat,
    queueFamilies: QueueFamilyList,
    extensionNames: seq<string>,
    surfaceSupport: SwapChainSupportDetails)

  /**
   * `querySwapChainSupport`: the surface capabilities, formats and present
   * modes of `device`. Each list is fetched count first and then filled, so
   * it is the driver's whole list in its order, and empty when the count is 0.
   */
  function QuerySwapChainSupport(device: PhysicalDevice): (r: SwapChainSupportDetails)
    ensures r.capabilities == device.surfaceSupport.capabilities
    ensures r.formats == device.surfaceSupport.formats
    ensures r.presentModes == device.surfaceSupport.presentModes
  {
    device.surfaceSupport
  }

  /** The two jobs a queue family is searched for. */
  datatype Role = Graphics | Present

  /** `family` has queues and can do `role`. */
  predicate Serves(family: QueueFamily, role: Role) {
    && family.properties.queueCount > 0
    && match role
       case Graphics => family.properties.queueFlags & QueueGraphicsBit != 0
       case Present => family.presentSupport
  }

  /** Some family of `families` serves `role`. */
  predicate Offers(families: seq<QueueFamily>, role: Role) {
    exists k :: 0 <= k < |families| && Serves(families[k], role)
  }

  /** Both roles are served by some family of `families`. */
  predicate OffersBoth(families: seq<QueueFamily>) {
    Offers(families, Graphics) && Offers(families, Present)
  }

  /** The index of the last family of `families` that serves `role`, if any. */
  function LastServing(families: QueueFamilyList, role: Role): (r: Option<Uint32>)
    ensures r.None? <==> !Offers(families, role)
    ensures r.Some? ==> r.value < |families| && Serves(families[r.value], role)
    ensures r.Some? ==> forall j :: r.value < j < |families| ==> !Serves(families[j], role)
    decreases |families|
  {
    if |families| == 0 then None
    else if Serves(families[|families| - 1], role) then Some(|families| - 1)
    else
      var r := LastServing(families[..|families| - 1], role);
      assert forall j :: 0 <= j < |families| - 1 ==> families[..|families| - 1][j] == families[j];
      r
  }

  /** Extending a list by one family moves the last serving index to that family exactly when it serves. */
  lemma LastServingExtend(families: QueueFamilyList, k: nat, role: Role)
    requires k < |families|
    ensures LastServing(families[..k + 1], role) ==
      if Serves(families[k], role) then Some(k) else LastServing(families[..k], role)
  {
    assert families[..k + 1][..k] == families[..k];
  }

  /** The first `n` families are exactly those looked at before the search stops, starting at family `i`. */
  function ExaminedFrom(families: QueueFamilyList, i: nat): (n: nat)
    requires i <= |families|
    requires forall m :: 0 <= m <= i ==> !OffersBoth(families[..m])
    ensures i <= n <= |families|
    ensures forall m :: 0 <= m < n ==> !OffersBoth(families[..m])
    ensures n < |families| ==> OffersBoth(families[..n])
    decreases |families| - i
  {
    if i == |families| then i
    else if OffersBoth(families[..i + 1]) then i + 1
    else ExaminedFrom(families, i + 1)
  }

  /**
   * How many families `findQueueFamilies` looks at: all of them up to and
   * including the first at which both roles have been seen, or all of them
   * when that never happens.
   */
  function ExaminedCount(families: QueueFamilyList): (n: nat)
    ensures n <= |families|
    ensures forall m :: 0 <= m < n ==> !OffersBoth(families[..m])
    ensures n < |families| ==> OffersBoth(families[..n])
  {
    assert forall m :: 0 <= m <= 0 ==> families[..m] == [];
    ExaminedFrom(families, 0)
  }

  /** The properties of `ExaminedCount` determine it. */
  lemma ExaminedCountUnique(families: QueueFamilyList, n: nat)
    requires n <= |families|
    requires forall m :: 0 <= m < n ==> !OffersBoth(families[..m])
    requires n < |families| ==> OffersBoth(families[..n])
    ensures ExaminedCount(families) == n
  {
  }

  /** Anything offered by a prefix is offered by the whole list. */
  lemma OffersPrefix(families: seq<QueueFamily>, n: nat, role: Role)
    requires n <= |families|
    requires Offers(families[..n], role)
    ensures Offers(families, role)
  {
    var k :| 0 <= k < n && Serves(families[..n][k], role);
    assert families[k] == families[..n][k];
  }

  /**
   * The queue families `findQueueFamilies` reports: within the examined
   * prefix, the last family serving graphics and the last serving
   * presentation. Every index it reports is a family that serves its role,
   * and the result is complete exactly when the device has both kinds.
   */
  function QueueFamiliesOf(families: QueueFamilyList): (r: QueueFamilyIndices)
    ensures r.graphicsFamily.Some? ==> r.graphicsFamily.value < |families| && Serves(families[r.graphicsFamily.value], Graphics)
    ensures r.presentFamily.Some? ==> r.presentFamily.value < |families| && Serves(families[r.presentFamily.value], Present)
    ensures r.IsComplete() <==> OffersBoth(families)
  {
    var n := ExaminedCount(families);
    ExaminedPrefixOffersBoth(families);
    QueueFamilyIndices(LastServing(families[..n], Graphics), LastServing(families[..n], Present))
  }

  /** The examined prefix is a prefix, and it has both roles exactly when the whole list does. */
  lemma ExaminedPrefixOffersBoth(families: QueueFamilyList)
    ensures forall j :: 0 <= j < ExaminedCount(families) ==> families[..ExaminedCount(families)][j] == families[j]
    ensures OffersBoth(families[..ExaminedCount(families)]) <==> OffersBoth(families)
  {
    var n := ExaminedCount(families);
    if n == |families| {
      assert families[..n] == families;
    } else if OffersBoth(families[..n]) {
      OffersPrefix(families, n, Graphics);
      OffersPrefix(families, n, Present);
    }
  }

  /**
   * The search never looks past the first index at which both roles have
   * been found: any list that agrees on the examined families gives the
   * same answer, whatever follows them.
   */
  lemma QueueFamilySearchStopsAtCompletion(families: QueueFamilyList, other: QueueFamilyList)
    requires OffersBoth(families)
    requires ExaminedCount(families) <= |other|
    requires other[..ExaminedCount(families)] == families[..ExaminedCount(families)]
    ensures ExaminedCount(other) == ExaminedCount(families)
    ensures QueueFamiliesOf(other) == QueueFamiliesOf(families)
  {
    var n := ExaminedCount(families);
    if n == |families| {
      assert families[..n] == families;
    }
    assert OffersBoth(families[..n]);
    forall m | 0 <= m <= n
      ensures other[..m] == families[..m]
    {
      assert other[..m] == other[..n][..m];
      assert families[..m] == families[..n][..m];
    }
    ExaminedCountUnique(other, n);
  }

  /**
   * `findQueueFamilies`: walks the families in order, recording each family
   * that can draw and each that can present, and stops as soon as both have
   * been recorded.
   */
  method FindQueueFamilies(device: PhysicalDevice) returns (indices: QueueFamilyIndices)
    ensures indices == QueueFamiliesOf(device.queueFamilies)
  {
    var queueFamilies := device.queueFamilies;
    indices := QueueFamilyIndices(None, None);
    var i := 0;
    while i < |queueFamilies|
      invariant 0 <= i <= |queueFamilies|
      invariant forall m :: 0 <= m <= i ==> !OffersBoth(queueFamilies[..m])
      invariant indices == QueueFamilyIndices(LastServing(queueFamilies[..i], Graphics), LastServing(queueFamilies[..i], Present))
    {
      var queueFamily := queueFamilies[i];
      LastServingExtend(queueFamilies, i, Graphics);
      LastServingExtend(queueFamilies, i, Present);
      if queueFamily.properties.queueCount > 0 && queueFamily.properties.queueFlags & QueueGraphicsBit != 0 {
        indices := indices.(graphicsFamily := Some(i));
      }
      var presentSupport := queueFamily.presentSupport;
      if queueFamily.properties.queueCount > 0 && presentSupport {
        indices := indices.(presentFamily := Some(i));
      }
      if indices.IsComplete() {
        ExaminedCountUnique(queueFamilies, i + 1);
        return;
      }
      i := i + 1;
    }
    assert queueFamilies[..i] == queueFamilies;
    ExaminedCountUnique(queueFamilies, i);
  }

  /** Every required device extension is among the names `device` reports. */
  predicate ExtensionsSupported(device: PhysicalDevice)
    ensures ExtensionsSupported(device) <==> SwapchainExtensionName in device.extensionNames
  {
    forall name :: name in DeviceExtensions ==> name in device.extensionNames
  }

  /** Extension support depends only on which names are reported, not on their order or repetition. */
  lemma ExtensionSupportIgnoresOrder(a: PhysicalDevice, b: PhysicalDevice)
    requires forall name :: name in a.extensionNames <==> name in b.extensionNames
    ensures ExtensionsSupported(a) == ExtensionsSupported(b)
  {
  }

  /**
   * `checkDeviceExtensionSupport`: starts from the set of required names and
   * erases every name the device reports; supported when nothing is left.
   */
  method CheckDeviceExtensionSupport(device: PhysicalDevice) returns (supported: bool)
    ensures supported <==> forall name :: name in DeviceExtensions ==> name in device.extensionNames
    ensures supported == ExtensionsSupported(device)
  {
    var availableExtensions := device.extensionNames;
    var requiredExtensions := set name | name in DeviceExtensions;
    for k := 0 to |availableExtensions|
      invariant forall name :: name in requiredExtensions <==> name in DeviceExtensions && name !in availableExtensions[..k]
    {
      requiredExtensions := requiredExtensions - {availableExtensions[k]};
    }
    assert availableExtensions[..|availableExtensions|] == availableExtensions;
    supported := requiredExtensions == {};
  }

  /**
   * `checkValidationLayerSupport`: for each requested layer, a search of the
   * available layers by name; fails at the first requested layer that is
   * not available.
   */
  method CheckValidationLayerSupport(availableLayers: seq<string>) returns (supported: bool)
    ensures supported <==> forall layer :: layer in ValidationLayers ==> layer in availableLayers
  {
    for r := 0 to |ValidationLayers|
      invariant forall j :: 0 <= j < r ==> ValidationLayers[j] in availableLayers
    {
      var layerName := ValidationLayers[r];
      var layerFound := false;
      var k := 0;
      while k < |availableLayers|
        invariant 0 <= k <= |availableLayers|
        invariant !layerFound
        invariant layerName !in availableLayers[..k]
      {
        if layerName == availableLayers[k] {
          layerFound := true;
          break;
        }
        k := k + 1;
      }
      if !layerFound {
        assert availableLayers[..k] == availableLayers;
        return false;
      }
    }
    return true;
  }

  /**
   * A device the application can use: complete queue families, every
   * required extension, and at least one surface format and one present mode.
   */
  predicate Suitable(device: PhysicalDevice) {
    && QueueFamiliesOf(device.queueFamilies).IsComplete()
    && ExtensionsSupported(device)
    && |QuerySwapChainSupport(device).formats| > 0
    && |QuerySwapChainSupport(device).presentModes| > 0
  }

  /**
   * What suitability comes to: a family that can draw, a family that can
   * present, the swapchain extension, and a nonempty format and present-mode list.
   */
  lemma SuitableMeans(device: PhysicalDevice)
    ensures Suitable(device) <==>
      && Offers(device.queueFamilies, Graphics)
      && Offers(device.queueFamilies, Present)
      && SwapchainExtensionName in device.extensionNames
      && |device.surfaceSupport.formats| > 0
      && |device.surfaceSupport.presentModes| > 0
  {
  }

  /**
   * `isDeviceSuitable`: the queue-family search, the extension check and,
   * only when the extensions are there, the swapchain-support query.
   */
  method IsDeviceSuitable(device: PhysicalDevice) returns (suitable: bool)
    ensures suitable == Suitable(device)
  {
    var indices := FindQueueFamilies(device);
    var extensionSupported := CheckDeviceExtensionSupport(device);
    var swapChainAdequate := false;
    if extensionSupported {
      var swapChainSupport := QuerySwapChainSupport(device);
      swapChainAdequate := |swapChainSupport.formats| > 0 && |swapChainSupport.presentModes| > 0;
    }
    suitable := indices.IsComplete() && extensionSupported && swapChainAdequate;
  }

  /** The position of the first element at or after position `i` that satisfies `p`, if any. */
  function FirstFrom<T>(s: seq<T>, p: T -> bool, i: nat): (r: Option<nat>)
    requires i <= |s|
    ensures r.Some? ==> i <= r.value < |s| && p(s[r.value])
    ensures r.Some? ==> forall j :: i <= j < r.value ==> !p(s[j])
    ensures r.None? <==> forall j :: i <= j < |s| ==> !p(s[j])
    decreases |s| - i
  {
    if i == |s| then None
    else if p(s[i]) then Some(i)
    else FirstFrom(s, p, i + 1)
  }

  /** The position of the first suitable device in enumeration order, if any. */
  function FirstSuitable(devices: seq<PhysicalDevice>): (r: Option<nat>)
    ensures r.Some? ==> r.value < |devices| && Suitable(devices[r.value])
    ensures r.Some? ==> forall j :: 0 <= j < r.value ==> !Suitable(devices[j])
    ensures r.None? <==> forall j :: 0 <= j < |devices| ==> !Suitable(devices[j])
  {
    FirstFrom(devices, Suitable, 0)
  }

  /** A `std::set<uint32_t>` as it iterates: its elements in strictly ascending order. */
  predicate StrictlyAscending(s: seq<Uint32>) {
    forall k, l :: 0 <= k < l < |s| ==> s[k] < s[l]
  }

  /** Insertion into a `std::set<uint32_t>`: adds `x` in its place, or nothing when `x` is already there. */
  function Insert(s: seq<Uint32>, x: Uint32): (r: seq<Uint32>)
    requires StrictlyAscending(s)
    ensures StrictlyAscending(r)
    ensures forall y :: y in r <==> y in s || y == x
    ensures |r| == if x in s then |s| else |s| + 1
  {
    if s == [] then [x]
    else if x < s[0] then [x] + s
    else if x == s[0] then s
    else
      var tail := Insert(s[1..], x);
      assert forall y :: y in s <==> y == s[0] || y in s[1..];
      forall j | 0 <= j < |tail|
        ensures s[0] < tail[j]
      {
        assert tail[j] in tail;
        if tail[j] != x {
          var i :| 0 <= i < |s[1..]| && s[1..][i] == tail[j];
          assert s[i + 1] == tail[j];
        }
      }
      [s[0]] + tail
  }

  /** `std::set<uint32_t> uniqueQueueFamilies = { graphics, present }`. */
  function UniqueQueueFamilySet(indices: QueueFamilyIndices): (r: seq<Uint32>)
    requires indices.IsComplete()
    ensures StrictlyAscending(r)
    ensures forall f :: f in r <==> f == indices.graphicsFamily.value || f == indices.presentFamily.value
    ensures |r| == if indices.graphicsFamily.value == indices.presentFamily.value then 1 else 2
  {
    Insert(Insert([], indices.graphicsFamily.value), indices.presentFamily.value)
  }

  /**
   * The queue create infos of `createLogicalDevice`: one per distinct family
   * of the graphics and present families, in ascending order as a
   * `std::set` iterates, each asking for one queue.
   */
  method CreateQueueCreateInfos(indices: QueueFamilyIndices) returns (queueCreateInfos: seq<DeviceQueueCreateInfo>)
    requires indices.IsComplete()
    ensures |queueCreateInfos| == if indices.graphicsFamily.value == indices.presentFamily.value then 1 else 2
    ensures forall k :: 0 <= k < |queueCreateInfos| ==>
      queueCreateInfos[k].queueFamilyIndex == indices.graphicsFamily.value || queueCreateInfos[k].queueFamilyIndex == indices.presentFamily.value
    ensures exists k :: 0 <= k < |queueCreateInfos| && queueCreateInfos[k].queueFamilyIndex == indices.graphicsFamily.value
    ensures exists k :: 0 <= k < |queueCreateInfos| && queueCreateInfos[k].queueFamilyIndex == indices.presentFamily.value
    ensures forall k :: 0 <= k < |queueCreateInfos| ==> queueCreateInfos[k].queueCount == 1
    ensures |queueCreateInfos| == |UniqueQueueFamilySet(indices)|
    ensures forall k :: 0 <= k < |queueCreateInfos| ==> queueCreateInfos[k].queueFamilyIndex == UniqueQueueFamilySet(indices)[k]
    ensures forall k, l :: 0 <= k < l < |queueCreateInfos| ==>
      queueCreateInfos[k].queueFamilyIndex < queueCreateInfos[l].queueFamilyIndex
  {
    var uniqueQueueFamilies := UniqueQueueFamilySet(indices);
    queueCreateInfos := [];
    for k := 0 to |uniqueQueueFamilies|
      invariant |queueCreateInfos| == k
      invariant forall j :: 0 <= j < k ==> queueCreateInfos[j] == DeviceQueueCreateInfo(uniqueQueueFamilies[j], 1)
    {
      var queueFamily := uniqueQueueFamilies[k];
      var queueCreateInfo := DeviceQueueCreateInfo(queueFamily, 1);
      queueCreateInfos := queueCreateInfos + [queueCreateInfo];
    }
    assert forall f :: f in uniqueQueueFamilies ==> exists k :: 0 <= k < |uniqueQueueFamilies| && uniqueQueueFamilies[k] == f;
    assert indices.graphicsFamily.value in uniqueQueueFamilies && indices.presentFamily.value in uniqueQueueFamilies;
  }
}
