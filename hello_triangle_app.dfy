/**
 * The declarations of `HelloTriangleApplication` that carry data: the
 * window size, the required layer and extension names, the queue-family
 * and swapchain-support records, and the vertex and index data with the
 * descriptions that tell the pipeline how to read them.
 */
module HelloTriangleApp {
  import opened Wrappers
  import opened Vulkan

  /** `WIDTH` and `HEIGHT`: the window size, also the requested swapchain size. */
  const Width: int := 800
  const Height: int := 600

  /** `validationLayers`: the instance layers requested in debug builds. */
  const ValidationLayers: seq<string> := ["VK_LAYER_KHRONOS_validation"]

  /** `deviceExtensions`: the device extensions a GPU must offer. */
  const DeviceExtensions: seq<string> := [SwapchainExtensionName]

  /** The queue families chosen for drawing and for presenting. */
  datatype QueueFamilyIndices = QueueFamilyIndices(graphicsFamily: Option<Uint32>, presentFamily: Option<Uint32>)
  {
    /** Both a graphics family and a present family have been found. */
    predicate IsComplete()
      ensures IsComplete() <==> exists g: Uint32, p: Uint32 :: this == QueueFamilyIndices(Some(g), Some(p))
    {
      graphicsFamily.Some? && presentFamily.Some?
    }
  }

  /** What a surface supports on one device: its capabilities, formats and present modes. */
  datatype SwapChainSupportDetails = SwapChainSupportDetails(
    capabilities: SurfaceCapabilities,
    formats: seq<SurfaceFormat>,
    presentModes: seq<PresentMode>)

  /** `glm::vec2` and `glm::vec3`; the components are the literals of the source, exactly. */
  datatype Vec2 = Vec2(x: real, y: real)
  datatype Vec3 = Vec3(x: real, y: real, z: real)

  /** `Vertex`: a 2D position and an RGB colour. */
  datatype Vertex = Vertex(pos: Vec2, color: Vec3)

  /** The four corners of the quad. */
  const Vertices: seq<Vertex> := [
    Vertex(Vec2(-0.5, -0.5), Vec3(1.0, 0.0, 0.0)),
    Vertex(Vec2(0.5, -0.5), Vec3(0.0, 1.0, 0.0)),
    Vertex(Vec2(0.5, 0.5), Vec3(0.0, 0.0, 1.0)),
    Vertex(Vec2(-0.5, 0.5), Vec3(1.0, 1.0, 1.0))
  ]

  /** The two triangles of the quad, as indices into `Vertices`. */
  const Indices: seq<Uint16> := [0, 1, 2, 2, 3, 0]

  /**
   * `Vertex::getBindingDescription`. The stride is `sizeof(Vertex)`, which
   * depends on how GLM aligns its vector types, so it is a parameter.
   */
  function GetBindingDescription(vertexSize: Uint32): (r: VertexInputBindingDescription)
    ensures r.binding == 0 && r.inputRate == PerVertex
    ensures r.stride == vertexSize
  {
    VertexInputBindingDescription(0, vertexSize, PerVertex)
  }

  /**
   * `Vertex::getAttributeDescriptions`. The two offsets are
   * `offsetof(Vertex, pos)` and `offsetof(Vertex, color)`, parameters for
   * the same reason as the stride.
   */
  function GetAttributeDescriptions(posOffset: Uint32, colorOffset: Uint32): (r: seq<VertexInputAttributeDescription>)
    ensures |r| == 2
    ensures forall k :: 0 <= k < |r| ==> r[k].location == k && r[k].binding == 0
    ensures r[0].format == FormatR32G32Sfloat && r[0].offset == posOffset
    ensures r[1].format == FormatR32G32B32Sfloat && r[1].offset == colorOffset
  {
    [ VertexInputAttributeDescription(0, 0, FormatR32G32Sfloat, posOffset),
      VertexInputAttributeDescription(1, 0, FormatR32G32B32Sfloat, colorOffset) ]
  }

  /** `indices` can be drawn as a triangle list over `vertexCount` vertices. */
  predicate IsTriangleList(vertexCount: nat, indices: seq<Uint16>) {
    && |indices| % 3 == 0
    && forall k :: 0 <= k < |indices| ==> indices[k] < vertexCount
  }

  /** No triangle of `indices` repeats a vertex. */
  predicate NoDegenerateTriangles(indices: seq<Uint16>)
    requires |indices| % 3 == 0
  {
    forall t :: 0 <= t < |indices| / 3 ==>
      indices[3 * t] != indices[3 * t + 1] && indices[3 * t + 1] != indices[3 * t + 2] && indices[3 * t] != indices[3 * t + 2]
  }

  /** The quad's index data is a triangle list over its four vertices, with two proper triangles that use every vertex. */
  lemma QuadIndicesFormTriangleList()
    ensures |Vertices| == 4 && |Indices| == 6
    ensures IsTriangleList(|Vertices|, Indices)
    ensures NoDegenerateTriangles(Indices)
    ensures forall v :: 0 <= v < |Vertices| ==> v in Indices
  {
    assert Indices[0] == 0 && Indices[1] == 1 && Indices[2] == 2 && Indices[4] == 3;
  }

  /**
   * The vertex descriptions are consistent with each other and with `Vertex`:
   * one per-vertex binding 0, both attributes read from it at distinct
   * locations 0 and 1, `pos` as two 32-bit floats and `color` as three.
   */
  lemma VertexDescriptionsAgree(vertexSize: Uint32, posOffset: Uint32, colorOffset: Uint32)
    ensures GetBindingDescription(vertexSize).binding == 0
    ensures GetBindingDescription(vertexSize).inputRate == PerVertex
    ensures GetBindingDescription(vertexSize).stride == vertexSize
    ensures |GetAttributeDescriptions(posOffset, colorOffset)| == 2
    ensures forall a :: a in GetAttributeDescriptions(posOffset, colorOffset) ==> a.binding == GetBindingDescription(vertexSize).binding
    ensures GetAttributeDescriptions(posOffset, colorOffset)[0].location == 0
    ensures GetAttributeDescriptions(posOffset, colorOffset)[1].location == 1
    ensures GetAttributeDescriptions(posOffset, colorOffset)[0].offset == posOffset
    ensures GetAttributeDescriptions(posOffset, colorOffset)[1].offset == colorOffset
    ensures GetAttributeDescriptions(posOffset, colorOffset)[0].format == FormatR32G32Sfloat
    ensures GetAttributeDescriptions(posOffset, colorOffset)[1].format == FormatR32G32B32Sfloat
  {
  }

  /** The only required device extension is the swapchain extension, and the requested size is 800 by 600. */
  lemma RequiredNamesAndSize()
    ensures DeviceExtensions == [SwapchainExtensionName]
    ensures forall name :: name in DeviceExtensions <==> name == "VK_KHR_swapchain"
    ensures ValidationLayers == ["VK_LAYER_KHRONOS_validation"]
    ensures Width == 800 && Height == 600
  {
  }
}
