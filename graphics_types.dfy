/** The values that src/prism/graphics.cc receives from the Vulkan driver and passes
    between the stages of gfxInit.  Every driver query becomes a plain input value:
    enumerations are sequences, handles are positions in those sequences. */
module GraphicsTypes {
  import opened Wrappers
  import opened VulkanResults

  /** C's uint32_t. */
  type uint32 = x: int | 0 <= x < 0x1_0000_0000
  const UINT32_LIMIT: int := 0x1_0000_0000

  const VK_KHR_SWAPCHAIN_EXTENSION_NAME: string := "VK_KHR_swapchain"

  datatype ExtensionProperties = ExtensionProperties(extensionName: string, specVersion: uint32)

  datatype LayerProperties = LayerProperties(
    layerName: string,
    specVersion: uint32,
    implementationVersion: uint32,
    description: string)

  /** layerPropsNameAccessor */
  function LayerPropsName(props: LayerProperties): string {
    props.layerName
  }

  /** extensionPropsNameAccessor */
  function ExtensionPropsName(props: ExtensionProperties): string {
    props.extensionName
  }

  datatype PhysicalDeviceType = Other | IntegratedGpu | DiscreteGpu | VirtualGpu | Cpu

  datatype Extent2D = Extent2D(width: uint32, height: uint32)

  /** VkSurfaceCapabilitiesKHR; transform and usage flags are kept as raw bit masks. */
  datatype SurfaceCapabilities = SurfaceCapabilities(
    minImageCount: uint32,
    maxImageCount: uint32,
    currentExtent: Extent2D,
    minImageExtent: Extent2D,
    maxImageExtent: Extent2D,
    maxImageArrayLayers: uint32,
    supportedTransforms: uint32,
    currentTransform: uint32,
    supportedCompositeAlpha: uint32,
    supportedUsageFlags: uint32)

  /** VkFormat and VkColorSpaceKHR codes, with the values of the Vulkan headers. */
  type Format = int
  const VK_FORMAT_UNDEFINED: Format := 0
  const VK_FORMAT_B8G8R8A8_UNORM: Format := 44

  type ColorSpace = int
  const VK_COLOR_SPACE_SRGB_NONLINEAR_KHR: ColorSpace := 0

  datatype SurfaceFormat = SurfaceFormat(format: Format, colorSpace: ColorSpace)

  /** VkPresentModeKHR codes. */
  type PresentMode = int
  const VK_PRESENT_MODE_IMMEDIATE_KHR: PresentMode := 0
  const VK_PRESENT_MODE_MAILBOX_KHR: PresentMode := 1
  const VK_PRESENT_MODE_FIFO_KHR: PresentMode := 2
  const VK_PRESENT_MODE_FIFO_RELAXED_KHR: PresentMode := 3

  const VK_QUEUE_GRAPHICS_BIT: bv32 := 1

  /** One VkQueueFamilyProperties record together with the driver's answer to
      vkGetPhysicalDeviceSurfaceSupportKHR for that family and the bound surface. */
  datatype QueueFamilyProperties = QueueFamilyProperties(
    queueFlags: bv32,
    queueCount: uint32,
    presentSupported: bool)

  /** Everything the driver reports about one enumerated physical device. */
  datatype PhysicalDevice = PhysicalDevice(
    deviceType: PhysicalDeviceType,
    extensions: seq<ExtensionProperties>,
    surfaceCapabilities: SurfaceCapabilities,
    surfaceFormats: seq<SurfaceFormat>,
    presentModes: seq<PresentMode>,
    queueFamilies: seq<QueueFamilyProperties>)

  /** SwapchainInfo: what getSwapchainInfo stores for the selected device. */
  datatype SwapchainInfo = SwapchainInfo(
    surfaceCapabilities: SurfaceCapabilities,
    availableSurfaceFormats: seq<SurfaceFormat>,
    availableSurfacePresentModes: seq<PresentMode>)

  /** QueueInfo::familyIndexes, GRAPHICS then PRESENT. */
  datatype QueueFamilyIndexes = QueueFamilyIndexes(graphics: nat, present: nat)

  const QUEUE_FAMILY_COUNT: nat := 2

  /** The two-slot familyIndexes array: the graphics family in slot 0 (GRAPHICS) and
      the present family in slot 1 (PRESENT). */
  function FamilyIndexList(indexes: QueueFamilyIndexes): (r: seq<nat>)
    ensures |r| == QUEUE_FAMILY_COUNT
    ensures r[0] == indexes.graphics && r[1] == indexes.present
  {
    [indexes.graphics, indexes.present]
  }

  /** Each fatal utilErrorExit of graphics.cc, as the failure it names.  A failed
      driver call carries its result code, whose name is the diagnostic's subtype. */
  datatype GfxError =
    | MissingComponent(componentType: string, name: string)
    | InstanceCreationFailed(result: VkResult)
    | NoPhysicalDevices
    | NoSuitablePhysicalDevice
    | NoQueueFamilies
    | NoGraphicsQueueFamily
    | NoPresentQueueFamily
    | LogicalDeviceCreationFailed(result: VkResult)
    | SwapchainCreationFailed(result: VkResult)
    | NoSwapchainImages

  /** graphics.cc keeps its own static copy of the VkResult name table. */
  const GRAPHICS_VK_RESULT_NAMES: seq<VkResultName> := [
    VkResultName(VK_SUCCESS, "VK_SUCCESS"),
    VkResultName(VK_NOT_READY, "VK_NOT_READY"),
    VkResultName(VK_TIMEOUT, "VK_TIMEOUT"),
    VkResultName(VK_EVENT_SET, "VK_EVENT_SET"),
    VkResultName(VK_EVENT_RESET, "VK_EVENT_RESET"),
    VkResultName(VK_INCOMPLETE, "VK_INCOMPLETE"),
    VkResultName(VK_ERROR_OUT_OF_HOST_MEMORY, "VK_ERROR_OUT_OF_HOST_MEMORY"),
    VkResultName(VK_ERROR_OUT_OF_DEVICE_MEMORY, "VK_ERROR_OUT_OF_DEVICE_MEMORY"),
    VkResultName(VK_ERROR_INITIALIZATION_FAILED, "VK_ERROR_INITIALIZATION_FAILED"),
    VkResultName(VK_ERROR_DEVICE_LOST, "VK_ERROR_DEVICE_LOST"),
    VkResultName(VK_ERROR_MEMORY_MAP_FAILED, "VK_ERROR_MEMORY_MAP_FAILED"),
    VkResultName(VK_ERROR_LAYER_NOT_PRESENT, "VK_ERROR_LAYER_NOT_PRESENT"),
    VkResultName(VK_ERROR_EXTENSION_NOT_PRESENT, "VK_ERROR_EXTENSION_NOT_PRESENT"),
    VkResultName(VK_ERROR_FEATURE_NOT_PRESENT, "VK_ERROR_FEATURE_NOT_PRESENT"),
    VkResultName(VK_ERROR_INCOMPATIBLE_DRIVER, "VK_ERROR_INCOMPATIBLE_DRIVER"),
    VkResultName(VK_ERROR_TOO_MANY_OBJECTS, "VK_ERROR_TOO_MANY_OBJECTS"),
    VkResultName(VK_ERROR_FORMAT_NOT_SUPPORTED, "VK_ERROR_FORMAT_NOT_SUPPORTED"),
    VkResultName(VK_ERROR_FRAGMENTED_POOL, "VK_ERROR_FRAGMENTED_POOL"),
    VkResultName(VK_ERROR_OUT_OF_POOL_MEMORY, "VK_ERROR_OUT_OF_POOL_MEMORY"),
    VkResultName(VK_ERROR_INVALID_EXTERNAL_HANDLE, "VK_ERROR_INVALID_EXTERNAL_HANDLE"),
    VkResultName(VK_ERROR_SURFACE_LOST_KHR, "VK_ERROR_SURFACE_LOST_KHR"),
    VkResultName(VK_ERROR_NATIVE_WINDOW_IN_USE_KHR, "VK_ERROR_NATIVE_WINDOW_IN_USE_KHR"),
    VkResultName(VK_SUBOPTIMAL_KHR, "VK_SUBOPTIMAL_KHR"),
    VkResultName(VK_ERROR_OUT_OF_DATE_KHR, "VK_ERROR_OUT_OF_DATE_KHR"),
    VkResultName(VK_ERROR_INCOMPATIBLE_DISPLAY_KHR, "VK_ERROR_INCOMPATIBLE_DISPLAY_KHR"),
    VkResultName(VK_ERROR_VALIDATION_FAILED_EXT, "VK_ERROR_VALIDATION_FAILED_EXT"),
    VkResultName(VK_ERROR_INVALID_SHADER_NV, "VK_ERROR_INVALID_SHADER_NV"),
    VkResultName(VK_ERROR_FRAGMENTATION_EXT, "VK_ERROR_FRAGMENTATION_EXT"),
    VkResultName(VK_ERROR_NOT_PERMITTED_EXT, "VK_ERROR_NOT_PERMITTED_EXT")
  ]

  /** The static getVkResultName of graphics.cc: the same scan over its own copy. */
  function GraphicsVkResultName(result: VkResult): (r: Option<string>)
    ensures r.Some? <==> exists k :: 0 <= k < |GRAPHICS_VK_RESULT_NAMES| && GRAPHICS_VK_RESULT_NAMES[k].key == result
    ensures r.Some? ==> exists k :: 0 <= k < |GRAPHICS_VK_RESULT_NAMES| && GRAPHICS_VK_RESULT_NAMES[k].key == result
                                    && GRAPHICS_VK_RESULT_NAMES[k].value == r.value
                                    && forall j :: 0 <= j < k ==> GRAPHICS_VK_RESULT_NAMES[j].key != result
  {
    ResultNameIn(GRAPHICS_VK_RESULT_NAMES, result)
  }

  /** The subtype a driver failure is reported under: getVkResultName of the failing
      call's result (a null name for a code missing from the table).  Other errors carry
      no result code. */
  function ReportedResultName(e: GfxError): Option<string> {
    match e
    case InstanceCreationFailed(result) => GraphicsVkResultName(result)
    case LogicalDeviceCreationFailed(result) => GraphicsVkResultName(result)
    case SwapchainCreationFailed(result) => GraphicsVkResultName(result)
    case _ => None
  }

  /** The copy holds the same entries in the same order as vulkan.cc's table, so the
      two lookups agree on every code. */
  lemma GraphicsResultNamesAgree(result: VkResult)
    ensures GRAPHICS_VK_RESULT_NAMES == VK_RESULT_NAMES
    ensures GraphicsVkResultName(result) == VkResultNameOf(result)
  {
  }
}
