/** gfxInit: the one-shot setup sequence of graphics.cc.  Each stage runs to completion
    before the next, and the first failure ends the sequence (the source exits the
    process there; here the failure is returned).  Everything the driver would answer is
    an input, gathered in a Driver record. */
module Gfx {
  import opened Wrappers
  import opened VulkanResults
  import opened GraphicsTypes
  import opened Instance
  import opened DeviceSelection
  import opened Queues
  import opened LogicalDevice
  import opened Swapchain

  /** The driver's answers: instance-level enumerations and the vkCreateInstance result,
      the physical devices as seen through the surface the windowing layer created, the
      vkCreateDevice and vkCreateSwapchainKHR results, and the swapchain's images. */
  datatype Driver = Driver(
    instanceExtensions: seq<ExtensionProperties>,
    instanceLayers: seq<LayerProperties>,
    createInstanceResult: VkResult,
    physicalDevices: seq<PhysicalDevice>,
    createDeviceResult: VkResult,
    createSwapchainResult: VkResult,
    swapchainImages: seq<Image>)

  /** What the "create devices" part of gfxInit sets up: the selected physical device,
      the two roles' family indexes, the logical device and the two queues. */
  datatype Devices = Devices(
    physicalDevice: DeviceChoice,
    familyIndexes: QueueFamilyIndexes,
    logicalDevice: DeviceCreateInfo,
    queues: seq<Queue>)

  /** What a successful gfxInit has set up. */
  datatype GfxState = GfxState(
    instance: InstanceCreateInfo,
    devices: Devices,
    swapchainConfig: SwapchainConfig,
    swapchain: SwapchainCreateInfo,
    swapchainImages: seq<Image>)

  /** The device stages composed as functions, each failure ending the sequence.  The
      selected device reports at least one surface format. */
  function DevicesOutcome(physicalDevices: seq<PhysicalDevice>, createDeviceResult: VkResult)
    : (r: Result<Devices, GfxError>)
    ensures r.Ok? ==> && SelectPhysicalDevice(physicalDevices) == Ok(r.value.physicalDevice)
                      && |r.value.physicalDevice.swapchainInfo.availableSurfaceFormats| > 0
  {
    match SelectPhysicalDevice(physicalDevices)
    case Err(e) => Err(e)
    case Ok(choice) =>
      match QueueFamilyIndexesOf(physicalDevices[choice.index].queueFamilies)
      case Err(e) => Err(e)
      case Ok(indexes) =>
        match DeviceOutcome(FamilyIndexList(indexes), createDeviceResult)
        case Err(e) => Err(e)
        case Ok(logicalDevice) => Ok(Devices(choice, indexes, logicalDevice, QueuesOf(FamilyIndexList(indexes))))
  }

  /** All stages composed as functions, each failure ending the sequence. */
  function GfxInitSpec(config: GfxConfig, driver: Driver): Result<GfxState, GfxError> {
    match InstanceOutcome(config, driver.instanceExtensions, driver.instanceLayers, driver.createInstanceResult)
    case Err(e) => Err(e)
    case Ok(instance) =>
      match DevicesOutcome(driver.physicalDevices, driver.createDeviceResult)
      case Err(e) => Err(e)
      case Ok(devices) =>
        var swapchainConfig := SwapchainConfigOf(devices.physicalDevice.swapchainInfo);
        match SwapchainOutcome(swapchainConfig, devices.familyIndexes, driver.createSwapchainResult)
        case Err(e) => Err(e)
        case Ok(swapchain) =>
          if |driver.swapchainImages| == 0 then Err(NoSwapchainImages)
          else Ok(GfxState(instance, devices, swapchainConfig, swapchain, driver.swapchainImages))
  }

  /** The "create devices" block of gfxInit: getPhysicalDevice, getQueueFamilyIndexes,
      createLogicalDevice and getQueues, the middle two filling queueInfo in place. */
  method CreateDevices(physicalDevices: seq<PhysicalDevice>, createDeviceResult: VkResult, queueInfo: QueueInfo)
    returns (r: Result<Devices, GfxError>)
    requires queueInfo.Valid()
    modifies queueInfo.familyIndexes, queueInfo.queues
    ensures r == DevicesOutcome(physicalDevices, createDeviceResult)
    ensures r.Ok? ==> queueInfo.familyIndexes[..] == FamilyIndexList(r.value.familyIndexes)
  {
    var physicalDevice := GetPhysicalDevice(physicalDevices);
    if physicalDevice.Err? {
      return Err(physicalDevice.error);
    }
    var choice := physicalDevice.value;

    var familyOutcome := GetQueueFamilyIndexes(physicalDevices[choice.index].queueFamilies, queueInfo);
    if familyOutcome.Fail? {
      return Err(familyOutcome.error);
    }
    var indexes := QueueFamilyIndexes(queueInfo.familyIndexes[GRAPHICS], queueInfo.familyIndexes[PRESENT]);
    assert QueueFamilyIndexesOf(physicalDevices[choice.index].queueFamilies) == Ok(indexes);

    var logicalDevice := CreateLogicalDevice(queueInfo, createDeviceResult);
    if logicalDevice.Err? {
      return Err(logicalDevice.error);
    }

    GetQueues(queueInfo);
    return Ok(Devices(choice, indexes, logicalDevice.value, queueInfo.queues[..]));
  }

  /** gfxInit: createInstance, then the device stages, then createSwapchainConfig,
      createSwapchain and getSwapchainImages, with the queue information filled in place
      by the device stages and read by createSwapchain. */
  method GfxInit(config: GfxConfig, driver: Driver) returns (r: Result<GfxState, GfxError>)
    ensures r == GfxInitSpec(config, driver)
  {
    var queueInfo := new QueueInfo();

    var instance := CreateInstance(config, driver.instanceExtensions, driver.instanceLayers, driver.createInstanceResult);
    if instance.Err? {
      return Err(instance.error);
    }

    var devices := CreateDevices(driver.physicalDevices, driver.createDeviceResult, queueInfo);
    if devices.Err? {
      return Err(devices.error);
    }

    var swapchainConfig := CreateSwapchainConfig(devices.value.physicalDevice.swapchainInfo);
    var swapchain := CreateSwapchain(queueInfo, swapchainConfig, driver.createSwapchainResult);
    if swapchain.Err? {
      return Err(swapchain.error);
    }

    var swapchainImages := GetSwapchainImages(driver.swapchainImages);
    if swapchainImages.Err? {
      return Err(swapchainImages.error);
    }

    return Ok(GfxState(instance.value, devices.value, swapchainConfig, swapchain.value, swapchainImages.value));
  }

  /** What the device stages guarantee when they succeed: the device is a discrete GPU
      with VK_KHR_swapchain, surface formats and present modes, and no earlier device
      is; each role has a family fit for it, the first such; there is one queue request
      per distinct family; and the roles share a queue exactly when they share a
      family. */
  lemma DevicesGuarantees(physicalDevices: seq<PhysicalDevice>, createDeviceResult: VkResult)
    requires DevicesOutcome(physicalDevices, createDeviceResult).Ok?
    ensures var d := DevicesOutcome(physicalDevices, createDeviceResult).value;
      && d.physicalDevice.index < |physicalDevices|
      && MeetsRequirements(physicalDevices[d.physicalDevice.index])
      && (forall k :: 0 <= k < d.physicalDevice.index ==> !MeetsRequirements(physicalDevices[k]))
      && var families := physicalDevices[d.physicalDevice.index].queueFamilies;
      && d.familyIndexes.graphics < |families| && IsGraphicsFamily(families[d.familyIndexes.graphics])
      && (forall k :: 0 <= k < d.familyIndexes.graphics ==> !IsGraphicsFamily(families[k]))
      && d.familyIndexes.present < |families| && IsPresentFamily(families[d.familyIndexes.present])
      && (forall k :: 0 <= k < d.familyIndexes.present ==> !IsPresentFamily(families[k]))
      && |d.logicalDevice.queueCreateInfos| == (if d.familyIndexes.graphics == d.familyIndexes.present then 1 else 2)
      && d.logicalDevice.enabledExtensionNames == [VK_KHR_SWAPCHAIN_EXTENSION_NAME]
      && |d.queues| == QUEUE_FAMILY_COUNT
      && (d.queues[GRAPHICS] == d.queues[PRESENT] <==> d.familyIndexes.graphics == d.familyIndexes.present)
  {
    var d := DevicesOutcome(physicalDevices, createDeviceResult).value;
    TwoRolesDeduplicated(d.familyIndexes);
    RolesShareQueueIffSameFamily(d.familyIndexes);
  }

  /** What a successful initialisation guarantees, stage by stage: every requested name
      was available and the instance enables exactly those; the device stages succeeded
      with the devices recorded; the swapchain is concurrent exactly when the roles use
      different families, its format is never undefined, its image count respects a set
      maximum, and it has images. */
  lemma GfxInitGuarantees(config: GfxConfig, driver: Driver)
    requires GfxInitSpec(config, driver).Ok?
    ensures var s := GfxInitSpec(config, driver).value;
      && (forall i :: 0 <= i < |config.requestedExtensionNames| ==>
            IsAvailable(ExtensionInfo(config, driver.instanceExtensions), config.requestedExtensionNames[i]))
      && (forall i :: 0 <= i < |config.requestedLayerNames| ==>
            IsAvailable(LayerInfo(config, driver.instanceLayers), config.requestedLayerNames[i]))
      && s.instance.enabledExtensionNames == config.requestedExtensionNames
      && s.instance.enabledLayerNames == config.requestedLayerNames
      && DevicesOutcome(driver.physicalDevices, driver.createDeviceResult) == Ok(s.devices)
      && (s.swapchain.imageSharingMode == Concurrent <==> s.devices.familyIndexes.graphics != s.devices.familyIndexes.present)
      && s.swapchain.imageFormat != VK_FORMAT_UNDEFINED
      && var caps := s.devices.physicalDevice.swapchainInfo.surfaceCapabilities;
      && (caps.maxImageCount > 0 ==> s.swapchain.minImageCount <= caps.maxImageCount)
      && |s.swapchainImages| > 0
  {
    var s := GfxInitSpec(config, driver).value;
    InstanceCreatedIffAllAvailable(config, driver.instanceExtensions, driver.instanceLayers, driver.createInstanceResult);
    SharingModeIffDistinctFamilies(s.swapchainConfig, s.devices.familyIndexes);
  }

  /** The device of the end-to-end case: a discrete GPU with VK_KHR_swapchain, a single
      undefined surface format, FIFO only, minImageCount 1 and no maximum, and one queue
      family that does both graphics and presentation. */
  function EndToEndDevice(extent: Extent2D): PhysicalDevice {
    PhysicalDevice(
      DiscreteGpu,
      [ExtensionProperties(VK_KHR_SWAPCHAIN_EXTENSION_NAME, 70)],
      SurfaceCapabilities(1, 0, extent, extent, extent, 1, 1, 1, 1, 1),
      [SurfaceFormat(VK_FORMAT_UNDEFINED, VK_COLOR_SPACE_SRGB_NONLINEAR_KHR)],
      [VK_PRESENT_MODE_FIFO_KHR],
      [QueueFamilyProperties(VK_QUEUE_GRAPHICS_BIT, 1, true)])
  }

  /** The end-to-end device is selected, and both roles resolve to its one family. */
  lemma EndToEndDeviceSelected(extent: Extent2D)
    ensures var device := EndToEndDevice(extent);
      && SelectPhysicalDevice([device]) == Ok(DeviceChoice(0, SwapchainInfoOf(device)))
      && QueueFamilyIndexesOf(device.queueFamilies) == Ok(QueueFamilyIndexes(0, 0))
  {
    var device := EndToEndDevice(extent);
    assert device.extensions[0].extensionName == VK_KHR_SWAPCHAIN_EXTENSION_NAME;
    FirstWhereUnique([device], MeetsRequirements, 0);
    SingleFamilyServesBothRoles(device.queueFamilies[0]);
  }

  /** With the end-to-end device and a successful vkCreateDevice, the device stages
      request one queue and hand out the same queue for both roles. */
  lemma EndToEndDevices(extent: Extent2D)
    ensures var r := DevicesOutcome([EndToEndDevice(extent)], VK_SUCCESS);
      && r.Ok?
      && r.value.physicalDevice == DeviceChoice(0, SwapchainInfoOf(EndToEndDevice(extent)))
      && r.value.familyIndexes == QueueFamilyIndexes(0, 0)
      && r.value.logicalDevice.queueCreateInfos == [QueueCreateInfo(0, 1, 1.0)]
      && r.value.queues == [QueueHandle(0, 0), QueueHandle(0, 0)]
  {
    EndToEndDeviceSelected(extent);
    TwoRolesDeduplicated(QueueFamilyIndexes(0, 0));
  }

  /** With nothing requested and vkCreateInstance succeeding, the instance is created. */
  lemma EndToEndInstance()
    ensures InstanceOutcome(GfxConfig([], []), [], [], VK_SUCCESS).Ok?
  {
    assert CheckComponents(ExtensionInfo(GfxConfig([], []), [])) == Pass;
    assert CheckComponents(LayerInfo(GfxConfig([], []), [])) == Pass;
  }

  /** The end-to-end device's surface gives the preferred format, FIFO and two images,
      and with one family for both roles the swapchain's images are not shared. */
  lemma EndToEndSwapchain(extent: Extent2D)
    ensures var config := SwapchainConfigOf(SwapchainInfoOf(EndToEndDevice(extent)));
      var info := SwapchainCreateInfoFor(config, QueueFamilyIndexes(0, 0));
      && config.surfaceFormat == PREFERRED_SURFACE_FORMAT
      && config.surfacePresentMode == VK_PRESENT_MODE_FIFO_KHR
      && info.imageSharingMode == Exclusive
      && info.queueFamilyIndexCount == 0
      && info.minImageCount == 2
  {
  }

  /** The end-to-end case: with every check passing and the driver succeeding, the
      result has one queue request, the same queue for both roles, exclusive sharing,
      two images requested, the preferred format and FIFO. */
  lemma EndToEndScenario(extent: Extent2D, images: seq<Image>)
    requires |images| > 0
    ensures
      var driver := Driver([], [], VK_SUCCESS, [EndToEndDevice(extent)], VK_SUCCESS, VK_SUCCESS, images);
      var r := GfxInitSpec(GfxConfig([], []), driver);
      && r.Ok?
      && r.value.devices.logicalDevice.queueCreateInfos == [QueueCreateInfo(0, 1, 1.0)]
      && r.value.devices.queues == [QueueHandle(0, 0), QueueHandle(0, 0)]
      && r.value.swapchain.imageSharingMode == Exclusive
      && r.value.swapchain.queueFamilyIndexCount == 0
      && r.value.swapchain.minImageCount == 2
      && r.value.swapchainConfig.surfaceFormat == PREFERRED_SURFACE_FORMAT
      && r.value.swapchainConfig.surfacePresentMode == VK_PRESENT_MODE_FIFO_KHR
  {
    EndToEndInstance();
    EndToEndDevices(extent);
    EndToEndSwapchain(extent);
  }
}
