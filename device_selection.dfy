/** Physical-device selection in graphics.cc: the first enumerated device that is a
    discrete GPU, offers VK_KHR_swapchain, and reports at least one surface format and
    one present mode for the bound surface. */
module DeviceSelection {
  import opened Wrappers
  import opened GraphicsTypes

  /** The device's extension list contains VK_KHR_swapchain. */
  predicate HasSwapchainExtension(extensions: seq<ExtensionProperties>) {
    exists k :: 0 <= k < |extensions| && extensions[k].extensionName == VK_KHR_SWAPCHAIN_EXTENSION_NAME
  }

  /** supportsSwapchain: an empty enumeration answers false at once; otherwise a scan that
      stops at the first entry named VK_KHR_swapchain. */
  method SupportsSwapchain(extensions: seq<ExtensionProperties>) returns (result: bool)
    ensures result <==> exists k :: 0 <= k < |extensions| && extensions[k].extensionName == VK_KHR_SWAPCHAIN_EXTENSION_NAME
  {
    if |extensions| == 0 {
      return false;
    }
    result := false;
    var availableExtensionIndex := 0;
    while availableExtensionIndex < |extensions|
      invariant availableExtensionIndex <= |extensions|
      invariant !result
      invariant forall k :: 0 <= k < availableExtensionIndex ==>
        extensions[k].extensionName != VK_KHR_SWAPCHAIN_EXTENSION_NAME
    {
      if extensions[availableExtensionIndex].extensionName == VK_KHR_SWAPCHAIN_EXTENSION_NAME {
        result := true;
        break;
      }
      availableExtensionIndex := availableExtensionIndex + 1;
    }
  }

  /** getSwapchainInfo: the capabilities, formats and present modes the device reports
      for the bound surface. */
  function SwapchainInfoOf(device: PhysicalDevice): (info: SwapchainInfo)
    ensures info.surfaceCapabilities == device.surfaceCapabilities
    ensures info.availableSurfaceFormats == device.surfaceFormats
    ensures info.availableSurfacePresentModes == device.presentModes
  {
    SwapchainInfo(device.surfaceCapabilities, device.surfaceFormats, device.presentModes)
  }

  /** The requirements getPhysicalDevice checks, in the order it checks them. */
  predicate MeetsRequirements(device: PhysicalDevice) {
    && device.deviceType == DiscreteGpu
    && HasSwapchainExtension(device.extensions)
    && |SwapchainInfoOf(device).availableSurfaceFormats| > 0
    && |SwapchainInfoOf(device).availableSurfacePresentModes| > 0
  }

  /** The selected device (its position in the enumeration) and the swapchain information
      stored for it. */
  datatype DeviceChoice = DeviceChoice(index: nat, swapchainInfo: SwapchainInfo)

  /** Selection policy: no device at all is one error, no device meeting the
      requirements another; otherwise the first device that meets them, with its own
      swapchain information. */
  function SelectPhysicalDevice(devices: seq<PhysicalDevice>): (r: Result<DeviceChoice, GfxError>)
    ensures r == Err(NoPhysicalDevices) <==> |devices| == 0
    ensures r == Err(NoSuitablePhysicalDevice) <==>
      |devices| > 0 && forall k :: 0 <= k < |devices| ==> !MeetsRequirements(devices[k])
    ensures r.Ok? ==> && r.value.index < |devices|
                      && MeetsRequirements(devices[r.value.index])
                      && (forall k :: 0 <= k < r.value.index ==> !MeetsRequirements(devices[k]))
                      && r.value.swapchainInfo == SwapchainInfoOf(devices[r.value.index])
    ensures r.Ok? || r == Err(NoPhysicalDevices) || r == Err(NoSuitablePhysicalDevice)
  {
    if |devices| == 0 then Err(NoPhysicalDevices)
    else match FirstWhere(devices, MeetsRequirements)
      case None => Err(NoSuitablePhysicalDevice)
      case Some(k) => Ok(DeviceChoice(k, SwapchainInfoOf(devices[k])))
  }

  /** getPhysicalDevice: the enumeration loop with its `continue`s and the final `break`.
      The swapchain information is overwritten for every discrete device with the
      extension, as in the source, and is the selected device's once one is accepted. */
  method GetPhysicalDevice(devices: seq<PhysicalDevice>) returns (r: Result<DeviceChoice, GfxError>)
    ensures r == SelectPhysicalDevice(devices)
  {
    if |devices| == 0 {
      return Err(NoPhysicalDevices);
    }
    var swapchainInfo := SwapchainInfo(devices[0].surfaceCapabilities, [], []);
    var found := false;
    var physicalDevice := 0;
    var availablePhysicalDeviceIndex := 0;
    while availablePhysicalDeviceIndex < |devices|
      invariant availablePhysicalDeviceIndex <= |devices|
      invariant !found
      invariant forall k :: 0 <= k < availablePhysicalDeviceIndex ==> !MeetsRequirements(devices[k])
    {
      var device := devices[availablePhysicalDeviceIndex];
      if device.deviceType != DiscreteGpu {
        availablePhysicalDeviceIndex := availablePhysicalDeviceIndex + 1;
        continue;
      }
      var supported := SupportsSwapchain(device.extensions);
      if !supported {
        availablePhysicalDeviceIndex := availablePhysicalDeviceIndex + 1;
        continue;
      }
      swapchainInfo := SwapchainInfoOf(device);
      if |swapchainInfo.availableSurfaceFormats| == 0 || |swapchainInfo.availableSurfacePresentModes| == 0 {
        availablePhysicalDeviceIndex := availablePhysicalDeviceIndex + 1;
        continue;
      }
      physicalDevice := availablePhysicalDeviceIndex;
      found := true;
      break;
    }
    if !found {
      return Err(NoSuitablePhysicalDevice);
    }
    FirstWhereUnique(devices, MeetsRequirements, physicalDevice);
    return Ok(DeviceChoice(physicalDevice, swapchainInfo));
  }

  /** First fit, not best fit: whenever some device qualifies, a device is selected, and
      it is never one enumerated after a qualifying device. */
  lemma SelectionIsFirstFit(devices: seq<PhysicalDevice>, k: nat)
    requires k < |devices| && MeetsRequirements(devices[k])
    ensures SelectPhysicalDevice(devices).Ok?
    ensures SelectPhysicalDevice(devices).value.index <= k
  {
  }

  /** Putting an unsuitable device in front of the enumeration moves the selection one
      place along and changes nothing else. */
  lemma UnsuitableDeviceIsSkipped(d: PhysicalDevice, devices: seq<PhysicalDevice>)
    requires !MeetsRequirements(d)
    requires SelectPhysicalDevice(devices).Ok?
    ensures SelectPhysicalDevice([d] + devices).Ok?
    ensures SelectPhysicalDevice([d] + devices).value ==
            DeviceChoice(SelectPhysicalDevice(devices).value.index + 1, SelectPhysicalDevice(devices).value.swapchainInfo)
  {
    var k := SelectPhysicalDevice(devices).value.index;
    var extended := [d] + devices;
    forall j | 0 <= j < k + 1
      ensures !MeetsRequirements(extended[j])
    {
      if j > 0 {
        assert extended[j] == devices[j - 1];
      }
    }
    assert extended[k + 1] == devices[k];
    FirstWhereUnique(extended, MeetsRequirements, k + 1);
  }

  /** A device that passes every requirement, with the given type and extensions. */
  function SampleDevice(deviceType: PhysicalDeviceType, extensions: seq<ExtensionProperties>): PhysicalDevice {
    var extent := Extent2D(800, 600);
    PhysicalDevice(
      deviceType, extensions,
      SurfaceCapabilities(1, 0, extent, extent, extent, 1, 1, 1, 1, 1),
      [SurfaceFormat(VK_FORMAT_B8G8R8A8_UNORM, VK_COLOR_SPACE_SRGB_NONLINEAR_KHR)],
      [VK_PRESENT_MODE_FIFO_KHR],
      [QueueFamilyProperties(VK_QUEUE_GRAPHICS_BIT, 1, true)])
  }

  /** An integrated GPU, then a discrete GPU without VK_KHR_swapchain, then a suitable
      discrete GPU: the third is selected, with its own swapchain information. */
  lemma ThirdDeviceIsSelected()
    ensures var swapchain := ExtensionProperties(VK_KHR_SWAPCHAIN_EXTENSION_NAME, 70);
            var devices := [SampleDevice(IntegratedGpu, [swapchain]),
                            SampleDevice(DiscreteGpu, [ExtensionProperties("VK_KHR_maintenance1", 2)]),
                            SampleDevice(DiscreteGpu, [swapchain])];
            SelectPhysicalDevice(devices) == Ok(DeviceChoice(2, SwapchainInfoOf(devices[2])))
  {
    var swapchain := ExtensionProperties(VK_KHR_SWAPCHAIN_EXTENSION_NAME, 70);
    var devices := [SampleDevice(IntegratedGpu, [swapchain]),
                    SampleDevice(DiscreteGpu, [ExtensionProperties("VK_KHR_maintenance1", 2)]),
                    SampleDevice(DiscreteGpu, [swapchain])];
    assert devices[1].extensions[0].extensionName != VK_KHR_SWAPCHAIN_EXTENSION_NAME;
    assert devices[2].extensions[0].extensionName == VK_KHR_SWAPCHAIN_EXTENSION_NAME;
    FirstWhereUnique(devices, MeetsRequirements, 2);
  }
}
