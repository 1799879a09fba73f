/** Swapchain negotiation in graphics.cc: createSwapchainConfig picks the surface format,
    present mode, extent and image count from what the selected device reports;
    createSwapchain fills in the creation record, choosing the sharing mode from the two
    queue-family indexes; getSwapchainImages insists on at least one image. */
module Swapchain {
  import opened Wrappers
  import opened VulkanResults
  import opened GraphicsTypes
  import opened Queues

  /** PREFERRED_SURFACE_FORMAT */
  const PREFERRED_SURFACE_FORMAT: SurfaceFormat := SurfaceFormat(VK_FORMAT_B8G8R8A8_UNORM, VK_COLOR_SPACE_SRGB_NONLINEAR_KHR)

  /** PREFERRED_PRESENT_MODE */
  const PREFERRED_PRESENT_MODE: PresentMode := VK_PRESENT_MODE_MAILBOX_KHR

  /** MIN_PREFERRED_IMAGE_COUNT: one image more than the surface's minimum. */
  const MIN_PREFERRED_IMAGE_COUNT: nat := 1

  /** Surface format policy.  A first entry with an undefined format means the surface
      has no preference, and the preferred pair is used.  Otherwise the preferred pair is
      used when it is listed, and the first entry when it is not.  The choice is never an
      undefined format, and it is a listed format unless the surface has no preference. */
  function SelectSurfaceFormat(formats: seq<SurfaceFormat>): (r: SurfaceFormat)
    requires |formats| > 0
    ensures r.format != VK_FORMAT_UNDEFINED
    ensures r in formats || formats[0].format == VK_FORMAT_UNDEFINED
    ensures formats[0].format == VK_FORMAT_UNDEFINED ==> r == PREFERRED_SURFACE_FORMAT
    ensures PREFERRED_SURFACE_FORMAT in formats ==> r == PREFERRED_SURFACE_FORMAT
    ensures PREFERRED_SURFACE_FORMAT !in formats && formats[0].format != VK_FORMAT_UNDEFINED ==> r == formats[0]
  {
    if formats[0].format == VK_FORMAT_UNDEFINED then PREFERRED_SURFACE_FORMAT
    else if PREFERRED_SURFACE_FORMAT in formats then PREFERRED_SURFACE_FORMAT
    else formats[0]
  }

  /** Present mode policy: MAILBOX when listed, else IMMEDIATE when listed, else FIFO,
      which every driver must offer.  The choice is a listed mode or FIFO. */
  function SelectPresentMode(modes: seq<PresentMode>): (r: PresentMode)
    ensures r in modes || r == VK_PRESENT_MODE_FIFO_KHR
    ensures VK_PRESENT_MODE_MAILBOX_KHR in modes ==> r == VK_PRESENT_MODE_MAILBOX_KHR
    ensures VK_PRESENT_MODE_MAILBOX_KHR !in modes && VK_PRESENT_MODE_IMMEDIATE_KHR in modes ==>
              r == VK_PRESENT_MODE_IMMEDIATE_KHR
    ensures VK_PRESENT_MODE_MAILBOX_KHR !in modes && VK_PRESENT_MODE_IMMEDIATE_KHR !in modes ==>
              r == VK_PRESENT_MODE_FIFO_KHR
  {
    if VK_PRESENT_MODE_MAILBOX_KHR in modes then VK_PRESENT_MODE_MAILBOX_KHR
    else if VK_PRESENT_MODE_IMMEDIATE_KHR in modes then VK_PRESENT_MODE_IMMEDIATE_KHR
    else VK_PRESENT_MODE_FIFO_KHR
  }

  /** Image count policy: minImageCount + 1 computed in uint32_t arithmetic, lowered to
      maxImageCount when the surface sets a maximum (non-zero) and the count exceeds it.
      Short of the wrap-around, this is minImageCount + 1 clamped to the maximum. */
  function SelectImageCount(caps: SurfaceCapabilities): (r: uint32)
    ensures caps.maxImageCount > 0 ==> r <= caps.maxImageCount
    ensures caps.minImageCount + MIN_PREFERRED_IMAGE_COUNT < UINT32_LIMIT ==>
      r == if caps.maxImageCount > 0 && caps.minImageCount + MIN_PREFERRED_IMAGE_COUNT > caps.maxImageCount
           then caps.maxImageCount else caps.minImageCount + MIN_PREFERRED_IMAGE_COUNT
    ensures caps.minImageCount + MIN_PREFERRED_IMAGE_COUNT >= UINT32_LIMIT ==> r == 0
  {
    var selectedImageCount: uint32 := (caps.minImageCount + MIN_PREFERRED_IMAGE_COUNT) % UINT32_LIMIT;
    if caps.maxImageCount > 0 && selectedImageCount > caps.maxImageCount then caps.maxImageCount
    else selectedImageCount
  }

  /** SwapchainConfig */
  datatype SwapchainConfig = SwapchainConfig(
    surfaceFormat: SurfaceFormat,
    surfacePresentMode: PresentMode,
    extent: Extent2D,
    imageCount: uint32,
    currentTransform: uint32)

  /** The configuration createSwapchainConfig derives; the extent is always the current
      extent and the transform the current transform. */
  function SwapchainConfigOf(info: SwapchainInfo): (config: SwapchainConfig)
    requires |info.availableSurfaceFormats| > 0
  {
    SwapchainConfig(
      SelectSurfaceFormat(info.availableSurfaceFormats),
      SelectPresentMode(info.availableSurfacePresentModes),
      info.surfaceCapabilities.currentExtent,
      SelectImageCount(info.surfaceCapabilities),
      info.surfaceCapabilities.currentTransform)
  }

  /** createSwapchainConfig.  It reads the first surface format unconditionally, so the
      format list must not be empty (getPhysicalDevice only accepts devices for which it
      is not). */
  method CreateSwapchainConfig(info: SwapchainInfo) returns (config: SwapchainConfig)
    requires |info.availableSurfaceFormats| > 0
    ensures config == SwapchainConfigOf(info)
  {
    var availableSurfaceFormats := info.availableSurfaceFormats;
    var selectedSurfaceFormat := availableSurfaceFormats[0];
    if selectedSurfaceFormat.format == VK_FORMAT_UNDEFINED {
      selectedSurfaceFormat := PREFERRED_SURFACE_FORMAT;
    } else {
      var i := 0;
      while i < |availableSurfaceFormats|
        invariant i <= |availableSurfaceFormats|
        invariant selectedSurfaceFormat == availableSurfaceFormats[0]
        invariant forall k :: 0 <= k < i ==> availableSurfaceFormats[k] != PREFERRED_SURFACE_FORMAT
      {
        var availableSurfaceFormat := availableSurfaceFormats[i];
        if availableSurfaceFormat.format == PREFERRED_SURFACE_FORMAT.format
          && availableSurfaceFormat.colorSpace == PREFERRED_SURFACE_FORMAT.colorSpace
        {
          selectedSurfaceFormat := availableSurfaceFormat;
          break;
        }
        i := i + 1;
      }
    }

    var availableSurfacePresentModes := info.availableSurfacePresentModes;
    var selectedSurfacePresentMode := VK_PRESENT_MODE_FIFO_KHR;
    var i := 0;
    while i < |availableSurfacePresentModes|
      invariant i <= |availableSurfacePresentModes|
      invariant PREFERRED_PRESENT_MODE !in availableSurfacePresentModes[..i]
      invariant selectedSurfacePresentMode ==
        if VK_PRESENT_MODE_IMMEDIATE_KHR in availableSurfacePresentModes[..i] then VK_PRESENT_MODE_IMMEDIATE_KHR
        else VK_PRESENT_MODE_FIFO_KHR
    {
      var availableSurfacePresentMode := availableSurfacePresentModes[i];
      assert availableSurfacePresentModes[..i + 1] == availableSurfacePresentModes[..i] + [availableSurfacePresentMode];
      if availableSurfacePresentMode == PREFERRED_PRESENT_MODE {
        selectedSurfacePresentMode := PREFERRED_PRESENT_MODE;
        break;
      } else if availableSurfacePresentMode == VK_PRESENT_MODE_IMMEDIATE_KHR {
        selectedSurfacePresentMode := availableSurfacePresentMode;
      }
      i := i + 1;
    }
    assert i == |availableSurfacePresentModes| ==> availableSurfacePresentModes[..i] == availableSurfacePresentModes;

    var surfaceCapabilities := info.surfaceCapabilities;
    var selectedExtent := surfaceCapabilities.currentExtent;
    var selectedImageCount: uint32 := (surfaceCapabilities.minImageCount + MIN_PREFERRED_IMAGE_COUNT) % UINT32_LIMIT;
    var maxImageCount := surfaceCapabilities.maxImageCount;
    if maxImageCount > 0 && selectedImageCount > maxImageCount {
      selectedImageCount := maxImageCount;
    }

    config := SwapchainConfig(selectedSurfaceFormat, selectedSurfacePresentMode, selectedExtent,
                              selectedImageCount, surfaceCapabilities.currentTransform);
  }

  /** The present mode depends only on which modes are listed, not on their order or
      repetition: IMMEDIATE listed ahead of MAILBOX does not win. */
  lemma PresentModeIgnoresOrder(a: seq<PresentMode>, b: seq<PresentMode>)
    requires forall m :: m in a <==> m in b
    ensures SelectPresentMode(a) == SelectPresentMode(b)
  {
  }

  /** Whenever the surface's minimum is below the uint32_t maximum and any maximum it
      sets is at least its minimum, the count lies between minImageCount and
      maxImageCount, is minImageCount + 1 when that fits, and is never zero. */
  lemma ImageCountWithinBounds(caps: SurfaceCapabilities)
    requires caps.minImageCount < UINT32_LIMIT - 1
    requires caps.maxImageCount == 0 || caps.maxImageCount >= caps.minImageCount
    ensures caps.minImageCount <= SelectImageCount(caps)
    ensures caps.maxImageCount > 0 ==> SelectImageCount(caps) <= caps.maxImageCount
    ensures caps.maxImageCount == 0 || caps.maxImageCount > caps.minImageCount ==>
              SelectImageCount(caps) == caps.minImageCount + 1
    ensures SelectImageCount(caps) > 0
  {
  }

  /** The addition is done in uint32_t: a surface reporting the largest minimum gets an
      image count of zero, whatever maximum it sets, since zero never exceeds it. */
  lemma ImageCountWrapsAtUint32Max(caps: SurfaceCapabilities)
    requires caps.minImageCount == UINT32_LIMIT - 1
    ensures SelectImageCount(caps) == 0
  {
  }

  /** VkSharingMode */
  datatype SharingMode = Exclusive | Concurrent

  /** VK_IMAGE_USAGE_COLOR_ATTACHMENT_BIT and VK_COMPOSITE_ALPHA_OPAQUE_BIT_KHR. */
  const VK_IMAGE_USAGE_COLOR_ATTACHMENT_BIT: uint32 := 0x10
  const VK_COMPOSITE_ALPHA_OPAQUE_BIT_KHR: uint32 := 0x1

  /** The fields of VkSwapchainCreateInfoKHR that createSwapchain sets (the surface and
      the null old swapchain are left out). */
  datatype SwapchainCreateInfo = SwapchainCreateInfo(
    minImageCount: uint32,
    imageFormat: Format,
    imageColorSpace: ColorSpace,
    imageExtent: Extent2D,
    imageArrayLayers: nat,
    imageUsage: uint32,
    imageSharingMode: SharingMode,
    queueFamilyIndexCount: nat,
    queueFamilyIndices: seq<nat>,
    preTransform: uint32,
    compositeAlpha: uint32,
    presentMode: PresentMode,
    clipped: bool)

  /** The creation record for a configuration and the two roles' family indexes. */
  function SwapchainCreateInfoFor(config: SwapchainConfig, indexes: QueueFamilyIndexes): SwapchainCreateInfo {
    var concurrent := indexes.graphics != indexes.present;
    SwapchainCreateInfo(
      config.imageCount,
      config.surfaceFormat.format,
      config.surfaceFormat.colorSpace,
      config.extent,
      1,
      VK_IMAGE_USAGE_COLOR_ATTACHMENT_BIT,
      if concurrent then Concurrent else Exclusive,
      if concurrent then QUEUE_FAMILY_COUNT else 0,
      if concurrent then FamilyIndexList(indexes) else [],
      config.currentTransform,
      VK_COMPOSITE_ALPHA_OPAQUE_BIT_KHR,
      config.surfacePresentMode,
      true)
  }

  /** The outcome of createSwapchain, with the driver's vkCreateSwapchainKHR result as
      input. */
  function SwapchainOutcome(config: SwapchainConfig, indexes: QueueFamilyIndexes, createResult: VkResult)
    : Result<SwapchainCreateInfo, GfxError>
  {
    if createResult != VK_SUCCESS then Err(SwapchainCreationFailed(createResult))
    else Ok(SwapchainCreateInfoFor(config, indexes))
  }

  /** createSwapchain, reading the two family indexes out of queueInfo. */
  method CreateSwapchain(queueInfo: QueueInfo, config: SwapchainConfig, createResult: VkResult)
    returns (r: Result<SwapchainCreateInfo, GfxError>)
    requires queueInfo.Valid()
    ensures r == SwapchainOutcome(config,
      QueueFamilyIndexes(queueInfo.familyIndexes[GRAPHICS], queueInfo.familyIndexes[PRESENT]), createResult)
  {
    var sharingMode: SharingMode;
    var queueFamilyIndexCount: nat;
    var queueFamilyIndices: seq<nat>;
    if queueInfo.familyIndexes[GRAPHICS] != queueInfo.familyIndexes[PRESENT] {
      sharingMode := Concurrent;
      queueFamilyIndexCount := QUEUE_FAMILY_COUNT;
      queueFamilyIndices := queueInfo.familyIndexes[..];
      assert queueFamilyIndices == [queueInfo.familyIndexes[GRAPHICS], queueInfo.familyIndexes[PRESENT]];
    } else {
      sharingMode := Exclusive;
      queueFamilyIndexCount := 0;
      queueFamilyIndices := [];
    }
    var swapchainCreateInfo := SwapchainCreateInfo(
      config.imageCount, config.surfaceFormat.format, config.surfaceFormat.colorSpace, config.extent,
      1, VK_IMAGE_USAGE_COLOR_ATTACHMENT_BIT, sharingMode, queueFamilyIndexCount, queueFamilyIndices,
      config.currentTransform, VK_COMPOSITE_ALPHA_OPAQUE_BIT_KHR, config.surfacePresentMode, true);
    if createResult != VK_SUCCESS {
      return Err(SwapchainCreationFailed(createResult));
    }
    return Ok(swapchainCreateInfo);
  }

  /** Sharing is CONCURRENT, listing both family indexes (graphics first), exactly when
      the roles use different families, and EXCLUSIVE, listing none, exactly when they
      share one; the listed count always matches the list. */
  lemma SharingModeIffDistinctFamilies(config: SwapchainConfig, indexes: QueueFamilyIndexes)
    ensures var info := SwapchainCreateInfoFor(config, indexes);
      && (info.imageSharingMode == Concurrent <==> indexes.graphics != indexes.present)
      && (info.imageSharingMode == Concurrent ==> info.queueFamilyIndices == [indexes.graphics, indexes.present])
      && (info.imageSharingMode == Exclusive ==> info.queueFamilyIndices == [])
      && info.queueFamilyIndexCount == |info.queueFamilyIndices|
      && info.minImageCount == config.imageCount
  {
  }

  /** A VkImage handle of the swapchain. */
  type Image = nat

  /** getSwapchainImages: the driver's image list, which must not be empty. */
  method GetSwapchainImages(images: seq<Image>) returns (r: Result<seq<Image>, GfxError>)
    ensures r.Err? <==> |images| == 0
    ensures r.Err? ==> r.error == NoSwapchainImages
    ensures r.Ok? ==> r.value == images
  {
    var count := |images|;
    if count == 0 {
      return Err(NoSwapchainImages);
    }
    return Ok(images);
  }

  /** The image-count cases: no maximum and a minimum of 1 gives 2; a maximum of 2 and a
      minimum of 2 lowers 3 to 2. */
  lemma ImageCountExamples(extent: Extent2D)
    ensures SelectImageCount(SurfaceCapabilities(1, 0, extent, extent, extent, 1, 1, 1, 1, 1)) == 2
    ensures SelectImageCount(SurfaceCapabilities(2, 2, extent, extent, extent, 1, 1, 1, 1, 1)) == 2
  {
  }

  /** The surface-format cases: an undefined first entry gives the preferred pair, the
      preferred pair listed is taken, and any other single entry is kept. */
  lemma SurfaceFormatExamples(colorSpace: ColorSpace, other: SurfaceFormat)
    requires other.format != VK_FORMAT_UNDEFINED && other != PREFERRED_SURFACE_FORMAT
    ensures SelectSurfaceFormat([SurfaceFormat(VK_FORMAT_UNDEFINED, colorSpace)]) == PREFERRED_SURFACE_FORMAT
    ensures SelectSurfaceFormat([PREFERRED_SURFACE_FORMAT]) == PREFERRED_SURFACE_FORMAT
    ensures SelectSurfaceFormat([other]) == other
  {
  }

  /** The present-mode cases: FIFO alone gives FIFO, FIFO and MAILBOX give MAILBOX, FIFO
      and IMMEDIATE give IMMEDIATE. */
  lemma PresentModeExamples()
    ensures SelectPresentMode([VK_PRESENT_MODE_FIFO_KHR]) == VK_PRESENT_MODE_FIFO_KHR
    ensures SelectPresentMode([VK_PRESENT_MODE_FIFO_KHR, VK_PRESENT_MODE_MAILBOX_KHR]) == VK_PRESENT_MODE_MAILBOX_KHR
    ensures SelectPresentMode([VK_PRESENT_MODE_FIFO_KHR, VK_PRESENT_MODE_IMMEDIATE_KHR]) == VK_PRESENT_MODE_IMMEDIATE_KHR
  {
  }
}
