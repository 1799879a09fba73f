/** Instance creation in graphics.cc: every requested instance extension and layer
    name must be among the names the driver enumerates, extensions checked first, and
    only then is vkCreateInstance called. */
module Instance {
  import opened Wrappers
  import opened VulkanResults
  import opened GraphicsTypes

  /** InstanceComponentInfo: a label for diagnostics ("extension" or "layer"), the
      requested names in request order, the enumerated properties, and the accessor that
      reads a name out of one property record. */
  datatype ComponentInfo<!P> =ComponentInfo(
    componentType: string,
    requestedNames: seq<string>,
    availableProps: seq<P>,
    nameOf: P -> string)

  /** Some enumerated property carries exactly this name (strcmp equality). */
  predicate IsAvailable<P>(info: ComponentInfo<P>, name: string) {
    exists k :: 0 <= k < |info.availableProps| && info.nameOf(info.availableProps[k]) == name
  }

  /** The verdict of the check: it passes iff every requested name is available, and
      otherwise reports the component type and the first missing name in request order. */
  function CheckComponents<P>(info: ComponentInfo<P>): (r: Outcome<GfxError>)
    ensures r.Pass? <==> forall i :: 0 <= i < |info.requestedNames| ==> IsAvailable(info, info.requestedNames[i])
    ensures r.Fail? ==> exists k :: 0 <= k < |info.requestedNames|
                          && !IsAvailable(info, info.requestedNames[k])
                          && (forall j :: 0 <= j < k ==> IsAvailable(info, info.requestedNames[j]))
                          && r.error == MissingComponent(info.componentType, info.requestedNames[k])
  {
    match FirstWhere(info.requestedNames, name => !IsAvailable(info, name))
    case None => Pass
    case Some(k) => Fail(MissingComponent(info.componentType, info.requestedNames[k]))
  }

  /** validateInstanceComponentInfo: for each requested name, a linear scan of the
      available properties that stops at the first exact match; the first name without a
      match is fatal. */
  method ValidateInstanceComponentInfo<P>(info: ComponentInfo<P>) returns (r: Outcome<GfxError>)
    ensures r == CheckComponents(info)
  {
    var requestedIndex := 0;
    while requestedIndex < |info.requestedNames|
      invariant requestedIndex <= |info.requestedNames|
      invariant forall j :: 0 <= j < requestedIndex ==> IsAvailable(info, info.requestedNames[j])
    {
      var requestedName := info.requestedNames[requestedIndex];
      var componentAvailable := false;
      var availableIndex := 0;
      while availableIndex < |info.availableProps|
        invariant availableIndex <= |info.availableProps|
        invariant componentAvailable ==> IsAvailable(info, requestedName)
        invariant !componentAvailable ==>
          forall k :: 0 <= k < availableIndex ==> info.nameOf(info.availableProps[k]) != requestedName
      {
        if requestedName == info.nameOf(info.availableProps[availableIndex]) {
          componentAvailable := true;
          break;
        }
        availableIndex := availableIndex + 1;
      }
      if !componentAvailable {
        FirstWhereUnique(info.requestedNames, name => !IsAvailable(info, name), requestedIndex);
        return Fail(MissingComponent(info.componentType, requestedName));
      }
      requestedIndex := requestedIndex + 1;
    }
    return Pass;
  }

  /** GFXConfig: the names the application asks for. */
  datatype GfxConfig = GfxConfig(requestedExtensionNames: seq<string>, requestedLayerNames: seq<string>)

  /** VK_MAKE_VERSION(major, minor, patch) = major << 22 | minor << 12 | patch. */
  function MakeVersion(major: nat, minor: nat, patch: nat): (v: nat)
    requires minor < 1024 && patch < 4096
    ensures v / 4194304 == major && (v / 4096) % 1024 == minor && v % 4096 == patch
  {
    major * 4194304 + minor * 4096 + patch
  }

  const VK_API_VERSION_1_1: nat := MakeVersion(1, 1, 0)

  /** VkApplicationInfo and VkInstanceCreateInfo, as filled in by createInstance. */
  datatype InstanceCreateInfo = InstanceCreateInfo(
    applicationName: string,
    applicationVersion: nat,
    engineName: string,
    engineVersion: nat,
    apiVersion: nat,
    enabledLayerNames: seq<string>,
    enabledExtensionNames: seq<string>)

  function ExtensionInfo(config: GfxConfig, available: seq<ExtensionProperties>): ComponentInfo<ExtensionProperties> {
    ComponentInfo("extension", config.requestedExtensionNames, available, ExtensionPropsName)
  }

  function LayerInfo(config: GfxConfig, available: seq<LayerProperties>): ComponentInfo<LayerProperties> {
    ComponentInfo("layer", config.requestedLayerNames, available, LayerPropsName)
  }

  function InstanceCreateInfoFor(config: GfxConfig): InstanceCreateInfo {
    InstanceCreateInfo(
      "prism test", MakeVersion(0, 1, 0),
      "prism", MakeVersion(0, 1, 0),
      VK_API_VERSION_1_1,
      config.requestedLayerNames,
      config.requestedExtensionNames)
  }

  /** The outcome of createInstance: the extension check, then the layer check, then
      the driver's vkCreateInstance result (`createResult`). */
  function InstanceOutcome(config: GfxConfig, availableExtensions: seq<ExtensionProperties>,
                           availableLayers: seq<LayerProperties>, createResult: VkResult)
    : Result<InstanceCreateInfo, GfxError>
  {
    match CheckComponents(ExtensionInfo(config, availableExtensions))
    case Fail(e) => Err(e)
    case Pass =>
      match CheckComponents(LayerInfo(config, availableLayers))
      case Fail(e) => Err(e)
      case Pass =>
        if createResult != VK_SUCCESS then Err(InstanceCreationFailed(createResult))
        else Ok(InstanceCreateInfoFor(config))
  }

  /** createInstance, with the driver's enumerations and its vkCreateInstance result as
      inputs. */
  method CreateInstance(config: GfxConfig, availableExtensions: seq<ExtensionProperties>,
                        availableLayers: seq<LayerProperties>, createResult: VkResult)
    returns (r: Result<InstanceCreateInfo, GfxError>)
    ensures r == InstanceOutcome(config, availableExtensions, availableLayers, createResult)
  {
    var extensionCheck := ValidateInstanceComponentInfo(ExtensionInfo(config, availableExtensions));
    if extensionCheck.Fail? {
      return Err(extensionCheck.error);
    }
    var layerCheck := ValidateInstanceComponentInfo(LayerInfo(config, availableLayers));
    if layerCheck.Fail? {
      return Err(layerCheck.error);
    }
    if createResult != VK_SUCCESS {
      return Err(InstanceCreationFailed(createResult));
    }
    return Ok(InstanceCreateInfoFor(config));
  }

  /** An instance is created exactly when every requested extension and every requested
      layer is available and the driver succeeds; it then enables exactly the requested
      names, for Vulkan 1.1.  Both checks come before vkCreateInstance: a missing name is
      reported whatever the driver would have answered, and a missing extension is
      reported before a missing layer. */
  lemma InstanceCreatedIffAllAvailable(config: GfxConfig, availableExtensions: seq<ExtensionProperties>,
                                       availableLayers: seq<LayerProperties>, createResult: VkResult)
    ensures var r := InstanceOutcome(config, availableExtensions, availableLayers, createResult);
      && (r.Ok? <==>
           (forall i :: 0 <= i < |config.requestedExtensionNames| ==>
              IsAvailable(ExtensionInfo(config, availableExtensions), config.requestedExtensionNames[i]))
           && (forall i :: 0 <= i < |config.requestedLayerNames| ==>
              IsAvailable(LayerInfo(config, availableLayers), config.requestedLayerNames[i]))
           && createResult == VK_SUCCESS)
      && (r.Ok? ==> r.value.enabledExtensionNames == config.requestedExtensionNames
                    && r.value.enabledLayerNames == config.requestedLayerNames
                    && r.value.apiVersion == VK_API_VERSION_1_1)
      && (r.Err? && r.error.MissingComponent? && r.error.componentType == "layer" ==>
           forall i :: 0 <= i < |config.requestedExtensionNames| ==>
              IsAvailable(ExtensionInfo(config, availableExtensions), config.requestedExtensionNames[i]))
      && (r.Err? && r.error.InstanceCreationFailed? ==>
           && r.error.result == createResult
           && (forall i :: 0 <= i < |config.requestedExtensionNames| ==>
                 IsAvailable(ExtensionInfo(config, availableExtensions), config.requestedExtensionNames[i]))
           && (forall i :: 0 <= i < |config.requestedLayerNames| ==>
                 IsAvailable(LayerInfo(config, availableLayers), config.requestedLayerNames[i])))
      && (r.Err? && r.error.MissingComponent? ==>
           r.error.componentType == "extension" || r.error.componentType == "layer")
  {
  }

  /** The extension check compares each requested name with the extensionName field of
      the enumerated records, through extensionPropsNameAccessor. */
  lemma ExtensionNamesAreCompared(config: GfxConfig, available: seq<ExtensionProperties>, name: string)
    ensures IsAvailable(ExtensionInfo(config, available), name) <==>
            exists k :: 0 <= k < |available| && available[k].extensionName == name
  {
  }

  /** The layer check compares each requested name with the layerName field of the
      enumerated records, through layerPropsNameAccessor. */
  lemma LayerNamesAreCompared(config: GfxConfig, available: seq<LayerProperties>, name: string)
    ensures IsAvailable(LayerInfo(config, available), name) <==>
            exists k :: 0 <= k < |available| && available[k].layerName == name
  {
  }

  /** A name that is requested but not enumerated makes the check fail, naming the
      first such name in request order (here: the only one). */
  lemma MissingLayerIsReported(available: seq<LayerProperties>)
    requires forall k :: 0 <= k < |available| ==> available[k].layerName != "VK_LAYER_KHRONOS_validation"
    ensures CheckComponents(ComponentInfo("layer", ["VK_LAYER_KHRONOS_validation"], available, LayerPropsName))
         == Fail(MissingComponent("layer", "VK_LAYER_KHRONOS_validation"))
  {
    var info := ComponentInfo("layer", ["VK_LAYER_KHRONOS_validation"], available, LayerPropsName);
    assert !IsAvailable(info, info.requestedNames[0]);
  }
}
