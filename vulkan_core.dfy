/** The free-standing instance helpers of lib/fractal/renderer/FTL_VulkanCore.cpp:
    the validation-layer check, the required instance extensions, instance
    creation guarded by the validation check, and the debug messenger that
    exists only when validation is enabled. `hasValidationLayers` is a build
    constant there (debug builds enable it) and a parameter here. */
module VulkanCore {
  import opened Vk
  import Search
  import InstanceSetup

  /** Whether every validation layer is among the layers the driver
      enumerates. The outer loop returns false at the first required layer
      the inner loop does not find. */
  method HasValidationLayerSupport(availableLayers: seq<string>) returns (supported: bool)
    ensures supported <==> Search.AllPresent(ValidationLayers, availableLayers)
  {
    for v := 0 to |ValidationLayers|
      invariant forall k :: 0 <= k < v ==> ValidationLayers[k] in availableLayers
    {
      var validationLayerName := ValidationLayers[v];
      var isLayerAvailable := false;
      for a := 0 to |availableLayers|
        invariant !isLayerAvailable ==> validationLayerName !in availableLayers[..a]
        invariant isLayerAvailable ==> validationLayerName in availableLayers
      {
        if validationLayerName == availableLayers[a] {
          isLayerAvailable := true;
          break;
        }
      }
      if !isLayerAvailable {
        assert availableLayers[..|availableLayers|] == availableLayers;
        return false;
      }
    }
    return true;
  }

  /** The windowing layer's names copied into a vector, and the debug-utils
      name pushed after them when validation is enabled. */
  method GetRequiredExtensions(windowExtensions: seq<string>, hasValidationLayers: bool)
    returns (extensionNames: seq<string>)
    ensures extensionNames == InstanceSetup.RequiredExtensions(windowExtensions, hasValidationLayers)
  {
    extensionNames := windowExtensions;
    if hasValidationLayers {
      extensionNames := extensionNames + [DebugUtilsExtensionName];
    }
  }

  /** createInstance: throws before building any create-info when validation
      is requested but the layer is missing; otherwise fills in the
      application info, the required extensions, and, only with validation,
      the layer list and the chained debug messenger create-info (zero layers
      and a null pNext without it). `driverAccepts` stands for the result of
      `vkCreateInstance`. */
  method CreateInstance(hasValidationLayers: bool, availableLayers: seq<string>,
                        windowExtensions: seq<string>, driverAccepts: bool)
    returns (r: Result<InstanceCreateInfo>)
    ensures hasValidationLayers && !Search.AllPresent(ValidationLayers, availableLayers) ==>
              r == Err(ValidationLayersUnavailable)
    ensures r.Ok? <==> (!hasValidationLayers || Search.AllPresent(ValidationLayers, availableLayers)) && driverAccepts
    ensures (!hasValidationLayers || Search.AllPresent(ValidationLayers, availableLayers)) && !driverAccepts ==>
              r == Err(InstanceCreationFailed)
    ensures r.Err? ==> r.error == ValidationLayersUnavailable || r.error == InstanceCreationFailed
    ensures r.Ok? ==> r.value.appInfo == FractalAppInfo
    ensures r.Ok? ==> r.value.enabledExtensions == InstanceSetup.RequiredExtensions(windowExtensions, hasValidationLayers)
    ensures r.Ok? ==> (r.value.enabledLayers == if hasValidationLayers then ValidationLayers else [])
    ensures r.Ok? ==> (r.value.debugChain == if hasValidationLayers then Some(DebugMessengerFilter) else None)
  {
    if hasValidationLayers {
      var supported := HasValidationLayerSupport(availableLayers);
      if !supported {
        return Err(ValidationLayersUnavailable);
      }
    }

    var extensions := GetRequiredExtensions(windowExtensions, hasValidationLayers);
    var createInfo := InstanceCreateInfo(FractalAppInfo, [], extensions, None);
    if hasValidationLayers {
      createInfo := createInfo.(enabledLayers := ValidationLayers, debugChain := Some(DebugMessengerFilter));
    } else {
      createInfo := createInfo.(enabledLayers := [], debugChain := None);
    }

    if !driverAccepts {
      return Err(InstanceCreationFailed);
    }
    return Ok(createInfo);
  }

  /** setupDebugMessenger: nothing to do without validation; otherwise a
      messenger with the shared filter, or an error when the extension
      function is missing or fails (`messengerCreated` stands for that call). */
  function SetupDebugMessenger(hasValidationLayers: bool, messengerCreated: bool)
    : (r: Result<Option<MessengerConfig>>)
    ensures !hasValidationLayers ==> r == Ok(None)
    ensures hasValidationLayers && messengerCreated ==> r == Ok(Some(DebugMessengerFilter))
    ensures hasValidationLayers && !messengerCreated ==> r == Err(DebugMessengerFailed)
  {
    if !hasValidationLayers then Ok(None)
    else if !messengerCreated then Err(DebugMessengerFailed)
    else Ok(Some(DebugMessengerFilter))
  }
}
