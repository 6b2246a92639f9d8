/** Instance capability checks of Renderer::createInstance
    (lib/fractal/renderer/FTL_Renderer.cpp): the layers and extensions the
    renderer requires, the checks against what the driver enumerates, and
    the create-info it builds when the checks pass. */
module InstanceSetup {
  import opened Vk
  import Search

  /** The windowing layer's extension names in their order, followed by the
      debug-utils extension exactly when validation is enabled. */
  function RequiredExtensions(windowExtensions: seq<string>, validation: bool): (r: seq<string>)
    ensures |r| == |windowExtensions| + (if validation then 1 else 0)
    ensures r[..|windowExtensions|] == windowExtensions
    ensures validation ==> r[|windowExtensions|] == DebugUtilsExtensionName
  {
    if validation then windowExtensions + [DebugUtilsExtensionName] else windowExtensions
  }

  /** The layers requested: the validation layer in debug builds, none otherwise. */
  function RequiredLayers(validation: bool): (r: seq<string>)
    ensures validation ==> r == ValidationLayers
    ensures !validation ==> r == []
  {
    if validation then ValidationLayers else []
  }

  /** The second pass over the windowing extensions, as written: its
      predicate is `strcmp(name, extension)` without `== 0`, i.e. "the names
      differ", so `none_of` fails the check only when every available name
      equals that window extension. The index of the first window extension
      it rejects, or the count when it rejects none. */
  function RecheckRejected(windowExtensions: seq<string>, availableExtensions: seq<string>): (k: nat)
    ensures k <= |windowExtensions|
    ensures k < |windowExtensions| ==> forall a :: a in availableExtensions ==> a == windowExtensions[k]
    ensures forall j :: 0 <= j < k ==> exists a :: a in availableExtensions && a != windowExtensions[j]
  {
    if |windowExtensions| == 0 then 0
    else if forall a :: a in availableExtensions ==> a == windowExtensions[0] then 0
    else 1 + RecheckRejected(windowExtensions[1..], availableExtensions)
  }

  /** The create-info Renderer::createInstance passes to the driver, or the
      exception it throws first: missing layers, then the first missing
      required extension, then the (inverted) windowing re-check. */
  function CreateInstanceInfo(validation: bool, availableLayers: seq<string>,
                              windowExtensions: seq<string>, availableExtensions: seq<string>)
    : (r: Result<InstanceCreateInfo>)
    ensures !Search.AllPresent(RequiredLayers(validation), availableLayers) ==> r == Err(LayersNotSupported)
    ensures Search.AllPresent(RequiredLayers(validation), availableLayers)
            && !Search.AllPresent(RequiredExtensions(windowExtensions, validation), availableExtensions) ==>
              var required := RequiredExtensions(windowExtensions, validation);
              exists k :: 0 <= k < |required| && required[k] !in availableExtensions
                          && (forall j :: 0 <= j < k ==> required[j] in availableExtensions)
                          && r == Err(ExtensionNotSupported(required[k]))
    ensures && Search.AllPresent(RequiredLayers(validation), availableLayers)
            && Search.AllPresent(RequiredExtensions(windowExtensions, validation), availableExtensions)
            && RecheckRejected(windowExtensions, availableExtensions) < |windowExtensions| ==>
              r == Err(WindowExtensionNotSupported(windowExtensions[RecheckRejected(windowExtensions, availableExtensions)]))
    ensures r.Ok? <==>
              && Search.AllPresent(RequiredLayers(validation), availableLayers)
              && Search.AllPresent(RequiredExtensions(windowExtensions, validation), availableExtensions)
              && RecheckRejected(windowExtensions, availableExtensions) == |windowExtensions|
    ensures r.Ok? ==> r.value == InstanceCreateInfo(FractalAppInfo, RequiredLayers(validation),
                                                    RequiredExtensions(windowExtensions, validation), None)
  {
    var layers := RequiredLayers(validation);
    var extensions := RequiredExtensions(windowExtensions, validation);
    var missing := Search.FirstMissing(extensions, availableExtensions);
    var rejected := RecheckRejected(windowExtensions, availableExtensions);
    if !Search.AllPresent(layers, availableLayers) then Err(LayersNotSupported)
    else if missing < |extensions| then Err(ExtensionNotSupported(extensions[missing]))
    else if rejected < |windowExtensions| then Err(WindowExtensionNotSupported(windowExtensions[rejected]))
    else Ok(InstanceCreateInfo(FractalAppInfo, layers, extensions, None))
  }

  /** The re-check can only reject when every extension the driver lists
      carries one and the same name. */
  lemma RecheckRejectsOnlyUniformLists(windowExtensions: seq<string>, availableExtensions: seq<string>)
    requires RecheckRejected(windowExtensions, availableExtensions) < |windowExtensions|
    ensures forall a, b :: a in availableExtensions && b in availableExtensions ==> a == b
  {
  }

  /** The inverted comparison rejects a driver that offers exactly the one
      extension the windowing layer needs, although the first check passed. */
  lemma RecheckRejectsSatisfiedRequirement()
    ensures var w := ["VK_KHR_surface"];
            && Search.AllPresent(RequiredExtensions(w, false), w)
            && CreateInstanceInfo(false, [], w, w) == Err(WindowExtensionNotSupported("VK_KHR_surface"))
  {
    var w := ["VK_KHR_surface"];
    assert RecheckRejected(w, w) == 0;
  }

  /** Any two available names that differ make the re-check pass, so with the
      usual two or more distinct instance extensions only the first check
      decides. */
  lemma RecheckPassesWithDistinctNames(windowExtensions: seq<string>, availableExtensions: seq<string>, a: string, b: string)
    requires a in availableExtensions && b in availableExtensions && a != b
    ensures RecheckRejected(windowExtensions, availableExtensions) == |windowExtensions|
  {
    if RecheckRejected(windowExtensions, availableExtensions) < |windowExtensions| {
      RecheckRejectsOnlyUniformLists(windowExtensions, availableExtensions);
    }
  }
}
