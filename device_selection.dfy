/** Physical-device selection (pickPhysicalDevice in
    lib/fractal/renderer/FTL_Renderer.cpp): the first device, in the order
    the driver enumerates them, that passes every check. */
module DeviceSelection {
  import opened Vk
  import Search
  import QueueFamilies

  /** The conjunction pickPhysicalDevice accumulates in `isValidDevice`:
      Vulkan 1.4 or later, a graphics-capable queue family, and every
      required device extension by exact name. */
  predicate Suitable(d: PhysicalDevice) {
    && d.apiVersion >= ApiVersion14
    && QueueFamilies.HasGraphicsFamily(d.queueFamilies)
    && Search.AllPresent(RequiredDeviceExtensions, d.extensions)
  }

  /** The index of the first suitable device, or the count when there is none */
  function FirstSuitable(devices: seq<PhysicalDevice>): (k: nat)
    ensures k <= |devices|
    ensures k < |devices| ==> Suitable(devices[k])
    ensures forall j :: 0 <= j < k ==> !Suitable(devices[j])
    ensures k == |devices| <==> forall d :: d in devices ==> !Suitable(d)
  {
    if |devices| == 0 then 0
    else if Suitable(devices[0]) then 0
    else 1 + FirstSuitable(devices[1..])
  }

  /** The selection as a value: the index of the first suitable device, an
      error for an empty list, and an error (never a default device) when no
      device qualifies. */
  function PickedDevice(devices: seq<PhysicalDevice>): (r: Result<nat>)
    ensures r == Err(NoVulkanDevices) <==> |devices| == 0
    ensures r.Ok? ==> r.value < |devices| && Suitable(devices[r.value])
    ensures r.Ok? || r == Err(NoVulkanDevices) || r == Err(NoSuitableDevice)
  {
    if |devices| == 0 then Err(NoVulkanDevices)
    else
      var k := FirstSuitable(devices);
      if k < |devices| then Ok(k) else Err(NoSuitableDevice)
  }

  /** The chosen device is the first suitable one, and no device is chosen
      only when none is suitable. */
  lemma PickedDeviceIsFirst(devices: seq<PhysicalDevice>)
    ensures var r := PickedDevice(devices);
            && (r.Ok? ==> forall j :: 0 <= j < r.value ==> !Suitable(devices[j]))
            && (r == Err(NoSuitableDevice) <==> |devices| > 0 && forall d :: d in devices ==> !Suitable(d))
  {
  }

  /** The scan of pickPhysicalDevice, with the per-device checks folded into
      `isValidDevice` one after another as the code does. */
  method FindSuitableDevice(devices: seq<PhysicalDevice>) returns (r: Result<nat>)
    ensures r == PickedDevice(devices)
  {
    if |devices| == 0 {
      return Err(NoVulkanDevices);
    }
    var i := 0;
    while i < |devices|
      invariant i <= |devices|
      invariant forall j :: 0 <= j < i ==> !Suitable(devices[j])
    {
      var device := devices[i];
      var isValidDevice := device.apiVersion >= ApiVersion14;
      var graphicsFamily := QueueFamilies.GetQueueFamilyIndex(device.queueFamilies);
      isValidDevice := isValidDevice && graphicsFamily != |device.queueFamilies|;

      var e := 0;
      while e < |RequiredDeviceExtensions|
        invariant e <= |RequiredDeviceExtensions|
        invariant isValidDevice == (
          && device.apiVersion >= ApiVersion14
          && QueueFamilies.HasGraphicsFamily(device.queueFamilies)
          && forall k :: 0 <= k < e ==> RequiredDeviceExtensions[k] in device.extensions)
      {
        var found := RequiredDeviceExtensions[e] in device.extensions;
        isValidDevice := isValidDevice && found;
        e := e + 1;
      }

      if isValidDevice {
        assert Suitable(device);
        return Ok(i);
      }
      i := i + 1;
    }
    return Err(NoSuitableDevice);
  }

  /** Selection depends only on the devices up to the chosen one: devices
      enumerated after it never change the choice. */
  lemma {:induction false} PickedDeviceIgnoresLaterDevices(devices: seq<PhysicalDevice>, more: seq<PhysicalDevice>)
    requires PickedDevice(devices).Ok?
    ensures PickedDevice(devices + more) == PickedDevice(devices)
  {
    FirstSuitableOfExtension(devices, more);
  }

  lemma {:induction false} FirstSuitableOfExtension(devices: seq<PhysicalDevice>, more: seq<PhysicalDevice>)
    requires FirstSuitable(devices) < |devices|
    ensures FirstSuitable(devices + more) == FirstSuitable(devices)
  {
    assert (devices + more)[0] == devices[0];
    if !Suitable(devices[0]) {
      assert (devices + more)[1..] == devices[1..] + more;
      FirstSuitableOfExtension(devices[1..], more);
    }
  }
}
