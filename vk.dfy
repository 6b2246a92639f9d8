/** The Vulkan vocabulary the renderer works with: fixed-width integers,
    the enumeration values it compares against (numbered as in the Vulkan
    headers), the records that stand in for driver queries, and the error
    kinds the renderer raises as exceptions. */
module Vk {

  /** `uint32_t` */
  type u32 = x: int | 0 <= x < 0x1_0000_0000

  /** `int` as the windowing layer returns it (32 bits, signed) */
  type i32 = x: int | -0x8000_0000 <= x < 0x8000_0000

  /** `std::numeric_limits<uint32_t>::max()`, the "extent is decided by the
      swapchain" sentinel of `VkSurfaceCapabilitiesKHR::currentExtent` */
  const U32Max: u32 := 0xFFFF_FFFF

  /** Conversion of a signed 32-bit value to `uint32_t` (two's complement). */
  function ToU32(x: i32): (r: u32)
    ensures 0 <= x ==> r == x
    ensures x < 0 ==> r == x + 0x1_0000_0000
  {
    if x < 0 then x + 0x1_0000_0000 else x
  }

  // ---------------------------------------------------------------------
  // Errors: every `throw std::runtime_error` of the renderer, by kind

  datatype Error =
    | NoVulkanDevices                      // the driver enumerates no GPU
    | NoSuitableDevice                     // no GPU passes every check
    | LayersNotSupported                   // a required layer is missing
    | ExtensionNotSupported(name: string)  // first missing instance extension
    | WindowExtensionNotSupported(name: string)
    | ValidationLayersUnavailable
    | InstanceCreationFailed
    | DebugMessengerFailed
    | SurfaceCreationFailed
    | NoQueueFamily
    | NoMemoryType

  datatype Result<T> = Ok(value: T) | Err(error: Error)

  datatype Outcome = Pass | Fail(error: Error)

  // ---------------------------------------------------------------------
  // Versions

  /** `VK_MAKE_API_VERSION(variant, major, minor, patch)`: the fields packed
      at bits 29, 22, 12 and 0. */
  function MakeApiVersion(variant: nat, major: nat, minor: nat, patch: nat): nat
    requires variant < 8 && major < 128 && minor < 1024 && patch < 4096
  {
    variant * 0x2000_0000 + major * 0x40_0000 + minor * 0x1000 + patch
  }

  /** `vk::ApiVersion14` */
  const ApiVersion14: nat := MakeApiVersion(0, 1, 4, 0)

  /** `vk::makeVersion(0, 1, 0)`, the application and engine version */
  const AppVersion: nat := MakeApiVersion(0, 0, 1, 0)

  /** For variant 0, comparing packed versions compares (major, minor) first:
      a device passes `apiVersion >= vk::ApiVersion14` exactly when it
      reports Vulkan 1.4 or a later major/minor release. */
  lemma AtLeastApiVersion14(major: nat, minor: nat, patch: nat)
    requires major < 128 && minor < 1024 && patch < 4096
    ensures MakeApiVersion(0, major, minor, patch) >= ApiVersion14
            <==> major > 1 || (major == 1 && minor >= 4)
  {
    var v := MakeApiVersion(0, major, minor, patch);
    assert ApiVersion14 == 0x40_0000 + 4 * 0x1000;
    if major == 0 {
      assert v < 0x40_0000;
    } else if major == 1 {
      assert v == 0x40_0000 + minor * 0x1000 + patch;
      if minor < 4 {
        assert minor * 0x1000 <= 3 * 0x1000;
      } else {
        assert minor * 0x1000 >= 4 * 0x1000;
      }
    } else {
      assert major * 0x40_0000 >= 2 * 0x40_0000;
    }
  }

  // ---------------------------------------------------------------------
  // Enumerations reported by the driver (values as in vulkan_core.h)

  type Format = u32
  const FormatUndefined: Format := 0
  const FormatB8G8R8A8Srgb: Format := 50
  const FormatR32G32Sfloat: Format := 103
  const FormatR32G32B32Sfloat: Format := 106

  type ColorSpace = u32
  const ColorSpaceSrgbNonlinear: ColorSpace := 0

  type PresentMode = u32
  const PresentModeImmediate: PresentMode := 0
  const PresentModeMailbox: PresentMode := 1
  const PresentModeFifo: PresentMode := 2
  const PresentModeFifoRelaxed: PresentMode := 3

  /** A bitmask such as `VkQueueFlags` or `VkMemoryPropertyFlags` */
  type Flags = bv32
  const QueueGraphicsBit: Flags := 0x1
  const MemoryHostVisibleBit: Flags := 0x2
  const MemoryHostCoherentBit: Flags := 0x4

  // ---------------------------------------------------------------------
  // Records standing in for driver queries

  datatype SurfaceFormat = SurfaceFormat(format: Format, colorSpace: ColorSpace)

  datatype Extent2D = Extent2D(width: u32, height: u32)

  /** `VkSurfaceCapabilitiesKHR`, the fields the renderer reads */
  datatype SurfaceCapabilities = SurfaceCapabilities(
    minImageCount: u32,
    maxImageCount: u32,          // 0 means "no maximum"
    currentExtent: Extent2D,
    minImageExtent: Extent2D,
    maxImageExtent: Extent2D,
    currentTransform: Flags)

  datatype QueueFamily = QueueFamily(queueFlags: Flags)

  /** Everything the renderer asks of one physical device: its properties,
      queue families, extensions, and its answers about the one surface. */
  datatype PhysicalDevice = PhysicalDevice(
    apiVersion: u32,
    queueFamilies: seq<QueueFamily>,
    presentSupport: seq<bool>,              // getSurfaceSupportKHR per family
    extensions: seq<string>,
    surfaceCapabilities: SurfaceCapabilities,
    surfaceFormats: seq<SurfaceFormat>,
    presentModes: seq<PresentMode>,
    memoryTypes: seq<Flags>)                // propertyFlags per memory type

  /** What the Vulkan specification guarantees of the answers a driver gives
      for a surface it supports: one presentation answer per queue family,
      at most `VK_MAX_MEMORY_TYPES` memory types, at least one surface
      format, and an ordered extent range when the extent is left open. */
  ghost predicate WellFormed(d: PhysicalDevice) {
    && |d.presentSupport| == |d.queueFamilies|
    && |d.memoryTypes| <= 32
    && |d.surfaceFormats| > 0
    && (d.surfaceCapabilities.currentExtent.width == U32Max ==>
          && d.surfaceCapabilities.minImageExtent.width <= d.surfaceCapabilities.maxImageExtent.width
          && d.surfaceCapabilities.minImageExtent.height <= d.surfaceCapabilities.maxImageExtent.height)
  }

  // ---------------------------------------------------------------------
  // Names the renderer requires

  /** The one validation layer enabled in debug builds */
  const ValidationLayers: seq<string> := ["VK_LAYER_KHRONOS_validation"]

  /** `VK_EXT_DEBUG_UTILS_EXTENSION_NAME` */
  const DebugUtilsExtensionName: string := "VK_EXT_debug_utils"

  /** The device extensions every candidate GPU must offer */
  const RequiredDeviceExtensions: seq<string> :=
    ["VK_KHR_swapchain", "VK_KHR_spirv_1_4", "VK_KHR_synchronization2", "VK_KHR_create_renderpass2"]

  // ---------------------------------------------------------------------
  // Instance creation parameters

  datatype Severity = Verbose | Warning | ErrorSeverity
  datatype MessageType = General | Validation | Performance

  /** The filter a debug messenger is created with */
  datatype MessengerConfig = MessengerConfig(severities: set<Severity>, types: set<MessageType>)

  /** Verbose, warning and error messages of the general, validation and
      performance kinds; both source files use the same filter. */
  const DebugMessengerFilter: MessengerConfig :=
    MessengerConfig({Verbose, Warning, ErrorSeverity}, {General, Validation, Performance})

  /** `VkApplicationInfo` */
  datatype ApplicationInfo = ApplicationInfo(
    applicationName: string, applicationVersion: nat,
    engineName: string, engineVersion: nat, apiVersion: nat)

  const FractalAppInfo: ApplicationInfo :=
    ApplicationInfo("Fractal", AppVersion, "No Engine", AppVersion, ApiVersion14)

  /** `VkInstanceCreateInfo`: the enabled layers and extensions, and the debug
      messenger create-info chained through `pNext` (None for a null pNext). */
  datatype InstanceCreateInfo = InstanceCreateInfo(
    appInfo: ApplicationInfo,
    enabledLayers: seq<string>,
    enabledExtensions: seq<string>,
    debugChain: Option<MessengerConfig>)

  datatype Option<T> = None | Some(value: T)
}
