/** Swapchain negotiation: how the renderer picks a surface format, a present
    mode, an image extent and an image count from what the surface reports
    (lib/fractal/renderer/FTL_Renderer.cpp, getSwapChainSurfaceFormat,
    getSwapChainPresentMode, getSwapChainExtent and createSwapChain). */
module SwapchainPolicy {
  import opened Vk

  /** 8-bit BGRA with the sRGB transfer function in the non-linear sRGB space */
  const PreferredFormat: SurfaceFormat := SurfaceFormat(FormatB8G8R8A8Srgb, ColorSpaceSrgbNonlinear)

  predicate IsPreferred(f: SurfaceFormat) {
    f.format == FormatB8G8R8A8Srgb && f.colorSpace == ColorSpaceSrgbNonlinear
  }

  /** The index of the first preferred format, or the count when there is none */
  function FirstPreferred(available: seq<SurfaceFormat>): (k: nat)
    ensures k <= |available|
    ensures k < |available| ==> IsPreferred(available[k])
    ensures forall j :: 0 <= j < k ==> !IsPreferred(available[j])
  {
    if |available| == 0 then 0
    else if IsPreferred(available[0]) then 0
    else 1 + FirstPreferred(available[1..])
  }

  /** The first available format that is the preferred one, else the first
      format reported. */
  function ChooseSurfaceFormat(available: seq<SurfaceFormat>): (r: SurfaceFormat)
    requires |available| > 0
    ensures r in available
    ensures PreferredFormat in available ==> r == PreferredFormat
    ensures PreferredFormat !in available ==> r == available[0]
  {
    var k := FirstPreferred(available);
    if k < |available| then available[k] else available[0]
  }

  /** Mailbox if the surface offers it, otherwise FIFO (whether or not FIFO
      is listed: the Vulkan specification requires every surface to support it). */
  function ChoosePresentMode(available: seq<PresentMode>): (r: PresentMode)
    ensures r == PresentModeMailbox <==> PresentModeMailbox in available
    ensures r != PresentModeMailbox ==> r == PresentModeFifo
  {
    if |available| == 0 then PresentModeFifo
    else if available[0] == PresentModeMailbox then available[0]
    else ChoosePresentMode(available[1..])
  }

  /** `r` is what `std::clamp(v, lo, hi)` returns: `v` when it lies in
      [lo, hi], otherwise the bound it passed. */
  predicate ClampedTo(v: u32, lo: u32, hi: u32, r: u32) {
    && lo <= r <= hi
    && (lo <= v <= hi ==> r == v)
    && (v < lo ==> r == lo)
    && (hi < v ==> r == hi)
  }

  /** `std::clamp<uint32_t>`; its precondition is `!(hi < lo)`. */
  function Clamp(v: u32, lo: u32, hi: u32): (r: u32)
    requires lo <= hi
    ensures ClampedTo(v, lo, hi, r)
  {
    if v < lo then lo else if hi < v then hi else v
  }

  /** Whether the surface leaves the extent to the swapchain. Only the width
      is compared with the sentinel. */
  predicate ExtentUndefined(caps: SurfaceCapabilities) {
    caps.currentExtent.width == U32Max
  }

  /** The surface's current extent when it is defined; otherwise the window's
      framebuffer size, converted to `uint32_t` and clamped into the
      surface's [min, max] extent in each dimension. */
  function ChooseExtent(caps: SurfaceCapabilities, framebufferWidth: i32, framebufferHeight: i32): (r: Extent2D)
    requires ExtentUndefined(caps) ==>
               && caps.minImageExtent.width <= caps.maxImageExtent.width
               && caps.minImageExtent.height <= caps.maxImageExtent.height
    ensures !ExtentUndefined(caps) ==> r == caps.currentExtent
    ensures ExtentUndefined(caps) ==>
              && ClampedTo(ToU32(framebufferWidth), caps.minImageExtent.width, caps.maxImageExtent.width, r.width)
              && ClampedTo(ToU32(framebufferHeight), caps.minImageExtent.height, caps.maxImageExtent.height, r.height)
  {
    if caps.currentExtent.width != U32Max then caps.currentExtent
    else Extent2D(
      Clamp(ToU32(framebufferWidth), caps.minImageExtent.width, caps.maxImageExtent.width),
      Clamp(ToU32(framebufferHeight), caps.minImageExtent.height, caps.maxImageExtent.height))
  }

  /** The image count createSwapChain requests, as written: start from
      max(3, minImageCount); when the surface has a maximum and that start
      exceeds the minimum, take the maximum instead. */
  function ImageCount(caps: SurfaceCapabilities): (r: u32)
    ensures caps.minImageCount >= 3 ==> r == caps.minImageCount
    ensures caps.minImageCount < 3 && caps.maxImageCount > 0 ==> r == caps.maxImageCount
    ensures caps.minImageCount < 3 && caps.maxImageCount == 0 ==> r == 3
  {
    var count := if 3 < caps.minImageCount then caps.minImageCount else 3;
    if caps.maxImageCount > 0 && count > caps.minImageCount then caps.maxImageCount else count
  }

  /** The Vulkan specification's promise about image counts: no maximum, or
      a maximum at least the minimum. */
  predicate ImageCountRangeValid(caps: SurfaceCapabilities) {
    caps.maxImageCount == 0 || caps.minImageCount <= caps.maxImageCount
  }

  /** The requested count always lies within what the surface allows. */
  lemma ImageCountWithinLimits(caps: SurfaceCapabilities)
    requires ImageCountRangeValid(caps)
    ensures caps.minImageCount <= ImageCount(caps)
    ensures caps.maxImageCount > 0 ==> ImageCount(caps) <= caps.maxImageCount
  {
  }

  /** An independent reading of the image-count rule: max(3, minimum),
      clamped down to the maximum when there is one. */
  function ClampedImageCount(caps: SurfaceCapabilities): (r: u32)
    requires ImageCountRangeValid(caps)
    ensures caps.minImageCount <= r
    ensures r >= 3 || (caps.maxImageCount > 0 && r == caps.maxImageCount)
    ensures caps.maxImageCount > 0 ==> r <= caps.maxImageCount
  {
    var count := if 3 < caps.minImageCount then caps.minImageCount else 3;
    if caps.maxImageCount > 0 && caps.maxImageCount < count then caps.maxImageCount else count
  }

  /** The rule as written agrees with the clamped reading except when the
      surface minimum is below 3 and its maximum above 3: there it asks for
      the maximum (minimum 2, maximum 8 gives 8, where the clamped reading
      gives 3). */
  lemma ImageCountVersusClamped(caps: SurfaceCapabilities)
    requires ImageCountRangeValid(caps)
    ensures ImageCount(caps) == ClampedImageCount(caps)
            <==> !(caps.minImageCount < 3 && caps.maxImageCount > 3)
  {
    if caps.minImageCount < 3 && caps.maxImageCount > 3 {
      assert ClampedImageCount(caps) == 3;
    }
  }

  /** A worked negotiation: minimum 2 and maximum 8 images, a linear RGBA
      format listed before the preferred one, FIFO as the only present mode,
      and a 1920x1080 framebuffer under an undefined current extent. */
  lemma WorkedNegotiation()
    ensures var caps := SurfaceCapabilities(2, 8, Extent2D(U32Max, U32Max),
                                            Extent2D(1, 1), Extent2D(4096, 4096), 1);
            && ImageCount(caps) == 8
            && ClampedImageCount(caps) == 3
            && ChooseSurfaceFormat([SurfaceFormat(37, ColorSpaceSrgbNonlinear), PreferredFormat]) == PreferredFormat
            && ChoosePresentMode([PresentModeFifo]) == PresentModeFifo
            && ChooseExtent(caps, 1920, 1080) == Extent2D(1920, 1080)
  {
    assert PreferredFormat in [SurfaceFormat(37, ColorSpaceSrgbNonlinear), PreferredFormat];
  }
}
