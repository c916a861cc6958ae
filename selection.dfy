/**
 * Configuration selection: the pure rules that pick the surface format, the
 * present mode, the image extent and the image count of a swapchain from what
 * the surface reports.
 */
module Selection {
  import opened Wrappers
  import opened Vk

  /** The pair the format rule looks for: 8-bit BGRA with sRGB encoding, sRGB non-linear colour space. */
  const PreferredFormat: SurfaceFormat := SurfaceFormat(FormatB8G8R8A8Srgb, ColorSpaceSrgbNonlinear)

  predicate IsPreferred(f: SurfaceFormat) {
    f.format == FormatB8G8R8A8Srgb && f.colorSpace == ColorSpaceSrgbNonlinear
  }

  /** The search loop of the format rule: the index of the first preferred entry, in list order. */
  function FirstPreferred(availables: seq<SurfaceFormat>): (r: Option<nat>)
    ensures r.Some? ==> r.value < |availables| && IsPreferred(availables[r.value])
    ensures r.Some? ==> forall j :: 0 <= j < r.value ==> !IsPreferred(availables[j])
    ensures r.None? ==> forall j :: 0 <= j < |availables| ==> !IsPreferred(availables[j])
  {
    if availables == [] then None
    else if IsPreferred(availables[0]) then Some(0)
    else
      match FirstPreferred(availables[1..])
      case Some(k) => Some(k + 1)
      case None => None
  }

  /**
   * The format rule: the preferred pair when the surface lists it, wherever it
   * stands in the list; otherwise the first listed entry. The list must not be
   * empty (the fallback reads its first entry).
   */
  function ChooseSwapSurfaceFormat(availables: seq<SurfaceFormat>): (r: SurfaceFormat)
    requires |availables| > 0
    ensures r in availables
    ensures (exists i :: 0 <= i < |availables| && IsPreferred(availables[i])) ==> r == PreferredFormat
    ensures (forall i :: 0 <= i < |availables| ==> !IsPreferred(availables[i])) ==> r == availables[0]
  {
    match FirstPreferred(availables)
    case Some(k) => availables[k]
    case None => availables[0]
  }

  /**
   * The present-mode rule: mailbox exactly when the surface lists it, FIFO
   * otherwise (also for an empty list); no other mode is ever chosen.
   */
  function ChooseSwapPresentMode(availables: seq<PresentMode>): (r: PresentMode)
    ensures r == PresentModeMailbox <==> PresentModeMailbox in availables
    ensures r != PresentModeMailbox ==> r == PresentModeFifo
  {
    if availables == [] then PresentModeFifo
    else if availables[0] == PresentModeMailbox then availables[0]
    else ChooseSwapPresentMode(availables[1..])
  }

  /** `static_cast<uint32_t>` of a C `int`: the value modulo 2^32. */
  function ToUint32(x: int32): (r: uint32)
    ensures r % 0x1_0000_0000 == x % 0x1_0000_0000
  {
    if x < 0 then x + 0x1_0000_0000 else x
  }

  /** `std::max` on `uint32_t`: the first argument unless it is less than the second. */
  function Max(a: uint32, b: uint32): (r: uint32)
    ensures r >= a && r >= b && (r == a || r == b)
  {
    if a < b then b else a
  }

  /** `std::min` on `uint32_t`: the first argument unless the second is less. */
  function Min(a: uint32, b: uint32): (r: uint32)
    ensures r <= a && r <= b && (r == a || r == b)
  {
    if b < a then b else a
  }

  /**
   * The extent rule as the component writes it. A surface whose current width
   * is not the sentinel dictates its current extent, height included, and the
   * window is not consulted. Otherwise the framebuffer size is "clamped" with
   * the minimum extent as both bounds, so the result is always the minimum
   * extent and the maximum extent is never read.
   */
  function ChooseSwapExtent(caps: SurfaceCapabilities, fbWidth: int32, fbHeight: int32): (r: Extent2D)
    ensures caps.currentExtent.width != Uint32Max ==> r == caps.currentExtent
    ensures caps.currentExtent.width == Uint32Max ==> r == caps.minImageExtent
  {
    if caps.currentExtent.width != Uint32Max then caps.currentExtent
    else
      var actual := Extent2D(ToUint32(fbWidth), ToUint32(fbHeight));
      var least := caps.minImageExtent;
      Extent2D(
        Max(least.width, Min(least.width, actual.width)),
        Max(least.height, Min(least.height, actual.height)))
  }

  /** A value clamped into [lo, hi]: kept when inside, raised to lo below it, lowered to hi above it. */
  function Clamp(x: uint32, lo: uint32, hi: uint32): (r: uint32)
    ensures lo <= hi ==> lo <= r <= hi
    ensures lo <= x <= hi ==> r == x
    ensures x < lo ==> r == lo
    ensures lo <= hi < x ==> r == hi
  {
    Max(lo, Min(hi, x))
  }

  /**
   * The extent rule the sentinel calls for: when the surface leaves its size
   * to the swapchain (`VkSurfaceCapabilitiesKHR`, chapter "Window System
   * Integration" of the Vulkan specification), the framebuffer size clamped
   * per axis into [minImageExtent, maxImageExtent]. A size inside the range is
   * kept, one below it becomes the minimum, one above it the maximum.
   */
  function IntendedExtent(caps: SurfaceCapabilities, fbWidth: int32, fbHeight: int32): (r: Extent2D)
    ensures caps.currentExtent.width != Uint32Max ==> r == caps.currentExtent
    ensures caps.currentExtent.width == Uint32Max && caps.minImageExtent.width <= caps.maxImageExtent.width ==>
      caps.minImageExtent.width <= r.width <= caps.maxImageExtent.width
    ensures caps.currentExtent.width == Uint32Max && caps.minImageExtent.height <= caps.maxImageExtent.height ==>
      caps.minImageExtent.height <= r.height <= caps.maxImageExtent.height
    ensures caps.currentExtent.width == Uint32Max ==>
      var w, lo, hi := ToUint32(fbWidth), caps.minImageExtent.width, caps.maxImageExtent.width;
      && (lo <= w <= hi ==> r.width == w)
      && (w < lo ==> r.width == lo)
      && (lo <= hi < w ==> r.width == hi)
    ensures caps.currentExtent.width == Uint32Max ==>
      var h, lo, hi := ToUint32(fbHeight), caps.minImageExtent.height, caps.maxImageExtent.height;
      && (lo <= h <= hi ==> r.height == h)
      && (h < lo ==> r.height == lo)
      && (lo <= hi < h ==> r.height == hi)
  {
    if caps.currentExtent.width != Uint32Max then caps.currentExtent
    else
      Extent2D(
        Clamp(ToUint32(fbWidth), caps.minImageExtent.width, caps.maxImageExtent.width),
        Clamp(ToUint32(fbHeight), caps.minImageExtent.height, caps.maxImageExtent.height))
  }

  /**
   * Under the sentinel, the extent as written agrees with the intended clamp
   * only when the clamped framebuffer size happens to be the minimum extent on
   * both axes. A window wider than the minimum width and no wider than the
   * maximum, or taller than the minimum height and no taller than the
   * maximum, tells them apart: the intended clamp keeps that size on that
   * axis, the code replaces it with the minimum.
   */
  lemma ExtentAsWrittenDiffersFromIntended(caps: SurfaceCapabilities, fbWidth: int32, fbHeight: int32)
    requires caps.currentExtent.width == Uint32Max
    ensures ChooseSwapExtent(caps, fbWidth, fbHeight) == IntendedExtent(caps, fbWidth, fbHeight) <==>
      IntendedExtent(caps, fbWidth, fbHeight) == caps.minImageExtent
    ensures caps.minImageExtent.width < ToUint32(fbWidth) <= caps.maxImageExtent.width ==>
      && IntendedExtent(caps, fbWidth, fbHeight).width == ToUint32(fbWidth)
      && ChooseSwapExtent(caps, fbWidth, fbHeight).width == caps.minImageExtent.width
      && ChooseSwapExtent(caps, fbWidth, fbHeight) != IntendedExtent(caps, fbWidth, fbHeight)
    ensures caps.minImageExtent.height < ToUint32(fbHeight) <= caps.maxImageExtent.height ==>
      && IntendedExtent(caps, fbWidth, fbHeight).height == ToUint32(fbHeight)
      && ChooseSwapExtent(caps, fbWidth, fbHeight).height == caps.minImageExtent.height
      && ChooseSwapExtent(caps, fbWidth, fbHeight) != IntendedExtent(caps, fbWidth, fbHeight)
  {
  }

  /**
   * The image-count rule: one more than the minimum, lowered to the maximum
   * when there is one (nonzero) and it is exceeded. The addition is done in
   * `uint32_t`, so a minimum of 2^32 - 1 wraps the request to 0.
   */
  function ImageCount(caps: SurfaceCapabilities): (r: uint32)
    ensures caps.maxImageCount > 0 ==> r <= caps.maxImageCount
    ensures caps.minImageCount < Uint32Max && (caps.maxImageCount == 0 || caps.minImageCount + 1 <= caps.maxImageCount) ==>
      r == caps.minImageCount + 1
    ensures caps.minImageCount < Uint32Max && 0 < caps.maxImageCount < caps.minImageCount + 1 ==>
      r == caps.maxImageCount
    ensures caps.minImageCount < Uint32Max && (caps.maxImageCount == 0 || caps.minImageCount <= caps.maxImageCount) ==>
      caps.minImageCount <= r
    ensures caps.minImageCount == Uint32Max ==> r == 0
  {
    var requested := (caps.minImageCount + 1) % 0x1_0000_0000;
    if caps.maxImageCount > 0 && requested > caps.maxImageCount then caps.maxImageCount else requested
  }

  /**
   * A surface that lists both formats and both present modes, allows two to
   * three images and leaves the size to the swapchain, seen from a 1920x1080
   * window: the preferred format, mailbox and three images are chosen, and the
   * extent is the minimum (1, 1) where the intended clamp gives (1920, 1080).
   */
  lemma WindowedSurfaceScenario()
    ensures
      var caps := SurfaceCapabilities(2, 3, Extent2D(Uint32Max, Uint32Max), Extent2D(1, 1), Extent2D(4096, 4096), 1);
      var formats := [SurfaceFormat(OtherFormat(43), ColorSpaceSrgbNonlinear), PreferredFormat];
      && ChooseSwapSurfaceFormat(formats) == PreferredFormat
      && ChooseSwapPresentMode([PresentModeFifo, PresentModeMailbox]) == PresentModeMailbox
      && ImageCount(caps) == 3
      && ChooseSwapExtent(caps, 1920, 1080) == Extent2D(1, 1)
      && IntendedExtent(caps, 1920, 1080) == Extent2D(1920, 1080)
  {
    var formats := [SurfaceFormat(OtherFormat(43), ColorSpaceSrgbNonlinear), PreferredFormat];
    assert IsPreferred(formats[1]);
  }
}
