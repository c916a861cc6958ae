/**
 * The swapchain object: creation from the selected configuration, and the
 * teardown of the chain with every resource that depends on it.
 */
module Lifecycle {
  import opened Wrappers
  import opened Vk
  import opened Driver
  import opened Selection
  import opened Teardown

  /**
   * Why creation aborts: `.value()` on a queue family that was not found, or a
   * driver call that failed, with the message reported for that step and the
   * driver's result code.
   */
  datatype Error = BadOptionalAccess | CheckVkFailed(message: string, code: int)

  /** Both queue families were found. */
  predicate BothFamilies(indices: QueueFamilyIndices) {
    indices.graphicsFamily.Some? && indices.presentFamily.Some?
  }

  /**
   * A create-info record that carries the chosen format, present mode and
   * extent and the image count rule's result unchanged, shares its images
   * between two queue families exactly when they differ, and sets the fixed
   * members (colour-attachment usage, opaque compositing, clipping, no
   * predecessor chain). This fixes every member the component sets.
   */
  predicate CarriesChoices(
    info: CreateInfo, surface: Handle, format: SurfaceFormat, mode: PresentMode, extent: Extent2D,
    caps: SurfaceCapabilities, graphics: uint32, present: uint32, imageArrayLayers: uint32)
  {
    && info.surface == surface
    && info.minImageCount == ImageCount(caps)
    && info.imageFormat == format.format
    && info.imageColorSpace == format.colorSpace
    && info.imageExtent == extent
    && info.imageArrayLayers == imageArrayLayers
    && info.imageUsage == ImageUsageColorAttachmentBit
    && (graphics != present ==>
          && info.imageSharingMode == SharingConcurrent
          && info.queueFamilyIndexCount == 2
          && info.queueFamilyIndices == [graphics, present])
    && (graphics == present ==>
          && info.imageSharingMode == SharingExclusive
          && info.queueFamilyIndexCount == 0
          && info.queueFamilyIndices == [])
    && info.preTransform == caps.currentTransform
    && info.compositeAlpha == CompositeAlphaOpaqueBit
    && info.presentMode == mode
    && info.clipped
    && info.oldSwapchain == NullHandle
  }

  /**
   * Fills a zeroed create-info record member by member from the chosen
   * configuration. Both queue families are read (`.value()`) before they are
   * compared, so a missing one aborts.
   */
  method AssembleCreateInfo(
    surface: Handle, surfaceFormat: SurfaceFormat, presentMode: PresentMode, extent: Extent2D,
    caps: SurfaceCapabilities, indices: QueueFamilyIndices, imageArrayLayers: uint32)
    returns (r: Result<CreateInfo, Error>)
    ensures r.Failure? <==> !BothFamilies(indices)
    ensures r.Failure? ==> r.error == BadOptionalAccess
    ensures r.Success? ==>
      CarriesChoices(r.value, surface, surfaceFormat, presentMode, extent, caps,
                     indices.graphicsFamily.value, indices.presentFamily.value, imageArrayLayers)
  {
    var imgCount: uint32 := (caps.minImageCount + 1) % 0x1_0000_0000;
    if caps.maxImageCount > 0 && imgCount > caps.maxImageCount {
      imgCount := caps.maxImageCount;
    }

    var info := ZeroCreateInfo;
    info := info.(surface := surface);
    info := info.(minImageCount := imgCount);
    info := info.(imageFormat := surfaceFormat.format);
    info := info.(imageColorSpace := surfaceFormat.colorSpace);
    info := info.(imageExtent := extent);
    info := info.(imageArrayLayers := imageArrayLayers);
    info := info.(imageUsage := ImageUsageColorAttachmentBit);

    if indices.graphicsFamily.None? || indices.presentFamily.None? {
      return Failure(BadOptionalAccess);
    }
    var familyIndices := [indices.graphicsFamily.value, indices.presentFamily.value];
    if indices.graphicsFamily != indices.presentFamily {
      info := info.(imageSharingMode := SharingConcurrent);
      info := info.(queueFamilyIndexCount := 2);
      info := info.(queueFamilyIndices := familyIndices);
    } else {
      info := info.(imageSharingMode := SharingExclusive);
    }

    info := info.(preTransform := caps.currentTransform);
    info := info.(compositeAlpha := CompositeAlphaOpaqueBit);
    info := info.(presentMode := presentMode);
    info := info.(clipped := true);
    info := info.(oldSwapchain := NullHandle);
    return Success(info);
  }

  /**
   * The calls creation issues once the create-info record is built: the
   * create call, then, while the driver keeps succeeding, the count query and
   * the fill query.
   */
  function CreationCalls(info: CreateInfo, replies: Replies): seq<Call>
  {
    [CreateSwapchain(info)]
    + if replies.created.Failure? then []
      else
        [GetSwapchainImages(replies.created.value, false)]
        + if replies.imageCount.Failure? then [] else [GetSwapchainImages(replies.created.value, true)]
  }

  class Swapchain {
    /** The chain handle. */
    var chain: Handle
    /** The chain's images, as the driver lists them. */
    var simages: seq<Handle>
    /** The format of the chain's images. */
    var simageFormat: Format
    /** The extent of the chain's images. */
    var sextent: Extent2D

    /** An empty swapchain object that owns no chain. */
    constructor ()
      ensures chain == NullHandle && simages == []
      ensures simageFormat == FormatUndefined && sextent == Extent2D(0, 0)
    {
      chain := NullHandle;
      simages := [];
      simageFormat := FormatUndefined;
      sextent := Extent2D(0, 0);
    }

    /**
     * Creates a chain for the surface from the reported support details, the
     * queue families and the window's framebuffer size. The first failing step
     * aborts: a missing queue family before any driver call, then the create
     * call, the count query and the fill query. On success the object holds the
     * new chain, one image slot per image the count query reports (which may
     * differ from the count requested), filled with the handles the driver
     * writes, and the chosen format and extent.
     */
    static method Create(
      surface: Handle, details: SupportDetails, indices: QueueFamilyIndices, device: Device,
      replies: Replies, fbWidth: int32, fbHeight: int32, imageArrayLayers: uint32 := 1)
      returns (r: Result<Swapchain, Error>)
      requires |details.formats| > 0
      modifies device
      ensures r.Success? <==>
        BothFamilies(indices) && replies.created.Success? && replies.imageCount.Success? && replies.images.Success?
      ensures !BothFamilies(indices) ==> r == Failure(BadOptionalAccess) && device.calls == old(device.calls)
      ensures BothFamilies(indices) ==>
        exists info ::
          && CarriesChoices(
               info, surface, ChooseSwapSurfaceFormat(details.formats),
               ChooseSwapPresentMode(details.presentModes),
               ChooseSwapExtent(details.capabilities, fbWidth, fbHeight), details.capabilities,
               indices.graphicsFamily.value, indices.presentFamily.value, imageArrayLayers)
          && device.calls == old(device.calls) + CreationCalls(info, replies)
      ensures BothFamilies(indices) && replies.created.Failure? ==>
        r == Failure(CheckVkFailed("failed to create a swap chain", replies.created.error))
      ensures BothFamilies(indices) && replies.created.Success? && replies.imageCount.Failure? ==>
        r == Failure(CheckVkFailed("failed to reserve for swapchain images", replies.imageCount.error))
      ensures BothFamilies(indices) && replies.created.Success? && replies.imageCount.Success? && replies.images.Failure? ==>
        r == Failure(CheckVkFailed("failed to set swapchain images", replies.images.error))
      ensures r.Success? ==>
        var s := r.value;
        && fresh(s)
        && s.chain == replies.created.value
        && |s.simages| == replies.imageCount.value
        && (forall k :: 0 <= k < |s.simages| ==>
              s.simages[k] == if k < |replies.images.value| then replies.images.value[k] else NullHandle)
        && s.simageFormat == ChooseSwapSurfaceFormat(details.formats).format
        && s.sextent == ChooseSwapExtent(details.capabilities, fbWidth, fbHeight)
    {
      var caps := details.capabilities;
      var surfaceFormat := ChooseSwapSurfaceFormat(details.formats);
      var presentMode := ChooseSwapPresentMode(details.presentModes);
      var extent := ChooseSwapExtent(caps, fbWidth, fbHeight);

      var built := AssembleCreateInfo(surface, surfaceFormat, presentMode, extent, caps, indices, imageArrayLayers);
      if built.Failure? {
        return Failure(built.error);
      }
      var info := built.value;

      device.calls := device.calls + [CreateSwapchain(info)];
      if replies.created.Failure? {
        return Failure(CheckVkFailed("failed to create a swap chain", replies.created.error));
      }
      var s: Swapchain := new Swapchain();
      s.chain := replies.created.value;

      device.calls := device.calls + [GetSwapchainImages(s.chain, false)];
      if replies.imageCount.Failure? {
        return Failure(CheckVkFailed("failed to reserve for swapchain images", replies.imageCount.error));
      }
      var imgCount := replies.imageCount.value;
      s.simages := seq(imgCount, _ => NullHandle);

      device.calls := device.calls + [GetSwapchainImages(s.chain, true)];
      if replies.images.Failure? {
        return Failure(CheckVkFailed("failed to set swapchain images", replies.images.error));
      }
      var written := replies.images.value;
      var i := 0;
      while i < imgCount && i < |written|
        modifies s`simages
        invariant 0 <= i <= imgCount && i <= |written|
        invariant |s.simages| == imgCount
        invariant forall k :: 0 <= k < imgCount ==> s.simages[k] == if k < i then written[k] else NullHandle
      {
        s.simages := s.simages[i := written[i]];
        i := i + 1;
      }

      s.simageFormat := surfaceFormat.format;
      s.sextent := extent;
      return Success(s);
    }

    /**
     * Releases the chain and the resources that depend on it, issuing the
     * teardown order on the device. Neither the object nor the arguments
     * change: the handles are not cleared.
     */
    method Destroy(
      device: Device, commandPool: Handle, commandBuffers: seq<Handle>, framebuffers: seq<Handle>,
      renderPass: Handle, pipeline: Handle, pipelineLayout: Handle, imageViews: seq<Handle>)
      modifies device
      ensures unchanged(this)
      ensures device.calls == old(device.calls) + TeardownTrace(
        chain, Dependents(commandPool, commandBuffers, framebuffers, renderPass, pipeline, pipelineLayout, imageViews))
    {
      device.calls := device.calls + [FreeCommandBuffers(commandPool, commandBuffers)];
      ghost var afterFree := device.calls;

      var i := 0;
      while i < |framebuffers|
        invariant 0 <= i <= |framebuffers|
        invariant device.calls == afterFree + DestroyEach(FramebufferObject, framebuffers[..i])
      {
        assert framebuffers[..i + 1][..i] == framebuffers[..i];
        device.calls := device.calls + [DestroyObject(FramebufferObject, framebuffers[i])];
        i := i + 1;
      }
      assert framebuffers[..i] == framebuffers;

      device.calls := device.calls + [DestroyObject(PipelineObject, pipeline)];
      device.calls := device.calls + [DestroyObject(PipelineLayoutObject, pipelineLayout)];
      device.calls := device.calls + [DestroyObject(RenderPassObject, renderPass)];
      ghost var afterPass := device.calls;

      var j := 0;
      while j < |imageViews|
        invariant 0 <= j <= |imageViews|
        invariant device.calls == afterPass + DestroyEach(ImageViewObject, imageViews[..j])
      {
        assert imageViews[..j + 1][..j] == imageViews[..j];
        device.calls := device.calls + [DestroyObject(ImageViewObject, imageViews[j])];
        j := j + 1;
      }
      assert imageViews[..j] == imageViews;

      device.calls := device.calls + [DestroyObject(SwapchainObject, chain)];
    }
  }

  /**
   * Destroying twice with the same arguments issues the same teardown twice:
   * nothing records that the handles were already released.
   */
  method DestroyTwice(
    s: Swapchain, device: Device, commandPool: Handle, commandBuffers: seq<Handle>,
    framebuffers: seq<Handle>, renderPass: Handle, pipeline: Handle, pipelineLayout: Handle,
    imageViews: seq<Handle>)
    modifies device
    ensures
      var t := TeardownTrace(
        s.chain, Dependents(commandPool, commandBuffers, framebuffers, renderPass, pipeline, pipelineLayout, imageViews));
      device.calls == old(device.calls) + t + t
  {
    s.Destroy(device, commandPool, commandBuffers, framebuffers, renderPass, pipeline, pipelineLayout, imageViews);
    s.Destroy(device, commandPool, commandBuffers, framebuffers, renderPass, pipeline, pipelineLayout, imageViews);
  }
}
