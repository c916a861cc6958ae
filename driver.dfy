/**
 * The graphics driver as seen by the swapchain component: the calls it issues
 * on the logical device, recorded in order, and the replies the driver gives.
 */
module Driver {
  import opened Wrappers
  import opened Vk

  /** The kind of object a destroy call releases. */
  datatype ObjectKind =
    | FramebufferObject
    | PipelineObject
    | PipelineLayoutObject
    | RenderPassObject
    | ImageViewObject
    | SwapchainObject
    | ImageObject

  /** One call issued on the logical device. */
  datatype Call =
    | CreateSwapchain(info: CreateInfo)                  // vkCreateSwapchainKHR
    | GetSwapchainImages(chain: Handle, fill: bool)      // vkGetSwapchainImagesKHR: count query, or fill
    | FreeCommandBuffers(pool: Handle, buffers: seq<Handle>)
    | DestroyObject(kind: ObjectKind, handle: Handle)    // vkDestroy<Kind>

  /** The logical device: the calls issued on it so far, oldest first. */
  class Device {
    var calls: seq<Call>

    constructor ()
      ensures calls == []
    {
      calls := [];
    }
  }

  /**
   * The driver's replies during swapchain creation: the new chain handle, the
   * image count of the count query, and the handles the fill query writes,
   * oldest first; each of them may instead be a failing `VkResult` code.
   */
  datatype Replies = Replies(
    created: Result<Handle, int>,
    imageCount: Result<uint32, int>,
    images: Result<seq<Handle>, int>)
}
