# Swapchain configuration and lifecycle, modelled in Dafny

This project models the swapchain component of a small Vulkan renderer
(`include/swapchain.hpp`). The component does three things:

- It picks a configuration from what the surface reports: the surface format,
  the present mode, the image extent and the image count. This is done by the
  module `Selection`, as pure functions.
- It builds a `VkSwapchainCreateInfoKHR` record from that configuration,
  creates the chain and fetches its images. This is done by
  `Lifecycle.AssembleCreateInfo` and `Lifecycle.Swapchain.Create`.
- It tears down the chain together with every resource that depends on it,
  in a fixed order. This is done by `Lifecycle.Swapchain.Destroy`. The
  order itself is the function `Teardown.TeardownTrace`, and lemmas about it
  are in the module `Teardown`.

The graphics driver is not modelled. It appears only as the
`Driver.Device` class, whose `calls` field records every call issued on the
logical device, in order. It also appears as `Driver.Replies`, the values
the driver returns during creation: the new chain handle, the image count,
and the image handles. Each of these may instead be a failing result code.
Vulkan types are plain data in module `Vk`. `uint32_t` and C `int` are
bounded integer subset types. Handles are 64-bit values, with 0 standing for
`VK_NULL_HANDLE`. The format, colour-space and present-mode enumerations
have the constants the component names and their zero values. Each also has
one `Other…(code)` case, whose code is none of the named constants' codes.
`SharingMode` has just its two values.

Modules: `Wrappers` (Option, Result), `Vk`, `Driver`, `Selection`,
`Teardown`, `Lifecycle`.

## Where the intended behaviour and the code disagree

The model follows the code in both cases below.

- Extent clamp. Section "Window System Integration (WSI)" of the Vulkan
  specification defines a `VkSurfaceCapabilitiesKHR.currentExtent` width of
  2^32 - 1 to mean that the swapchain sets the surface size. The extent must
  then lie in [minImageExtent, maxImageExtent], so the intended rule clamps
  the framebuffer size, per axis, into that range. The code
  (`include/swapchain.hpp:153-160`) computes `max(min.w, min(min.w, w))`
  instead. That value is always `min.w`, so the chosen extent is always
  `minImageExtent` and `maxImageExtent` is never read.
  `Selection.ChooseSwapExtent` models the code as written.
  `Selection.IntendedExtent` is the intended clamp. The lemma
  `Selection.ExtentAsWrittenDiffersFromIntended` says the two agree only
  when the intended clamp yields the minimum extent anyway. It also says
  that any window size above the minimum and within the maximum, on either
  axis, makes them differ. `Selection.WindowedSurfaceScenario` takes a
  1920x1080 window, min (1, 1) and max (4096, 4096). The code gives (1, 1).
  The intended clamp gives (1920, 1080).
- Image count. The intended count is never below `minImageCount`, which is
  the least a valid `VkSwapchainCreateInfoKHR` may request.
  The code adds 1 in `uint32_t`, so a reported `minImageCount` of 2^32 - 1
  wraps the request to 0. `Selection.ImageCount` models the wrap. It
  promises the lower bound only when `minImageCount` is below 2^32 - 1 and
  the capabilities are consistent (`maxImageCount` is 0, or at least
  `minImageCount`).

## Model

| member | source | states |
|---|---|---|
| `Selection.FirstPreferred` | include/swapchain.hpp:121-128 | The search finds the first index, in list order, whose entry is (B8G8R8A8_SRGB, SRGB_NONLINEAR): every earlier entry is not that pair. When it finds nothing, no entry is that pair. |
| `Selection.ChooseSwapSurfaceFormat` | include/swapchain.hpp:118-130 | For a non-empty list, the result is always one of the listed entries. It is exactly the preferred pair whenever the list holds that pair, at any position. Otherwise it is the first entry. |
| `Selection.ChooseSwapPresentMode` | include/swapchain.hpp:131-140 | The result is MAILBOX if and only if MAILBOX is listed, and FIFO in every other case, including an empty list. |
| `Selection.ToUint32` | include/swapchain.hpp:150-152 | Converting the window's `int` size to `uint32_t` keeps the value modulo 2^32. |
| `Selection.ChooseSwapExtent` | include/swapchain.hpp:141-163 | If the current width is not 2^32 - 1, the result is the current extent, height included, whatever the window size. Otherwise the result is exactly `minImageExtent`, whatever the window size, and `maxImageExtent` plays no part. |
| `Selection.IntendedExtent` | include/swapchain.hpp:153-160 | The intended clamp. Under the sentinel, on each axis, a framebuffer size inside [min, max] is kept. A size below min becomes min. A size above max becomes max (when min <= max). The result always lies within [min, max] when min <= max. Without the sentinel, the current extent is used. |
| `Selection.ExtentAsWrittenDiffersFromIntended` | include/swapchain.hpp:153-160 | Under the sentinel, the code's extent equals the intended extent exactly when the intended extent is the minimum extent. A framebuffer width in (min.width, max.width], or height in (min.height, max.height], makes them differ. The intended clamp keeps that size; the code returns the minimum. |
| `Selection.ImageCount` | include/swapchain.hpp:49-55 | The count is minImageCount + 1, replaced by maxImageCount exactly when that maximum is nonzero and exceeded. It never exceeds a nonzero maximum. It is at least minImageCount for consistent capabilities. It is 0 when minImageCount is 2^32 - 1 (the wrap). |
| `Selection.WindowedSurfaceScenario` | include/swapchain.hpp:40-55 | For a surface listing (R8G8B8A8_SRGB, SRGB_NONLINEAR) and (B8G8R8A8_SRGB, SRGB_NONLINEAR), present modes FIFO and MAILBOX, 2 to 3 images, the sentinel current extent, min extent (1, 1), max extent (4096, 4096), and a 1920x1080 window, the choices are the preferred format, MAILBOX and 3 images. The extent is (1, 1) where the intended clamp gives (1920, 1080). |
| `Lifecycle.AssembleCreateInfo` | include/swapchain.hpp:49-98 | The result is an error exactly when a queue family is missing, since `.value()` is called on both. Otherwise the record carries the given format, colour space, extent, present mode and layer count unchanged. Its minImageCount is the image-count rule's result. Its preTransform is the current transform. It uses colour-attachment usage, opaque compositing, clipping and a null old swapchain. Sharing is CONCURRENT over [graphics, present] with count 2 exactly when the families differ. Otherwise it is EXCLUSIVE, with the index fields left at zero. |
| `Lifecycle.Swapchain.constructor` | include/swapchain.hpp:30 | The default object owns no chain and no images. |
| `Lifecycle.Swapchain.Create` | include/swapchain.hpp:31-117 | Creation succeeds exactly when both queue families exist and all three driver calls succeed. A missing family aborts before any driver call. Otherwise the device receives the create call with a record built from the selection rules, then, while calls keep succeeding, the count query and the fill query. The first failing call aborts with its message. On success the new object holds the created chain and one image slot per reported image, even where that differs from the requested count. The slots are filled with the driver's handles, in order, and any remainder is null. The object also holds the chosen format and extent. |
| `Lifecycle.Swapchain.Destroy` | include/swapchain.hpp:164-200 | The device receives exactly the teardown trace for the chain and the given resources. The object does not change: handles are not cleared. |
| `Lifecycle.DestroyTwice` | include/swapchain.hpp:164-200 | A second teardown with the same arguments issues the same trace again, because nothing records the earlier release. |
| `Teardown.DestroyEachAt` | include/swapchain.hpp:179-196 | A destroy loop issues one destroy per handle, in list order, and nothing else. |
| `Teardown.TeardownLayout` | include/swapchain.hpp:174-199 | A trace has 5 + #framebuffers + #image views calls. It frees the command buffers first. Then it destroys each framebuffer in list order, the pipeline, the pipeline layout and the render pass. Then it destroys each image view in list order, and the chain last. |
| `Teardown.TeardownOrdered` | include/swapchain.hpp:174-199 | Every call of a trace is one of the seven teardown steps, so no chain image is destroyed on its own. No call of a later step comes before a call of an earlier step. |
| `Teardown.ChainDestroyedLast` | include/swapchain.hpp:197-199 | The chain is destroyed exactly once, by the last call of the trace. |

## Left out

- The driver calls (`vkCreateSwapchainKHR`, `vkGetSwapchainImagesKHR`, `vkFreeCommandBuffers`, `vkDestroy*`) are not modelled. Each is a recorded call on `Driver.Device`, and its outcome is an input (`Driver.Replies`). What the driver does with a second destroy of an already released handle (undefined behaviour) is outside the model.
- `CHECK_VK` is defined in `debug.hpp`, which is not part of this model. A failing call becomes an error result, carrying the step's message and the result code, and creation aborts. Any logging or other effect of the macro is not modelled. All results other than success count as failure. `VK_INCOMPLETE` is not singled out.
- `SwapChainSupportDetails::querySwapChainSupport` and `QueuFamilyIndices::find_family_indices` live in headers that are not part of this model. Their results are inputs to `Create`. A failing support query is therefore not modelled.
- `glfwGetFramebufferSize` is window-system I/O. The framebuffer width and height are `int32` inputs, used only under the sentinel, and the result does not depend on them.
- `sType`, the pointer `pQueueFamilyIndices` to a stack array, and `pQueueFamilyIndices`/`queueFamilyIndexCount` as C storage are not modelled. The indices are a sequence in the record. Surface-capability members the component does not read are omitted.
- The count/fill idiom is modelled only through its effect on `simages`. Its length is the count query's answer, and the fill writes up to that many handles. The fill query's update of the local count is not modelled, since the code never reads it again.
- Lifecycle.Swapchain.Create: in the code this is a constructor, and a failing step aborts construction. `.value()` on a missing family throws `std::bad_optional_access`. How `CHECK_VK` aborts is not shown. Dafny constructors cannot fail, so the model is a static method that returns either a new object or an error. The chain handle written before a later failure is not observable in the model.
- Lifecycle.Swapchain.constructor: the code's default constructor leaves the handle, format and extent indeterminate. The model sets them to null, `FormatUndefined` and (0, 0).
- Selection.ChooseSwapSurfaceFormat: requires a non-empty list. On an empty list the code reads `availables[0]`, which is undefined behaviour, so there is no behaviour to model.
- The `Other…(code)` enumeration cases cover every enumerant code except the named ones. They do not check that a code is a value Vulkan defines.
- Frame-loop recreation, synchronisation and concurrency are not part of this component.
