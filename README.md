# Fractal renderer: a Dafny model

Fractal is a small C++ application that draws a triangle with Vulkan. Its
renderer (`FTL::Renderer`) owns a chain of Vulkan handles. `init()` creates
them in twelve steps:

1. the instance, after the layer and extension checks;
2. the debug messenger;
3. the window surface;
4. the physical device;
5. the logical device and its queues;
6. the swapchain;
7. the image views;
8. the graphics pipeline;
9. the command pool;
10. the vertex buffer and its memory;
11. the command buffer;
12. the synchronisation objects.

Each `render()` then acquires a swapchain image and records one frame into
the command buffer. The frame has two layout barriers around a dynamic-rendering
pass that draws three vertices. `render()` submits the frame, waits on the
fence and presents. A second file, `FTL_VulkanCore.cpp`, holds free-standing
helpers: the validation-layer check, the required instance extensions, and
instance and debug-messenger creation.

The model follows the shape of the code:

- **Pure policy functions** are Dafny functions with contracts and lemmas:
  - swapchain negotiation (surface format, present mode, extent, image count);
  - queue-family lookup;
  - the device-suitability test;
  - the instance checks;
  - the vertex layout.
- **Loops** are methods with loop invariants, each proved against those
  functions:
  - `findMemoryType`;
  - the device scan of `pickPhysicalDevice`;
  - the queue-index resolution of `createLogicalDevice`, with its fallback
    loop exactly as written;
  - `createImageViews`;
  - `hasValidationLayerSupport`.
- **The `Renderer`** is a class. Its handle fields start null, and each init
  step is a method that sets its own fields. Each step is specified by a pure
  step function on a snapshot of the fields (`RendererHandles`). Each step
  function is proved to move the handles from the state "k steps done" to
  "k + 1 steps done" (`Consistent`). The class invariant `Valid()` is
  `Consistent(completed, Snap())`.
- **The commands** recorded for a frame are a trace. The layouts an image
  passes through are computed from that trace.

Driver answers are inputs to the model:

- enumerated layers, extensions and devices;
- queue families and per-family presentation support;
- surface capabilities, formats and present modes;
- memory types and the buffer's memory-type bits;
- swapchain images;
- the outcome of the creations the model treats as fallible.

The windowing layer's answers (required instance extensions, framebuffer
size) are inputs too.

### Behaviour as written (the model follows the code)

- **Image count.** `FTL_Renderer.cpp:476-480` starts from max(3, surface
  minimum). It then replaces that with the surface maximum whenever a
  maximum exists and the value exceeds the surface minimum. The comparison
  at line 478 is against the minimum. A clamp into the surface's range, as
  the extent code does with `std::clamp` at lines 92-96, would compare
  against the maximum. With minimum 2 and maximum 8 the code asks for 8
  images, not 3. `ImageCount` is the code; `ClampedImageCount` is the clamp;
  `ImageCountVersusClamped` and `WorkedNegotiation` say where they differ.
- **Present-family resolution.** In the fallback loop, line 391 overwrites
  the graphics test of line 388 with the presentation answer.
  `hasPresentSupport` is initialised to true at line 384 and never changes.
  The log texts at lines 400-402 ("the same indicies") and 407-409
  ("different indicies") show the two branches telling a shared family from
  a present-only one. As written, though, the loop always stops at family 0:
  - it yields (0, 0) when family 0 can present, and (g, 0) otherwise;
  - the error after the loop (lines 415-421) is unreachable
    (`ResolveQueueFamilies`, `ResolvedCapableIff`, `CombinedFamilyNotPreferred`);
  - in the (0, 0) case, the "graphics" queue belongs to a family without
    graphics support (`FramesUseGraphicsFamily`).
- **Presentation queue.** `mPresentQueue` is created at line 461, but nothing
  uses it. `render()` presents on `mGraphicsQueue` at line 773 (`Render`,
  `PresentGoesToGraphicsQueue`).
- **Present queue from an unrequested family.** The device is created with a
  single queue-create-info, for the graphics family (lines 440-451). Line 461
  still takes queue 0 of the present family. When neither the first graphics
  family g nor family 0 can present and g is not 0, the resolution yields
  (g, 0). The present queue then comes from a family the device never
  requested, which is invalid usage (`PresentFamilyNotRequested`,
  `CombinedFamilyNotPreferred`).
- **Windowing-extension re-check.** The predicate at lines 236-237 returns
  `strcmp(...)`, which is non-zero when the names differ. `none_of` therefore
  rejects a window extension only when every available extension has exactly
  that name (`RecheckRejected` and the lemmas after it).
- **Debug messenger.** `Renderer::setupDebugMessenger` (lines 264-281) has no
  validation guard. The free-standing `setupDebugMessenger` of
  `FTL_VulkanCore.cpp` returns early without validation (line 132).
  Without validation, the instance does not enable `VK_EXT_debug_utils`
  (lines 30-43), yet line 280 still calls `createDebugUtilsMessengerEXT`.
- **Chained messenger create-info.** In `FTL_VulkanCore.cpp`, `debugCreateInfo`
  is declared inside the `if` block at line 101. Its lifetime ends at
  line 105. `vkCreateInstance` reads `createInfo.pNext` at line 110, after
  that, so the pointer it follows dangles.
- **Empty format list.** `pickPhysicalDevice` (lines 311-349) never asks
  whether a device can present to the surface. `getSwapChainSurfaceFormat`
  returns `availableFormats[0]` at line 67 without checking that the list is
  non-empty.

## Model

| member | source | states |
|---|---|---|
| Vk.ToU32 | lib/fractal/renderer/FTL_Renderer.cpp:88-96 | the framebuffer `int` converted to `uint32_t` is unchanged when non-negative and wraps by 2^32 when negative |
| Vk.AtLeastApiVersion14 | lib/fractal/renderer/FTL_Renderer.cpp:315-316 | a packed version passes `>= vk::ApiVersion14` exactly when its major.minor is 1.4 or later |
| Search.FirstMissing | lib/fractal/renderer/FTL_Renderer.cpp:216-230 | the first required name with no equal available name: everything before it is available, it is not, and the whole list is present exactly when there is none |
| QueueFamilies.GetQueueFamilyIndex | lib/fractal/renderer/FTL_Renderer.cpp:45-56 | the index of the first family with the graphics bit; all earlier families lack it; the family count exactly when no family has it |
| QueueFamilies.ResolvedQueues | lib/fractal/renderer/FTL_Renderer.cpp:371-422 | both indices are family indices; (g, g) when the first graphics family g can present; otherwise the present index is 0 and the graphics index is 0 when family 0 can present, g when it cannot |
| QueueFamilies.ResolveQueueFamilies | lib/fractal/renderer/FTL_Renderer.cpp:356-422 | the two-pass index resolution as written never fails and returns `ResolvedQueues` |
| QueueFamilies.ResolvedCapableIff | lib/fractal/renderer/FTL_Renderer.cpp:381-421 | the resolved graphics index has graphics and the present index can present exactly when the first graphics family can present |
| QueueFamilies.ResolvedGraphicsPresentsIff | lib/fractal/renderer/FTL_Renderer.cpp:381-421 | the resolved graphics family can present exactly when the first graphics family or family 0 can |
| QueueFamilies.CombinedFamilyNotPreferred | lib/fractal/renderer/FTL_Renderer.cpp:387-412 | a device with a graphics+present family still gets two different families, the present one unable to present |
| SwapchainPolicy.FirstPreferred | lib/fractal/renderer/FTL_Renderer.cpp:60-65 | index of the first BGRA8-sRGB/non-linear format; every earlier format differs from it |
| SwapchainPolicy.ChooseSurfaceFormat | lib/fractal/renderer/FTL_Renderer.cpp:58-68 | the chosen format is one the surface reported; it is the preferred format when that is reported, else the first reported |
| SwapchainPolicy.ChoosePresentMode | lib/fractal/renderer/FTL_Renderer.cpp:70-79 | mailbox exactly when mailbox is offered, FIFO otherwise |
| SwapchainPolicy.Clamp | lib/fractal/renderer/FTL_Renderer.cpp:92-96 | `std::clamp`: the value when within bounds, else the bound it crossed |
| SwapchainPolicy.ChooseExtent | lib/fractal/renderer/FTL_Renderer.cpp:81-98 | the surface's current extent when its width is not the sentinel; otherwise the framebuffer size clamped per dimension into the surface's range |
| SwapchainPolicy.ImageCount | lib/fractal/renderer/FTL_Renderer.cpp:476-480 | the surface minimum when it is at least 3; the surface maximum when the minimum is below 3 and a maximum exists; 3 otherwise |
| SwapchainPolicy.ImageCountWithinLimits | lib/fractal/renderer/FTL_Renderer.cpp:476-480 | the requested count lies within the surface's [minimum, maximum] |
| SwapchainPolicy.ClampedImageCount | lib/fractal/renderer/FTL_Renderer.cpp:476-480 | the clamped reading of the rule: at least the minimum, at most the maximum, at least 3 unless capped by the maximum |
| SwapchainPolicy.ImageCountVersusClamped | lib/fractal/renderer/FTL_Renderer.cpp:476-480 | the rule as written agrees with the clamped reading exactly when not (minimum < 3 and maximum > 3) |
| SwapchainPolicy.WorkedNegotiation | lib/fractal/renderer/FTL_Renderer.cpp:58-98 | a 2..8-image surface gets 8 images, the preferred format listed second is chosen, FIFO is the fallback, a 1920x1080 framebuffer gives a 1920x1080 extent |
| DeviceSelection.FirstSuitable | lib/fractal/renderer/FTL_Renderer.cpp:311-349 | index of the first device passing every check; all earlier ones fail; the count exactly when none passes |
| DeviceSelection.PickedDevice | lib/fractal/renderer/FTL_Renderer.cpp:297-354 | an error for an empty list, a suitable device's index, or `NoSuitableDevice`; never another outcome |
| DeviceSelection.PickedDeviceIsFirst | lib/fractal/renderer/FTL_Renderer.cpp:311-353 | the chosen device is the first suitable one, and `NoSuitableDevice` arises exactly when devices exist and none is suitable |
| DeviceSelection.FindSuitableDevice | lib/fractal/renderer/FTL_Renderer.cpp:297-354 | the scan that folds the version, graphics-family and extension checks into `isValidDevice` returns `PickedDevice` |
| DeviceSelection.PickedDeviceIgnoresLaterDevices | lib/fractal/renderer/FTL_Renderer.cpp:342-348 | devices enumerated after the chosen one never change the choice |
| DeviceSelection.FirstSuitableOfExtension | lib/fractal/renderer/FTL_Renderer.cpp:311-349 | appending devices after a suitable one leaves the first suitable index unchanged |
| MemoryTypes.FindMemoryType | lib/fractal/renderer/FTL_Renderer.cpp:100-120 | the least memory-type index whose bit the filter allows and whose flags contain every requested property; `NoMemoryType` exactly when there is none |
| MemoryTypes.FirstMatchFrom | lib/fractal/renderer/FTL_Renderer.cpp:105-113 | the first index from i on that the filter allows and whose flags hold the properties; none before it in that range; the count when there is none |
| MemoryTypes.LeastMatch | lib/fractal/renderer/FTL_Renderer.cpp:100-120 | the count exactly when no type matches; otherwise the least matching index |
| MemoryTypes.LeastMatchUnique | lib/fractal/renderer/FTL_Renderer.cpp:100-120 | only one index is the least match, so `FindMemoryType` and `LeastMatch` agree |
| InstanceSetup.RequiredExtensions | lib/fractal/renderer/FTL_Renderer.cpp:30-43 | the window extensions in order, followed by the debug-utils name exactly when validation is enabled |
| InstanceSetup.RequiredLayers | lib/fractal/renderer/FTL_Renderer.cpp:183-186 | the validation layer with validation, no layer without |
| InstanceSetup.RecheckRejected | lib/fractal/renderer/FTL_Renderer.cpp:232-247 | the first window extension the inverted re-check rejects is one that every available name equals; each earlier one has an available name that differs |
| InstanceSetup.CreateInstanceInfo | lib/fractal/renderer/FTL_Renderer.cpp:164-262 | `LayersNotSupported` when a layer is missing; else the first missing required extension; else `WindowExtensionNotSupported` for the first window extension the re-check rejects; success exactly when all three pass, with the Fractal application info and the required layers and extensions |
| InstanceSetup.RecheckRejectsOnlyUniformLists | lib/fractal/renderer/FTL_Renderer.cpp:232-247 | the re-check rejects only when all available extension names are equal |
| InstanceSetup.RecheckRejectsSatisfiedRequirement | lib/fractal/renderer/FTL_Renderer.cpp:232-247 | a driver offering exactly the needed window extension passes the first check but is rejected by the re-check |
| InstanceSetup.RecheckPassesWithDistinctNames | lib/fractal/renderer/FTL_Renderer.cpp:232-247 | two distinct available names make the re-check pass |
| VulkanCore.HasValidationLayerSupport | lib/fractal/renderer/FTL_VulkanCore.cpp:32-54 | true exactly when every validation layer is among the available layers |
| VulkanCore.GetRequiredExtensions | lib/fractal/renderer/FTL_VulkanCore.cpp:56-69 | the window extensions followed by debug-utils with validation |
| VulkanCore.CreateInstance | lib/fractal/renderer/FTL_VulkanCore.cpp:71-114 | `ValidationLayersUnavailable` when validation lacks its layer; `InstanceCreationFailed` when the layer check passes and the driver refuses; success exactly when both pass; layers and the chained messenger filter only with validation |
| VulkanCore.SetupDebugMessenger | lib/fractal/renderer/FTL_VulkanCore.cpp:130-142 | no messenger without validation; with validation the shared filter, or `DebugMessengerFailed` when creation fails |
| VertexLayout.GetBindingDescription | lib/fractal/renderer/FTL_Vertex.h:8-14 | binding 0, per vertex, stride `sizeof(Vertex)` = 20 |
| VertexLayout.GetAttributeDescriptions | lib/fractal/renderer/FTL_Vertex.h:16-24 | location i reads member i from binding 0 at `offsetof` that member, in a format exactly as wide as the member |
| VertexLayout.OffsetsIncrease | lib/fractal/renderer/FTL_Vertex.h:8-10 | member offsets never decrease in declaration order |
| VertexLayout.AttributesDisjointWithinStride | lib/fractal/renderer/FTL_Vertex.h:8-24 | the attributes read disjoint byte ranges in location order, all inside one stride |
| Commands.FrameBarrierChain | lib/fractal/renderer/FTL_Renderer.cpp:674-727 | a frame holds exactly two barriers on its image: Undefined to ColorAttachmentOptimal, then ColorAttachmentOptimal to PresentSrc |
| Commands.TrackLayoutAppend | lib/fractal/renderer/FTL_Renderer.cpp:674-727 | the layouts of an image through two traces, one after the other, compose |
| Commands.FrameEndsPresentable | lib/fractal/renderer/FTL_Renderer.cpp:674-727 | from any starting layout, a frame uses its image correctly and leaves it in PresentSrc |
| Commands.FramesStayPresentable | lib/fractal/renderer/FTL_Renderer.cpp:740-774 | any number of frames in a row leave the image presentable |
| Commands.FrameShape | lib/fractal/renderer/FTL_Renderer.cpp:674-727 | begin first, end last, the 3-vertex draw inside the rendering pass, viewport, scissor and render area covering the swapchain extent |
| Commands.FrameCommands | lib/fractal/renderer/FTL_Renderer.cpp:674-727 | eleven commands from begin to end; every barrier is on the frame's image, the rendering pass writes the frame's view over the full extent, the draw is 3 vertices, 1 instance |
| Commands.BarriersAppend | lib/fractal/renderer/FTL_Renderer.cpp:776-804 | the barriers of two traces recorded one after the other are the first's followed by the second's |
| RendererHandles.VertexBufferSize | lib/fractal/renderer/FTL_Renderer.cpp:152-156 | three vertices of 20 bytes: 60 bytes |
| RendererHandles.InstanceCreated | lib/fractal/renderer/FTL_Renderer.cpp:249-261 | storing an instance with the Fractal application info takes consistent handles from 0 to 1 steps done |
| RendererHandles.MessengerSetUp | lib/fractal/renderer/FTL_Renderer.cpp:264-281 | storing the messenger with the shared filter takes the handles from 1 to 2 steps |
| RendererHandles.SurfaceCreated | lib/fractal/renderer/FTL_Renderer.cpp:283-295 | storing the surface takes the handles from 2 to 3 steps |
| RendererHandles.PhysicalDevicePicked | lib/fractal/renderer/FTL_Renderer.cpp:297-354 | storing a suitable device takes the handles from 3 to 4 steps |
| RendererHandles.LogicalDeviceCreated | lib/fractal/renderer/FTL_Renderer.cpp:356-463 | storing the resolved indices, a one-queue device on the graphics family with the required extensions, and queue 0 of each family takes the handles from 4 to 5 steps |
| RendererHandles.SwapchainCreateInfo | lib/fractal/renderer/FTL_Renderer.cpp:482-497 | the requested format is one the surface reported; mailbox exactly when offered, else FIFO; the image count within the surface's limits; the current extent when the surface defines it; the current transform |
| RendererHandles.SwapChainCreated | lib/fractal/renderer/FTL_Renderer.cpp:465-502 | storing the negotiated swapchain with matching format and extent copies takes the handles from 5 to 6 steps |
| RendererHandles.ImageViewsCreated | lib/fractal/renderer/FTL_Renderer.cpp:504-520 | storing one view per image, in order and format, takes the handles from 6 to 7 steps |
| RendererHandles.ViewsFor | lib/fractal/renderer/FTL_Renderer.cpp:504-520 | one view per image, in image order, all in the given format |
| RendererHandles.PipelineCreated | lib/fractal/renderer/FTL_Renderer.cpp:597-625 | storing an empty layout and a pipeline rendering in the swapchain format takes the handles from 7 to 8 steps |
| RendererHandles.CommandPoolCreated | lib/fractal/renderer/FTL_Renderer.cpp:630-636 | storing a resettable pool on the graphics family takes the handles from 8 to 9 steps |
| RendererHandles.VertexBufferCreated | lib/fractal/renderer/FTL_Renderer.cpp:638-644 | the buffer created before the memory search keeps the handles consistent with step 9 not done |
| RendererHandles.VertexMemoryAllocated | lib/fractal/renderer/FTL_Renderer.cpp:646-657 | memory of the least matching host-visible, host-coherent type takes the handles from 9 to 10 steps |
| RendererHandles.CommandBufferAllocated | lib/fractal/renderer/FTL_Renderer.cpp:664-672 | an empty primary command buffer takes the handles from 10 to 11 steps |
| RendererHandles.SyncObjectsCreated | lib/fractal/renderer/FTL_Renderer.cpp:729-738 | two semaphores and a signalled fence take the handles from 11 to 12 steps |
| RendererHandles.FrameRecorded | lib/fractal/renderer/FTL_Renderer.cpp:740-774 | recording a frame leaves a fully initialised renderer fully initialised |
| RendererHandles.FrameCalls | lib/fractal/renderer/FTL_Renderer.cpp:740-773 | six calls from acquire to present of the acquired index; record, reset, submit and wait each occur; the submit uses the given queue; the record precedes the fence reset, the reset precedes the submit, and the wait follows it |
| Renderer.Renderer.constructor | lib/fractal/renderer/FTL_Renderer.h:15-45 | every handle null, no views or images, format eUndefined, zero extent, no step done, queue indices unset |
| Renderer.Renderer.CreateInstance | lib/fractal/renderer/FTL_Renderer.cpp:164-262 | when the checks pass and the driver creates the instance, step 1 done with the instance `CreateInstanceInfo` gives; otherwise the check's error or `InstanceCreationFailed`, with nothing changed |
| Renderer.Renderer.SetupDebugMessenger | lib/fractal/renderer/FTL_Renderer.cpp:264-281 | the messenger with the shared filter whatever the build, or `DebugMessengerFailed` with nothing changed |
| Renderer.Renderer.CreateSurface | lib/fractal/renderer/FTL_Renderer.cpp:283-295 | the window's surface, or `SurfaceCreationFailed` with nothing changed |
| Renderer.Renderer.PickPhysicalDevice | lib/fractal/renderer/FTL_Renderer.cpp:297-354 | the device `PickedDevice` chooses, or its error with nothing changed |
| Renderer.Renderer.CreateLogicalDevice | lib/fractal/renderer/FTL_Renderer.cpp:356-463 | the indices are unset before this step and set by it to the resolved pair; the device and both queues follow them |
| Renderer.Renderer.CreateSwapChain | lib/fractal/renderer/FTL_Renderer.cpp:465-502 | swapchain, format and extent as negotiated from the chosen device's surface answers |
| Renderer.Renderer.CreateImageViews | lib/fractal/renderer/FTL_Renderer.cpp:504-520 | one view per swapchain image, in image order, in the swapchain format |
| Renderer.Renderer.CreateGraphicsPipeline | lib/fractal/renderer/FTL_Renderer.cpp:522-628 | an empty layout and a pipeline in the swapchain format with the vertex descriptors |
| Renderer.Renderer.CreateCommandPool | lib/fractal/renderer/FTL_Renderer.cpp:630-636 | a resettable pool on the graphics queue family |
| Renderer.Renderer.CreateVertexBuffer | lib/fractal/renderer/FTL_Renderer.cpp:638-662 | the buffer always exists afterwards; the step succeeds exactly when some memory type matches, else `NoMemoryType` with step 9 not done |
| Renderer.Renderer.AllocateVertexMemory | lib/fractal/renderer/FTL_Renderer.cpp:646-657 | memory of the least matching type, or `NoMemoryType` with nothing changed |
| Renderer.Renderer.CreateCommandBuffer | lib/fractal/renderer/FTL_Renderer.cpp:664-672 | one empty primary buffer |
| Renderer.Renderer.CreateSyncObjects | lib/fractal/renderer/FTL_Renderer.cpp:729-738 | two semaphores and a signalled fence |
| Renderer.Renderer.Init | lib/fractal/renderer/FTL_Renderer.h:73-87 | outcome, steps completed and handles are those of `InitSpec`, the twelve step functions in order stopping at the first that throws; success exactly when `InitSucceeds` (every fallible step succeeds) and exactly when all twelve completed; no frame call is recorded (the trace is unchanged) |
| Renderer.Renderer.InitSetup | lib/fractal/renderer/FTL_Renderer.h:75-78 | the first four calls of init leave the outcome, step count and handles of `SetupSteps` |
| Renderer.Renderer.InitSwapchain | lib/fractal/renderer/FTL_Renderer.h:79-83 | the next five calls take the handles from 4 to 9 steps as `SwapchainSteps` composes them |
| Renderer.Renderer.InitBuffers | lib/fractal/renderer/FTL_Renderer.h:84-86 | the last three calls leave the outcome, step count and handles of `BufferSteps`, and no frame call is recorded |
| Renderer.SetupSteps | lib/fractal/renderer/FTL_Renderer.h:75-78 | after the first four steps succeed, four steps are done and a well-formed device with a graphics family is held |
| Renderer.SwapchainSteps | lib/fractal/renderer/FTL_Renderer.h:79-83 | the swapchain steps keep the chosen device |
| Renderer.InitOutcome | lib/fractal/renderer/FTL_Renderer.h:73-87 | init succeeds exactly when `InitSucceeds`, exactly when twelve steps completed; a failure stops at a fallible step, and each step's failure, given the earlier ones passed, is reported with its own error and step count |
| Renderer.InitPassState | lib/fractal/renderer/FTL_Renderer.h:73-87 | when every fallible step succeeds, init succeeds and leaves the instance the checks built, the first suitable device, the driver's images with one view each in the negotiated format, the pipeline in that format, memory of the least matching type, a signalled fence |
| Renderer.InitKeepsConsistent | lib/fractal/renderer/FTL_Renderer.h:73-87 | from null handles, init leaves the handles as the steps it completed set them, whether it succeeds or not |
| Renderer.Renderer.TransitionImageLayout | lib/fractal/renderer/FTL_Renderer.cpp:776-804 | appends one barrier on the indexed swapchain image with the given layouts, accesses and stages |
| Renderer.Renderer.RecordCommandBuffer | lib/fractal/renderer/FTL_Renderer.cpp:674-727 | the command buffer holds exactly the frame for the indexed image, its view and the swapchain extent |
| Renderer.Renderer.Render | lib/fractal/renderer/FTL_Renderer.cpp:740-774 | records the frame for the acquired image; calls acquire, record, reset, submit, wait and present in that order, submitting and presenting on the graphics queue; the fence is signalled again and init's state is kept |
| Renderer.OwnsNothingIffNoStep | lib/fractal/renderer/FTL_Renderer.h:15-45 | a valid renderer holds no handle exactly when no init step has completed |
| Renderer.PipelineUsesNegotiatedFormat | lib/fractal/renderer/FTL_Renderer.cpp:603-605 | the pipeline's colour format is the swapchain's, which the surface reported; it is eUndefined only if the surface reported eUndefined |
| Renderer.FramesUseGraphicsFamily | lib/fractal/renderer/FTL_Renderer.cpp:630-636 | the pool shares the graphics queue's family, which supports graphics exactly when the first graphics family can present or family 0 cannot |
| Renderer.PresentFamilyNotRequested | lib/fractal/renderer/FTL_Renderer.cpp:440-461 | the device requests one queue of the graphics family; the present queue's family differs from it exactly when neither the first graphics family g nor family 0 can present and g is not 0 |
| Renderer.PresentGoesToGraphicsQueue | lib/fractal/renderer/FTL_Renderer.cpp:761-773 | submit and present both use the graphics queue, whose family can present exactly when the first graphics family or family 0 can |
| Renderer.RecordedFramePresentable | lib/fractal/renderer/FTL_Renderer.cpp:674-727 | for an initialised renderer and any acquired index, the recorded frame leaves the image in PresentSrc |

## Left out

- Shader loading (`readFile`, the shader module) and the fixed-function
  pipeline settings: file I/O and create-info content that no other part of
  the renderer reads.
- Create-info fields that only pass values through to the driver (feature
  chains, sharing modes, usage flags, subresource ranges, queue priority);
  only the values the rest of the renderer depends on are modelled.
- The GPU semantics of semaphores, fences and submission. `render()` is
  modelled as the order of its calls and the commands it records. The
  timeout loop around `waitForFences` is one wait.
- Floating point: the clear colour and viewport are reals; the vertex
  positions and colours are not modelled.
- Logging, profiling scopes, the window, `glfwInit`, the application
  plumbing, `shutdown`, `waitIdle` and the destructor.
- The `vkGetInstanceProcAddr` lookup in `CreateDebugUtilsMessengerEXT`: its
  success or failure is the `messengerCreated` input.
- Failures of the `vk::raii` constructors after the physical device is
  picked: device, swapchain, views, pipeline, pool, buffer, memory and sync
  objects are assumed created. The instance (line 260) and the messenger
  (line 280) come from `vk::raii` calls too. Their failure is the
  `instanceCreated` or `messengerCreated` input.
- Renderer.Renderer.SetupDebugMessenger: `messengerCreated` may be true in a
  build without validation. There the instance lacks `VK_EXT_debug_utils`,
  so the call at line 280 is invalid usage. The model does not tell that
  case apart from a valid call.
- VulkanCore.CreateInstance: `debugChain` records the messenger create-info
  that the code chains. Object lifetimes are not modelled, so the model does
  not capture that the chained struct no longer exists when
  `vkCreateInstance` reads it.
- RendererHandles.LogicalDeviceCreated: the present queue is recorded as
  an ordinary queue even when its family was not requested (see "Present
  queue from an unrequested family" above). The model does not flag that
  call as invalid usage; `PresentFamilyNotRequested` states when it happens.
- Vk.WellFormed: every device is assumed to report at least one surface
  format. Nothing in the renderer checks this (see "Empty format list"
  above), so the empty-list case of `getSwapChainSurfaceFormat` is not
  modelled.
- Renderer.Renderer.Init: the proof splits init into `InitSetup`,
  `InitSwapchain` and `InitBuffers`. `init()` makes the same twelve calls in
  one body.
- Swapchain recreation on resize: the code does not implement it.
- The vertex data copy (`mapMemory`, `memcpy`, `unmapMemory`) and
  `bindMemory`: effects on device memory.
- Renderer.Renderer.AllocateVertexMemory: the allocation size is the
  buffer size, not the driver's `memoryRequirements.size`, which may be
  rounded up.
- Renderer.Renderer.Render: the result of `acquireNextImage` and of
  `presentKHR` is not modelled; the acquired index is an input within the
  image count.
