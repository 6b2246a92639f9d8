/** What the handles of the Renderer (lib/fractal/renderer/FTL_Renderer.h)
    hold, the order the steps of `init()` set them in, and, step by step,
    what each group of handles holds before and after its step. Each handle
    holds the parameters the renderer decided for it. */
module RendererHandles {
  import opened Vk
  import opened Commands
  import SwapchainPolicy
  import QueueFamilies
  import DeviceSelection
  import MemoryTypes
  import VertexLayout
  import InstanceSetup

  /** The number of steps of `Renderer::init`. In order: createInstance (0),
      setupDebugMessenger (1), createSurface (2), pickPhysicalDevice (3),
      createLogicalDevice (4), createSwapChain (5), createImageViews (6),
      createGraphicsPipeline (7), createCommandPool (8), createVertexBuffer (9),
      createCommandBuffer (10), createSyncObjects (11). */
  const InitStepCount: nat := 12

  /** Whether step `k` of the init order can fail in a way `init` reports:
      the checks and the instance creation of createInstance (0), the
      creations the model treats as fallible, debug messenger (1) and
      surface (2), device selection (3), and the memory-type search of
      createVertexBuffer (9). */
  predicate Fallible(k: nat) {
    k <= 3 || k == 9
  }

  // ---------------------------------------------------------------------
  // What each handle holds

  /** The logical device: one queue create-info and the enabled extensions */
  datatype DeviceConfig = DeviceConfig(queueFamily: nat, queueCount: nat, extensions: seq<string>)

  /** `vk::raii::Queue(device, family, index)` */
  datatype Queue = Queue(family: nat, index: nat)

  /** The negotiated swapchain parameters */
  datatype SwapchainConfig = SwapchainConfig(
    minImageCount: u32, surfaceFormat: SurfaceFormat, extent: Extent2D,
    presentMode: PresentMode, preTransform: Flags)

  datatype PipelineLayoutConfig = PipelineLayoutConfig(setLayoutCount: nat, pushConstantRangeCount: nat)

  /** What the graphics pipeline depends on from the rest of the renderer:
      the colour attachment format of dynamic rendering and the vertex input */
  datatype PipelineConfig = PipelineConfig(
    colorFormat: Format,
    binding: VertexLayout.BindingDescription,
    attributes: seq<VertexLayout.AttributeDescription>)

  datatype CommandPoolConfig = CommandPoolConfig(queueFamily: nat, resetCommandBuffer: bool)

  datatype Semaphore = Semaphore

  datatype Fence = Fence(signaled: bool)

  /** The vertex buffer and the memory-type bits the driver reports for it */
  datatype Buffer = Buffer(size: nat, memoryTypeBits: Flags)

  datatype DeviceMemory = DeviceMemory(memoryTypeIndex: nat, size: nat)

  /** The three vertices of the triangle, `sizeof(Vertex)` bytes each */
  const VertexCount: nat := 3

  function VertexBufferSize(): (size: nat)
    ensures size == 60
  {
    VertexCount * VertexLayout.SizeOf(VertexLayout.VertexMembers)
  }

  /** `HostVisible | HostCoherent`, the properties the vertex memory needs */
  const VertexMemoryProperties: Flags := MemoryHostVisibleBit | MemoryHostCoherentBit

  /** The calls `render()` makes, in the order it makes them */
  datatype Call =
    | AcquireNextImage(imageIndex: nat)
    | RecordCommands(imageIndex: nat)
    | ResetFence
    | SubmitCommands(queue: Queue)
    | WaitForFence
    | PresentImage(queue: Queue, imageIndex: nat)

  /** One frame: acquire, record, reset the fence, submit on `queue`, wait
      for the fence, present on `queue`. */
  function FrameCalls(imageIndex: nat, queue: Queue): (calls: seq<Call>)
    ensures |calls| == 6
    ensures calls[0] == AcquireNextImage(imageIndex) && calls[|calls| - 1] == PresentImage(queue, imageIndex)
    ensures RecordCommands(imageIndex) in calls && ResetFence in calls
    ensures SubmitCommands(queue) in calls && WaitForFence in calls
    ensures forall i :: 0 <= i < |calls| && calls[i].SubmitCommands? ==> calls[i].queue == queue
    ensures forall i, j :: 0 <= i < |calls| && 0 <= j < |calls| && calls[i].RecordCommands? && calls[j] == ResetFence ==> i < j
    ensures forall i, j :: 0 <= i < |calls| && 0 <= j < |calls| && calls[i] == ResetFence && calls[j].SubmitCommands? ==> i < j
    ensures forall i, j :: 0 <= i < |calls| && 0 <= j < |calls| && calls[i].SubmitCommands? && calls[j] == WaitForFence ==> i < j
  {
    [AcquireNextImage(imageIndex), RecordCommands(imageIndex), ResetFence,
     SubmitCommands(queue), WaitForFence, PresentImage(queue, imageIndex)]
  }

  /** One 2D colour view per image, in image order, all in `format` */
  function ViewsFor(images: seq<Image>, format: Format): (views: seq<ImageView>)
    ensures ViewsOf(views, images, format)
  {
    if |images| == 0 then [] else [ImageView(images[0], format)] + ViewsFor(images[1..], format)
  }

  /** `views` holds one 2D colour view per image, in image order, all in `format` */
  predicate ViewsOf(views: seq<ImageView>, images: seq<Image>, format: Format) {
    && |views| == |images|
    && forall i :: 0 <= i < |views| ==> views[i] == ImageView(images[i], format)
  }

  /** The vertex memory was allocated from the lowest memory type the
      buffer allows that is host visible and host coherent. */
  ghost predicate VertexMemoryMatches(pd: PhysicalDevice, buffer: Buffer, memory: DeviceMemory) {
    && buffer.size == VertexBufferSize()
    && memory.size == VertexBufferSize()
    && MemoryTypes.IsLeastMatch(pd.memoryTypes, buffer.memoryTypeBits, VertexMemoryProperties, memory.memoryTypeIndex)
  }

  // ---------------------------------------------------------------------
  // Each step's handles, before the step (null) and after it

  /** createInstance: the instance, with the application's identity */
  ghost predicate InstanceState(done: bool, instance: Option<InstanceCreateInfo>) {
    && (instance.Some? <==> done)
    && (done ==> instance.value.appInfo == FractalAppInfo)
  }

  /** setupDebugMessenger: the messenger, with the shared filter */
  ghost predicate MessengerState(done: bool, debugMessenger: Option<MessengerConfig>) {
    && (debugMessenger.Some? <==> done)
    && (done ==> debugMessenger.value == DebugMessengerFilter)
  }

  /** createSurface: the surface of the window */
  ghost predicate SurfaceState(done: bool, surface: Option<nat>) {
    surface.Some? <==> done
  }

  /** pickPhysicalDevice: a suitable device that answers as the Vulkan
      specification requires */
  ghost predicate PhysicalDeviceState(done: bool, physicalDevice: Option<PhysicalDevice>) {
    && (physicalDevice.Some? <==> done)
    && (done ==> WellFormed(physicalDevice.value) && DeviceSelection.Suitable(physicalDevice.value))
  }

  /** createLogicalDevice: the two family indices it resolves, the device
      with one queue of the graphics family and the required extensions,
      and queue 0 of each family */
  ghost predicate LogicalDeviceState(done: bool, physicalDevice: Option<PhysicalDevice>,
                                     graphicsQueueIndex: Option<nat>, presentQueueIndex: Option<nat>,
                                     device: Option<DeviceConfig>,
                                     graphicsQueue: Option<Queue>, presentQueue: Option<Queue>) {
    && (device.Some? <==> done)
    && (graphicsQueueIndex.Some? <==> done) && (presentQueueIndex.Some? <==> done)
    && (graphicsQueue.Some? <==> done) && (presentQueue.Some? <==> done)
    && (done ==>
          && physicalDevice.Some? && WellFormed(physicalDevice.value)
          && QueueFamilies.HasGraphicsFamily(physicalDevice.value.queueFamilies)
          && var q := QueueFamilies.ResolvedQueues(physicalDevice.value.queueFamilies,
                                                   physicalDevice.value.presentSupport);
             && graphicsQueueIndex.value == q.graphics && presentQueueIndex.value == q.present
             && device.value == DeviceConfig(q.graphics, 1, RequiredDeviceExtensions)
             && graphicsQueue.value == Queue(q.graphics, 0)
             && presentQueue.value == Queue(q.present, 0))
  }

  /** createSwapChain: the negotiated format, present mode, image count and
      transform; the renderer's copies of format and extent agree with the
      swapchain. Before the step the format is eUndefined, the extent zero
      and there are no images. */
  ghost predicate SwapchainState(done: bool, physicalDevice: Option<PhysicalDevice>,
                                 swapChain: Option<SwapchainConfig>, format: Format, extent: Extent2D,
                                 images: seq<Image>) {
    && (swapChain.Some? <==> done)
    && (!done ==> format == FormatUndefined && extent == Extent2D(0, 0) && images == [])
    && (done ==>
          && physicalDevice.Some? && WellFormed(physicalDevice.value)
          && var pd := physicalDevice.value;
             && swapChain.value.surfaceFormat == SwapchainPolicy.ChooseSurfaceFormat(pd.surfaceFormats)
             && swapChain.value.presentMode == SwapchainPolicy.ChoosePresentMode(pd.presentModes)
             && swapChain.value.minImageCount == SwapchainPolicy.ImageCount(pd.surfaceCapabilities)
             && swapChain.value.preTransform == pd.surfaceCapabilities.currentTransform
             && format == swapChain.value.surfaceFormat.format
             && extent == swapChain.value.extent)
  }

  /** createImageViews: one view per swapchain image */
  ghost predicate ImageViewsState(done: bool, views: seq<ImageView>, images: seq<Image>, format: Format) {
    && (!done ==> views == [])
    && (done ==> ViewsOf(views, images, format))
  }

  /** createGraphicsPipeline: an empty layout, and a pipeline rendering in
      the swapchain format with the vertex layout's descriptors */
  ghost predicate PipelineState(done: bool, pipelineLayout: Option<PipelineLayoutConfig>,
                                graphicsPipeline: Option<PipelineConfig>, format: Format) {
    && (pipelineLayout.Some? <==> done) && (graphicsPipeline.Some? <==> done)
    && (done ==> pipelineLayout.value == PipelineLayoutConfig(0, 0))
    && (done ==> graphicsPipeline.value == PipelineConfig(format,
                   VertexLayout.GetBindingDescription(), VertexLayout.GetAttributeDescriptions()))
  }

  /** createCommandPool: resettable buffers on the graphics family */
  ghost predicate CommandPoolState(done: bool, commandPool: Option<CommandPoolConfig>,
                                   graphicsQueueIndex: Option<nat>) {
    && (commandPool.Some? <==> done)
    && (done ==> graphicsQueueIndex.Some?
                 && commandPool.value == CommandPoolConfig(graphicsQueueIndex.value, true))
  }

  /** createVertexBuffer: the buffer exists once the step has been attempted
      (it is created before the memory search that may throw); the memory
      exists once the step has completed. */
  ghost predicate VertexBufferState(attempted: bool, done: bool, physicalDevice: Option<PhysicalDevice>,
                                    vertexBuffer: Option<Buffer>, vertexBufferMemory: Option<DeviceMemory>) {
    && (vertexBuffer.Some? ==> attempted) && (done ==> vertexBuffer.Some?)
    && (vertexBufferMemory.Some? <==> done)
    && (done ==> physicalDevice.Some?
                 && VertexMemoryMatches(physicalDevice.value, vertexBuffer.value, vertexBufferMemory.value))
  }

  /** createCommandBuffer: the one primary command buffer */
  ghost predicate CommandBufferState(done: bool, commandBuffer: Option<seq<Command>>) {
    commandBuffer.Some? <==> done
  }

  /** createSyncObjects: two semaphores and a fence, which is signalled
      whenever no frame is in flight */
  ghost predicate SyncObjectsState(done: bool, presentComplete: Option<Semaphore>,
                                   renderFinished: Option<Semaphore>, fenceDraw: Option<Fence>) {
    && (presentComplete.Some? <==> done) && (renderFinished.Some? <==> done)
    && (fenceDraw.Some? <==> done)
    && (done ==> fenceDraw.value.signaled)
  }

  // ---------------------------------------------------------------------
  // The handles as one value, and what each step does to them

  /** The handle fields of the Renderer, in declaration order */
  datatype Handles = Handles(
    instance: Option<InstanceCreateInfo>,
    debugMessenger: Option<MessengerConfig>,
    surface: Option<nat>,
    physicalDevice: Option<PhysicalDevice>,
    device: Option<DeviceConfig>,
    graphicsQueue: Option<Queue>,
    graphicsQueueIndex: Option<nat>,
    presentQueue: Option<Queue>,
    presentQueueIndex: Option<nat>,
    swapChain: Option<SwapchainConfig>,
    swapChainFormat: Format,
    swapChainExtent: Extent2D,
    swapChainImages: seq<Image>,
    swapChainImageViews: seq<ImageView>,
    pipelineLayout: Option<PipelineLayoutConfig>,
    graphicsPipeline: Option<PipelineConfig>,
    commandPool: Option<CommandPoolConfig>,
    commandBuffer: Option<seq<Command>>,
    semaphorePresentComplete: Option<Semaphore>,
    semaphoreRenderFinished: Option<Semaphore>,
    fenceDraw: Option<Fence>,
    vertexBuffer: Option<Buffer>,
    vertexBufferMemory: Option<DeviceMemory>)

  /** The handles after the first `n` steps of init: each group is as its
      step leaves it once the step has run, and null before. The vertex
      buffer alone may exist while step 9 has not completed, because that
      step creates it before the memory search that may throw. */
  ghost predicate Consistent(n: nat, h: Handles) {
    && n <= InitStepCount
    && InstanceState(n > 0, h.instance)
    && MessengerState(n > 1, h.debugMessenger)
    && SurfaceState(n > 2, h.surface)
    && PhysicalDeviceState(n > 3, h.physicalDevice)
    && LogicalDeviceState(n > 4, h.physicalDevice, h.graphicsQueueIndex, h.presentQueueIndex,
                          h.device, h.graphicsQueue, h.presentQueue)
    && SwapchainState(n > 5, h.physicalDevice, h.swapChain, h.swapChainFormat, h.swapChainExtent,
                      h.swapChainImages)
    && ImageViewsState(n > 6, h.swapChainImageViews, h.swapChainImages, h.swapChainFormat)
    && PipelineState(n > 7, h.pipelineLayout, h.graphicsPipeline, h.swapChainFormat)
    && CommandPoolState(n > 8, h.commandPool, h.graphicsQueueIndex)
    && VertexBufferState(n >= 9, n > 9, h.physicalDevice, h.vertexBuffer, h.vertexBufferMemory)
    && CommandBufferState(n > 10, h.commandBuffer)
    && SyncObjectsState(n > 11, h.semaphorePresentComplete, h.semaphoreRenderFinished, h.fenceDraw)
  }

  /** createInstance stores the instance created from `info`. */
  function InstanceCreated(h: Handles, info: InstanceCreateInfo): (r: Handles)
    ensures Consistent(0, h) && info.appInfo == FractalAppInfo ==> Consistent(1, r)
  {
    h.(instance := Some(info))
  }

  /** setupDebugMessenger stores a messenger with the shared filter. */
  function MessengerSetUp(h: Handles): (r: Handles)
    ensures Consistent(1, h) ==> Consistent(2, r)
  {
    h.(debugMessenger := Some(DebugMessengerFilter))
  }

  /** createSurface stores the surface of `window`. */
  function SurfaceCreated(h: Handles, window: nat): (r: Handles)
    ensures Consistent(2, h) ==> Consistent(3, r)
  {
    h.(surface := Some(window))
  }

  /** pickPhysicalDevice stores the device it chose, which must be suitable. */
  function PhysicalDevicePicked(h: Handles, device: PhysicalDevice): (r: Handles)
    ensures Consistent(3, h) && WellFormed(device) && DeviceSelection.Suitable(device) ==> Consistent(4, r)
  {
    h.(physicalDevice := Some(device))
  }

  /** createLogicalDevice stores the two resolved family indices, the device
      with one queue of the graphics family and the required extensions, and
      queue 0 of each family. */
  function LogicalDeviceCreated(h: Handles): (r: Handles)
    requires h.physicalDevice.Some? && WellFormed(h.physicalDevice.value)
    requires QueueFamilies.HasGraphicsFamily(h.physicalDevice.value.queueFamilies)
    ensures Consistent(4, h) ==> Consistent(5, r)
  {
    var pd := h.physicalDevice.value;
    var q := QueueFamilies.ResolvedQueues(pd.queueFamilies, pd.presentSupport);
    h.(graphicsQueueIndex := Some(q.graphics), presentQueueIndex := Some(q.present),
       device := Some(DeviceConfig(q.graphics, 1, RequiredDeviceExtensions)),
       graphicsQueue := Some(Queue(q.graphics, 0)), presentQueue := Some(Queue(q.present, 0)))
  }

  /** The swapchain createSwapChain asks for: the negotiated format,
      extent, image count and present mode, and the surface's current
      transform. */
  function SwapchainCreateInfo(pd: PhysicalDevice, framebufferWidth: i32, framebufferHeight: i32)
    : (c: SwapchainConfig)
    requires WellFormed(pd)
    ensures c.surfaceFormat in pd.surfaceFormats
    ensures c.presentMode == PresentModeMailbox <==> PresentModeMailbox in pd.presentModes
    ensures c.presentMode != PresentModeMailbox ==> c.presentMode == PresentModeFifo
    ensures SwapchainPolicy.ImageCountRangeValid(pd.surfaceCapabilities) ==>
              && pd.surfaceCapabilities.minImageCount <= c.minImageCount
              && (pd.surfaceCapabilities.maxImageCount > 0 ==> c.minImageCount <= pd.surfaceCapabilities.maxImageCount)
    ensures !SwapchainPolicy.ExtentUndefined(pd.surfaceCapabilities) ==> c.extent == pd.surfaceCapabilities.currentExtent
    ensures c.preTransform == pd.surfaceCapabilities.currentTransform
  {
    var surfaceFormat := SwapchainPolicy.ChooseSurfaceFormat(pd.surfaceFormats);
    var extent := SwapchainPolicy.ChooseExtent(pd.surfaceCapabilities, framebufferWidth, framebufferHeight);
    SwapchainConfig(SwapchainPolicy.ImageCount(pd.surfaceCapabilities), surfaceFormat, extent,
                    SwapchainPolicy.ChoosePresentMode(pd.presentModes), pd.surfaceCapabilities.currentTransform)
  }

  /** createSwapChain stores the swapchain, its format and extent, and the
      images the driver created for it. */
  function SwapChainCreated(h: Handles, framebufferWidth: i32, framebufferHeight: i32, images: seq<Image>)
    : (r: Handles)
    requires h.physicalDevice.Some? && WellFormed(h.physicalDevice.value)
    ensures Consistent(5, h) ==> Consistent(6, r)
  {
    var config := SwapchainCreateInfo(h.physicalDevice.value, framebufferWidth, framebufferHeight);
    h.(swapChainFormat := config.surfaceFormat.format, swapChainExtent := config.extent,
       swapChain := Some(config), swapChainImages := images)
  }

  /** createImageViews stores `views`, which must be one view per image. */
  function ImageViewsCreated(h: Handles, views: seq<ImageView>): (r: Handles)
    ensures Consistent(6, h) && ViewsOf(views, h.swapChainImages, h.swapChainFormat) ==> Consistent(7, r)
  {
    h.(swapChainImageViews := views)
  }

  /** createGraphicsPipeline stores an empty layout and a pipeline in the
      swapchain format with the vertex descriptors. */
  function PipelineCreated(h: Handles): (r: Handles)
    ensures Consistent(7, h) ==> Consistent(8, r)
  {
    h.(pipelineLayout := Some(PipelineLayoutConfig(0, 0)),
       graphicsPipeline := Some(PipelineConfig(h.swapChainFormat, VertexLayout.GetBindingDescription(),
                                               VertexLayout.GetAttributeDescriptions())))
  }

  /** createCommandPool stores a pool of resettable buffers on the graphics family. */
  function CommandPoolCreated(h: Handles): (r: Handles)
    requires h.graphicsQueueIndex.Some?
    ensures Consistent(8, h) ==> Consistent(9, r)
  {
    h.(commandPool := Some(CommandPoolConfig(h.graphicsQueueIndex.value, true)))
  }

  /** createVertexBuffer first stores the buffer: the handles stay
      consistent with step 9 not completed, whatever the search then does. */
  function VertexBufferCreated(h: Handles, memoryTypeBits: Flags): (r: Handles)
    ensures Consistent(9, h) ==> Consistent(9, r)
  {
    h.(vertexBuffer := Some(Buffer(VertexBufferSize(), memoryTypeBits)))
  }

  /** ... then the memory of the memory type the search found, which must be
      the least type the buffer allows with the vertex properties. */
  function VertexMemoryAllocated(h: Handles, memoryTypeIndex: nat): (r: Handles)
    ensures && Consistent(9, h) && h.vertexBuffer.Some? && h.physicalDevice.Some?
            && h.vertexBuffer.value.size == VertexBufferSize()
            && MemoryTypes.IsLeastMatch(h.physicalDevice.value.memoryTypes, h.vertexBuffer.value.memoryTypeBits,
                                        VertexMemoryProperties, memoryTypeIndex)
            ==> Consistent(10, r)
  {
    h.(vertexBufferMemory := Some(DeviceMemory(memoryTypeIndex, VertexBufferSize())))
  }

  /** createCommandBuffer stores one primary buffer with nothing recorded. */
  function CommandBufferAllocated(h: Handles): (r: Handles)
    ensures Consistent(10, h) ==> Consistent(11, r)
  {
    h.(commandBuffer := Some([]))
  }

  /** createSyncObjects stores two semaphores and a signalled fence. */
  function SyncObjectsCreated(h: Handles): (r: Handles)
    ensures Consistent(11, h) ==> Consistent(12, r)
  {
    h.(semaphorePresentComplete := Some(Semaphore), semaphoreRenderFinished := Some(Semaphore),
       fenceDraw := Some(Fence(true)))
  }

  /** A frame records `cmds` into the command buffer; the fence is signalled
      again once the frame's wait returns, so init's work is left intact. */
  function FrameRecorded(h: Handles, cmds: seq<Command>): (r: Handles)
    ensures Consistent(12, h) ==> Consistent(12, r)
  {
    h.(commandBuffer := Some(cmds))
  }
}
