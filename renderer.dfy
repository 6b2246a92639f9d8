/** The Renderer object of lib/fractal/renderer/FTL_Renderer.h and
    FTL_Renderer.cpp: its handle fields, which start null and are set one by
    one by the twelve steps of `init()`, the per-frame recording into its
    command buffer, and the call order of `render()`. Driver queries and
    driver-created objects are inputs. */
module Renderer {
  import opened Vk
  import opened Commands
  import opened RendererHandles
  import SwapchainPolicy
  import QueueFamilies
  import DeviceSelection
  import MemoryTypes
  import VertexLayout
  import InstanceSetup

  /** The environment init runs in: the build's validation setting, what the
      loader, the windowing layer and the driver report, and the outcome of
      the creations the model treats as fallible. */
  datatype Environment = Environment(
    validation: bool,
    availableLayers: seq<string>,
    windowExtensions: seq<string>,
    availableExtensions: seq<string>,
    instanceCreated: bool,
    messengerCreated: bool,
    window: nat,
    surfaceCreated: bool,
    devices: seq<PhysicalDevice>,
    framebufferWidth: i32,
    framebufferHeight: i32,
    images: seq<Image>,
    vertexMemoryTypeBits: Flags)

  /** What init leaves behind: its outcome, how many steps completed, and
      the handles. */
  datatype InitRun = InitRun(outcome: Outcome, completed: nat, handles: Handles)

  /** init from the handles `h` in `env`: the setup steps, then, once a
      device is picked, the swapchain steps and the buffer steps. */
  function InitSpec(env: Environment, h: Handles): InitRun
    requires forall d :: d in env.devices ==> WellFormed(d)
  {
    var setup := SetupSteps(env, h);
    if setup.outcome.Fail? then setup
    else BufferSteps(env, SwapchainSteps(env, setup.handles))
  }

  /** Steps 0 to 3 (createInstance, setupDebugMessenger, createSurface,
      pickPhysicalDevice): each may throw, leaving the handles as the steps
      before it set them. */
  function SetupSteps(env: Environment, h: Handles): (run: InitRun)
    requires forall d :: d in env.devices ==> WellFormed(d)
    ensures run.outcome.Pass? ==>
              && run.completed == 4 && run.handles.physicalDevice.Some?
              && WellFormed(run.handles.physicalDevice.value)
              && QueueFamilies.HasGraphicsFamily(run.handles.physicalDevice.value.queueFamilies)
  {
    var info := InstanceSetup.CreateInstanceInfo(env.validation, env.availableLayers,
                                                 env.windowExtensions, env.availableExtensions);
    if info.Err? then InitRun(Fail(info.error), 0, h)
    else if !env.instanceCreated then InitRun(Fail(InstanceCreationFailed), 0, h)
    else
      var h1 := InstanceCreated(h, info.value);
      if !env.messengerCreated then InitRun(Fail(DebugMessengerFailed), 1, h1)
      else
        var h2 := MessengerSetUp(h1);
        if !env.surfaceCreated then InitRun(Fail(SurfaceCreationFailed), 2, h2)
        else
          var h3 := SurfaceCreated(h2, env.window);
          var pick := DeviceSelection.PickedDevice(env.devices);
          if pick.Err? then InitRun(Fail(pick.error), 3, h3)
          else
            assert env.devices[pick.value] in env.devices;
            InitRun(Pass, 4, PhysicalDevicePicked(h3, env.devices[pick.value]))
  }

  /** Steps 4 to 8 (createLogicalDevice, createSwapChain, createImageViews,
      createGraphicsPipeline, createCommandPool), none of which throws. */
  function SwapchainSteps(env: Environment, h: Handles): (r: Handles)
    requires h.physicalDevice.Some? && WellFormed(h.physicalDevice.value)
    requires QueueFamilies.HasGraphicsFamily(h.physicalDevice.value.queueFamilies)
    ensures r.physicalDevice == h.physicalDevice
  {
    var h5 := LogicalDeviceCreated(h);
    var h6 := SwapChainCreated(h5, env.framebufferWidth, env.framebufferHeight, env.images);
    var h7 := ImageViewsCreated(h6, ViewsFor(h6.swapChainImages, h6.swapChainFormat));
    CommandPoolCreated(PipelineCreated(h7))
  }

  /** Steps 9 to 11 (createVertexBuffer, createCommandBuffer,
      createSyncObjects): the memory search of step 9 may throw after the
      buffer is created. */
  function BufferSteps(env: Environment, h: Handles): InitRun
    requires h.physicalDevice.Some?
  {
    var hb := VertexBufferCreated(h, env.vertexMemoryTypeBits);
    var memoryTypes := h.physicalDevice.value.memoryTypes;
    var k := MemoryTypes.LeastMatch(memoryTypes, env.vertexMemoryTypeBits, VertexMemoryProperties);
    if k == |memoryTypes| then InitRun(Fail(NoMemoryType), 9, hb)
    else InitRun(Pass, 12, SyncObjectsCreated(CommandBufferAllocated(VertexMemoryAllocated(hb, k))))
  }

  /** Every step of init that can throw succeeds in `env`: the layer and
      extension checks pass and the driver creates the instance, the
      messenger and the surface, a suitable device exists, and the vertex
      buffer admits a host-visible, host-coherent memory type of that
      device. */
  predicate InitSucceeds(env: Environment) {
    && InstanceSetup.CreateInstanceInfo(env.validation, env.availableLayers,
                                        env.windowExtensions, env.availableExtensions).Ok?
    && env.instanceCreated && env.messengerCreated && env.surfaceCreated
    && var pick := DeviceSelection.PickedDevice(env.devices);
       && pick.Ok?
       && MemoryTypes.AnyMatches(env.devices[pick.value].memoryTypes, env.vertexMemoryTypeBits,
                                 VertexMemoryProperties)
  }

  /** init succeeds exactly when all its fallible steps do; otherwise it
      reports the error of the first step that throws, and has completed
      exactly the steps before it. */
  lemma InitOutcome(env: Environment, h: Handles)
    requires forall d :: d in env.devices ==> WellFormed(d)
    ensures var info := InstanceSetup.CreateInstanceInfo(env.validation, env.availableLayers,
                                                         env.windowExtensions, env.availableExtensions);
            var pick := DeviceSelection.PickedDevice(env.devices);
            var run := InitSpec(env, h);
            && (run.outcome.Pass? <==> InitSucceeds(env))
            && (run.outcome.Pass? <==> run.completed == InitStepCount)
            && (run.outcome.Fail? ==> Fallible(run.completed))
            && (info.Err? ==> run == InitRun(Fail(info.error), 0, h))
            && (info.Ok? && !env.instanceCreated ==> run == InitRun(Fail(InstanceCreationFailed), 0, h))
            && (info.Ok? && env.instanceCreated && !env.messengerCreated ==>
                  run.outcome == Fail(DebugMessengerFailed) && run.completed == 1)
            && (info.Ok? && env.instanceCreated && env.messengerCreated && !env.surfaceCreated ==>
                  run.outcome == Fail(SurfaceCreationFailed) && run.completed == 2)
            && (info.Ok? && env.instanceCreated && env.messengerCreated && env.surfaceCreated && pick.Err? ==>
                  run.outcome == Fail(pick.error) && run.completed == 3)
            && (run.outcome.Fail? && run.completed == 9 ==> run.outcome == Fail(NoMemoryType))
  {
  }

  /** After a successful init the renderer holds the instance the checks
      built, the first suitable device, the driver's images with one view
      each in the negotiated format, a pipeline drawing in that format,
      memory of the least matching type, and a signalled fence. */
  lemma InitPassState(env: Environment, h: Handles)
    requires forall d :: d in env.devices ==> WellFormed(d)
    requires InitSucceeds(env)
    ensures InitSpec(env, h).outcome.Pass?
    ensures var info := InstanceSetup.CreateInstanceInfo(env.validation, env.availableLayers,
                                                         env.windowExtensions, env.availableExtensions);
            var pick := DeviceSelection.PickedDevice(env.devices);
            var r := InitSpec(env, h).handles;
            && info.Ok? && pick.Ok? && env.devices[pick.value] in env.devices
            && var pd := env.devices[pick.value];
               var format := SwapchainPolicy.ChooseSurfaceFormat(pd.surfaceFormats).format;
               && r.instance == Some(info.value)
               && r.physicalDevice == Some(pd)
               && r.swapChainImages == env.images
               && r.swapChainFormat == format
               && r.swapChainImageViews == ViewsFor(env.images, format)
               && r.graphicsPipeline.Some? && r.graphicsPipeline.value.colorFormat == format
               && r.vertexBufferMemory == Some(DeviceMemory(MemoryTypes.LeastMatch(pd.memoryTypes,
                    env.vertexMemoryTypeBits, VertexMemoryProperties), VertexBufferSize()))
               && r.fenceDraw == Some(Fence(true))
  {
    InitOutcome(env, h);
  }

  /** From null handles, init leaves the handles as the steps it
      completed set them, whether it succeeds or not. */
  lemma InitKeepsConsistent(env: Environment, h: Handles)
    requires forall d :: d in env.devices ==> WellFormed(d)
    requires Consistent(0, h)
    ensures Consistent(InitSpec(env, h).completed, InitSpec(env, h).handles)
  {
  }

  class Renderer {
    var instance: Option<InstanceCreateInfo>
    var debugMessenger: Option<MessengerConfig>
    var surface: Option<nat>
    var physicalDevice: Option<PhysicalDevice>
    var device: Option<DeviceConfig>
    var graphicsQueue: Option<Queue>
    /** Left uninitialised by the constructor; None until set */
    var graphicsQueueIndex: Option<nat>
    var presentQueue: Option<Queue>
    /** Left uninitialised by the constructor; None until set */
    var presentQueueIndex: Option<nat>
    var swapChain: Option<SwapchainConfig>
    var swapChainFormat: Format
    var swapChainExtent: Extent2D
    var swapChainImages: seq<Image>
    var swapChainImageViews: seq<ImageView>
    var pipelineLayout: Option<PipelineLayoutConfig>
    var graphicsPipeline: Option<PipelineConfig>
    var commandPool: Option<CommandPoolConfig>
    /** The allocated command buffer and the commands recorded into it */
    var commandBuffer: Option<seq<Command>>
    var semaphorePresentComplete: Option<Semaphore>
    var semaphoreRenderFinished: Option<Semaphore>
    var fenceDraw: Option<Fence>
    var vertexBuffer: Option<Buffer>
    var vertexBufferMemory: Option<DeviceMemory>
    /** The calls render() has made so far */
    var trace: seq<Call>
    /** How many steps of init have completed */
    ghost var completed: nat

    /** The handle fields as one value */
    ghost function Snap(): Handles
      reads this
    {
      Handles(instance, debugMessenger, surface, physicalDevice, device,
              graphicsQueue, graphicsQueueIndex, presentQueue, presentQueueIndex,
              swapChain, swapChainFormat, swapChainExtent, swapChainImages, swapChainImageViews,
              pipelineLayout, graphicsPipeline, commandPool, commandBuffer,
              semaphorePresentComplete, semaphoreRenderFinished, fenceDraw,
              vertexBuffer, vertexBufferMemory)
    }

    /** Every `vk::raii` handle field is null and there are no views */
    predicate AllHandlesNull()
      reads this
    {
      && instance.None? && debugMessenger.None? && surface.None?
      && physicalDevice.None? && device.None?
      && graphicsQueue.None? && presentQueue.None? && swapChain.None?
      && swapChainImageViews == []
      && pipelineLayout.None? && graphicsPipeline.None?
      && commandPool.None? && commandBuffer.None?
      && semaphorePresentComplete.None? && semaphoreRenderFinished.None? && fenceDraw.None?
      && vertexBuffer.None? && vertexBufferMemory.None?
    }

    /** The handles are as the completed steps of init leave them, and no
        frame is rendered before init completes. */
    ghost predicate Valid()
      reads this
    {
      && Consistent(completed, Snap())
      && (completed < InitStepCount ==> trace == [])
    }

    /** `Renderer::Renderer() {}`: every handle starts null, the format
        eUndefined, the extent zero. */
    constructor()
      ensures Valid() && completed == 0
      ensures AllHandlesNull() && graphicsQueueIndex.None? && presentQueueIndex.None?
      ensures swapChainFormat == FormatUndefined && swapChainExtent == Extent2D(0, 0)
      ensures swapChainImages == [] && trace == []
    {
      instance := None;
      debugMessenger := None;
      surface := None;
      physicalDevice := None;
      device := None;
      graphicsQueue := None;
      graphicsQueueIndex := None;
      presentQueue := None;
      presentQueueIndex := None;
      swapChain := None;
      swapChainFormat := FormatUndefined;
      swapChainExtent := Extent2D(0, 0);
      swapChainImages := [];
      swapChainImageViews := [];
      pipelineLayout := None;
      graphicsPipeline := None;
      commandPool := None;
      commandBuffer := None;
      semaphorePresentComplete := None;
      semaphoreRenderFinished := None;
      fenceDraw := None;
      vertexBuffer := None;
      vertexBufferMemory := None;
      trace := [];
      completed := 0;
    }

    /** createInstance (step 0): the layer and extension checks, then the
        instance with the create-info they lead to; `instanceCreated` stands
        for the driver accepting it. Nothing changes when a check or the
        creation throws. */
    method CreateInstance(validation: bool, availableLayers: seq<string>,
                          windowExtensions: seq<string>, availableExtensions: seq<string>,
                          instanceCreated: bool)
      returns (outcome: Outcome)
      requires Valid() && completed == 0
      modifies this`instance, this`completed
      ensures Valid()
      ensures var r := InstanceSetup.CreateInstanceInfo(validation, availableLayers, windowExtensions, availableExtensions);
              if r.Err? then
                outcome == Fail(r.error) && completed == 0 && Snap() == old(Snap())
              else if !instanceCreated then
                outcome == Fail(InstanceCreationFailed) && completed == 0 && Snap() == old(Snap())
              else
                outcome == Pass && completed == 1 && Snap() == InstanceCreated(old(Snap()), r.value)
    {
      var r := InstanceSetup.CreateInstanceInfo(validation, availableLayers, windowExtensions, availableExtensions);
      if r.Err? {
        return Fail(r.error);
      }
      if !instanceCreated {
        return Fail(InstanceCreationFailed);
      }
      instance := Some(r.value);
      completed := completed + 1;
      return Pass;
    }

    /** setupDebugMessenger (step 1) as this file writes it: the messenger is
        created whatever the build's validation setting, with the shared
        filter. `messengerCreated` stands for the driver call succeeding. */
    method SetupDebugMessenger(messengerCreated: bool) returns (outcome: Outcome)
      requires Valid() && completed == 1
      modifies this`debugMessenger, this`completed
      ensures Valid()
      ensures messengerCreated ==>
                outcome == Pass && completed == 2 && Snap() == MessengerSetUp(old(Snap()))
      ensures !messengerCreated ==>
                outcome == Fail(DebugMessengerFailed) && completed == 1 && Snap() == old(Snap())
    {
      if !messengerCreated {
        return Fail(DebugMessengerFailed);
      }
      debugMessenger := Some(DebugMessengerFilter);
      completed := completed + 1;
      return Pass;
    }

    /** createSurface (step 2) for `window`; `surfaceCreated` stands for
        `glfwCreateWindowSurface` returning VK_SUCCESS. */
    method CreateSurface(window: nat, surfaceCreated: bool) returns (outcome: Outcome)
      requires Valid() && completed == 2
      modifies this`surface, this`completed
      ensures Valid()
      ensures surfaceCreated ==>
                outcome == Pass && completed == 3 && Snap() == SurfaceCreated(old(Snap()), window)
      ensures !surfaceCreated ==>
                outcome == Fail(SurfaceCreationFailed) && completed == 2 && Snap() == old(Snap())
    {
      if !surfaceCreated {
        return Fail(SurfaceCreationFailed);
      }
      surface := Some(window);
      completed := completed + 1;
      return Pass;
    }

    /** pickPhysicalDevice (step 3) over the devices the instance
        enumerates, which answer as the Vulkan specification requires
        (WellFormed). */
    method PickPhysicalDevice(devices: seq<PhysicalDevice>) returns (outcome: Outcome)
      requires Valid() && completed == 3
      requires forall d :: d in devices ==> WellFormed(d)
      modifies this`physicalDevice, this`completed
      ensures Valid()
      ensures var r := DeviceSelection.PickedDevice(devices);
              if r.Ok? then
                outcome == Pass && completed == 4 && Snap() == PhysicalDevicePicked(old(Snap()), devices[r.value])
              else
                outcome == Fail(r.error) && completed == 3 && Snap() == old(Snap())
    {
      var r := DeviceSelection.FindSuitableDevice(devices);
      if r.Err? {
        return Fail(r.error);
      }
      var device := devices[r.value];
      assert device in devices;
      physicalDevice := Some(device);
      completed := completed + 1;
      return Pass;
    }

    /** createLogicalDevice (step 4): resolves the two family indices
        (fallback scan as written), creates the device with one queue of the
        graphics family and the required extensions, and takes queue 0 of
        each family. The error after the scan is unreachable, so the step
        always completes. */
    method CreateLogicalDevice()
      requires Valid() && completed == 4
      modifies this`graphicsQueueIndex, this`presentQueueIndex, this`device
      modifies this`graphicsQueue, this`presentQueue, this`completed
      ensures Valid() && completed == 5
      ensures Snap() == LogicalDeviceCreated(old(Snap()))
    {
      ghost var after := LogicalDeviceCreated(Snap());
      assert Consistent(5, after);
      var pd := physicalDevice.value;
      var r := QueueFamilies.ResolveQueueFamilies(pd.queueFamilies, pd.presentSupport);
      var q := r.value;
      graphicsQueueIndex := Some(q.graphics);
      presentQueueIndex := Some(q.present);
      device := Some(DeviceConfig(q.graphics, 1, RequiredDeviceExtensions));
      graphicsQueue := Some(Queue(q.graphics, 0));
      presentQueue := Some(Queue(q.present, 0));
      completed := completed + 1;
      assert Snap() == after;
    }

    /** createSwapChain (step 5): negotiates format, extent, image count and
        present mode from the chosen device's surface answers. The
        framebuffer size comes from the window; `images` are the images the
        driver creates. */
    method CreateSwapChain(framebufferWidth: i32, framebufferHeight: i32, images: seq<Image>)
      requires Valid() && completed == 5
      modifies this`swapChainFormat, this`swapChainExtent, this`swapChain, this`swapChainImages, this`completed
      ensures Valid() && completed == 6
      ensures Snap() == SwapChainCreated(old(Snap()), framebufferWidth, framebufferHeight, images)
    {
      ghost var after := SwapChainCreated(Snap(), framebufferWidth, framebufferHeight, images);
      assert Consistent(6, after);
      var createInfo := SwapchainCreateInfo(physicalDevice.value, framebufferWidth, framebufferHeight);
      swapChainFormat, swapChainExtent, swapChain, swapChainImages, completed :=
        createInfo.surfaceFormat.format, createInfo.extent, Some(createInfo), images, completed + 1;
      assert Snap() == after;
    }

    /** createImageViews (step 6): clears the view list and appends one view
        per swapchain image, in image order, in the swapchain format. */
    method CreateImageViews()
      requires Valid() && completed == 6
      modifies this`swapChainImageViews, this`completed
      ensures Valid() && completed == 7
      ensures swapChainImageViews == ViewsFor(swapChainImages, swapChainFormat)
      ensures Snap() == ImageViewsCreated(old(Snap()), swapChainImageViews)
    {
      swapChainImageViews := [];
      var images := swapChainImages;
      var views := [];
      for i := 0 to |images|
        invariant |views| == i
        invariant forall j :: 0 <= j < i ==> views[j] == ImageView(images[j], swapChainFormat)
      {
        views := views + [ImageView(images[i], swapChainFormat)];
      }
      assert views == ViewsFor(images, swapChainFormat);
      swapChainImageViews := views;
      completed := completed + 1;
    }

    /** createGraphicsPipeline (step 7), as far as the rest of the renderer
        shows in it: an empty pipeline layout, the swapchain format as the
        one colour attachment format, and the vertex descriptors. */
    method CreateGraphicsPipeline()
      requires Valid() && completed == 7
      modifies this`pipelineLayout, this`graphicsPipeline, this`completed
      ensures Valid() && completed == 8
      ensures Snap() == PipelineCreated(old(Snap()))
    {
      pipelineLayout := Some(PipelineLayoutConfig(0, 0));
      graphicsPipeline := Some(PipelineConfig(swapChainFormat,
        VertexLayout.GetBindingDescription(), VertexLayout.GetAttributeDescriptions()));
      completed := completed + 1;
    }

    /** createCommandPool (step 8): buffers individually resettable, on the
        graphics family. */
    method CreateCommandPool()
      requires Valid() && completed == 8
      modifies this`commandPool, this`completed
      ensures Valid() && completed == 9
      ensures Snap() == CommandPoolCreated(old(Snap()))
    {
      commandPool := Some(CommandPoolConfig(graphicsQueueIndex.value, true));
      completed := completed + 1;
    }

    /** createVertexBuffer (step 9): the buffer is created first; then the
        memory type search runs and, when it throws, the buffer stays behind
        without memory. `memoryTypeBits` is what the driver reports for the
        buffer. */
    method CreateVertexBuffer(memoryTypeBits: Flags) returns (outcome: Outcome)
      requires Valid() && completed == 9
      modifies this`vertexBuffer, this`vertexBufferMemory, this`completed
      ensures Valid()
      ensures outcome.Pass? || outcome == Fail(NoMemoryType)
      ensures outcome.Pass? <==> MemoryTypes.AnyMatches(physicalDevice.value.memoryTypes, memoryTypeBits, VertexMemoryProperties)
      ensures outcome.Pass? ==>
                && completed == 10
                && Snap() == VertexMemoryAllocated(VertexBufferCreated(old(Snap()), memoryTypeBits),
                     MemoryTypes.LeastMatch(physicalDevice.value.memoryTypes, memoryTypeBits, VertexMemoryProperties))
      ensures outcome.Fail? ==> completed == 9 && Snap() == VertexBufferCreated(old(Snap()), memoryTypeBits)
    {
      vertexBuffer := Some(Buffer(VertexBufferSize(), memoryTypeBits));
      outcome := AllocateVertexMemory();
    }

    /** The rest of createVertexBuffer: the search over the memory types
        the buffer allows, and the allocation of the type found. */
    method AllocateVertexMemory() returns (outcome: Outcome)
      requires Valid() && completed == 9 && vertexBuffer.Some? && vertexBuffer.value.size == VertexBufferSize()
      modifies this`vertexBufferMemory, this`completed
      ensures Valid()
      ensures outcome.Pass? || outcome == Fail(NoMemoryType)
      ensures outcome.Pass? <==> MemoryTypes.AnyMatches(physicalDevice.value.memoryTypes,
                                                        vertexBuffer.value.memoryTypeBits, VertexMemoryProperties)
      ensures outcome.Pass? ==>
                && completed == 10
                && Snap() == VertexMemoryAllocated(old(Snap()), MemoryTypes.LeastMatch(physicalDevice.value.memoryTypes,
                     vertexBuffer.value.memoryTypeBits, VertexMemoryProperties))
      ensures outcome.Fail? ==> completed == 9 && vertexBufferMemory == old(vertexBufferMemory)
    {
      var r := MemoryTypes.FindMemoryType(physicalDevice.value.memoryTypes, vertexBuffer.value.memoryTypeBits,
                                          VertexMemoryProperties);
      if r.Err? {
        return Fail(r.error);
      }
      vertexBufferMemory := Some(DeviceMemory(r.value, VertexBufferSize()));
      completed := completed + 1;
      return Pass;
    }

    /** createCommandBuffer (step 10): one primary buffer from the pool,
        nothing recorded. */
    method CreateCommandBuffer()
      requires Valid() && completed == 10
      modifies this`commandBuffer, this`completed
      ensures Valid() && completed == 11
      ensures Snap() == CommandBufferAllocated(old(Snap()))
    {
      commandBuffer := Some([]);
      completed := completed + 1;
    }

    /** createSyncObjects (step 11): two semaphores and a fence created
        signalled, so the first frame's wait does not block. */
    method CreateSyncObjects()
      requires Valid() && completed == 11
      modifies this`semaphorePresentComplete, this`semaphoreRenderFinished, this`fenceDraw, this`completed
      ensures Valid() && completed == 12
      ensures Snap() == SyncObjectsCreated(old(Snap()))
    {
      ghost var after := SyncObjectsCreated(Snap());
      assert Consistent(12, after);
      semaphorePresentComplete := Some(Semaphore);
      semaphoreRenderFinished := Some(Semaphore);
      fenceDraw := Some(Fence(true));
      completed := completed + 1;
      assert Snap() == after;
    }

    /** `init`: the twelve steps in order, stopping at the first that
        throws. Each step requires the ones before it to have completed. */
    method Init(env: Environment) returns (outcome: Outcome)
      requires Valid() && completed == 0
      requires forall d :: d in env.devices ==> WellFormed(d)
      modifies this
      ensures trace == old(trace)
      ensures Valid()
      ensures var run := InitSpec(env, old(Snap()));
              outcome == run.outcome && completed == run.completed && Snap() == run.handles
      ensures outcome.Pass? <==> InitSucceeds(env)
      ensures outcome.Pass? <==> completed == InitStepCount
      ensures outcome.Fail? ==> Fallible(completed)
    {
      InitOutcome(env, Snap());
      outcome := InitSetup(env);
      if outcome.Fail? { return; }
      InitSwapchain(env);
      outcome := InitBuffers(env);
    }

    /** The first four calls of init. */
    method InitSetup(env: Environment) returns (outcome: Outcome)
      requires Valid() && completed == 0
      requires forall d :: d in env.devices ==> WellFormed(d)
      modifies this
      ensures trace == old(trace)
      ensures Valid()
      ensures var run := SetupSteps(env, old(Snap()));
              outcome == run.outcome && completed == run.completed && Snap() == run.handles
    {
      outcome := CreateInstance(env.validation, env.availableLayers, env.windowExtensions, env.availableExtensions,
                                env.instanceCreated);
      if outcome.Fail? { return; }
      outcome := SetupDebugMessenger(env.messengerCreated);
      if outcome.Fail? { return; }
      outcome := CreateSurface(env.window, env.surfaceCreated);
      if outcome.Fail? { return; }
      outcome := PickPhysicalDevice(env.devices);
    }

    /** The five calls of init after the device is picked. */
    method InitSwapchain(env: Environment)
      requires Valid() && completed == 4
      modifies this
      ensures trace == old(trace)
      ensures Valid() && completed == 9
      ensures Snap() == SwapchainSteps(env, old(Snap()))
    {
      CreateLogicalDevice();
      CreateSwapChain(env.framebufferWidth, env.framebufferHeight, env.images);
      CreateImageViews();
      CreateGraphicsPipeline();
      CreateCommandPool();
    }

    /** The last three calls of init. */
    method InitBuffers(env: Environment) returns (outcome: Outcome)
      requires Valid() && completed == 9
      modifies this
      ensures trace == old(trace)
      ensures Valid()
      ensures var run := BufferSteps(env, old(Snap()));
              outcome == run.outcome && completed == run.completed && Snap() == run.handles
    {
      outcome := CreateVertexBuffer(env.vertexMemoryTypeBits);
      if outcome.Fail? { return; }
      CreateCommandBuffer();
      CreateSyncObjects();
    }

    /** transitionImageLayout: appends one image memory barrier on image
        `imageIndex` of the swapchain. */
    method TransitionImageLayout(imageIndex: nat, oldLayout: ImageLayout, newLayout: ImageLayout,
                                 srcAccess: set<Access>, dstAccess: set<Access>,
                                 srcStage: PipelineStage, dstStage: PipelineStage)
      requires commandBuffer.Some? && imageIndex < |swapChainImages|
      modifies this`commandBuffer
      ensures commandBuffer == Some(old(commandBuffer).value + [
                PipelineBarrier(LayoutBarrier(swapChainImages[imageIndex], oldLayout, newLayout,
                                              srcAccess, dstAccess, srcStage, dstStage))])
    {
      var barrier := LayoutBarrier(swapChainImages[imageIndex], oldLayout, newLayout,
                                   srcAccess, dstAccess, srcStage, dstStage);
      commandBuffer := Some(commandBuffer.value + [PipelineBarrier(barrier)]);
    }

    /** recordCommandBuffer: begins the buffer (which resets it), then
        records the frame into image `imageIndex` through its view at the
        swapchain extent. */
    method RecordCommandBuffer(imageIndex: nat)
      requires commandBuffer.Some?
      requires imageIndex < |swapChainImages| && |swapChainImageViews| == |swapChainImages|
      modifies this`commandBuffer
      ensures commandBuffer == Some(FrameCommands(swapChainImages[imageIndex],
                                                  swapChainImageViews[imageIndex], swapChainExtent))
    {
      var image := swapChainImages[imageIndex];
      var view := swapChainImageViews[imageIndex];
      var area := Rect2D(0, 0, swapChainExtent);
      commandBuffer := Some([Begin]);
      TransitionImageLayout(imageIndex, Undefined, ColorAttachmentOptimal,
                            {}, {ColorAttachmentWrite}, TopOfPipe, ColorAttachmentOutput);
      var attachment := ColorAttachment(view, ColorAttachmentOptimal, LoadOpClear, StoreOpStore, ClearBlack);
      var cmds := commandBuffer.value;
      cmds := cmds + [BeginRendering(area, attachment)];
      cmds := cmds + [BindGraphicsPipeline];
      cmds := cmds + [BindVertexBuffer(0, 0)];
      cmds := cmds + [SetViewport(FullViewport(swapChainExtent))];
      cmds := cmds + [SetScissor(area)];
      cmds := cmds + [Draw(VertexCount, 1, 0, 0)];
      cmds := cmds + [EndRendering];
      commandBuffer := Some(cmds);
      TransitionImageLayout(imageIndex, ColorAttachmentOptimal, PresentSrc,
                            {ColorAttachmentWrite}, {}, ColorAttachmentOutput, BottomOfPipe);
      commandBuffer := Some(commandBuffer.value + [End]);
      assert commandBuffer.value == FrameCommands(image, view, swapChainExtent);
    }

    /** render: acquires image `acquiredIndex` (the driver's answer),
        records the frame into it, resets the fence, submits on the
        graphics queue, waits until the fence is signalled again, and
        presents on the graphics queue as well. */
    method Render(acquiredIndex: nat)
      requires Valid() && completed == InitStepCount
      requires acquiredIndex < |swapChainImages|
      modifies this`commandBuffer, this`fenceDraw, this`trace
      ensures Valid()
      ensures acquiredIndex < |swapChainImageViews|
      ensures commandBuffer == Some(FrameCommands(swapChainImages[acquiredIndex],
                                                  swapChainImageViews[acquiredIndex], swapChainExtent))
      ensures fenceDraw == old(fenceDraw)
      ensures trace == old(trace) + FrameCalls(acquiredIndex, graphicsQueue.value)
    {
      ghost var before := Snap();
      var queue := graphicsQueue.value;
      var calls := [AcquireNextImage(acquiredIndex)];
      RecordCommandBuffer(acquiredIndex);
      calls := calls + [RecordCommands(acquiredIndex)];
      fenceDraw := Some(Fence(false));
      calls := calls + [ResetFence, SubmitCommands(queue), WaitForFence];
      fenceDraw := Some(Fence(true));
      calls := calls + [PresentImage(queue, acquiredIndex)];
      trace := trace + calls;
      assert Snap() == FrameRecorded(before, commandBuffer.value);
    }
  }

  // ---------------------------------------------------------------------
  // Properties of the lifecycle

  /** A renderer owns a handle exactly when init has completed a step:
      before the first step every handle is null, and after any completed
      step the instance at least is not. */
  lemma OwnsNothingIffNoStep(r: Renderer)
    requires r.Valid()
    ensures r.AllHandlesNull() <==> r.completed == 0
  {
  }

  /** The pipeline's colour attachment format is the format of the
      swapchain, which is one the surface reported: it is the field's
      initial eUndefined only if the surface itself reported eUndefined. */
  lemma PipelineUsesNegotiatedFormat(r: Renderer)
    requires r.Valid() && r.completed > 7
    ensures r.graphicsPipeline.value.colorFormat == r.swapChain.value.surfaceFormat.format
    ensures r.swapChain.value.surfaceFormat in r.physicalDevice.value.surfaceFormats
    ensures r.graphicsPipeline.value.colorFormat == FormatUndefined ==>
              exists f :: f in r.physicalDevice.value.surfaceFormats && f.format == FormatUndefined
  {
  }

  /** Frames are submitted to the graphics queue, whose family is also the
      command pool's. That family supports graphics exactly when the first
      graphics family can present or family 0 cannot: otherwise the
      fallback scan of createLogicalDevice stops at family 0, which then
      cannot do graphics (it comes before the first graphics family). */
  lemma FramesUseGraphicsFamily(r: Renderer)
    requires r.Valid() && r.completed == InitStepCount
    ensures var families := r.physicalDevice.value.queueFamilies;
            var support := r.physicalDevice.value.presentSupport;
            && r.graphicsQueue.value.family < |families|
            && (QueueFamilies.SupportsGraphics(families[r.graphicsQueue.value.family])
                <==> support[QueueFamilies.GetQueueFamilyIndex(families)] || !support[0])
            && r.commandPool.value.queueFamily == r.graphicsQueue.value.family
  {
    var families := r.physicalDevice.value.queueFamilies;
    var support := r.physicalDevice.value.presentSupport;
    var g := QueueFamilies.GetQueueFamilyIndex(families);
    var q := QueueFamilies.ResolvedQueues(families, support);
    assert r.graphicsQueue.value.family == q.graphics;
    if !support[g] && support[0] {
      assert 0 < g;
      assert !QueueFamilies.SupportsGraphics(families[0]);
    }
  }

  /** createLogicalDevice requests one queue of the graphics family only,
      yet takes queue 0 of the present family too. The two families differ
      exactly when neither the first graphics family nor family 0 can
      present and the first graphics family is not family 0; the present
      queue then comes from a family the device was never asked for. */
  lemma PresentFamilyNotRequested(r: Renderer)
    requires r.Valid() && 5 <= r.completed
    ensures var families := r.physicalDevice.value.queueFamilies;
            var support := r.physicalDevice.value.presentSupport;
            var g := QueueFamilies.GetQueueFamilyIndex(families);
            && g < |support|
            && r.device.value.queueFamily == r.graphicsQueue.value.family && r.device.value.queueCount == 1
            && (r.presentQueue.value.family != r.device.value.queueFamily <==> !support[g] && !support[0] && g != 0)
  {
  }

  /** Frames are presented on the graphics queue, not on the present queue
      createLogicalDevice resolved; that queue's family can present exactly
      when the first graphics family or family 0 can. */
  lemma PresentGoesToGraphicsQueue(r: Renderer, imageIndex: nat)
    requires r.Valid() && r.completed == InitStepCount
    ensures var calls := FrameCalls(imageIndex, r.graphicsQueue.value);
            && calls[|calls| - 1] == PresentImage(r.graphicsQueue.value, imageIndex)
            && calls[3] == SubmitCommands(r.graphicsQueue.value)
    ensures var families := r.physicalDevice.value.queueFamilies;
            var support := r.physicalDevice.value.presentSupport;
            && r.graphicsQueue.value.family < |support|
            && (support[r.graphicsQueue.value.family]
                <==> support[QueueFamilies.GetQueueFamilyIndex(families)] || support[0])
  {
    var pd := r.physicalDevice.value;
    QueueFamilies.ResolvedGraphicsPresentsIff(pd.queueFamilies, pd.presentSupport);
  }

  /** Every frame's commands leave the acquired image presentable. */
  lemma RecordedFramePresentable(r: Renderer, imageIndex: nat, start: ImageLayout)
    requires r.Valid() && r.completed == InitStepCount && imageIndex < |r.swapChainImages|
    ensures imageIndex < |r.swapChainImageViews|
    ensures var image := r.swapChainImages[imageIndex];
            TrackLayout(FrameCommands(image, r.swapChainImageViews[imageIndex], r.swapChainExtent), image, start)
              == Some(PresentSrc)
  {
    FrameEndsPresentable(r.swapChainImages[imageIndex], r.swapChainImageViews[imageIndex], r.swapChainExtent, start);
  }
}
