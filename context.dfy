/** The Vulkan context: the object that owns the instance, the chosen
    physical and logical device, the queues' family indices, the per-window
    swap chains, the frame synchronisation objects and the command and
    descriptor pools, and that tears them down in a fixed order. Every
    object the API or the windowing system creates is an opaque handle drawn
    from a counter. */
module Context {
  import opened Wrappers
  import opened VkTypes
  import opened Instance
  import opened DeviceSelection
  import opened QueueFamilies
  import opened SwapChain
  import opened FrameRing
  import opened Teardown

  /** The global settings the context reads. */
  datatype Settings = Settings(
    applicationName: string,
    applicationVersion: nat,
    requiredInstanceExtensions: seq<string>,
    requiredDeviceExtensions: seq<string>,
    validationLayers: seq<string>,
    maxFramesInFlight: nat,
    logLevel: nat)

  datatype CommandPool = CommandPool(queueFamilyIndex: nat, pool: Handle)

  datatype CommandBufferUsage = OneTimeSubmit | RenderPassContinue | SimultaneousUse

  /** A primary command buffer with the begin-info usage flags it will be
      recorded with. */
  datatype CommandBuffer = CommandBuffer(buffer: Handle, pool: Handle, usage: set<CommandBufferUsage>)

  datatype DescriptorType = UniformBuffer | CombinedImageSampler | StorageImage | AccelerationStructure

  datatype DescriptorPoolSize = DescriptorPoolSize(descriptorType: DescriptorType, descriptorCount: nat)

  datatype DescriptorPool = DescriptorPool(pool: Handle, poolSizes: seq<DescriptorPoolSize>, maxSets: nat)

  /** The pool sizes of the single descriptor pool: 128 descriptors of each
      of the four types, and at most 128 sets. */
  const DescriptorPoolSizes: seq<DescriptorPoolSize> := [
    DescriptorPoolSize(UniformBuffer, 128),
    DescriptorPoolSize(CombinedImageSampler, 128),
    DescriptorPoolSize(StorageImage, 128),
    DescriptorPoolSize(AccelerationStructure, 128)
  ]
  const DescriptorPoolMaxSets: nat := 128

  datatype Framebuffer = Framebuffer(framebuffer: Handle, renderPass: Handle, attachments: seq<Handle>, width: nat, height: nat, layers: nat)

  datatype DeviceCreateInfo = DeviceCreateInfo(
    queueCreateInfos: seq<QueueCreateInfo>,
    enabledExtensions: seq<string>,
    enabledLayers: seq<string>,
    samplerAnisotropy: bool,
    vertexPipelineStoresAndAtomics: bool)

  /** The swap-chain parameters of a window. */
  datatype SwapChainParams = SwapChainParams(presentation: Option<PresentationPreference>, srgbFramebuffer: bool)

  datatype ContextError =
    | DebugSetupFailed(debugError: DebugSetupError)
    | DevicePickFailed(pickError: PickError)
    | SurfaceCreationFailed
    | QueueSetupFailed(queueError: QueueError)
    | NoSharingFamilies

  /** The frames-in-flight count in effect before the first window exists. */
  const DefaultMaxFramesInFlight: nat := 2

  /** `count` consecutive handles from `start`. */
  function HandleRange(start: Handle, count: nat): (r: seq<Handle>)
    ensures |r| == count && forall k :: 0 <= k < count ==> r[k] == start + k
  {
    seq(count, k requires 0 <= k < count => start + k)
  }

  /** Which of the window lookups is meant. */
  datatype ChainKey = ByWindow(window: nat) | BySurface(surface: Surface) | BySwapChain(swapChain: Handle)

  predicate KeyMatches(c: SwapChainData, key: ChainKey)
  {
    match key
    case ByWindow(w) => c.window == w
    case BySurface(s) => c.surface == s
    case BySwapChain(h) => c.swapChain == h
  }

  /** The first chain from index `from` on that matches the key. */
  function FindChain(chains: seq<SwapChainData>, key: ChainKey, from: nat): (r: Option<nat>)
    decreases |chains| - from
    ensures r.Some? ==> from <= r.value < |chains| && KeyMatches(chains[r.value], key)
    ensures r.Some? ==> forall j :: from <= j < r.value ==> !KeyMatches(chains[j], key)
    ensures r.None? ==> forall j :: from <= j < |chains| ==> !KeyMatches(chains[j], key)
  {
    if from >= |chains| then None
    else if KeyMatches(chains[from], key) then Some(from)
    else FindChain(chains, key, from + 1)
  }

  function DescriptorPoolHandles(pools: seq<DescriptorPool>): (r: seq<Handle>)
    ensures |r| == |pools| && forall k :: 0 <= k < |pools| ==> r[k] == pools[k].pool
  {
    seq(|pools|, k requires 0 <= k < |pools| => pools[k].pool)
  }

  function CommandPoolHandles(pools: seq<CommandPool>): (r: seq<Handle>)
    ensures |r| == |pools| && forall k :: 0 <= k < |pools| ==> r[k] == pools[k].pool
  {
    seq(|pools|, k requires 0 <= k < |pools| => pools[k].pool)
  }

  lemma AppendAssociates<T>(a: seq<T>, b: seq<T>, c: seq<T>)
    ensures a + b + c == a + (b + c)
  {
  }

  class Vulkan {
    const settings: Settings
    /** The layer names the instance offers. */
    const availableLayers: seq<string>

    var instanceInfo: InstanceCreateInfo
    var instance: Handle
    var debugMessenger: Handle
    var physicalDevice: PhysicalDevice
    var deviceInfo: DeviceCreateInfo
    var logicalDevice: Handle

    var graphicsQueueIndex: nat
    var computeQueueIndex: nat
    var presentQueueIndex: nat
    var transferQueueIndex: nat
    var transferAndGraphicsQueueIndices: seq<nat>

    var frameCounter: nat
    var maxFramesInFlight: nat
    var imageAvailableSemaphores: seq<Handle>
    var renderFinishedSemaphores: seq<Handle>
    var inFlightFences: seq<Handle>
    /** Whether each fence is signalled. */
    var fenceSignalled: seq<bool>

    var surfSwap: seq<SwapChainData>
    var commandPools: seq<CommandPool>
    var descriptorPools: seq<DescriptorPool>

    /** The next handle the API will hand out. */
    var nextHandle: Handle
    /** What has been destroyed, in order. */
    var events: seq<Event>

    /** The context's bookkeeping invariant: one fence state per fence, the
        three synchronisation vectors equally long, at most one command pool
        per queue family and at most one descriptor pool. */
    ghost predicate Valid()
      reads this
    {
      nextHandle > 0
      && |imageAvailableSemaphores| == |renderFinishedSemaphores| == |inFlightFences| == |fenceSignalled|
      && (forall i, j :: 0 <= i < j < |commandPools| ==> commandPools[i].queueFamilyIndex != commandPools[j].queueFamilyIndex)
      && |descriptorPools| <= 1
    }

    /** The constructor's state once the instance exists, the debug hook is
        set up and the physical device is chosen; the rest of the
        initialisation happens with the first window. */
    constructor (settings: Settings, availableLayers: seq<string>, instanceInfo: InstanceCreateInfo,
                 messengerCreated: bool, physicalDevice: PhysicalDevice)
      ensures Valid()
      ensures this.settings == settings && this.availableLayers == availableLayers
      ensures this.instanceInfo == instanceInfo && this.physicalDevice == physicalDevice
      ensures instance == 1 && debugMessenger == (if messengerCreated then 2 else NullHandle) && nextHandle == 3
      ensures frameCounter == 0 && logicalDevice == NullHandle && maxFramesInFlight == DefaultMaxFramesInFlight
      ensures imageAvailableSemaphores == [] && renderFinishedSemaphores == [] && inFlightFences == [] && fenceSignalled == []
      ensures surfSwap == [] && commandPools == [] && descriptorPools == [] && events == []
      ensures transferAndGraphicsQueueIndices == []
    {
      this.settings := settings;
      this.availableLayers := availableLayers;
      this.instanceInfo := instanceInfo;
      this.physicalDevice := physicalDevice;
      instance := 1;
      debugMessenger := if messengerCreated then 2 else NullHandle;
      nextHandle := 3;
      deviceInfo := DeviceCreateInfo([], [], [], false, false);
      logicalDevice := NullHandle;
      graphicsQueueIndex, computeQueueIndex, presentQueueIndex, transferQueueIndex := 0, 0, 0, 0;
      transferAndGraphicsQueueIndices := [];
      frameCounter := 0;
      maxFramesInFlight := DefaultMaxFramesInFlight;
      imageAvailableSemaphores, renderFinishedSemaphores, inFlightFences, fenceSignalled := [], [], [], [];
      surfSwap, commandPools, descriptorPools := [], [], [];
      events := [];
    }

    /** The constructor of the context: creates the instance, sets up the
        debug hook and picks the physical device. The instance's available
        layers, the windowing system's required extensions, whether the
        messenger entry point is found and whether creating the messenger
        succeeds, and the devices the instance enumerates are parameters. */
    static method Create(settings: Settings, availableLayers: seq<string>, windowingExtensions: seq<string>,
                         procFound: bool, createSucceeds: bool, devices: seq<PhysicalDevice>)
      returns (r: Result<Vulkan, ContextError>)
      ensures var debug := SetupDebugCallback(settings.logLevel, settings.validationLayers, procFound, createSucceeds);
              debug.Failure? ==> r == Failure(DebugSetupFailed(debug.error))
      ensures SetupDebugCallback(settings.logLevel, settings.validationLayers, procFound, createSucceeds).Success? ==>
                (devices == [] ==> r == Failure(DevicePickFailed(NoVulkanDevice)))
                && (r.Success? <==> exists j :: 0 <= j < |devices|
                                      && Score(devices[j], AllRequiredDeviceExtensions(settings.requiredDeviceExtensions)) > 0)
      ensures r.Success? ==>
                fresh(r.value) && r.value.Valid() && r.value.settings == settings && r.value.events == []
                && r.value.instanceInfo == CreateInstanceInfo(settings.applicationName, settings.applicationVersion, windowingExtensions,
                                                              settings.requiredInstanceExtensions, settings.validationLayers, availableLayers)
                && (r.value.debugMessenger != NullHandle
                    <==> SetupDebugCallback(settings.logLevel, settings.validationLayers, procFound, createSucceeds) != Success(None))
                && exists i :: 0 <= i < |devices| && r.value.physicalDevice == devices[i]
                               && IsFirstBest(devices, AllRequiredDeviceExtensions(settings.requiredDeviceExtensions), i)
    {
      var info := CreateInstanceInfo(settings.applicationName, settings.applicationVersion, windowingExtensions,
                                     settings.requiredInstanceExtensions, settings.validationLayers, availableLayers);
      var debug := SetupDebugCallback(settings.logLevel, settings.validationLayers, procFound, createSucceeds);
      if debug.Failure? {
        return Failure(DebugSetupFailed(debug.error));
      }
      var pick := PickPhysicalDevice(devices, settings.requiredDeviceExtensions);
      if pick.Failure? {
        return Failure(DevicePickFailed(pick.error));
      }
      var v := new Vulkan(settings, availableLayers, info, debug.value.Some?, devices[pick.value]);
      r := Success(v);
    }

    /** A new handle from the API. */
    method FreshHandle() returns (h: Handle)
      requires nextHandle > 0
      modifies this`nextHandle
      ensures h == old(nextHandle) && nextHandle == h + 1 && h > 0
    {
      h := nextHandle;
      nextHandle := nextHandle + 1;
    }

    // ----- frame synchronisation -----

    /** `create_sync_objects`: appends N image-available semaphores, then N
        render-finished semaphores, then N fences created signalled, with
        N the frames-in-flight count. */
    method CreateSyncObjects()
      requires Valid()
      modifies this`imageAvailableSemaphores, this`renderFinishedSemaphores, this`inFlightFences, this`fenceSignalled, this`nextHandle
      ensures Valid()
      ensures var n, base := maxFramesInFlight, old(nextHandle);
              imageAvailableSemaphores == old(imageAvailableSemaphores) + HandleRange(base, n)
              && renderFinishedSemaphores == old(renderFinishedSemaphores) + HandleRange(base + n, n)
              && inFlightFences == old(inFlightFences) + HandleRange(base + 2 * n, n)
              && fenceSignalled == old(fenceSignalled) + seq(n, k => true)
              && nextHandle == base + 3 * n
    {
      var n := maxFramesInFlight;
      ghost var base := nextHandle;
      for i := 0 to n
        invariant imageAvailableSemaphores == old(imageAvailableSemaphores) + HandleRange(base, i)
        invariant renderFinishedSemaphores == old(renderFinishedSemaphores)
        invariant inFlightFences == old(inFlightFences) && fenceSignalled == old(fenceSignalled)
        invariant nextHandle == base + i
      {
        var h := FreshHandle();
        imageAvailableSemaphores := imageAvailableSemaphores + [h];
      }
      for i := 0 to n
        invariant imageAvailableSemaphores == old(imageAvailableSemaphores) + HandleRange(base, n)
        invariant renderFinishedSemaphores == old(renderFinishedSemaphores) + HandleRange(base + n, i)
        invariant inFlightFences == old(inFlightFences) && fenceSignalled == old(fenceSignalled)
        invariant nextHandle == base + n + i
      {
        var h := FreshHandle();
        renderFinishedSemaphores := renderFinishedSemaphores + [h];
      }
      for i := 0 to n
        invariant imageAvailableSemaphores == old(imageAvailableSemaphores) + HandleRange(base, n)
        invariant renderFinishedSemaphores == old(renderFinishedSemaphores) + HandleRange(base + n, n)
        invariant inFlightFences == old(inFlightFences) + HandleRange(base + 2 * n, i)
        invariant fenceSignalled == old(fenceSignalled) + seq(i, k => true)
        invariant nextHandle == base + 2 * n + i
      {
        var h := FreshHandle();
        inFlightFences := inFlightFences + [h];
        fenceSignalled := fenceSignalled + [true];
      }
    }

    /** `cleanup_sync_objects`: destroys the fences, then the
        render-finished semaphores, then the image-available semaphores, and
        empties all three vectors. */
    method CleanupSyncObjects()
      requires Valid()
      modifies this`imageAvailableSemaphores, this`renderFinishedSemaphores, this`inFlightFences, this`fenceSignalled, this`events
      ensures Valid()
      ensures events == old(events) + SyncEvents(old(inFlightFences), old(renderFinishedSemaphores), old(imageAvailableSemaphores))
      ensures imageAvailableSemaphores == [] && renderFinishedSemaphores == [] && inFlightFences == [] && fenceSignalled == []
    {
      ghost var start := events;
      var fences, renderFinished, imageAvailable := inFlightFences, renderFinishedSemaphores, imageAvailableSemaphores;
      DestroyFences(fences);
      DestroySemaphores(renderFinished, RenderFinished);
      AppendAssociates(start, FenceEvents(fences), SemaphoreEvents(renderFinished, RenderFinished));
      DestroySemaphores(imageAvailable, ImageAvailable);
      AppendAssociates(start, FenceEvents(fences) + SemaphoreEvents(renderFinished, RenderFinished),
                       SemaphoreEvents(imageAvailable, ImageAvailable));
      inFlightFences, fenceSignalled, renderFinishedSemaphores, imageAvailableSemaphores := [], [], [], [];
    }

    /** Destroys the fences one by one, in order. */
    method DestroyFences(fences: seq<Handle>)
      modifies this`events
      ensures events == old(events) + FenceEvents(fences)
    {
      for i := 0 to |fences|
        invariant events == old(events) + FenceEvents(fences[..i])
      {
        events := events + [DestroyFence(fences[i])];
        assert FenceEvents(fences[..i + 1]) == FenceEvents(fences[..i]) + [DestroyFence(fences[i])];
      }
      assert fences[..|fences|] == fences;
    }

    /** Destroys the semaphores of one role one by one, in order. */
    method DestroySemaphores(semaphores: seq<Handle>, role: SemaphoreRole)
      modifies this`events
      ensures events == old(events) + SemaphoreEvents(semaphores, role)
    {
      for i := 0 to |semaphores|
        invariant events == old(events) + SemaphoreEvents(semaphores[..i], role)
      {
        events := events + [DestroySemaphore(semaphores[i], role)];
        assert SemaphoreEvents(semaphores[..i + 1], role) == SemaphoreEvents(semaphores[..i], role) + [DestroySemaphore(semaphores[i], role)];
      }
      assert semaphores[..|semaphores|] == semaphores;
    }

    /** The fence of the current frame. */
    function CurrentFenceSlot(): (slot: nat)
      reads this
      requires 0 < maxFramesInFlight
      ensures slot < maxFramesInFlight
    {
      Slot(frameCounter, maxFramesInFlight)
    }

    /** `begin_frame`: advances the frame counter by one, waits for the new
        frame's fence (the wait returns once the fence is signalled) and
        resets it. */
    method BeginFrame()
      requires Valid() && 0 < maxFramesInFlight <= |inFlightFences|
      modifies this`frameCounter, this`fenceSignalled
      ensures Valid()
      ensures frameCounter == old(frameCounter) + 1
      ensures CurrentFenceSlot() == Slot(old(frameCounter) + 1, maxFramesInFlight)
      ensures fenceSignalled == old(fenceSignalled)[CurrentFenceSlot() := false]
    {
      frameCounter := frameCounter + 1;
      var slot := Slot(frameCounter, maxFramesInFlight);
      fenceSignalled := fenceSignalled[slot := false];
    }

    // ----- pools -----

    /** `get_command_pool_for_queue_family`: the pool of the family if
        there is one, otherwise a new pool for it appended to the pools. */
    method GetCommandPoolForQueueFamily(queueFamilyIndex: nat) returns (pool: CommandPool)
      requires Valid()
      modifies this`commandPools, this`nextHandle
      ensures Valid()
      ensures pool.queueFamilyIndex == queueFamilyIndex && pool in commandPools
      ensures (exists j :: 0 <= j < |old(commandPools)| && old(commandPools)[j].queueFamilyIndex == queueFamilyIndex)
              ==> commandPools == old(commandPools) && nextHandle == old(nextHandle)
      ensures (forall j :: 0 <= j < |old(commandPools)| ==> old(commandPools)[j].queueFamilyIndex != queueFamilyIndex)
              ==> commandPools == old(commandPools) + [CommandPool(queueFamilyIndex, old(nextHandle))]
                  && nextHandle == old(nextHandle) + 1
    {
      var i := 0;
      while i < |commandPools|
        invariant 0 <= i <= |commandPools|
        invariant forall j :: 0 <= j < i ==> commandPools[j].queueFamilyIndex != queueFamilyIndex
      {
        if commandPools[i].queueFamilyIndex == queueFamilyIndex {
          return commandPools[i];
        }
        i := i + 1;
      }
      var h := FreshHandle();
      pool := CommandPool(queueFamilyIndex, h);
      commandPools := commandPools + [pool];
    }

    /** `create_command_buffers`: `count` primary command buffers from the
        family's pool, each to be begun with the given usage flags. */
    method CreateCommandBuffers(count: nat, queueFamilyIndex: nat, usage: set<CommandBufferUsage>)
      returns (buffers: seq<CommandBuffer>)
      requires Valid()
      modifies this`commandPools, this`nextHandle
      ensures Valid()
      ensures |buffers| == count
      ensures exists p :: p in commandPools && p.queueFamilyIndex == queueFamilyIndex
                          && forall k :: 0 <= k < count ==> buffers[k].pool == p.pool
      ensures forall k :: 0 <= k < count ==>
                buffers[k].usage == usage && old(nextHandle) <= buffers[k].buffer < nextHandle
      ensures forall j, k :: 0 <= j < k < count ==> buffers[j].buffer < buffers[k].buffer
    {
      var pool := GetCommandPoolForQueueFamily(queueFamilyIndex);
      ghost var base, pools := nextHandle, commandPools;
      buffers := [];
      for i := 0 to count
        invariant nextHandle == base + i && commandPools == pools
        invariant |buffers| == i
        invariant forall k :: 0 <= k < i ==> buffers[k] == CommandBuffer(base + k, pool.pool, usage)
      {
        var h := FreshHandle();
        buffers := buffers + [CommandBuffer(h, pool.pool, usage)];
      }
    }

    /** `get_descriptor_pool`: the single descriptor pool, created on first
        use with 128 descriptors of each type and 128 sets. */
    method GetDescriptorPool() returns (pool: DescriptorPool)
      requires Valid()
      modifies this`descriptorPools, this`nextHandle
      ensures Valid()
      ensures descriptorPools == [pool]
      ensures old(descriptorPools) != [] ==> descriptorPools == old(descriptorPools) && nextHandle == old(nextHandle)
      ensures old(descriptorPools) == [] ==>
                pool == DescriptorPool(old(nextHandle), DescriptorPoolSizes, DescriptorPoolMaxSets) && nextHandle == old(nextHandle) + 1
    {
      if |descriptorPools| == 0 {
        var h := FreshHandle();
        descriptorPools := descriptorPools + [DescriptorPool(h, DescriptorPoolSizes, DescriptorPoolMaxSets)];
      }
      pool := descriptorPools[0];
    }

    // ----- window lookups -----

    /** `get_surf_swap_tuple_for_window`: the first chain of the window. */
    function SurfSwapForWindow(window: nat): (r: Option<nat>)
      reads this
      ensures r.Some? ==> r.value < |surfSwap| && surfSwap[r.value].window == window
                          && forall j :: 0 <= j < r.value ==> surfSwap[j].window != window
      ensures r.None? ==> forall j :: 0 <= j < |surfSwap| ==> surfSwap[j].window != window
    {
      FindChain(surfSwap, ByWindow(window), 0)
    }

    /** `get_surf_swap_tuple_for_surface`: the first chain on the surface. */
    function SurfSwapForSurface(surface: Surface): (r: Option<nat>)
      reads this
      ensures r.Some? ==> r.value < |surfSwap| && surfSwap[r.value].surface == surface
                          && forall j :: 0 <= j < r.value ==> surfSwap[j].surface != surface
      ensures r.None? ==> forall j :: 0 <= j < |surfSwap| ==> surfSwap[j].surface != surface
    {
      FindChain(surfSwap, BySurface(surface), 0)
    }

    /** `get_surf_swap_tuple_for_swap_chain`: the first chain with that
        swap-chain handle. */
    function SurfSwapForSwapChain(swapChain: Handle): (r: Option<nat>)
      reads this
      ensures r.Some? ==> r.value < |surfSwap| && surfSwap[r.value].swapChain == swapChain
                          && forall j :: 0 <= j < r.value ==> surfSwap[j].swapChain != swapChain
      ensures r.None? ==> forall j :: 0 <= j < |surfSwap| ==> surfSwap[j].swapChain != swapChain
    {
      FindChain(surfSwap, BySwapChain(swapChain), 0)
    }

    // ----- logical device -----

    /** The outcome of the three main-queue tiers as `MainQueues` states
        it: on success the graphics, compute and present members hold the
        plan's indices and `infos` its create-infos. */
    ghost predicate MainAssigned(surface: Surface, r: Result<seq<QueueCreateInfo>, QueueError>)
      reads this`physicalDevice, this`graphicsQueueIndex, this`computeQueueIndex, this`presentQueueIndex
    {
      match r
      case Success(infos) =>
        MainQueues(physicalDevice, surface) == Success(QueuePlan(graphicsQueueIndex, computeQueueIndex, presentQueueIndex, 0, infos))
      case Failure(e) => MainQueues(physicalDevice, surface) == Failure(e)
    }

    /** First tier: one family for graphics, compute and presentation. */
    method AssignCombinedQueues(surface: Surface, everything: seq<IndexedFamily>) returns (r: Result<seq<QueueCreateInfo>, QueueError>)
      requires everything == FindQueueFamilies(physicalDevice, {Graphics, Compute}, {}, Some(surface)) && |everything| != 0
      modifies this`graphicsQueueIndex, this`computeQueueIndex, this`presentQueueIndex
      ensures MainAssigned(surface, r)
    {
      if !CompileAllowed(|everything|, 3) {
        return Failure(RoleCountAssertion(|everything|, 3));
      }
      var infos, roles := CompileCreateInfosAndAssign(everything, 3);
      graphicsQueueIndex, computeQueueIndex, presentQueueIndex := roles[0], roles[1], roles[2];
      r := Success(infos);
    }

    /** Second tier: a family for graphics and presentation, and a compute
        family without graphics. */
    method AssignGraphicsPresentQueues(surface: Surface, gAndP: seq<IndexedFamily>) returns (r: Result<seq<QueueCreateInfo>, QueueError>)
      requires |FindQueueFamilies(physicalDevice, {Graphics, Compute}, {}, Some(surface))| == 0
      requires gAndP == FindQueueFamilies(physicalDevice, {Graphics}, {}, Some(surface)) && |gAndP| != 0
      modifies this`graphicsQueueIndex, this`computeQueueIndex, this`presentQueueIndex
      ensures MainAssigned(surface, r)
    {
      if !CompileAllowed(|gAndP|, 2) {
        return Failure(RoleCountAssertion(|gAndP|, 2));
      }
      var infos, roles := CompileCreateInfosAndAssign(gAndP, 2);
      graphicsQueueIndex, presentQueueIndex := roles[0], roles[1];
      var cOnly := FindQueueFamilies(physicalDevice, {Compute}, {Graphics}, None);
      if |cOnly| == 0 {
        return Failure(NoQueueFamily("c_only"));
      }
      if !CompileAllowed(|cOnly|, 1) {
        return Failure(RoleCountAssertion(|cOnly|, 1));
      }
      var more, computeRole := CompileCreateInfosAndAssign(cOnly, 1);
      computeQueueIndex := computeRole[0];
      r := Success(infos + more);
    }

    /** Third tier: separate graphics, present and compute families. */
    method AssignSeparateQueues(surface: Surface) returns (r: Result<seq<QueueCreateInfo>, QueueError>)
      requires |FindQueueFamilies(physicalDevice, {Graphics, Compute}, {}, Some(surface))| == 0
      requires |FindQueueFamilies(physicalDevice, {Graphics}, {}, Some(surface))| == 0
      modifies this`graphicsQueueIndex, this`computeQueueIndex, this`presentQueueIndex
      ensures MainAssigned(surface, r)
    {
      var gOnly := FindQueueFamilies(physicalDevice, {Graphics}, {}, None);
      var pOnly := FindQueueFamilies(physicalDevice, {}, {}, Some(surface));
      var cOnly := FindQueueFamilies(physicalDevice, {Compute}, {}, None);
      if |gOnly| == 0 {
        return Failure(NoQueueFamily("g_only"));
      }
      if !CompileAllowed(|gOnly|, 1) {
        return Failure(RoleCountAssertion(|gOnly|, 1));
      }
      var infos, roles := CompileCreateInfosAndAssign(gOnly, 1);
      graphicsQueueIndex := roles[0];
      if |pOnly| == 0 {
        return Failure(NoQueueFamily("p_only"));
      }
      if !CompileAllowed(|pOnly|, 1) {
        return Failure(RoleCountAssertion(|pOnly|, 1));
      }
      var more;
      more, roles := CompileCreateInfosAndAssign(pOnly, 1);
      presentQueueIndex := roles[0];
      infos := infos + more;
      if |cOnly| == 0 {
        return Failure(NoQueueFamily("c_only"));
      }
      if !CompileAllowed(|cOnly|, 1) {
        return Failure(RoleCountAssertion(|cOnly|, 1));
      }
      more, roles := CompileCreateInfosAndAssign(cOnly, 1);
      computeQueueIndex := roles[0];
      r := Success(infos + more);
    }

    /** The graphics, compute and present members, tier by tier. */
    method AssignMainQueues(surface: Surface) returns (r: Result<seq<QueueCreateInfo>, QueueError>)
      modifies this`graphicsQueueIndex, this`computeQueueIndex, this`presentQueueIndex
      ensures MainAssigned(surface, r)
    {
      var everything := FindQueueFamilies(physicalDevice, {Graphics, Compute}, {}, Some(surface));
      if |everything| != 0 {
        r := AssignCombinedQueues(surface, everything);
      } else {
        var gAndP := FindQueueFamilies(physicalDevice, {Graphics}, {}, Some(surface));
        if |gAndP| != 0 {
          r := AssignGraphicsPresentQueues(surface, gAndP);
        } else {
          r := AssignSeparateQueues(surface);
        }
      }
    }

    /** The full queue plan as `PlanQueues` states it: on success the four
        role members hold the plan's indices and `infos` its create-infos. */
    ghost predicate PlanAssigned(surface: Surface, r: Result<seq<QueueCreateInfo>, QueueError>)
      reads this`physicalDevice, this`graphicsQueueIndex, this`computeQueueIndex, this`presentQueueIndex, this`transferQueueIndex
    {
      match r
      case Success(infos) =>
        PlanQueues(physicalDevice, surface)
          == Success(QueuePlan(graphicsQueueIndex, computeQueueIndex, presentQueueIndex, transferQueueIndex, infos))
      case Failure(e) => PlanQueues(physicalDevice, surface) == Failure(e)
    }

    /** The transfer member: a transfer family that does neither graphics
        nor compute, or else the graphics family. */
    method AssignTransferQueue(surface: Surface, infos: seq<QueueCreateInfo>) returns (r: Result<seq<QueueCreateInfo>, QueueError>)
      requires MainAssigned(surface, Success(infos))
      modifies this`transferQueueIndex
      ensures PlanAssigned(surface, r)
    {
      var tOnly := FindQueueFamilies(physicalDevice, {Transfer}, {Graphics, Compute}, None);
      if |tOnly| > 0 {
        if !CompileAllowed(|tOnly|, 1) {
          return Failure(RoleCountAssertion(|tOnly|, 1));
        }
        var more, roles := CompileCreateInfosAndAssign(tOnly, 1);
        transferQueueIndex := roles[0];
        r := Success(infos + more);
      } else {
        transferQueueIndex := graphicsQueueIndex;
        r := Success(infos);
      }
    }

    /** The four role members, as `PlanQueues` states them. */
    method AssignQueues(surface: Surface) returns (r: Result<seq<QueueCreateInfo>, QueueError>)
      modifies this`graphicsQueueIndex, this`computeQueueIndex, this`presentQueueIndex, this`transferQueueIndex
      ensures PlanAssigned(surface, r)
    {
      var main := AssignMainQueues(surface);
      if main.Failure? {
        return Failure(main.error);
      }
      r := AssignTransferQueue(surface, main.value);
    }

    /** Creates the device with one queue per create-info, the required
        device extensions, the supported validation layers, sampler
        anisotropy and vertex-pipeline stores, and records the graphics
        index, then the transfer index when it differs, as the
        transfer-and-graphics indices. */
    method CreateDevice(infos: seq<QueueCreateInfo>) returns (device: Handle)
      requires Valid()
      modifies this`deviceInfo, this`logicalDevice, this`nextHandle, this`transferAndGraphicsQueueIndices
      ensures Valid()
      ensures deviceInfo == DeviceCreateInfo(infos, AllRequiredDeviceExtensions(settings.requiredDeviceExtensions),
                                             AssembleValidationLayers(settings.validationLayers, availableLayers), true, true)
      ensures logicalDevice == device == old(nextHandle) && nextHandle == old(nextHandle) + 1
      ensures transferAndGraphicsQueueIndices == old(transferAndGraphicsQueueIndices) + TransferAndGraphics(graphicsQueueIndex, transferQueueIndex)
    {
      deviceInfo := DeviceCreateInfo(infos, AllRequiredDeviceExtensions(settings.requiredDeviceExtensions),
                                     AssembleValidationLayers(settings.validationLayers, availableLayers), true, true);
      device := FreshHandle();
      logicalDevice := device;
      transferAndGraphicsQueueIndices := transferAndGraphicsQueueIndices + [graphicsQueueIndex];
      if graphicsQueueIndex != transferQueueIndex {
        transferAndGraphicsQueueIndices := transferAndGraphicsQueueIndices + [transferQueueIndex];
      }
    }

    /** `create_and_assign_logical_device`: chooses the queue families in the
        three tiers and then the transfer family, assigns the role indices,
        and creates the device with one queue per chosen family, the required
        device extensions, the supported validation layers, sampler
        anisotropy and vertex-pipeline stores enabled. The graphics index,
        followed by the transfer index when it differs, is appended to the
        transfer-and-graphics indices. A missing family or a family count
        the compile step's assertion rejects is an error; the members
        assigned before it are then unspecified. */
    method CreateAndAssignLogicalDevice(surface: Surface) returns (r: Result<Handle, QueueError>)
      requires Valid()
      modifies this`graphicsQueueIndex, this`computeQueueIndex, this`presentQueueIndex, this`transferQueueIndex,
               this`deviceInfo, this`logicalDevice, this`nextHandle, this`transferAndGraphicsQueueIndices
      ensures Valid()
      ensures r.Failure? <==> PlanQueues(physicalDevice, surface).Failure?
      ensures r.Failure? ==> r.error == PlanQueues(physicalDevice, surface).error
      ensures r.Success? ==>
                var p := PlanQueues(physicalDevice, surface).value;
                graphicsQueueIndex == p.graphics && computeQueueIndex == p.compute
                && presentQueueIndex == p.present && transferQueueIndex == p.transfer
                && deviceInfo == DeviceCreateInfo(p.createInfos, AllRequiredDeviceExtensions(settings.requiredDeviceExtensions),
                                                  AssembleValidationLayers(settings.validationLayers, availableLayers), true, true)
                && logicalDevice == r.value == old(nextHandle) && nextHandle == old(nextHandle) + 1
                && transferAndGraphicsQueueIndices == old(transferAndGraphicsQueueIndices) + TransferAndGraphics(p.graphics, p.transfer)
    {
      var planned := AssignQueues(surface);
      if planned.Failure? {
        return Failure(planned.error);
      }
      var device := CreateDevice(planned.value);
      r := Success(device);
    }

    /** `set_sharing_mode_for_transfer` on this context's queue indices. */
    function TransferSharing(info: BufferSharing): (r: BufferSharing)
      reads this
      ensures graphicsQueueIndex == transferQueueIndex ==> r.mode == Exclusive && r.queueFamilyIndices == info.queueFamilyIndices
      ensures graphicsQueueIndex != transferQueueIndex ==>
                r.mode == Concurrent && r.queueFamilyIndices == TransferAndGraphics(graphicsQueueIndex, transferQueueIndex)
    {
      SetSharingModeForTransfer(info, graphicsQueueIndex, transferQueueIndex)
    }

    // ----- swap chains and windows -----

    /** `create_swap_chain`: the create-info from the surface's
        capabilities, formats and present modes and the window's
        parameters; the swap chain handle, the driver's `images`, and one
        new colour view per image in the chosen format. */
    method CreateSwapChain(window: nat, surface: Surface, caps: SurfaceCapabilities, formats: seq<SurfaceFormat>,
                           modes: seq<PresentMode>, params: SwapChainParams, windowExtent: Extent2D, images: seq<Handle>)
      returns (data: SwapChainData, info: SwapChainCreateInfo)
      requires Valid() && |modes| > 0 && SharingFamiliesExist(physicalDevice, surface)
      modifies this`nextHandle
      ensures Valid()
      ensures IsChosenFormat(formats, params.srgbFramebuffer, info.format)
      ensures info == SwapChainCreateInfo(surface, ChooseImageCount(caps), info.format, ChooseExtent(caps, windowExtent), 1,
                                          caps.currentTransform, ChoosePresentMode(params.presentation, modes), true,
                                          ChooseImageSharing(physicalDevice, surface))
      ensures data.window == window && data.surface == surface && data.swapChain == old(nextHandle)
      ensures data.format == info.format && data.extent == info.extent && data.images == images
      ensures |data.imageViews| == |images| && nextHandle == old(nextHandle) + 1 + |images|
      ensures forall k :: 0 <= k < |images| ==>
                data.imageViews[k] == ImageView(old(nextHandle) + 1 + k, images[k], info.format.format)
    {
      var format := ChooseSurfaceFormat(formats, params.srgbFramebuffer);
      info := SwapChainCreateInfo(surface, ChooseImageCount(caps), format, ChooseExtent(caps, windowExtent), 1,
                                  caps.currentTransform, ChoosePresentMode(params.presentation, modes), true,
                                  ChooseImageSharing(physicalDevice, surface));
      var swapChain := FreshHandle();
      var views: seq<ImageView> := [];
      for k := 0 to |images|
        invariant nextHandle == swapChain + 1 + k && |views| == k
        invariant forall j :: 0 <= j < k ==> views[j] == ImageView(swapChain + 1 + j, images[j], format.format)
      {
        var h := FreshHandle();
        views := views + [ImageView(h, images[k], format.format)];
      }
      data := SwapChainData(window, surface, swapChain, format, info.extent, images, views);
    }

    /** The initialisation the first window completes: the logical device
        for its surface (which fails exactly as
        `CreateAndAssignLogicalDevice` states), then the configured
        frames-in-flight count and that many synchronisation objects of each
        kind. */
    method CompleteInitialisation(surface: Surface) returns (r: Result<Handle, QueueError>)
      requires Valid()
      modifies this`graphicsQueueIndex, this`computeQueueIndex, this`presentQueueIndex, this`transferQueueIndex,
               this`deviceInfo, this`logicalDevice, this`nextHandle, this`transferAndGraphicsQueueIndices,
               this`maxFramesInFlight, this`imageAvailableSemaphores, this`renderFinishedSemaphores, this`inFlightFences,
               this`fenceSignalled
      ensures Valid()
      ensures r.Failure? ==> maxFramesInFlight == old(maxFramesInFlight) && inFlightFences == old(inFlightFences)
      ensures r.Failure? ==>
                imageAvailableSemaphores == old(imageAvailableSemaphores) && renderFinishedSemaphores == old(renderFinishedSemaphores)
                && fenceSignalled == old(fenceSignalled)
      ensures r.Success? ==>
                logicalDevice == r.value != NullHandle && maxFramesInFlight == settings.maxFramesInFlight
                && |inFlightFences| == |old(inFlightFences)| + settings.maxFramesInFlight
                && fenceSignalled == old(fenceSignalled) + seq(settings.maxFramesInFlight, k => true)
    {
      r := CreateAndAssignLogicalDevice(surface);
      if r.Failure? {
        return;
      }
      maxFramesInFlight := settings.maxFramesInFlight;
      CreateSyncObjects();
    }

    /** Creates the window's swap chain and appends it to the per-window
        data. */
    method AddSwapChain(window: nat, surface: Surface, caps: SurfaceCapabilities, formats: seq<SurfaceFormat>,
                        modes: seq<PresentMode>, params: SwapChainParams, windowExtent: Extent2D, images: seq<Handle>)
      requires Valid() && |modes| > 0 && SharingFamiliesExist(physicalDevice, surface)
      modifies this`nextHandle, this`surfSwap
      ensures Valid()
      ensures |surfSwap| == |old(surfSwap)| + 1 && surfSwap[..|old(surfSwap)|] == old(surfSwap)
      ensures surfSwap[|old(surfSwap)|].window == window && surfSwap[|old(surfSwap)|].surface == surface
      ensures IsChosenFormat(formats, params.srgbFramebuffer, surfSwap[|old(surfSwap)|].format)
      ensures surfSwap[|old(surfSwap)|].images == images && |surfSwap[|old(surfSwap)|].imageViews| == |images|
    {
      var data, info := CreateSwapChain(window, surface, caps, formats, modes, params, windowExtent, images);
      surfSwap := surfSwap + [data];
    }

    /** A fresh surface, which the given queue families can present to. */
    method CreateSurface(presentFamilies: set<nat>) returns (surface: Surface)
      requires Valid()
      modifies this`nextHandle, this`physicalDevice
      ensures Valid()
      ensures surface == old(nextHandle) && nextHandle == surface + 1
      ensures physicalDevice == old(physicalDevice).(presentSupport := old(physicalDevice.presentSupport)
                                                        + (set f | f in presentFamilies :: (f, surface)))
    {
      surface := FreshHandle();
      physicalDevice := physicalDevice.(presentSupport := physicalDevice.presentSupport + (set f | f in presentFamilies :: (f, surface)));
    }

    /** The swap-chain part of `create_window`: fails when no graphics and
        present families exist for the surface, otherwise appends the
        window's swap chain. */
    method AttachSwapChain(window: nat, surface: Surface, caps: SurfaceCapabilities, formats: seq<SurfaceFormat>,
                           modes: seq<PresentMode>, params: SwapChainParams, windowExtent: Extent2D, images: seq<Handle>)
      returns (r: Result<Surface, ContextError>)
      requires Valid() && |modes| > 0
      modifies this`nextHandle, this`surfSwap
      ensures Valid()
      ensures r.Success? <==> SharingFamiliesExist(physicalDevice, surface)
      ensures r.Failure? ==> r == Failure(NoSharingFamilies) && surfSwap == old(surfSwap)
      ensures r.Success? ==>
                r.value == surface && |surfSwap| == |old(surfSwap)| + 1 && surfSwap[..|old(surfSwap)|] == old(surfSwap)
                && surfSwap[|old(surfSwap)|].window == window && surfSwap[|old(surfSwap)|].surface == surface
                && IsChosenFormat(formats, params.srgbFramebuffer, surfSwap[|old(surfSwap)|].format)
                && surfSwap[|old(surfSwap)|].images == images && |surfSwap[|old(surfSwap)|].imageViews| == |images|
    {
      if !SharingFamiliesExist(physicalDevice, surface) {
        return Failure(NoSharingFamilies);
      }
      AddSwapChain(window, surface, caps, formats, modes, params, windowExtent, images);
      r := Success(surface);
    }

    /** `create_window`: the window's surface, then, for window 0, the rest
        of the initialisation (the logical device, the configured
        frames-in-flight count and the synchronisation objects), then the
        window's swap chain, appended to the per-window data. The windowing
        system and the driver are parameters: whether the surface could be
        created, the queue families that can present to it, and what the
        surface offers. */
    method CreateWindow(window: nat, surfaceCreated: bool, presentFamilies: set<nat>, caps: SurfaceCapabilities,
                        formats: seq<SurfaceFormat>, modes: seq<PresentMode>, params: SwapChainParams,
                        windowExtent: Extent2D, images: seq<Handle>)
      returns (r: Result<Surface, ContextError>)
      requires Valid() && |modes| > 0
      modifies this`physicalDevice, this`graphicsQueueIndex, this`computeQueueIndex, this`presentQueueIndex, this`transferQueueIndex,
               this`deviceInfo, this`logicalDevice, this`nextHandle, this`transferAndGraphicsQueueIndices,
               this`maxFramesInFlight, this`imageAvailableSemaphores, this`renderFinishedSemaphores, this`inFlightFences,
               this`fenceSignalled, this`surfSwap
      ensures Valid()
      ensures !surfaceCreated ==> r == Failure(SurfaceCreationFailed)
      ensures surfaceCreated ==>
                physicalDevice.presentSupport == old(physicalDevice.presentSupport) + (set f | f in presentFamilies :: (f, old(nextHandle)))
      ensures r.Failure? && r.error.QueueSetupFailed? ==> surfaceCreated && window == 0
      ensures surfaceCreated && !(r.Failure? && r.error.QueueSetupFailed?) ==>
                (r.Success? <==> SharingFamiliesExist(physicalDevice, old(nextHandle)))
      ensures r.Failure? ==> surfSwap == old(surfSwap)
      ensures r.Success? ==>
                r.value == old(nextHandle) && |surfSwap| == |old(surfSwap)| + 1 && surfSwap[..|old(surfSwap)|] == old(surfSwap)
                && surfSwap[|old(surfSwap)|].window == window && surfSwap[|old(surfSwap)|].surface == r.value
                && IsChosenFormat(formats, params.srgbFramebuffer, surfSwap[|old(surfSwap)|].format)
                && surfSwap[|old(surfSwap)|].images == images && |surfSwap[|old(surfSwap)|].imageViews| == |images|
      ensures r.Success? && window == 0 ==>
                logicalDevice != NullHandle && maxFramesInFlight == settings.maxFramesInFlight
                && |inFlightFences| == |old(inFlightFences)| + settings.maxFramesInFlight
                && fenceSignalled == old(fenceSignalled) + seq(settings.maxFramesInFlight, k => true)
      ensures window != 0 ==>
                logicalDevice == old(logicalDevice) && maxFramesInFlight == old(maxFramesInFlight)
                && inFlightFences == old(inFlightFences) && fenceSignalled == old(fenceSignalled)
    {
      if !surfaceCreated {
        return Failure(SurfaceCreationFailed);
      }
      var surface := CreateSurface(presentFamilies);
      if window == 0 {
        var device := CompleteInitialisation(surface);
        if device.Failure? {
          return Failure(QueueSetupFailed(device.error));
        }
      }
      r := AttachSwapChain(window, surface, caps, formats, modes, params, windowExtent, images);
    }

    // ----- framebuffers -----

    /** `create_framebuffers` for a swap chain: one framebuffer per image
        view, attaching the view and the shared depth view, of the chain's
        extent and one layer. */
    method CreateFramebuffers(renderPass: Handle, data: SwapChainData, depthView: Handle) returns (framebuffers: seq<Framebuffer>)
      requires nextHandle > 0
      modifies this`nextHandle
      ensures |framebuffers| == |data.imageViews| && nextHandle == old(nextHandle) + |data.imageViews|
      ensures forall k :: 0 <= k < |data.imageViews| ==>
                framebuffers[k] == Framebuffer(old(nextHandle) + k, renderPass, [data.imageViews[k].handle, depthView],
                                               data.extent.width, data.extent.height, 1)
    {
      framebuffers := [];
      for k := 0 to |data.imageViews|
        invariant nextHandle == old(nextHandle) + k && |framebuffers| == k
        invariant forall j :: 0 <= j < k ==>
                    framebuffers[j] == Framebuffer(old(nextHandle) + j, renderPass, [data.imageViews[j].handle, depthView],
                                                   data.extent.width, data.extent.height, 1)
      {
        var h := FreshHandle();
        framebuffers := framebuffers + [Framebuffer(h, renderPass, [data.imageViews[k].handle, depthView],
                                                    data.extent.width, data.extent.height, 1)];
      }
    }

    /** `create_framebuffers` for a window, which must have a swap chain. */
    method CreateFramebuffersForWindow(renderPass: Handle, window: nat, depthView: Handle) returns (framebuffers: seq<Framebuffer>)
      requires nextHandle > 0 && SurfSwapForWindow(window).Some?
      modifies this`nextHandle
      ensures var data := surfSwap[SurfSwapForWindow(window).value];
              data.window == window && |framebuffers| == |data.imageViews|
              && forall k :: 0 <= k < |framebuffers| ==>
                   framebuffers[k].attachments == [data.imageViews[k].handle, depthView]
                   && framebuffers[k].width == data.extent.width && framebuffers[k].height == data.extent.height
    {
      var data := surfSwap[SurfSwapForWindow(window).value];
      framebuffers := CreateFramebuffers(renderPass, data, depthView);
    }

    // ----- teardown -----

    /** Destroys the views one by one, in order. */
    method DestroyImageViews(views: seq<ImageView>)
      modifies this`events
      ensures events == old(events) + ViewEvents(views)
    {
      for j := 0 to |views|
        invariant events == old(events) + ViewEvents(views[..j])
      {
        events := events + [DestroyImageView(views[j].handle)];
        assert ViewEvents(views[..j + 1]) == ViewEvents(views[..j]) + [DestroyImageView(views[j].handle)];
      }
      assert views[..|views|] == views;
    }

    /** For each window in order: destroys its image views, its swap chain
        and its surface and closes the window; then forgets them all. */
    method DestroyChains()
      modifies this`surfSwap, this`events
      ensures events == old(events) + ChainsEvents(old(surfSwap)) && surfSwap == []
    {
      var chains := surfSwap;
      for i := 0 to |chains|
        invariant events == old(events) + ChainsEvents(chains[..i])
      {
        var c := chains[i];
        DestroyImageViews(c.imageViews);
        events := events + [DestroySwapchain(c.swapChain), DestroySurface(c.surface), CloseWindow(c.window)];
        assert chains[..i + 1][..i] == chains[..i];
      }
      assert chains[..|chains|] == chains;
      surfSwap := [];
    }

    /** Clears the descriptor pools, then the command pools. */
    method ReleasePools()
      modifies this`descriptorPools, this`commandPools, this`events
      ensures events == old(events) + [DescriptorPoolsCleared(DescriptorPoolHandles(old(descriptorPools))),
                                       CommandPoolsCleared(CommandPoolHandles(old(commandPools)))]
      ensures descriptorPools == [] && commandPools == []
    {
      events := events + [DescriptorPoolsCleared(DescriptorPoolHandles(descriptorPools))];
      descriptorPools := [];
      events := events + [CommandPoolsCleared(CommandPoolHandles(commandPools))];
      commandPools := [];
    }

    /** Destroys the device, unhooks the debug messenger when `unhook`
        holds, and destroys the instance. */
    method ReleaseDeviceAndInstance(unhook: bool)
      modifies this`events
      ensures events == old(events) + [DestroyDevice(logicalDevice)]
                        + (if unhook then [DestroyDebugMessenger(debugMessenger)] else []) + [DestroyInstance(instance)]
    {
      events := events + [DestroyDevice(logicalDevice)];
      if unhook {
        events := events + [DestroyDebugMessenger(debugMessenger)];
      }
      events := events + [DestroyInstance(instance)];
    }

    /** The destructor: clears the descriptor pools and the command pools,
        destroys each window's image views, swap chain and surface and closes
        the window, destroys the synchronisation objects and the device, then
        unhooks the debug messenger (when logging is compiled in and the
        destroy entry point is found) and destroys the instance. */
    method Destroy(destroyProcFound: bool)
      requires Valid()
      modifies this`descriptorPools, this`commandPools, this`surfSwap, this`imageAvailableSemaphores,
               this`renderFinishedSemaphores, this`inFlightFences, this`fenceSignalled, this`events
      ensures Valid()
      ensures events == old(events) + TeardownTrace(
                DescriptorPoolHandles(old(descriptorPools)), CommandPoolHandles(old(commandPools)), old(surfSwap),
                old(inFlightFences), old(renderFinishedSemaphores), old(imageAvailableSemaphores),
                logicalDevice, settings.logLevel > 0 && destroyProcFound, debugMessenger, instance)
      ensures descriptorPools == [] && commandPools == [] && surfSwap == []
      ensures imageAvailableSemaphores == [] && renderFinishedSemaphores == [] && inFlightFences == [] && fenceSignalled == []
    {
      ghost var start := events;
      ghost var chainEvents := ChainsEvents(surfSwap);
      ghost var syncEvents := SyncEvents(inFlightFences, renderFinishedSemaphores, imageAvailableSemaphores);
      var unhook := settings.logLevel > 0 && destroyProcFound;
      ghost var messengerEvents := if unhook then [DestroyDebugMessenger(debugMessenger)] else [];
      ReleasePools();
      ghost var done := events[|start|..];
      assert events == start + done;
      DestroyChains();
      AppendAssociates(start, done, chainEvents);
      done := done + chainEvents;
      CleanupSyncObjects();
      AppendAssociates(start, done, syncEvents);
      done := done + syncEvents;
      ReleaseDeviceAndInstance(unhook);
      AppendAssociates(start, done, [DestroyDevice(logicalDevice)]);
      done := done + [DestroyDevice(logicalDevice)];
      AppendAssociates(start, done, messengerEvents);
      done := done + messengerEvents;
      AppendAssociates(start, done, [DestroyInstance(instance)]);
      done := done + [DestroyInstance(instance)];
    }
  }
}
