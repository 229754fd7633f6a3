# Vulkan context and key-state flags: a Dafny model

This project models the decision logic and bookkeeping of the framework's
Vulkan context (`cgb::vulkan`, `framework/src/context_vulkan.cpp`) and the
key-state flag algebra (`cgb::key_state`, `framework/include/key_state.h`).
Every Vulkan or GLFW call is treated as a factory of fresh opaque handles,
drawn from a counter, or as a query whose answer is a parameter. What is
left is rules over lists and bit sets, plus vectors that the context grows,
searches and clears in a fixed order. These are modelled as follows.

- `Instance` covers the instance and the validation hook:
  - the order-preserving filter of the configured validation layers;
  - the instance extension list;
  - the severities the debug messenger subscribes to at each log level;
  - the debug callback's type description and severity routing.
- `DeviceSelection` covers the device score and `pick_physical_device`. The
  first device with the strictly greatest positive score wins. The message
  of the failure depends on whether device extensions are *configured*.
- `QueueFamilies` covers:
  - the family filter (a non-empty forbidden mask rejects only a family that
    has *all* of its bits);
  - `compile_create_infos_and_assign_members`, whose assertion becomes a
    precondition, or an error value in the callers;
  - the queue plan of `create_and_assign_logical_device`, in its three
    tiers with the transfer fallback;
  - `set_sharing_mode_for_transfer`.
- `SwapChain` covers extent, image-count (32-bit wrap-around included),
  present-mode, surface-format and image-sharing negotiation.
- `Pipelines` covers the fixed render-pass and ray-tracing shader-group
  records.
- `DeviceQueries` covers `find_memory_type_index` and `is_format_supported`.
- `FrameRing` covers the frames-in-flight slot arithmetic.
- `Teardown` covers the destructor's order as an event trace, with lemmas
  proving that the trace never returns to an earlier stage. The logical
  device is destroyed before the debug messenger, as the code does.
- `Context` holds the class `Vulkan`, whose fields are the context's
  members. Its methods:
  - create the synchronisation objects, begin frames and clean up;
  - look up command pools and the descriptor pool;
  - look up windows, create the logical device, the swap chains and the
    framebuffers;
  - run the destructor.

  Each method is proved against the specification functions of the other
  modules.
- `KeyStateFlags` models `|`, `&`, `|=` and `&=` as bitwise OR and AND on
  the underlying integer. The bit operations themselves are in `Bits`.

## Model

| member | source | states |
|---|---|---|
| KeyStateFlags.Or | framework/include/key_state.h:15-19 | bit i of `a \| b` is set iff it is set in `a` or in `b` |
| KeyStateFlags.And | framework/include/key_state.h:21-25 | bit i of `a & b` is set iff it is set in both `a` and `b` |
| KeyStateFlags.OrAssign | framework/include/key_state.h:27-30 | the new value of `a` (also the returned value) is the old `a \| b`; it keeps every bit of the old `a` and gains every bit of `b` |
| KeyStateFlags.AndAssign | framework/include/key_state.h:32-35 | the new value of `a` (also the returned value) is the old `a & b`; it keeps exactly those old bits that `b` also has |
| KeyStateFlags.EnumeratorsAreDisjointBits | framework/include/key_state.h:7-13 | `none` has no bit; `pressed`, `down` and `released` are exactly bits 0, 1 and 2; so any two of them AND to `none` |
| KeyStateFlags.OrAlgebra | framework/include/key_state.h:15-19 | `\|` is commutative, associative and idempotent, with `none` as its identity |
| KeyStateFlags.AndWithNone | framework/include/key_state.h:21-25 | `a & none == none & a == none` |
| KeyStateFlags.Absorption | framework/include/key_state.h:15-25 | `(a \| b) & b == b` and `(a & b) \| b == b` |
| KeyStateFlags.CombinationsFitThreeBits | framework/include/key_state.h:7-25 | combining values below 8 with `\|` or `&` stays below 8, so the integer's width never matters |
| Bits.BitOr | framework/include/key_state.h:18 | bitwise OR: each bit of the result is the OR of the operands' bits |
| Bits.BitAnd | framework/include/key_state.h:24 | bitwise AND: each bit of the result is the AND of the operands' bits |
| Bits.BitsDetermineValue | framework/include/key_state.h:15-25 | two flag values with the same bits are equal |
| Bits.BitOrWithinWidth | framework/include/key_state.h:18 | the OR of two k-bit values is a k-bit value |
| Bits.BitAndAtMost | framework/include/key_state.h:24 | the AND never exceeds either operand |
| Instance.AssembleValidationLayers | framework/src/context_vulkan.cpp:12-26 | the result is a subsequence of the configured layers; every kept layer is available; each layer occurs as often as configured if available, otherwise not at all |
| Instance.InstanceExtensions | framework/src/context_vulkan.cpp:163-177 | the windowing extensions, then the configured ones, then the debug-utils extension exactly when some validation layer survived |
| Instance.CreateInstanceInfo | framework/src/context_vulkan.cpp:156-188 | the given application name and version, engine "cg_base" 0.1.0 on API version 1.1.0; the enabled layers are the assembled validation layers (a layer is enabled iff it is configured and available) and the enabled extensions are the instance extension list for those layers |
| Instance.DebugExtensionIffSomeLayerSupported | framework/src/context_vulkan.cpp:172-177 | the extension list has one entry beyond windowing and configured extensions iff some configured layer is available |
| Instance.SeverityMask | framework/src/context_vulkan.cpp:298-309 | errors always, warnings iff level > 1, infos iff level > 2, verbose iff level > 3, nothing else |
| Instance.SetupDebugCallback | framework/src/context_vulkan.cpp:289-329 | no messenger iff the log level is 0 or no layer is configured; otherwise the failure names the missing entry point or the failed creation, and success subscribes the level's severities and all three message types |
| Instance.SeparatedTypeNames | framework/src/context_vulkan.cpp:243-252 | the appended fragments equal the names of the set type bits, in order General, Validation, Performance, each followed by ", " |
| Instance.StripLastSeparator | framework/src/context_vulkan.cpp:253-256 | dropping the last two characters of the separated names gives the names joined by ", " |
| Instance.RouteSeverity | framework/src/context_vulkan.cpp:258-285 | the message is logged as error, warning, info or verbose by the severity's numeric range, and not at all for severity 0 |
| Instance.SubscribedSeveritiesAreLogged | framework/src/context_vulkan.cpp:258-309 | every severity the messenger subscribes to is logged, at the level of the same name |
| Instance.DebugCallback | framework/src/context_vulkan.cpp:236-287 | never aborts the call; routes by severity; the description is empty iff no known type bit is set, otherwise "(" + the joined type names + ") " |
| DeviceSelection.AllRequiredDeviceExtensions | framework/src/context_vulkan.cpp:382-388 | the configured extensions in order, then the swap-chain extension |
| DeviceSelection.SupportsAllRequiredExtensions | framework/src/context_vulkan.cpp:390-410 | true iff every required extension is among the device's |
| DeviceSelection.ProbeQueueFamilies | framework/src/context_vulkan.cpp:429-434 | the two flags say whether some family supports graphics and whether some family supports compute |
| DeviceSelection.FindCaseInsensitive | framework/src/context_vulkan.cpp:443 | the first position at or after `from` where the needle occurs ignoring ASCII case, or none when there is no such position |
| DeviceSelection.Score | framework/src/context_vulkan.cpp:438-452 | at most 31; positive only for a device with every required extension and sampler anisotropy; at least 10 for such a device with a graphics family |
| DeviceSelection.CapabilityOutweighsVendor | framework/src/context_vulkan.cpp:438-443 | between qualifying devices, a higher capability score always wins despite the vendor bonus |
| DeviceSelection.DiscreteBeatsIntegrated | framework/src/context_vulkan.cpp:438-443 | a qualifying discrete GPU with graphics and compute outscores every integrated GPU |
| DeviceSelection.RateDevice | framework/src/context_vulkan.cpp:425-452 | one loop iteration's score equals the score function |
| DeviceSelection.PickPhysicalDevice | framework/src/context_vulkan.cpp:412-471 | fails with "no device" iff the list is empty; succeeds iff some device scores above 0, choosing the first device with the greatest score; otherwise the error depends on whether device extensions are configured |
| QueueFamilies.FindFrom | framework/src/context_vulkan.cpp:473-505 | the families from `from` on that meet the criteria, each with its own index and properties, in increasing index order, each exactly once |
| QueueFamilies.FindQueueFamilies | framework/src/context_vulkan.cpp:473-505 | an order-preserving selection of (index, family) pairs: a family is selected iff it meets the required, forbidden and surface criteria |
| QueueFamilies.ForbiddenExcludesOnlyAllBits | framework/src/context_vulkan.cpp:496-498 | for the transfer search, a transfer family is rejected iff it has both graphics and compute |
| QueueFamilies.CreateInfosFor | framework/src/context_vulkan.cpp:514-518 | one create-info with one queue per family, in input order |
| QueueFamilies.RoleIndices | framework/src/context_vulkan.cpp:519-527 | one index per role, each a selected family; with one family per role, role k gets family k's index; with a single family every role gets its index |
| QueueFamilies.CompileCreateInfosAndAssign | framework/src/context_vulkan.cpp:508-530 | the loop yields the create-infos of the families and assigns role i to family i, or every role to the single family |
| QueueFamilies.Compile | framework/src/context_vulkan.cpp:511-530 | succeeds iff the assertion's count condition holds, and then yields the create-infos and role indices |
| QueueFamilies.PlanRolesHaveCapabilities | framework/src/context_vulkan.cpp:532-596 | on success the graphics family supports graphics, compute supports compute, present can present to the surface, transfer supports transfer or is the graphics family, and every role's family has a create-info |
| QueueFamilies.MainRolesHaveCapabilities | framework/src/context_vulkan.cpp:538-587 | the graphics, compute and present roles of the three tiers have their capabilities and create-infos |
| QueueFamilies.CombinedTierServesRoles | framework/src/context_vulkan.cpp:540-543 | in the first tier all three roles go to graphics-and-compute families that can present |
| QueueFamilies.GraphicsPresentTierServesRoles | framework/src/context_vulkan.cpp:544-557 | in the second tier graphics and present go to a graphics family that can present, and compute to a compute family |
| QueueFamilies.SeparateTierServesRoles | framework/src/context_vulkan.cpp:558-586 | in the third tier each role goes to a family with its own capability |
| QueueFamilies.SingleCombinedFamilyTakesAllRoles | framework/src/context_vulkan.cpp:540-543 | when exactly one family does graphics, compute and presentation, all three roles get it and there is one create-info |
| QueueFamilies.CountSingleMatch | framework/src/context_vulkan.cpp:489-505 | when only family i meets the criteria, exactly one family from `from` on does if `from <= i` |
| QueueFamilies.TransferFallsBackToGraphics | framework/src/context_vulkan.cpp:588-596 | without a dedicated transfer family the transfer role is the graphics family and no create-info is added |
| QueueFamilies.TypicalDevicePlan | framework/src/context_vulkan.cpp:532-596 | a device with one all-purpose family and one transfer-only family plans (0, 0, 0, 1) with one create-info per family |
| QueueFamilies.TransferAndGraphics | framework/src/context_vulkan.cpp:624-627 | exactly `[graphics, transfer]` when they differ, `[graphics]` when they coincide |
| QueueFamilies.SetSharingModeForTransfer | framework/src/context_vulkan.cpp:1182-1192 | exclusive iff graphics equals transfer (indices untouched); otherwise concurrent between graphics and transfer |
| SwapChain.Clamp | framework/src/context_vulkan.cpp:642-645 | the value of `min(max(x, lo), hi)`: `x` inside [lo, hi], `lo` below a non-empty range, `hi` above it or when the range is empty |
| SwapChain.ChooseExtent | framework/src/context_vulkan.cpp:641-645 | the current extent verbatim unless its width is UINT32_MAX; then exactly the window extent with each component clamped to the surface's bounds (so inside them, and the window extent itself when it already fits) |
| SwapChain.ChooseImageCount | framework/src/context_vulkan.cpp:696-699 | min+1, never above a non-zero maximum, at least the minimum when that fits; wraps to 0 for a minimum of UINT32_MAX |
| SwapChain.ChoosePresentMode | framework/src/context_vulkan.cpp:648-672 | an offered mode: the preferred one if offered, otherwise the first offered |
| SwapChain.ChooseSurfaceFormat | framework/src/context_vulkan.cpp:674-694 | the default for a single UNDEFINED format, otherwise the first format with the wished sRGB encoding, or the default when none has it |
| SwapChain.ChooseImageSharing | framework/src/context_vulkan.cpp:717-742 | exclusive iff some graphics family can present to the surface; otherwise concurrent between the lowest-index graphics family and the lowest-index family that can present to the surface, which differ |
| SwapChain.SharingAgreesWithQueuePlan | framework/src/context_vulkan.cpp:717-742 | when the queue plan succeeds, the sharing families exist, and concurrent sharing is between exactly the planned graphics and present families |
| Pipelines.CreateRenderPassInfo | framework/src/context_vulkan.cpp:786-850 | a well-formed pass: the colour attachment ends presentable, the depth attachment ends depth-optimal, one subpass references both, one dependency runs from outside the pass to subpass 0 |
| Pipelines.CreateRayTracingPipelineInfo | framework/src/context_vulkan.cpp:1031-1076 | one stage with entry point "main" per shader, in order; the three fixed groups; recursion depth 1 |
| Pipelines.ShaderGroupsValidIff | framework/src/context_vulkan.cpp:1043-1067 | the fixed groups are valid iff shaders 0 and 2 are raygen, miss or callable and shader 1 is a closest-hit shader |
| DeviceQueries.FindMemoryTypeIndex | framework/src/context_vulkan.cpp:1166-1180 | the lowest index whose type bit is set and whose properties include the required ones; an error iff there is none |
| DeviceQueries.IsFormatSupported | framework/src/context_vulkan.cpp:1242-1255 | true iff the tiling is linear or optimal and offers every wanted feature |
| DeviceQueries.FormatSupportMonotone | framework/src/context_vulkan.cpp:1242-1255 | asking for fewer features never removes support; asking for none succeeds with linear or optimal tiling |
| FrameRing.Slot | framework/src/context_vulkan.cpp:97-107 | the slot is below the ring size, and is the counter itself while the counter is below it |
| FrameRing.SlotPeriodic | framework/src/context_vulkan.cpp:97-107 | frames N apart use the same fence slot |
| FrameRing.FirstFramesVisitEachSlotOnce | framework/src/context_vulkan.cpp:97-107 | the first `count <= N` frames use each slot below `count` once and no other slot |
| FrameRing.ShiftedVisits | framework/src/context_vulkan.cpp:97-107 | moving a window of frames by one trades the first frame's slot for the next frame's |
| FrameRing.EveryWindowVisitsEachSlotOnce | framework/src/context_vulkan.cpp:97-107 | any N consecutive frames use every fence slot exactly once |
| Teardown.ViewEvents | framework/src/context_vulkan.cpp:59-62 | one view destruction per view, in order |
| Teardown.ChainEvents | framework/src/context_vulkan.cpp:58-66 | a chain's teardown is its views, then three more events, all of the swap-chain stage |
| Teardown.ChainsEvents | framework/src/context_vulkan.cpp:58-67 | every event of the chains' teardown belongs to the swap-chain stage |
| Teardown.FenceEvents | framework/src/context_vulkan.cpp:210-213 | one fence destruction per fence, in order |
| Teardown.SemaphoreEvents | framework/src/context_vulkan.cpp:215-223 | one semaphore destruction per semaphore, in order |
| Teardown.FrontIsOrdered | framework/src/context_vulkan.cpp:49-68 | descriptor pools, then command pools, then swap chains |
| Teardown.SyncFollows | framework/src/context_vulkan.cpp:68-71 | the synchronisation objects follow the swap chains, fences before render-finished before image-available semaphores |
| Teardown.BackFollows | framework/src/context_vulkan.cpp:72-85 | the device, then the messenger if unhooked, then the instance close the teardown |
| Teardown.TeardownIsOrdered | framework/src/context_vulkan.cpp:47-86 | the destructor's trace never returns to an earlier stage |
| Teardown.ChainTeardownOrder | framework/src/context_vulkan.cpp:58-66 | within the chains' teardown, each chain's views come first, then its swap chain, surface and window |
| Context.FindChain | framework/src/context_vulkan.cpp:342-380 | the first chain from `from` on that matches the key, or none when no chain matches |
| Context.Vulkan.constructor | framework/src/context_vulkan.cpp:28-45 | after construction: instance and messenger handles, the chosen device, frame counter 0, no device, no windows, pools or sync objects |
| Context.Vulkan.Create | framework/src/context_vulkan.cpp:28-45 | debug-setup failures and device-pick failures become errors; success iff some device scores above 0; the instance info is the assembled one; a messenger exists iff the hook was set up; the device is the first best |
| Context.Vulkan.CreateSyncObjects | framework/src/context_vulkan.cpp:190-206 | appends N fresh image-available semaphores, N render-finished semaphores and N fences created signalled |
| Context.Vulkan.CleanupSyncObjects | framework/src/context_vulkan.cpp:208-224 | destroys the fences, then the render-finished, then the image-available semaphores, leaves all three vectors empty and keeps the context's invariant |
| Context.Vulkan.DestroyFences | framework/src/context_vulkan.cpp:208-211 | one fence destruction per fence, in order |
| Context.Vulkan.DestroySemaphores | framework/src/context_vulkan.cpp:213-221 | one semaphore destruction per semaphore of the role, in order |
| Context.Vulkan.CurrentFenceSlot | framework/src/context_vulkan.cpp:101-104 | the current fence slot lies within the frames in flight |
| Context.Vulkan.BeginFrame | framework/src/context_vulkan.cpp:97-107 | the frame counter grows by exactly 1 and the new frame's fence is reset, every other fence unchanged |
| Context.Vulkan.GetCommandPoolForQueueFamily | framework/src/context_vulkan.cpp:1111-1127 | returns a pool for the family; a hit leaves the pools unchanged, a miss appends exactly one fresh pool; no two pools share a family |
| Context.Vulkan.CreateCommandBuffers | framework/src/context_vulkan.cpp:1129-1149 | `count` fresh, distinct buffers, all from the family's pool, each with the given usage flags |
| Context.Vulkan.GetDescriptorPool | framework/src/context_vulkan.cpp:1194-1224 | creates a pool with four 128-descriptor types and 128 sets only when none exists, otherwise returns the existing one |
| Context.Vulkan.SurfSwapForWindow | framework/src/context_vulkan.cpp:342-354 | the first chain of the window, or none when no chain belongs to it |
| Context.Vulkan.SurfSwapForSurface | framework/src/context_vulkan.cpp:356-367 | the first chain on the surface, or none |
| Context.Vulkan.SurfSwapForSwapChain | framework/src/context_vulkan.cpp:369-380 | the first chain with the swap-chain handle, or none |
| Context.Vulkan.AssignCombinedQueues | framework/src/context_vulkan.cpp:540-543 | the members hold the first tier's plan, or the plan's error |
| Context.Vulkan.AssignGraphicsPresentQueues | framework/src/context_vulkan.cpp:544-557 | the members hold the second tier's plan, or the plan's error |
| Context.Vulkan.AssignSeparateQueues | framework/src/context_vulkan.cpp:558-586 | the members hold the third tier's plan, or the plan's error |
| Context.Vulkan.AssignMainQueues | framework/src/context_vulkan.cpp:538-587 | the graphics, compute and present members hold the planned indices, or the plan's error is returned |
| Context.Vulkan.AssignTransferQueue | framework/src/context_vulkan.cpp:588-596 | the transfer member holds a dedicated transfer family or the graphics index, completing the plan |
| Context.Vulkan.AssignQueues | framework/src/context_vulkan.cpp:538-596 | all four role members hold the plan's indices, or the plan's error is returned |
| Context.Vulkan.CreateDevice | framework/src/context_vulkan.cpp:598-627 | the device gets the create-infos, the required device extensions, the supported layers, anisotropy and vertex stores; graphics then a differing transfer index are recorded |
| Context.Vulkan.CreateAndAssignLogicalDevice | framework/src/context_vulkan.cpp:532-628 | fails iff the queue plan fails, with its error; on success the role members, the device create-info and the transfer-and-graphics indices follow the plan |
| Context.Vulkan.TransferSharing | framework/src/context_vulkan.cpp:1182-1192 | exclusive with untouched indices when graphics and transfer coincide, otherwise concurrent between them |
| Context.Vulkan.CreateSwapChain | framework/src/context_vulkan.cpp:630-784 | the create-info uses the chosen count, format, extent, present mode and sharing; there is one fresh view per image, view k of image k, in the chosen format |
| Context.Vulkan.CompleteInitialisation | framework/src/context_vulkan.cpp:140-146 | on success the device exists, the configured frames-in-flight count is in effect and that many signalled fences are added; on failure nothing of the sync state changes |
| Context.Vulkan.AddSwapChain | framework/src/context_vulkan.cpp:148-152 | appends exactly one chain for the window and surface, with the chosen format and one view per image |
| Context.Vulkan.CreateWindow | framework/src/context_vulkan.cpp:134-154 | surface failure is an error; window 0 completes initialisation; success iff the sharing families exist; the new chain is appended; other windows leave device and sync state alone |
| Context.Vulkan.CreateSurface | framework/src/context_vulkan.cpp:331-341 | a fresh surface handle; the device records that exactly the given families can also present to it, and nothing else about the device changes |
| Context.Vulkan.AttachSwapChain | framework/src/context_vulkan.cpp:148-152 | succeeds iff graphics and present families exist for the surface; on failure the chains are unchanged, on success the window's swap chain is appended |
| Context.Vulkan.CreateFramebuffers | framework/src/context_vulkan.cpp:1093-1109 | one fresh framebuffer per view, in order, attaching the view and the depth view, at the chain's extent with one layer |
| Context.Vulkan.CreateFramebuffersForWindow | framework/src/context_vulkan.cpp:1086-1091 | the framebuffers of the window's first chain: one per view, attaching that view and the depth view |
| Context.Vulkan.DestroyImageViews | framework/src/context_vulkan.cpp:59-62 | records one destruction per view, in order |
| Context.Vulkan.DestroyChains | framework/src/context_vulkan.cpp:58-68 | records each chain's teardown, in order, and forgets all chains |
| Context.Vulkan.ReleasePools | framework/src/context_vulkan.cpp:49-53 | clears the descriptor pools, then the command pools |
| Context.Vulkan.ReleaseDeviceAndInstance | framework/src/context_vulkan.cpp:72-85 | destroys the device, then the messenger when unhooked, then the instance |
| Context.Vulkan.Destroy | framework/src/context_vulkan.cpp:47-86 | the recorded events are exactly the ordered teardown trace, every collection ends empty, and the context's invariant holds before and after |

## Left out

- Vulkan and GLFW calls are not modelled as effects. Creating objects yields fresh handles from a counter. Queries are parameters: device properties, features, extensions, queue families, presentation support, surface capabilities, formats, present modes, swap-chain images and memory types.
- Blocking waits (`waitForFences`, `waitIdle`) and GPU/CPU concurrency are left out. `begin_frame` keeps only the fence's signalled/reset state; the wait is taken to return.
- `end_frame`, `begin_composition`, `end_composition` and the `draw_*` helpers are left out; they only forward commands to the device.
- The graphics pipeline builders are left out. Their state is mostly floating point: viewports, depth bounds, line width, blend constants and queue priority.
- `create_descriptor_set`, `get_ray_tracing_properties` and the `create_command_buffers_for_*` wrappers are left out. The first two are driver calls; the wrappers only pass a queue index to `create_command_buffers`.
- Descriptor-pool exhaustion is left out. The code never checks the 128 limits.
- Swap-chain recreation is left out; the code does not implement it.
- Log messages and exception texts are left out. Exceptions and failed assertions become error values.
- `LOG_LEVEL` is a compile-time constant; here it is the `logLevel` setting.
- The static `sActualMaxFramesInFlight` is the per-context field `maxFramesInFlight`.
- Global `settings::*` values are the `Settings` record.
- `fence_current_frame`, `find_case_insensitive` and `is_srgb_format` live in headers that are not part of this model. They are modelled as:
  - `fence_current_frame`: the fence at the frame counter modulo the frames-in-flight count;
  - `find_case_insensitive`: an ASCII case-insensitive substring search;
  - `is_srgb_format`: the two sRGB colour formats of the modelled format set.
- `vector::clear` of the pool vectors destroys pools in an unspecified order, so the trace records one event per cleared vector.
- framework/include_e186/MaterialData.h is not part of this model. It holds only getters and setters.
- framework/src/shader_vulkan.cpp is not part of this model. It only loads files and creates shader modules.
- framework/src/graphics_pipeline_config.cpp is not part of this model. Its values come from headers that are not shown.
- SwapChain.ChoosePresentMode: requires a non-empty list of present modes. With an empty list the code would dereference `begin()` of an empty vector.
- Context.Vulkan.CreateWindow: does not state that a window-0 queue failure happens iff the queue plan fails. It states only that such a failure comes from window 0. The full statement is proved for Context.Vulkan.CreateAndAssignLogicalDevice, which the window calls.
- Context.Vulkan.CompleteInitialisation: does not restate the queue plan for the same reason. It states the frames-in-flight and fence outcome.
- Context.Vulkan.TransferSharing: the code points the buffer at the first two entries of `mTransferAndGraphicsQueueIndices`. The model uses the graphics and transfer indices directly. These agree once the logical device has been created once.
- Context.Vulkan.CreateSwapChain: the image usage, composite alpha, view swizzles and subresource range are fixed constants and are not modelled.
