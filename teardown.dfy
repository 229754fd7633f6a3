/** The destructor's order of destruction, as a trace of events. */
module Teardown {
  import opened VkTypes
  import opened SwapChain

  datatype SemaphoreRole = ImageAvailable | RenderFinished

  datatype Event =
    | DescriptorPoolsCleared(descriptorPools: seq<Handle>)
    | CommandPoolsCleared(commandPools: seq<Handle>)
    | DestroyImageView(view: Handle)
    | DestroySwapchain(swapChain: Handle)
    | DestroySurface(surface: Surface)
    | CloseWindow(window: nat)
    | DestroyFence(fence: Handle)
    | DestroySemaphore(semaphore: Handle, role: SemaphoreRole)
    | DestroyDevice(device: Handle)
    | DestroyDebugMessenger(messenger: Handle)
    | DestroyInstance(instance: Handle)

  /** The stage of the teardown an event belongs to. */
  function Phase(e: Event): nat
  {
    match e
    case DescriptorPoolsCleared(_) => 0
    case CommandPoolsCleared(_) => 1
    case DestroyImageView(_) => 2
    case DestroySwapchain(_) => 2
    case DestroySurface(_) => 2
    case CloseWindow(_) => 2
    case DestroyFence(_) => 3
    case DestroySemaphore(_, role) => if role == RenderFinished then 4 else 5
    case DestroyDevice(_) => 6
    case DestroyDebugMessenger(_) => 7
    case DestroyInstance(_) => 8
  }

  function ViewEvents(views: seq<ImageView>): (r: seq<Event>)
    ensures |r| == |views| && forall k :: 0 <= k < |views| ==> r[k] == DestroyImageView(views[k].handle)
  {
    seq(|views|, k requires 0 <= k < |views| => DestroyImageView(views[k].handle))
  }

  /** One swap chain's teardown: its views, then the swap chain, the
      surface and the window. */
  function ChainEvents(c: SwapChainData): (r: seq<Event>)
    ensures |r| == |c.imageViews| + 3
    ensures forall k :: 0 <= k < |r| ==> Phase(r[k]) == 2
  {
    ViewEvents(c.imageViews) + [DestroySwapchain(c.swapChain), DestroySurface(c.surface), CloseWindow(c.window)]
  }

  /** The teardown of all swap chains, in order. */
  function ChainsEvents(chains: seq<SwapChainData>): (r: seq<Event>)
    ensures forall k :: 0 <= k < |r| ==> Phase(r[k]) == 2
  {
    if chains == [] then [] else ChainsEvents(chains[..|chains| - 1]) + ChainEvents(chains[|chains| - 1])
  }

  function FenceEvents(fences: seq<Handle>): (r: seq<Event>)
    ensures |r| == |fences| && forall k :: 0 <= k < |fences| ==> r[k] == DestroyFence(fences[k])
  {
    seq(|fences|, k requires 0 <= k < |fences| => DestroyFence(fences[k]))
  }

  function SemaphoreEvents(semaphores: seq<Handle>, role: SemaphoreRole): (r: seq<Event>)
    ensures |r| == |semaphores| && forall k :: 0 <= k < |semaphores| ==> r[k] == DestroySemaphore(semaphores[k], role)
  {
    seq(|semaphores|, k requires 0 <= k < |semaphores| => DestroySemaphore(semaphores[k], role))
  }

  /** `cleanup_sync_objects`: the fences, then the render-finished, then the
      image-available semaphores. */
  function SyncEvents(fences: seq<Handle>, renderFinished: seq<Handle>, imageAvailable: seq<Handle>): seq<Event>
  {
    FenceEvents(fences) + SemaphoreEvents(renderFinished, RenderFinished) + SemaphoreEvents(imageAvailable, ImageAvailable)
  }

  /** What `~vulkan` destroys, in order: descriptor pools, command pools,
      the swap chains with their views, surfaces and windows, the
      synchronisation objects, the logical device, the debug messenger (only
      when logging is compiled in and its destroy entry point is found), and
      the instance. */
  function TeardownTrace(
    descriptorPools: seq<Handle>, commandPools: seq<Handle>, chains: seq<SwapChainData>,
    fences: seq<Handle>, renderFinished: seq<Handle>, imageAvailable: seq<Handle>,
    device: Handle, messengerDestroyed: bool, messenger: Handle, instance: Handle): seq<Event>
  {
    [DescriptorPoolsCleared(descriptorPools), CommandPoolsCleared(commandPools)]
    + ChainsEvents(chains)
    + SyncEvents(fences, renderFinished, imageAvailable)
    + [DestroyDevice(device)]
    + (if messengerDestroyed then [DestroyDebugMessenger(messenger)] else [])
    + [DestroyInstance(instance)]
  }

  predicate PhaseSorted(s: seq<Event>)
  {
    forall i, j :: 0 <= i < j < |s| ==> Phase(s[i]) <= Phase(s[j])
  }

  /** Appending events of phase `p` to a sorted trace whose phases are at
      most `p` keeps it sorted. */
  lemma AppendPhase(a: seq<Event>, b: seq<Event>, p: nat)
    requires PhaseSorted(a) && forall k :: 0 <= k < |a| ==> Phase(a[k]) <= p
    requires forall k :: 0 <= k < |b| ==> Phase(b[k]) == p
    ensures PhaseSorted(a + b) && forall k :: 0 <= k < |a + b| ==> Phase((a + b)[k]) <= p
  {
    forall i, j | 0 <= i < j < |a + b| ensures Phase((a + b)[i]) <= Phase((a + b)[j]) {
      if j < |a| {
        assert (a + b)[i] == a[i] && (a + b)[j] == a[j];
      } else if i < |a| {
        assert (a + b)[i] == a[i] && (a + b)[j] == b[j - |a|];
      } else {
        assert (a + b)[i] == b[i - |a|] && (a + b)[j] == b[j - |a|];
      }
    }
  }

  /** The pools and swap chains come first, in that order. */
  lemma FrontIsOrdered(descriptorPools: seq<Handle>, commandPools: seq<Handle>, chains: seq<SwapChainData>)
    ensures var t := [DescriptorPoolsCleared(descriptorPools), CommandPoolsCleared(commandPools)] + ChainsEvents(chains);
            PhaseSorted(t) && forall k :: 0 <= k < |t| ==> Phase(t[k]) <= 2
  {
    var t0 := [DescriptorPoolsCleared(descriptorPools)];
    AppendPhase([], t0, 0);
    AppendPhase(t0, [CommandPoolsCleared(commandPools)], 1);
    AppendPhase(t0 + [CommandPoolsCleared(commandPools)], ChainsEvents(chains), 2);
    assert t0 + [CommandPoolsCleared(commandPools)] == [DescriptorPoolsCleared(descriptorPools), CommandPoolsCleared(commandPools)];
  }

  /** The synchronisation objects follow anything of an earlier stage. */
  lemma SyncFollows(a: seq<Event>, fences: seq<Handle>, renderFinished: seq<Handle>, imageAvailable: seq<Handle>)
    requires PhaseSorted(a) && forall k :: 0 <= k < |a| ==> Phase(a[k]) <= 2
    ensures var t := a + SyncEvents(fences, renderFinished, imageAvailable);
            PhaseSorted(t) && forall k :: 0 <= k < |t| ==> Phase(t[k]) <= 5
  {
    var f, r, i := FenceEvents(fences), SemaphoreEvents(renderFinished, RenderFinished), SemaphoreEvents(imageAvailable, ImageAvailable);
    AppendPhase(a, f, 3);
    AppendPhase(a + f, r, 4);
    AppendPhase(a + f + r, i, 5);
    assert a + SyncEvents(fences, renderFinished, imageAvailable) == a + f + r + i;
  }

  /** The device, the messenger and the instance close the teardown. */
  lemma BackFollows(a: seq<Event>, device: Handle, messengerDestroyed: bool, messenger: Handle, instance: Handle)
    requires PhaseSorted(a) && forall k :: 0 <= k < |a| ==> Phase(a[k]) <= 5
    ensures PhaseSorted(a + [DestroyDevice(device)] + (if messengerDestroyed then [DestroyDebugMessenger(messenger)] else [])
                        + [DestroyInstance(instance)])
  {
    var m: seq<Event> := if messengerDestroyed then [DestroyDebugMessenger(messenger)] else [];
    AppendPhase(a, [DestroyDevice(device)], 6);
    AppendPhase(a + [DestroyDevice(device)], m, 7);
    AppendPhase(a + [DestroyDevice(device)] + m, [DestroyInstance(instance)], 8);
  }

  /** The teardown never goes back to an earlier stage: pools before swap
      chains, swap chains before synchronisation objects, fences before
      semaphores, everything before the device, the device before the debug
      messenger, and the instance last. */
  lemma TeardownIsOrdered(
    descriptorPools: seq<Handle>, commandPools: seq<Handle>, chains: seq<SwapChainData>,
    fences: seq<Handle>, renderFinished: seq<Handle>, imageAvailable: seq<Handle>,
    device: Handle, messengerDestroyed: bool, messenger: Handle, instance: Handle)
    ensures PhaseSorted(TeardownTrace(descriptorPools, commandPools, chains, fences, renderFinished, imageAvailable,
                                      device, messengerDestroyed, messenger, instance))
  {
    var front := [DescriptorPoolsCleared(descriptorPools), CommandPoolsCleared(commandPools)] + ChainsEvents(chains);
    FrontIsOrdered(descriptorPools, commandPools, chains);
    SyncFollows(front, fences, renderFinished, imageAvailable);
    BackFollows(front + SyncEvents(fences, renderFinished, imageAvailable), device, messengerDestroyed, messenger, instance);
  }

  /** Where chain `i`'s events start in the chains' teardown. */
  function ChainOffset(chains: seq<SwapChainData>, i: nat): nat
    requires i <= |chains|
  {
    |ChainsEvents(chains[..i])|
  }

  /** From position `off` on, `r` holds chain `c`'s teardown: its image
      views in order, then its swap chain, its surface and its window. */
  predicate ChainAt(r: seq<Event>, off: nat, c: SwapChainData)
  {
    off + |c.imageViews| + 3 <= |r|
    && (forall k :: 0 <= k < |c.imageViews| ==> r[off + k] == DestroyImageView(c.imageViews[k].handle))
    && r[off + |c.imageViews|] == DestroySwapchain(c.swapChain)
    && r[off + |c.imageViews| + 1] == DestroySurface(c.surface)
    && r[off + |c.imageViews| + 2] == CloseWindow(c.window)
  }

  /** A chain's own teardown starts at position 0. */
  lemma ChainAtOwn(c: SwapChainData)
    ensures ChainAt(ChainEvents(c), 0, c)
  {
    var n := |c.imageViews|;
    var own := ChainEvents(c);
    assert own == ViewEvents(c.imageViews) + [DestroySwapchain(c.swapChain), DestroySurface(c.surface), CloseWindow(c.window)];
    assert own[n] == DestroySwapchain(c.swapChain);
  }

  /** Events put in front shift the chain's position by their number. */
  lemma ChainAtShifted(a: seq<Event>, b: seq<Event>, off: nat, c: SwapChainData)
    requires ChainAt(b, off, c)
    ensures ChainAt(a + b, |a| + off, c)
  {
    assert forall x :: 0 <= x < |b| ==> (a + b)[|a| + x] == b[x];
  }

  /** Events appended behind leave the chain's position alone. */
  lemma ChainAtExtended(a: seq<Event>, b: seq<Event>, off: nat, c: SwapChainData)
    requires ChainAt(a, off, c)
    ensures ChainAt(a + b, off, c)
  {
    assert forall x :: 0 <= x < |a| ==> (a + b)[x] == a[x];
  }

  /** Within the teardown of the chains, every chain's image views are
      destroyed before its swap chain, which goes before its surface, which
      goes before its window. */
  lemma {:induction false} ChainTeardownOrder(chains: seq<SwapChainData>, i: nat)
    requires i < |chains|
    ensures ChainAt(ChainsEvents(chains), ChainOffset(chains, i), chains[i])
  {
    var init := chains[..|chains| - 1];
    var last := chains[|chains| - 1];
    assert ChainsEvents(chains) == ChainsEvents(init) + ChainEvents(last);
    if i == |chains| - 1 {
      assert chains[..i] == init;
      ChainAtOwn(last);
      ChainAtShifted(ChainsEvents(init), ChainEvents(last), 0, last);
    } else {
      ChainTeardownOrder(init, i);
      assert init[..i] == chains[..i];
      ChainAtExtended(ChainsEvents(init), ChainEvents(last), ChainOffset(init, i), init[i]);
    }
  }
}
