/** Swap-chain negotiation: the image extent, the number of images, the
    presentation mode, the surface format and how the images are shared
    between the graphics and the present queue family. */
module SwapChain {
  import opened Wrappers
  import opened VkTypes
  import opened QueueFamilies

  /** What the surface reports about itself. */
  datatype SurfaceCapabilities = SurfaceCapabilities(
    minImageCount: uint32,
    maxImageCount: uint32,
    currentExtent: Extent2D,
    minImageExtent: Extent2D,
    maxImageExtent: Extent2D,
    currentTransform: nat)

  /** `glm::clamp` on one component: the larger of `x` and `lo`, but at
      most `hi`. */
  function Clamp(x: uint32, lo: uint32, hi: uint32): (r: uint32)
    ensures lo <= hi ==> lo <= r <= hi
    ensures lo <= x <= hi ==> r == x
    ensures r == x || r == lo || r == hi
    ensures x < lo && lo <= hi ==> r == lo
    ensures hi < x || hi < lo ==> r == hi
  {
    var up := if x < lo then lo else x;
    if up < hi then up else hi
  }

  /** The image extent: the surface's current extent, unless its width is
      the special value UINT32_MAX, in which case the window's extent
      clamped, per component, to the surface's bounds. Only the width is
      compared with the special value. */
  function ChooseExtent(caps: SurfaceCapabilities, windowExtent: Extent2D): (r: Extent2D)
    ensures caps.currentExtent.width != Uint32Max ==> r == caps.currentExtent
    ensures caps.currentExtent.width == Uint32Max && caps.minImageExtent.width <= caps.maxImageExtent.width ==>
              caps.minImageExtent.width <= r.width <= caps.maxImageExtent.width
    ensures caps.currentExtent.width == Uint32Max && caps.minImageExtent.height <= caps.maxImageExtent.height ==>
              caps.minImageExtent.height <= r.height <= caps.maxImageExtent.height
    ensures caps.currentExtent.width == Uint32Max
            && caps.minImageExtent.width <= windowExtent.width <= caps.maxImageExtent.width
            && caps.minImageExtent.height <= windowExtent.height <= caps.maxImageExtent.height
            ==> r == windowExtent
    ensures caps.currentExtent.width == Uint32Max ==>
              r == Extent2D(Clamp(windowExtent.width, caps.minImageExtent.width, caps.maxImageExtent.width),
                            Clamp(windowExtent.height, caps.minImageExtent.height, caps.maxImageExtent.height))
  {
    if caps.currentExtent.width == Uint32Max then
      Extent2D(Clamp(windowExtent.width, caps.minImageExtent.width, caps.maxImageExtent.width),
               Clamp(windowExtent.height, caps.minImageExtent.height, caps.maxImageExtent.height))
    else caps.currentExtent
  }

  /** The number of swap-chain images: one more than the minimum, in 32-bit
      unsigned arithmetic, and at most the maximum when there is one (a
      maximum of 0 means no limit). */
  function ChooseImageCount(caps: SurfaceCapabilities): (r: uint32)
    ensures caps.maxImageCount > 0 ==> r <= caps.maxImageCount
    ensures caps.minImageCount < Uint32Max && (caps.maxImageCount == 0 || caps.maxImageCount > caps.minImageCount)
            ==> r == caps.minImageCount + 1
    ensures caps.minImageCount < Uint32Max && caps.minImageCount <= caps.maxImageCount
            ==> caps.minImageCount <= r
    ensures caps.minImageCount == Uint32Max ==> r == 0
  {
    var count: uint32 := (caps.minImageCount + 1) % 0x1_0000_0000;
    if caps.maxImageCount > 0 && caps.maxImageCount < count then caps.maxImageCount else count
  }

  datatype PresentMode = Immediate | Mailbox | Fifo | FifoRelaxed

  /** The presentation modes an application asks for. */
  datatype PresentationPreference = ImmediatePresentation | DoubleBuffering | Vsync | TripleBuffering

  /** The present mode each preference asks for. */
  function DesiredMode(p: PresentationPreference): PresentMode
  {
    match p
    case ImmediatePresentation => Immediate
    case DoubleBuffering => FifoRelaxed
    case Vsync => Fifo
    case TripleBuffering => Mailbox
  }

  /** The present mode: the one the preference asks for if the surface
      offers it, otherwise (or with no preference) the first the surface
      offers. The surface offers at least one mode. */
  function ChoosePresentMode(preference: Option<PresentationPreference>, modes: seq<PresentMode>): (r: PresentMode)
    requires |modes| > 0
    ensures r in modes
    ensures preference.Some? && DesiredMode(preference.value) in modes ==> r == DesiredMode(preference.value)
    ensures preference.None? || DesiredMode(preference.value) !in modes ==> r == modes[0]
  {
    if preference.Some? && DesiredMode(preference.value) in modes then DesiredMode(preference.value) else modes[0]
  }

  const DefaultSurfaceFormat: SurfaceFormat := SurfaceFormat(B8G8R8A8Unorm, SrgbNonlinear)

  /** `formats[k]` is the first format whose sRGB encoding is as wished. */
  predicate IsFirstWithEncoding(formats: seq<SurfaceFormat>, srgb: bool, k: nat)
  {
    k < |formats| && IsSrgbFormat(formats[k].format) == srgb
    && forall j :: 0 <= j < k ==> IsSrgbFormat(formats[j].format) != srgb
  }

  /** The format choice: the default when the surface accepts any format;
      otherwise the first offered format with the wished encoding, or the
      default when no offered format has it. */
  ghost predicate IsChosenFormat(formats: seq<SurfaceFormat>, srgb: bool, r: SurfaceFormat)
  {
    if |formats| == 1 && formats[0].format == Undefined then r == DefaultSurfaceFormat
    else (exists k: nat :: IsFirstWithEncoding(formats, srgb, k) && r == formats[k])
         || (r == DefaultSurfaceFormat && forall j :: 0 <= j < |formats| ==> IsSrgbFormat(formats[j].format) != srgb)
  }

  /** The surface format: the first offered one whose sRGB encoding is as
      wished, or B8G8R8A8_UNORM with the sRGB non-linear colour space when
      none is, or when the surface only reports one UNDEFINED format (it
      accepts any). */
  method ChooseSurfaceFormat(formats: seq<SurfaceFormat>, srgb: bool) returns (r: SurfaceFormat)
    ensures IsChosenFormat(formats, srgb, r)
  {
    r := DefaultSurfaceFormat;
    if !(|formats| == 1 && formats[0].format == Undefined) {
      var i := 0;
      while i < |formats|
        invariant 0 <= i <= |formats|
        invariant r == DefaultSurfaceFormat
        invariant forall j :: 0 <= j < i ==> IsSrgbFormat(formats[j].format) != srgb
      {
        if IsSrgbFormat(formats[i].format) == srgb {
          r := formats[i];
          assert IsFirstWithEncoding(formats, srgb, i);
          return;
        }
        i := i + 1;
      }
    }
  }

  /** How the swap-chain images are shared. */
  datatype ImageSharing = ImageSharing(mode: SharingMode, queueFamilyIndices: seq<nat>)

  /** What `create_swap_chain` asserts: a family doing graphics and
      presentation, or else both some graphics and some present family. */
  predicate SharingFamiliesExist(d: PhysicalDevice, surface: Surface)
  {
    |FindQueueFamilies(d, {Graphics}, {}, Some(surface))| != 0
    || (|FindQueueFamilies(d, {Graphics}, {}, None)| > 0 && |FindQueueFamilies(d, {}, {}, Some(surface))| > 0)
  }

  /** Exclusive when one family does graphics and presentation; otherwise
      concurrent between the lowest graphics family and the lowest present
      family, which are then different families. */
  function ChooseImageSharing(d: PhysicalDevice, surface: Surface): (r: ImageSharing)
    requires SharingFamiliesExist(d, surface)
    ensures r.mode == Exclusive <==> exists i :: 0 <= i < |d.queueFamilies| && MeetsCriteria(d, i, {Graphics}, {}, Some(surface))
    ensures r.mode == Exclusive ==> r.queueFamilyIndices == []
    ensures r.mode == Concurrent ==>
              |r.queueFamilyIndices| == 2 && r.queueFamilyIndices[0] != r.queueFamilyIndices[1]
              && HasFlag(d, r.queueFamilyIndices[0], Graphics)
              && r.queueFamilyIndices[1] < |d.queueFamilies| && (r.queueFamilyIndices[1], surface) in d.presentSupport
    ensures r.mode == Concurrent ==>
              forall i :: 0 <= i < r.queueFamilyIndices[0] ==> !HasFlag(d, i, Graphics)
    ensures r.mode == Concurrent ==>
              forall i :: 0 <= i < r.queueFamilyIndices[1] ==> (i, surface) !in d.presentSupport
  {
    var allIncluded := FindQueueFamilies(d, {Graphics}, {}, Some(surface));
    if |allIncluded| != 0 then
      assert MeetsCriteria(d, allIncluded[0].index, {Graphics}, {}, Some(surface));
      ImageSharing(Exclusive, [])
    else
      var graphicsFamily := FindQueueFamilies(d, {Graphics}, {}, None);
      var presentFamily := FindQueueFamilies(d, {}, {}, Some(surface));
      var g, p := graphicsFamily[0].index, presentFamily[0].index;
      assert MeetsCriteria(d, g, {Graphics}, {}, None);
      assert MeetsCriteria(d, p, {}, {}, Some(surface));
      assert forall i :: 0 <= i < g ==> !HasFlag(d, i, Graphics) by {
        forall i | 0 <= i < g
          ensures !HasFlag(d, i, Graphics)
        {
          assert i !in Indices(graphicsFamily) by {
            forall j | 0 <= j < |graphicsFamily|
              ensures Indices(graphicsFamily)[j] != i
            {
            }
          }
          assert !MeetsCriteria(d, i, {Graphics}, {}, None);
        }
      }
      assert forall i :: 0 <= i < p ==> (i, surface) !in d.presentSupport by {
        forall i | 0 <= i < p
          ensures (i, surface) !in d.presentSupport
        {
          assert i !in Indices(presentFamily) by {
            forall j | 0 <= j < |presentFamily|
              ensures Indices(presentFamily)[j] != i
            {
            }
          }
          assert !MeetsCriteria(d, i, {}, {}, Some(surface));
        }
      }
      assert g !in Indices(allIncluded);
      assert (g, surface) !in d.presentSupport;
      ImageSharing(Concurrent, [g, p])
  }

  /** The swap chain's sharing agrees with the queue plan of the logical
      device: whenever the plan succeeds, the sharing families exist, and
      concurrent sharing is between exactly the planned graphics and present
      families. */
  lemma SharingAgreesWithQueuePlan(d: PhysicalDevice, surface: Surface)
    requires PlanQueues(d, surface).Success?
    ensures SharingFamiliesExist(d, surface)
    ensures var p := PlanQueues(d, surface).value;
            ChooseImageSharing(d, surface).mode == Concurrent ==>
              ChooseImageSharing(d, surface).queueFamilyIndices == [p.graphics, p.present]
  {
    var everything := FindQueueFamilies(d, {Graphics, Compute}, {}, Some(surface));
    var gAndP := FindQueueFamilies(d, {Graphics}, {}, Some(surface));
    if |everything| != 0 {
      assert MeetsCriteria(d, everything[0].index, {Graphics, Compute}, {}, Some(surface));
      assert MeetsCriteria(d, everything[0].index, {Graphics}, {}, Some(surface));
      assert everything[0].index in Indices(gAndP);
    } else if |gAndP| == 0 {
      var gOnly := FindQueueFamilies(d, {Graphics}, {}, None);
      var pOnly := FindQueueFamilies(d, {}, {}, Some(surface));
      assert MainQueues(d, surface).Success?;
      assert |gOnly| == 1 && |pOnly| == 1;
      assert RoleIndices(gOnly, 1) == [gOnly[0].index];
      assert RoleIndices(pOnly, 1) == [pOnly[0].index];
    }
  }

  /** The swap-chain create-info fields that the context decides. */
  datatype SwapChainCreateInfo = SwapChainCreateInfo(
    surface: Surface,
    minImageCount: uint32,
    format: SurfaceFormat,
    extent: Extent2D,
    imageArrayLayers: nat,
    preTransform: nat,
    presentMode: PresentMode,
    clipped: bool,
    sharing: ImageSharing)

  /** A 2D colour view of one swap-chain image, in the chain's format. */
  datatype ImageView = ImageView(handle: Handle, image: Handle, format: Format)

  /** The state kept per window: the window, its surface, the swap chain,
      its format and extent, its images and one view per image. */
  datatype SwapChainData = SwapChainData(
    window: nat,
    surface: Surface,
    swapChain: Handle,
    format: SurfaceFormat,
    extent: Extent2D,
    images: seq<Handle>,
    imageViews: seq<ImageView>)
}
