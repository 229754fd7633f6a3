/** Values the context receives from the graphics API and the windowing
    system, reduced to what its decisions read. Every object the API creates
    is an opaque handle. */
module VkTypes {

  /** An opaque API handle; 0 is the null handle. */
  type Handle = nat

  const NullHandle: Handle := 0

  type uint32 = x: int | 0 <= x < 0x1_0000_0000

  const Uint32Max: uint32 := 0xFFFF_FFFF

  /** A surface handle, as returned for a window by the windowing system. */
  type Surface = Handle

  /** The capability bits of a queue family (a `vk::QueueFlags` word, as the
      set of its bits). */
  datatype QueueFlagBit = Graphics | Compute | Transfer | SparseBinding | Protected

  type QueueFlags = set<QueueFlagBit>

  datatype QueueFamilyProperties = QueueFamilyProperties(queueFlags: QueueFlags, queueCount: nat)

  datatype PhysicalDeviceType = OtherType | IntegratedGpu | DiscreteGpu | VirtualGpu | CpuType

  /** What the context queries of one physical device: its properties and
      features, its extensions, its queue families and, for each pair
      (queue family index, surface), whether that family can present to the
      surface. */
  datatype PhysicalDevice = PhysicalDevice(
    deviceType: PhysicalDeviceType,
    deviceName: string,
    samplerAnisotropy: bool,
    extensions: seq<string>,
    queueFamilies: seq<QueueFamilyProperties>,
    presentSupport: set<(nat, Surface)>)

  datatype SharingMode = Exclusive | Concurrent

  /** The image formats the model distinguishes. */
  datatype Format =
    | Undefined
    | B8G8R8A8Unorm | B8G8R8A8Srgb
    | R8G8B8A8Unorm | R8G8B8A8Srgb
    | A2B10G10R10UnormPack32 | R16G16B16A16Sfloat
    | D32Sfloat | D24UnormS8Uint | D32SfloatS8Uint

  /** The sRGB-encoded colour formats. */
  predicate IsSrgbFormat(f: Format)
  {
    f == B8G8R8A8Srgb || f == R8G8B8A8Srgb
  }

  datatype ColorSpace = SrgbNonlinear | ExtendedSrgbLinear | DisplayP3Nonlinear | Hdr10St2084

  datatype SurfaceFormat = SurfaceFormat(format: Format, colorSpace: ColorSpace)

  datatype Extent2D = Extent2D(width: uint32, height: uint32)
}
