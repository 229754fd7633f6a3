/** Queries against the chosen physical device: the memory type for an
    allocation and whether a format supports features under a tiling. */
module DeviceQueries {
  import opened Wrappers
  import opened VkTypes
  import opened Bits

  /** VK_MAX_MEMORY_TYPES: a device reports at most this many memory types. */
  const MaxMemoryTypes: nat := 32

  datatype MemoryProperty = DeviceLocal | HostVisible | HostCoherent | HostCached | LazilyAllocated | ProtectedMemory

  /** Memory type `i` is allowed by the type bits (bit `i` is set) and has
      every required property. */
  predicate SuitableMemoryType(memoryTypes: seq<set<MemoryProperty>>, typeBits: uint32, required: set<MemoryProperty>, i: nat)
  {
    i < |memoryTypes| && Bit(typeBits, i) && required <= memoryTypes[i]
  }

  datatype MemoryError = NoSuitableMemoryType

  /** `find_memory_type_index`: the lowest suitable memory type, or an error
      when there is none. */
  method FindMemoryTypeIndex(memoryTypes: seq<set<MemoryProperty>>, typeBits: uint32, required: set<MemoryProperty>)
    returns (r: Result<nat, MemoryError>)
    requires |memoryTypes| <= MaxMemoryTypes
    ensures r.Success? ==> SuitableMemoryType(memoryTypes, typeBits, required, r.value)
    ensures r.Success? ==> forall j :: 0 <= j < r.value ==> !SuitableMemoryType(memoryTypes, typeBits, required, j)
    ensures r.Failure? <==> forall j :: 0 <= j < |memoryTypes| ==> !SuitableMemoryType(memoryTypes, typeBits, required, j)
  {
    var i := 0;
    while i < |memoryTypes|
      invariant 0 <= i <= |memoryTypes|
      invariant forall j :: 0 <= j < i ==> !SuitableMemoryType(memoryTypes, typeBits, required, j)
    {
      if Bit(typeBits, i) && required <= memoryTypes[i] {
        assert SuitableMemoryType(memoryTypes, typeBits, required, i);
        return Success(i);
      }
      i := i + 1;
    }
    return Failure(NoSuitableMemoryType);
  }

  datatype ImageTiling = Optimal | Linear | DrmFormatModifier

  datatype FormatFeature = SampledImage | StorageImage | ColorAttachment | DepthStencilAttachment | BlitSrc | BlitDst | TransferSrc | TransferDst

  /** The features a format offers with linear and with optimal tiling. */
  datatype FormatProperties = FormatProperties(linearTilingFeatures: set<FormatFeature>, optimalTilingFeatures: set<FormatFeature>)

  /** The features a tiling offers; other tilings than linear and optimal
      are not looked at and offer nothing here. */
  function TilingFeatures(props: FormatProperties, tiling: ImageTiling): set<FormatFeature>
  {
    match tiling
    case Linear => props.linearTilingFeatures
    case Optimal => props.optimalTilingFeatures
    case DrmFormatModifier => {}
  }

  /** `is_format_supported`: every wanted feature is offered with the
      tiling. */
  function IsFormatSupported(props: FormatProperties, tiling: ImageTiling, features: set<FormatFeature>): (supported: bool)
    ensures supported <==> tiling != DrmFormatModifier && features <= TilingFeatures(props, tiling)
  {
    if tiling == Linear && features <= props.linearTilingFeatures then true
    else if tiling == Optimal && features <= props.optimalTilingFeatures then true
    else false
  }

  /** Asking for fewer features never turns support off, and asking for
      none always succeeds with linear or optimal tiling. */
  lemma FormatSupportMonotone(props: FormatProperties, tiling: ImageTiling, fewer: set<FormatFeature>, more: set<FormatFeature>)
    requires fewer <= more
    ensures IsFormatSupported(props, tiling, more) ==> IsFormatSupported(props, tiling, fewer)
    ensures tiling != DrmFormatModifier ==> IsFormatSupported(props, tiling, {})
  {
  }
}
