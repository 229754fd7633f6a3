/** Choosing the physical device: the required device extensions, the
    per-device score and the selection of the first best-scoring device. */
module DeviceSelection {
  import opened Wrappers
  import opened VkTypes

  const SwapchainExtensionName: string := "VK_KHR_swapchain"

  /** The configured device extensions followed by the ones the context
      always needs (the swap-chain extension). */
  function AllRequiredDeviceExtensions(configured: seq<string>): (r: seq<string>)
    ensures |r| == |configured| + 1 && r[..|configured|] == configured
    ensures r[|configured|] == SwapchainExtensionName
  {
    configured + [SwapchainExtensionName]
  }

  /** Every required extension is among the device's. */
  predicate ExtensionsSupported(required: seq<string>, deviceExtensions: seq<string>)
  {
    forall k :: 0 <= k < |required| ==> required[k] in deviceExtensions
  }

  /** `supports_all_required_extensions`: looks up each required extension in
      the device's list (an empty requirement list is trivially met). */
  method SupportsAllRequiredExtensions(required: seq<string>, deviceExtensions: seq<string>) returns (all: bool)
    ensures all <==> ExtensionsSupported(required, deviceExtensions)
  {
    all := true;
    if |required| > 0 {
      for i := 0 to |required|
        invariant all <==> forall k :: 0 <= k < i ==> required[k] in deviceExtensions
      {
        var found := false;
        for j := 0 to |deviceExtensions|
          invariant found <==> required[i] in deviceExtensions[..j]
        {
          if deviceExtensions[j] == required[i] {
            found := true;
          }
          assert deviceExtensions[..j + 1] == deviceExtensions[..j] + [deviceExtensions[j]];
        }
        assert deviceExtensions[..|deviceExtensions|] == deviceExtensions;
        if !found {
          all := false;
        }
      }
    }
  }

  /** Some queue family of the list has the capability bit. */
  predicate SomeFamilyHas(families: seq<QueueFamilyProperties>, bit: QueueFlagBit)
  {
    exists k :: 0 <= k < |families| && bit in families[k].queueFlags
  }

  /** The pass over the queue families that finds whether any family
      supports graphics and whether any supports compute. */
  method ProbeQueueFamilies(families: seq<QueueFamilyProperties>) returns (graphics: bool, compute: bool)
    ensures graphics <==> SomeFamilyHas(families, Graphics)
    ensures compute <==> SomeFamilyHas(families, Compute)
  {
    graphics, compute := false, false;
    for i := 0 to |families|
      invariant graphics <==> SomeFamilyHas(families[..i], Graphics)
      invariant compute <==> SomeFamilyHas(families[..i], Compute)
    {
      graphics := graphics || Graphics in families[i].queueFlags;
      compute := compute || Compute in families[i].queueFlags;
      assert forall k :: 0 <= k < i ==> families[..i + 1][k] == families[..i][k];
      assert families[..i + 1][i] == families[i];
    }
    assert families[..|families|] == families;
  }

  // ----- case-insensitive search in the device name -----

  function LowerChar(c: char): char
  {
    if 'A' <= c <= 'Z' then (c as int - 'A' as int + 'a' as int) as char else c
  }

  /** The string with its ASCII upper-case letters lowered. */
  function Lower(s: string): (r: string)
    ensures |r| == |s| && forall k :: 0 <= k < |s| ==> r[k] == LowerChar(s[k])
  {
    seq(|s|, k requires 0 <= k < |s| => LowerChar(s[k]))
  }

  /** `needle` occurs in `haystack` at position `k`, ignoring ASCII case. */
  predicate MatchesAt(haystack: string, needle: string, k: nat)
  {
    k + |needle| <= |haystack| && Lower(haystack[k..k + |needle|]) == Lower(needle)
  }

  /** The first position at or after `from` where `needle` occurs in
      `haystack` ignoring case, or None (the `npos` of the search). */
  function FindCaseInsensitive(haystack: string, needle: string, from: nat): (r: Option<nat>)
    decreases |haystack| - from
    ensures r.Some? ==> from <= r.value && MatchesAt(haystack, needle, r.value)
    ensures r.Some? ==> forall k :: from <= k < r.value ==> !MatchesAt(haystack, needle, k)
    ensures r.None? ==> forall k :: from <= k ==> !MatchesAt(haystack, needle, k)
  {
    if from + |needle| > |haystack| then None
    else if MatchesAt(haystack, needle, from) then Some(from)
    else FindCaseInsensitive(haystack, needle, from + 1)
  }

  // ----- the device score -----

  /** The part of the score that rates capabilities: 10 for a graphics
      family, 10 for a compute family, 10 for a discrete and 5 for an
      integrated GPU. */
  function CapabilityScore(d: PhysicalDevice): nat
  {
    (if SomeFamilyHas(d.queueFamilies, Graphics) then 10 else 0)
    + (if SomeFamilyHas(d.queueFamilies, Compute) then 10 else 0)
    + (if d.deviceType == DiscreteGpu then 10 else 0)
    + (if d.deviceType == IntegratedGpu then 5 else 0)
  }

  /** One point for a device whose name contains "nvidia" in any case. */
  function VendorBonus(d: PhysicalDevice): nat
  {
    if FindCaseInsensitive(d.deviceName, "nvidia", 0).Some? then 1 else 0
  }

  /** A device can be chosen at all only if it supports every required
      extension and sampler anisotropy. */
  predicate Qualifies(d: PhysicalDevice, required: seq<string>)
  {
    ExtensionsSupported(required, d.extensions) && d.samplerAnisotropy
  }

  /** The score of a device: its capability score plus the vendor bonus, or
      0 for a device that does not qualify. */
  function Score(d: PhysicalDevice, required: seq<string>): (s: nat)
    ensures s <= 31
    ensures s > 0 ==> Qualifies(d, required)
    ensures Qualifies(d, required) && SomeFamilyHas(d.queueFamilies, Graphics) ==> s >= 10
  {
    if Qualifies(d, required) then CapabilityScore(d) + VendorBonus(d) else 0
  }

  /** The vendor bonus only breaks ties: between qualifying devices, a higher
      capability score always wins. */
  lemma CapabilityOutweighsVendor(a: PhysicalDevice, b: PhysicalDevice, required: seq<string>)
    requires Qualifies(a, required) && Qualifies(b, required)
    requires CapabilityScore(a) > CapabilityScore(b)
    ensures Score(a, required) > Score(b, required)
  {
    assert CapabilityScore(a) % 5 == 0 && CapabilityScore(b) % 5 == 0;
  }

  /** A qualifying discrete GPU with graphics and compute families beats
      every integrated GPU. */
  lemma DiscreteBeatsIntegrated(a: PhysicalDevice, b: PhysicalDevice, required: seq<string>)
    requires Qualifies(a, required) && a.deviceType == DiscreteGpu
    requires SomeFamilyHas(a.queueFamilies, Graphics) && SomeFamilyHas(a.queueFamilies, Compute)
    requires b.deviceType == IntegratedGpu
    ensures Score(a, required) > Score(b, required)
  {
  }

  /** The score computation of one loop iteration of `pick_physical_device`. */
  method RateDevice(d: PhysicalDevice, required: seq<string>) returns (score: nat)
    ensures score == Score(d, required)
  {
    var graphics, compute := ProbeQueueFamilies(d.queueFamilies);
    score := (if graphics then 10 else 0) + (if compute then 10 else 0)
             + (if d.deviceType == DiscreteGpu then 10 else 0)
             + (if d.deviceType == IntegratedGpu then 5 else 0)
             + (if FindCaseInsensitive(d.deviceName, "nvidia", 0).Some? then 1 else 0);
    var supported := SupportsAllRequiredExtensions(required, d.extensions);
    if !supported {
      score := 0;
    }
    if !d.samplerAnisotropy {
      score := 0;
    }
  }

  datatype PickError =
    | NoVulkanDevice
    | NoDeviceSupportsRequiredExtensions
    | NoSuitableDevice

  /** Device `i` has the highest score, and every earlier device a strictly
      lower one. */
  ghost predicate IsFirstBest(devices: seq<PhysicalDevice>, required: seq<string>, i: nat)
  {
    i < |devices|
    && (forall j :: 0 <= j < |devices| ==> Score(devices[j], required) <= Score(devices[i], required))
    && (forall j :: 0 <= j < i ==> Score(devices[j], required) < Score(devices[i], required))
  }

  /** `pick_physical_device`: the index of the first device with the highest
      positive score. With no device at all, or no device scoring above 0, it
      fails; the second failure names the extensions when any device
      extension is configured. */
  method PickPhysicalDevice(devices: seq<PhysicalDevice>, configuredExtensions: seq<string>)
    returns (r: Result<nat, PickError>)
    ensures devices == [] <==> r == Failure(NoVulkanDevice)
    ensures r.Success? ==> IsFirstBest(devices, AllRequiredDeviceExtensions(configuredExtensions), r.value)
                           && Score(devices[r.value], AllRequiredDeviceExtensions(configuredExtensions)) > 0
    ensures r.Success? <==> exists j :: 0 <= j < |devices| && Score(devices[j], AllRequiredDeviceExtensions(configuredExtensions)) > 0
    ensures r.Failure? && devices != [] ==>
              r.error == if |configuredExtensions| > 0 then NoDeviceSupportsRequiredExtensions else NoSuitableDevice
  {
    if |devices| == 0 {
      return Failure(NoVulkanDevice);
    }
    var required := AllRequiredDeviceExtensions(configuredExtensions);
    var selection: Option<nat> := None;
    var currentScore: nat := 0;
    for i := 0 to |devices|
      invariant selection.None? ==> currentScore == 0
      invariant forall j :: 0 <= j < i ==> Score(devices[j], required) <= currentScore
      invariant selection.Some? ==> selection.value < i && currentScore == Score(devices[selection.value], required) > 0
      invariant selection.Some? ==> forall j :: 0 <= j < selection.value ==> Score(devices[j], required) < currentScore
    {
      var score := RateDevice(devices[i], required);
      if score > currentScore {
        selection := Some(i);
        currentScore := score;
      }
    }
    if selection.None? {
      if |configuredExtensions| > 0 {
        return Failure(NoDeviceSupportsRequiredExtensions);
      }
      return Failure(NoSuitableDevice);
    }
    r := Success(selection.value);
  }
}
