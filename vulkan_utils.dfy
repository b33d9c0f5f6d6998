/** The value types and the memory-type search of VulkanUtils.h. */
module VulkanUtils {
  import opened Common

  /** The most memory types a physical device reports (VK_MAX_MEMORY_TYPES). */
  const MAX_MEMORY_TYPES: nat := 32

  /** Every bit of `wanted` is set in `available` (`(available & wanted) == wanted`). */
  predicate HasFlags(available: bv32, wanted: bv32)
  {
    available & wanted == wanted
  }

  /** QueueFamilyIndices (VulkanUtils.h:16-28): the chosen graphics and
      presentation queue families, -1 while none has been found. */
  datatype QueueFamilyIndices = QueueFamilyIndices(graphicsFamily: int, presentationFamily: int)
  {
    /** isValid (VulkanUtils.h:24-27). */
    predicate IsValid()
    {
      graphicsFamily >= 0 && presentationFamily >= 0
    }
  }

  /** The value of a freshly declared QueueFamilyIndices. */
  const NO_QUEUE_FAMILIES: QueueFamilyIndices := QueueFamilyIndices(-1, -1)

  /** A freshly declared QueueFamilyIndices is not valid, and it becomes
      valid exactly when both families have been given an index. */
  lemma QueueFamilyIndicesValidity(g: int, p: int)
    ensures !NO_QUEUE_FAMILIES.IsValid()
    ensures NO_QUEUE_FAMILIES.(graphicsFamily := g, presentationFamily := p).IsValid() <==> g >= 0 && p >= 0
    ensures !NO_QUEUE_FAMILIES.(graphicsFamily := g).IsValid()
    ensures !NO_QUEUE_FAMILIES.(presentationFamily := p).IsValid()
  {
  }

  /** VkSurfaceFormatKHR. */
  datatype SurfaceFormat = SurfaceFormat(format: int, colorSpace: int)

  /** VkExtent2D. */
  datatype Extent = Extent(width: int, height: int)

  /** The part of VkSurfaceCapabilitiesKHR the renderer reads. */
  datatype SurfaceCapabilities = SurfaceCapabilities(
    minImageCount: int,
    maxImageCount: int,
    currentExtent: Extent,
    minImageExtent: Extent,
    maxImageExtent: Extent)

  /** SwapChainDetails (VulkanUtils.h:30-40). Present modes are the
      VkPresentModeKHR enumerators as integers. */
  datatype SwapChainDetails = SwapChainDetails(
    surfaceCapabilities: SurfaceCapabilities,
    surfaceFormats: seq<SurfaceFormat>,
    presentationModes: seq<int>)
  {
    /** isValid (VulkanUtils.h:36-39). */
    predicate IsValid()
    {
      |surfaceFormats| > 0 && |presentationModes| > 0
    }
  }

  /** Swap-chain details are usable exactly when the surface offers at least
      one format and at least one present mode; either list empty makes
      them unusable, whatever the capabilities say. */
  lemma SwapChainDetailsValidity(d: SwapChainDetails, caps: SurfaceCapabilities)
    ensures d.IsValid() <==> d.surfaceFormats != [] && d.presentationModes != []
    ensures d.(surfaceFormats := []).IsValid() == false
    ensures d.(presentationModes := []).IsValid() == false
    ensures d.(surfaceCapabilities := caps).IsValid() == d.IsValid()
  {
  }

  /** Memory type `i` may be used: bit `i` of `allowedTypes` is set and the
      type's property flags include every requested property. */
  predicate MemoryTypeMatches(allowedTypes: bv32, typeFlags: seq<bv32>, properties: bv32, i: nat)
    requires i < |typeFlags| <= MAX_MEMORY_TYPES
  {
    TypeAllowed(allowedTypes, i) && HasFlags(typeFlags[i], properties)
  }

  /** Bit `i` of the allowed-types mask is set (`allowedTypes & (1 << i)`). */
  predicate TypeAllowed(allowedTypes: bv32, i: nat)
    requires i < MAX_MEMORY_TYPES
  {
    allowedTypes & (1 << i) != 0
  }

  /** findMemoryTypeIndex (VulkanUtils.h:110-125): the first memory type, in
      index order, that is allowed and has the requested properties.
      `typeFlags[i]` is memoryTypes[i].propertyFlags of the physical device.
      When nothing matches the C++ function falls off its end and returns
      no value; callers must not let that happen. */
  method FindMemoryTypeIndex(allowedTypes: bv32, typeFlags: seq<bv32>, properties: bv32) returns (index: nat)
    requires |typeFlags| <= MAX_MEMORY_TYPES
    requires exists i :: 0 <= i < |typeFlags| && MemoryTypeMatches(allowedTypes, typeFlags, properties, i)
    ensures index < |typeFlags|
    ensures TypeAllowed(allowedTypes, index)
    ensures HasFlags(typeFlags[index], properties)
    ensures forall j :: 0 <= j < index ==> !MemoryTypeMatches(allowedTypes, typeFlags, properties, j)
  {
    var i := 0;
    while i < |typeFlags|
      invariant 0 <= i <= |typeFlags|
      invariant forall j :: 0 <= j < i ==> !MemoryTypeMatches(allowedTypes, typeFlags, properties, j)
    {
      if MemoryTypeMatches(allowedTypes, typeFlags, properties, i) {
        return i;
      }
      i := i + 1;
    }
    assert false;
  }
}
