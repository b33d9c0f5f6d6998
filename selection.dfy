/** The read-only choices VulkanRenderer makes from what the device and the
    surface report: surface format, present mode, swapchain extent and
    image count, depth format, queue families and the extension and layer
    checks (VulkanRenderer.cpp). What the queries return is passed in. */
module Selection {
  import opened Common
  import opened VulkanUtils

  // Enumerator values from the Vulkan headers.
  const FORMAT_UNDEFINED: int := 0
  const FORMAT_R8G8B8A8_UNORM: int := 37
  const COLOR_SPACE_SRGB_NONLINEAR: int := 0
  const PRESENT_MODE_MAILBOX: int := 1
  const PRESENT_MODE_FIFO: int := 2
  const IMAGE_TILING_OPTIMAL: int := 0
  const IMAGE_TILING_LINEAR: int := 1
  const QUEUE_GRAPHICS_BIT: bv32 := 1

  /** SURFACE_COLOR_FORMAT with SURFACE_COLOR_SPACE (VulkanRenderer.h:28-29). */
  const PREFERRED_SURFACE_FORMAT: SurfaceFormat :=
    SurfaceFormat(FORMAT_R8G8B8A8_UNORM, COLOR_SPACE_SRGB_NONLINEAR)

  /** SURFACE_PRESENTATION_MODE (VulkanRenderer.h:30). */
  const PREFERRED_PRESENT_MODE: int := PRESENT_MODE_MAILBOX

  /** deviceExtensions (VulkanRenderer.h:41-43). */
  const DEVICE_EXTENSIONS: seq<string> := ["VK_KHR_swapchain"]

  /** validationLayers (VulkanRenderer.h:45-47). */
  const VALIDATION_LAYERS: seq<string> := ["VK_LAYER_KHRONOS_validation"]

  /** defineSurfaceFormat (VulkanRenderer.cpp:936-955). A single UNDEFINED
      entry means any format may be used and yields the preferred one; else
      the preferred format when listed; else the first listed. */
  method DefineSurfaceFormat(formats: seq<SurfaceFormat>) returns (r: SurfaceFormat)
    requires |formats| > 0
    ensures |formats| == 1 && formats[0].format == FORMAT_UNDEFINED ==> r == PREFERRED_SURFACE_FORMAT
    ensures !(|formats| == 1 && formats[0].format == FORMAT_UNDEFINED) ==>
      r == (if PREFERRED_SURFACE_FORMAT in formats then PREFERRED_SURFACE_FORMAT else formats[0])
    ensures r == PREFERRED_SURFACE_FORMAT || r == formats[0]
  {
    if |formats| == 1 && formats[0].format == FORMAT_UNDEFINED {
      return PREFERRED_SURFACE_FORMAT;
    }
    var i := 0;
    while i < |formats|
      invariant 0 <= i <= |formats|
      invariant PREFERRED_SURFACE_FORMAT !in formats[..i]
    {
      var format := formats[i];
      if format.format == FORMAT_R8G8B8A8_UNORM && format.colorSpace == COLOR_SPACE_SRGB_NONLINEAR {
        return format;
      }
      i := i + 1;
    }
    assert formats[..i] == formats;
    return formats[0];
  }

  /** definePresentationMode (VulkanRenderer.cpp:1073-1086): MAILBOX when
      the surface lists it, otherwise FIFO, which every surface supports. */
  method DefinePresentationMode(presentationModes: seq<int>) returns (r: int)
    ensures r == (if PREFERRED_PRESENT_MODE in presentationModes then PRESENT_MODE_MAILBOX else PRESENT_MODE_FIFO)
  {
    var i := 0;
    while i < |presentationModes|
      invariant 0 <= i <= |presentationModes|
      invariant PREFERRED_PRESENT_MODE !in presentationModes[..i]
    {
      if presentationModes[i] == PREFERRED_PRESENT_MODE {
        return presentationModes[i];
      }
      i := i + 1;
    }
    assert presentationModes[..i] == presentationModes;
    return PRESENT_MODE_FIFO;
  }

  /** std::max(lo, std::min(hi, x)). */
  function Clamp(lo: int, hi: int, x: int): (r: int)
    ensures lo <= hi ==> lo <= r <= hi
    ensures lo <= x <= hi ==> r == x
    ensures x < lo ==> r == lo
    ensures lo <= hi < x ==> r == hi
  {
    if hi < x then (if lo < hi then hi else lo) else (if lo < x then x else lo)
  }

  /** defineSwapChainExtent (VulkanRenderer.cpp:1088-1114). `windowWidth`
      and `windowHeight` are what glfwGetFramebufferSize reports. A current
      extent whose width is not UINT32_MAX is used as it is; otherwise the
      window size, converted to uint32_t, is clamped into the surface's
      [min, max] extent. */
  function DefineSwapChainExtent(caps: SurfaceCapabilities, windowWidth: int, windowHeight: int): (r: Extent)
    ensures caps.currentExtent.width != U32_MAX ==> r == caps.currentExtent
    ensures caps.currentExtent.width == U32_MAX ==>
      && r.width == Clamp(caps.minImageExtent.width, caps.maxImageExtent.width, ToU32(windowWidth))
      && r.height == Clamp(caps.minImageExtent.height, caps.maxImageExtent.height, ToU32(windowHeight))
  {
    if caps.currentExtent.width != U32_MAX then
      caps.currentExtent
    else
      var width := ToU32(windowWidth);
      var height := ToU32(windowHeight);
      Extent(Clamp(caps.minImageExtent.width, caps.maxImageExtent.width, width),
             Clamp(caps.minImageExtent.height, caps.maxImageExtent.height, height))
  }

  /** When the surface leaves the extent open, a window whose size lies
      within the surface's bounds is taken exactly, and any window size
      yields an extent within the bounds. */
  lemma ExtentWithinBounds(caps: SurfaceCapabilities, windowWidth: int, windowHeight: int)
    requires caps.currentExtent.width == U32_MAX
    requires caps.minImageExtent.width <= caps.maxImageExtent.width
    requires caps.minImageExtent.height <= caps.maxImageExtent.height
    ensures var r := DefineSwapChainExtent(caps, windowWidth, windowHeight);
      && caps.minImageExtent.width <= r.width <= caps.maxImageExtent.width
      && caps.minImageExtent.height <= r.height <= caps.maxImageExtent.height
      && (0 <= caps.minImageExtent.width <= windowWidth <= caps.maxImageExtent.width <= U32_MAX ==> r.width == windowWidth)
      && (0 <= caps.minImageExtent.height <= windowHeight <= caps.maxImageExtent.height <= U32_MAX ==> r.height == windowHeight)
  {
  }

  /** The swapchain image count chosen in createSwapChain
      (VulkanRenderer.cpp:281-290): one more than the minimum, in uint32_t
      arithmetic, lowered to the maximum when the surface has one (a
      maximum of 0 means no limit). */
  function SwapchainImageCount(caps: SurfaceCapabilities): (r: int)
    requires 0 <= caps.minImageCount <= U32_MAX && 0 <= caps.maxImageCount <= U32_MAX
    ensures 0 <= r <= U32_MAX
    ensures caps.maxImageCount > 0 ==> r <= caps.maxImageCount
    ensures caps.minImageCount < U32_MAX && (caps.maxImageCount == 0 || caps.minImageCount < caps.maxImageCount) ==>
      r == caps.minImageCount + 1
  {
    var imageCount := ToU32(caps.minImageCount + 1);
    if caps.maxImageCount > 0 && caps.maxImageCount < imageCount then caps.maxImageCount else imageCount
  }

  /** The choice never drops below the surface's minimum when the surface
      is consistent, except for the wrap-around at UINT32_MAX: a minimum of
      UINT32_MAX and no maximum gives 0 images. */
  lemma SwapchainImageCountBounds(caps: SurfaceCapabilities)
    requires 0 <= caps.minImageCount <= U32_MAX && 0 <= caps.maxImageCount <= U32_MAX
    ensures caps.minImageCount < U32_MAX && (caps.maxImageCount == 0 || caps.minImageCount <= caps.maxImageCount) ==>
      caps.minImageCount <= SwapchainImageCount(caps)
    ensures caps.minImageCount == U32_MAX && caps.maxImageCount == 0 ==> SwapchainImageCount(caps) == 0
  {
  }

  /** The format features a candidate format offers for each tiling; the
      result of vkGetPhysicalDeviceFormatProperties for `format`. */
  datatype FormatCandidate = FormatCandidate(format: int, linearTilingFeatures: bv32, optimalTilingFeatures: bv32)

  /** The candidate offers `featureFlags` for `tiling`. A tiling other than
      LINEAR and OPTIMAL is never satisfied. */
  predicate FormatSupports(c: FormatCandidate, tiling: int, featureFlags: bv32)
  {
    || (tiling == IMAGE_TILING_LINEAR && HasFlags(c.linearTilingFeatures, featureFlags))
    || (tiling == IMAGE_TILING_OPTIMAL && HasFlags(c.optimalTilingFeatures, featureFlags))
  }

  /** defineSupportedFormat (VulkanRenderer.cpp:1455-1469): the first
      candidate, in list order, that offers the features for the tiling;
      a std::runtime_error when there is none. */
  method DefineSupportedFormat(candidates: seq<FormatCandidate>, tiling: int, featureFlags: bv32)
    returns (r: Except<int>)
    ensures r.Throw? <==> forall i :: 0 <= i < |candidates| ==> !FormatSupports(candidates[i], tiling, featureFlags)
    ensures r.Return? ==> exists i :: 0 <= i < |candidates| && candidates[i].format == r.value
                                 && FormatSupports(candidates[i], tiling, featureFlags)
                                 && (forall j :: 0 <= j < i ==> !FormatSupports(candidates[j], tiling, featureFlags))
  {
    var i := 0;
    while i < |candidates|
      invariant 0 <= i <= |candidates|
      invariant forall j :: 0 <= j < i ==> !FormatSupports(candidates[j], tiling, featureFlags)
    {
      var c := candidates[i];
      if (tiling == IMAGE_TILING_LINEAR && c.linearTilingFeatures & featureFlags == featureFlags)
        || (tiling == IMAGE_TILING_OPTIMAL && c.optimalTilingFeatures & featureFlags == featureFlags)
      {
        return Return(c.format);
      }
      i := i + 1;
    }
    return Throw("Failed to find a matching format.");
  }

  /** A queue family as getQueueFamilies sees it: its queue count and flags,
      and whether vkGetPhysicalDeviceSurfaceSupportKHR reports that it can
      present to the surface. */
  datatype QueueFamily = QueueFamily(queueCount: int, queueFlags: bv32, presentationSupport: bool)

  predicate IsGraphicsFamily(f: QueueFamily)
  {
    f.queueCount > 0 && f.queueFlags & QUEUE_GRAPHICS_BIT != 0
  }

  predicate IsPresentationFamily(f: QueueFamily)
  {
    f.queueCount > 0 && f.presentationSupport
  }

  /** Among the first `n` families there is a graphics family and a
      presentation family. */
  predicate BothSeen(families: seq<QueueFamily>, n: nat)
    requires n <= |families|
  {
    && (exists j :: 0 <= j < n && IsGraphicsFamily(families[j]))
    && (exists j :: 0 <= j < n && IsPresentationFamily(families[j]))
  }

  /** How many families the scan of getQueueFamilies looks at before it
      stops with result `r`. */
  function Scanned(r: QueueFamilyIndices, count: nat): int
  {
    if r.IsValid() then (if r.graphicsFamily < r.presentationFamily then r.presentationFamily else r.graphicsFamily) + 1
    else count
  }

  /** getQueueFamilies (VulkanRenderer.cpp:1471-1510). The scan goes
      through the families in order; each family with queues and the
      graphics bit becomes the graphics family, each family with queues and
      presentation support becomes the presentation family, and the scan
      stops after the first family at which both have been found. So the
      result is valid exactly when the device has both kinds of family,
      each index names a family of its kind (or is -1), the scan stopped as
      early as it could, and each index is the last of its kind among the
      families scanned. */
  method GetQueueFamilies(families: seq<QueueFamily>) returns (r: QueueFamilyIndices)
    ensures r.IsValid() <==> BothSeen(families, |families|)
    ensures r.graphicsFamily == -1 ||
      (0 <= r.graphicsFamily < |families| && IsGraphicsFamily(families[r.graphicsFamily]))
    ensures r.presentationFamily == -1 ||
      (0 <= r.presentationFamily < |families| && IsPresentationFamily(families[r.presentationFamily]))
    ensures 0 <= Scanned(r, |families|) <= |families|
    ensures forall n :: 0 < n < Scanned(r, |families|) ==> !BothSeen(families, n)
    ensures forall j :: r.graphicsFamily < j < Scanned(r, |families|) ==> !IsGraphicsFamily(families[j])
    ensures forall j :: r.presentationFamily < j < Scanned(r, |families|) ==> !IsPresentationFamily(families[j])
  {
    r := NO_QUEUE_FAMILIES;
    var i := 0;
    while i < |families|
      invariant 0 <= i <= |families|
      invariant !r.IsValid()
      invariant r.graphicsFamily == -1 || (0 <= r.graphicsFamily < i && IsGraphicsFamily(families[r.graphicsFamily]))
      invariant r.presentationFamily == -1 ||
        (0 <= r.presentationFamily < i && IsPresentationFamily(families[r.presentationFamily]))
      invariant forall j :: r.graphicsFamily < j < i ==> !IsGraphicsFamily(families[j])
      invariant forall j :: r.presentationFamily < j < i ==> !IsPresentationFamily(families[j])
      invariant forall n :: 0 < n <= i ==> !BothSeen(families, n)
    {
      var family := families[i];
      if family.queueCount > 0 && family.queueFlags & QUEUE_GRAPHICS_BIT != 0 {
        r := r.(graphicsFamily := i);
      }
      if family.queueCount > 0 && family.presentationSupport {
        r := r.(presentationFamily := i);
      }
      if r.IsValid() {
        return;
      }
      i := i + 1;
    }
  }

  /** Every name of `required` appears in `available`: the nested search
      shared by isDeviceSupportsRequiredExtensions and
      checkValidationLayerSupport, with names compared by strcmp(...) == 0. */
  method AllListed(required: seq<string>, available: seq<string>) returns (r: bool)
    ensures r <==> forall i :: 0 <= i < |required| ==> required[i] in available
  {
    var i := 0;
    while i < |required|
      invariant 0 <= i <= |required|
      invariant forall k :: 0 <= k < i ==> required[k] in available
    {
      var hasName := false;
      var j := 0;
      while j < |available|
        invariant 0 <= j <= |available|
        invariant required[i] !in available[..j]
      {
        if required[i] == available[j] {
          hasName := true;
          break;
        }
        j := j + 1;
      }
      if !hasName {
        assert available[..j] == available;
        return false;
      }
      i := i + 1;
    }
    return true;
  }

  /** isDeviceSupportsRequiredExtensions (VulkanRenderer.cpp:1391-1426): a
      device reporting no extensions fails; otherwise every name of
      deviceExtensions must be among the device's extensions. */
  method IsDeviceSupportsRequiredExtensions(deviceExtensionNames: seq<string>) returns (r: bool)
    ensures r <==> |deviceExtensionNames| > 0 && forall i :: 0 <= i < |DEVICE_EXTENSIONS| ==> DEVICE_EXTENSIONS[i] in deviceExtensionNames
    ensures r <==> "VK_KHR_swapchain" in deviceExtensionNames
  {
    if |deviceExtensionNames| == 0 {
      return false;
    }
    r := AllListed(DEVICE_EXTENSIONS, deviceExtensionNames);
    assert (forall i :: 0 <= i < |DEVICE_EXTENSIONS| ==> DEVICE_EXTENSIONS[i] in deviceExtensionNames)
      <==> DEVICE_EXTENSIONS[0] in deviceExtensionNames;
  }

  /** checkValidationLayerSupport (VulkanRenderer.cpp:1609-1634): every
      name of validationLayers is among the instance's layers. */
  method CheckValidationLayerSupport(layerNames: seq<string>) returns (r: bool)
    ensures r <==> forall i :: 0 <= i < |VALIDATION_LAYERS| ==> VALIDATION_LAYERS[i] in layerNames
    ensures r <==> "VK_LAYER_KHRONOS_validation" in layerNames
  {
    r := AllListed(VALIDATION_LAYERS, layerNames);
    assert (forall i :: 0 <= i < |VALIDATION_LAYERS| ==> VALIDATION_LAYERS[i] in layerNames)
      <==> VALIDATION_LAYERS[0] in layerNames;
  }

  /** What isInstanceExtensionsSupported computes as written: strcmp's
      non-zero result (names differ) counts as a match, and the function
      returns after examining only the first required name. */
  predicate InstanceCheckAsWritten(required: seq<string>, available: seq<string>)
  {
    |required| > 0 && exists a :: a in available && a != required[0]
  }

  /** What the function is evidently meant to compute: every required
      instance extension is available. */
  predicate InstanceExtensionsAvailable(required: seq<string>, available: seq<string>)
  {
    forall i :: 0 <= i < |required| ==> required[i] in available
  }

  /** isInstanceExtensionsSupported (VulkanRenderer.cpp:1352-1384), modelled
      as written: `strcmp(...)` used as a truth value at line 1368 and the
      unconditional `return true` inside the outer loop at line 1380. Since
      every path through the outer loop's body returns, the outer loop
      examines only the first required name and is written here as an `if`. */
  method IsInstanceExtensionsSupported(required: seq<string>, available: seq<string>) returns (r: bool)
    ensures r <==> InstanceCheckAsWritten(required, available)
  {
    if |required| > 0 {
      var extensionToCheck := required[0];
      var hasExtension := false;
      var j := 0;
      while j < |available|
        invariant 0 <= j <= |available|
        invariant forall k :: 0 <= k < j ==> available[k] == extensionToCheck
      {
        if extensionToCheck != available[j] {
          assert available[j] in available;
          hasExtension := true;
          break;
        }
        j := j + 1;
      }
      if !hasExtension {
        return false;
      }
      return true;
    }
    return false;
  }

  /** The corrected check: the same nested search with the comparison
      `strcmp(...) == 0` and the `return true` after the outer loop, which
      is what AllListed performs. */
  method IsInstanceExtensionsSupportedCorrected(required: seq<string>, available: seq<string>) returns (r: bool)
    ensures r <==> InstanceExtensionsAvailable(required, available)
  {
    r := AllListed(required, available);
  }

  /** The as-written check accepts an instance that lacks the one required
      extension, as long as it offers some other extension. */
  lemma InstanceCheckAcceptsMissingExtension()
    ensures InstanceCheckAsWritten(["VK_KHR_surface"], ["VK_EXT_debug_utils"])
    ensures !InstanceExtensionsAvailable(["VK_KHR_surface"], ["VK_EXT_debug_utils"])
  {
    var available: seq<string> := ["VK_EXT_debug_utils"];
    assert available[0] in available;
    assert available[0] != "VK_KHR_surface";
  }

  /** ... and it rejects an instance that offers exactly the required
      extension and nothing else. */
  lemma InstanceCheckRejectsExactMatch()
    ensures !InstanceCheckAsWritten(["VK_KHR_surface"], ["VK_KHR_surface"])
    ensures InstanceExtensionsAvailable(["VK_KHR_surface"], ["VK_KHR_surface"])
  {
  }

  /** The two checks agree on no non-empty list of required names in
      general: whenever the as-written check passes for a single required
      name it is because of some other name, not the required one. */
  lemma InstanceCheckIgnoresTheRequiredName(name: string, available: seq<string>)
    ensures InstanceCheckAsWritten([name], available) <==> InstanceCheckAsWritten([name], RemoveAll(available, name))
  {
    RemoveAllKeepsOthers(available, name);
  }

  /** `s` without any occurrence of `x`. */
  function RemoveAll(s: seq<string>, x: string): (r: seq<string>)
    ensures x !in r
  {
    if s == [] then []
    else if s[0] == x then RemoveAll(s[1..], x)
    else [s[0]] + RemoveAll(s[1..], x)
  }

  lemma {:induction false} RemoveAllKeepsOthers(s: seq<string>, x: string)
    ensures forall a :: a != x ==> (a in s <==> a in RemoveAll(s, x))
  {
    if s != [] {
      RemoveAllKeepsOthers(s[1..], x);
      assert forall a :: a in s <==> a == s[0] || a in s[1..];
    }
  }
}
