/**
 * The part of the Vulkan API that the selection rules of the Vulkan back
 * ends read: surface capabilities, formats, present modes, device types,
 * queue-family flags and memory types, and the searches over those lists
 * that the back ends write as `for` loops with `break`.
 *
 * Enumerated values keep their Vulkan numbering where the code relies on it
 * (a zero-initialised field is VK_FORMAT_UNDEFINED or
 * VK_PRESENT_MODE_IMMEDIATE_KHR).  Lists returned by the
 * vkGetPhysicalDevice* queries are inputs.
 */
module Vulkan {
  /** UINT32_MAX: the special `currentExtent.width` of a surface whose size the swapchain decides. */
  const Uint32Max: nat := 0xFFFF_FFFF

  /** FLAP_WINDOW_WIDTH and FLAP_WINDOW_HEIGHT (src/flap.h). */
  const WindowWidth: nat := 800
  const WindowHeight: nat := 450

  datatype Option<T> = None | Some(value: T)

  /** The outcome of a search that falls back to index 0 and may call the failure handler. */
  datatype Choice = Choice(id: nat, failed: bool)

  datatype Extent = Extent(width: nat, height: nat)

  datatype SurfaceCapabilities = SurfaceCapabilities(
    minImageCount: nat, maxImageCount: nat,
    currentExtent: Extent, minImageExtent: Extent, maxImageExtent: Extent)

  datatype DeviceType = OtherGpu | IntegratedGpu | DiscreteGpu | VirtualGpu | Cpu

  /** VkPresentModeKHR; IMMEDIATE is 0, the value of a zero-initialised field. */
  datatype PresentMode = Immediate | Mailbox | Fifo | FifoRelaxed

  const FormatUndefined: nat := 0
  const FormatR8G8B8A8Unorm: nat := 37
  const ColorSpaceSrgbNonlinear: nat := 0

  datatype SurfaceFormat = SurfaceFormat(format: nat, colorSpace: nat)

  /** The zero-initialised format of a `{0}` create-info structure. */
  const ZeroFormat: SurfaceFormat := SurfaceFormat(FormatUndefined, 0)

  datatype SharingMode = Exclusive | Concurrent

  /** The VkResult values the presentation code distinguishes. */
  datatype PresentResult = Success | Suboptimal | ErrorOutOfDate

  /** A recorded vkCmdDrawIndexed: `indexCount` indices read from `firstIndex` on. */
  datatype DrawIndexed = DrawIndexed(indexCount: nat, firstIndex: nat)

  /** The draw reads only entries of an index buffer of `length` entries. */
  predicate DrawInside(d: DrawIndexed, length: nat)
  {
    d.firstIndex + d.indexCount <= length
  }

  const QueueGraphicsBit: bv32 := 0x1

  const MemoryDeviceLocalBit: bv32 := 0x1
  const MemoryHostVisibleBit: bv32 := 0x2
  const MemoryHostCoherentBit: bv32 := 0x4

  /** VK_MAX_MEMORY_TYPES: the length of `memoryTypes[]`. */
  const MaxMemoryTypes: nat := 32

  /** `mask & (1 << i)` is nonzero. */
  predicate Bit(mask: bv32, i: nat)
    requires i < 32
  {
    mask & ((1 as bv32) << i) != 0
  }

  /**
   * The if / else-if clamp of the back ends: raise v to lo, or else lower it
   * to hi.
   */
  function Clamp(v: nat, lo: nat, hi: nat): (r: nat)
    ensures lo <= hi ==> lo <= r <= hi
    ensures lo <= v <= hi ==> r == v
    ensures r == v || r == lo || r == hi
  {
    if v < lo then lo else if v > hi then hi else v
  }

  /** When lo > hi the lower bound wins over the upper one. */
  lemma ClampFavoursLowerBound(v: nat, lo: nat, hi: nat)
    requires hi < lo
    ensures Clamp(v, lo, hi) == (if v < lo then lo else hi)
  {
  }

  // Searches.  A loop `for (i = 0; i < n; i++) if (p(i)) { id = i; break; }`
  // ends at the First index satisfying p; without the `break` it ends at the
  // Last one.

  function First(s: seq<bool>): (r: Option<nat>)
    ensures r.Some? ==> r.value < |s| && s[r.value] && forall j :: 0 <= j < r.value ==> !s[j]
    ensures r.None? <==> forall j :: 0 <= j < |s| ==> !s[j]
  {
    if |s| == 0 then None
    else if s[0] then Some(0)
    else match First(s[1..])
      case None => None
      case Some(k) => Some(k + 1)
  }

  function Last(s: seq<bool>): (r: Option<nat>)
    ensures r.Some? ==> r.value < |s| && s[r.value] && forall j :: r.value < j < |s| ==> !s[j]
    ensures r.None? <==> forall j :: 0 <= j < |s| ==> !s[j]
  {
    if |s| == 0 then None
    else if s[|s| - 1] then Some(|s| - 1)
    else Last(s[..|s| - 1])
  }

  /** First is characterised by its contract: the least index that holds. */
  lemma FirstIs(s: seq<bool>, k: nat)
    requires k < |s| && s[k] && forall j :: 0 <= j < k ==> !s[j]
    ensures First(s) == Some(k)
  {
  }

  lemma LastIs(s: seq<bool>, k: nat)
    requires k < |s| && s[k] && forall j :: k < j < |s| ==> !s[j]
    ensures Last(s) == Some(k)
  {
  }

  /** A search over an empty list and a search that finds nothing agree. */
  lemma FirstNoneIsLastNone(s: seq<bool>)
    ensures First(s).None? <==> Last(s).None?
  {
  }
}
