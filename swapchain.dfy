/**
 * The decisions of src/swapchain.c: the image extent (choose_resolution),
 * the image count, the surface format, the present mode and the sharing
 * mode of swapchain_create, and the frame rotation and return value of
 * swapchain_present.  The same extent, count, format and present-mode rules
 * appear in src/renderer.c and src/renderer_vk.c, whose modules use the
 * members here.
 *
 * The class runs two rules as the code writes them: the height clamp
 * bounded by the maximum width (ClampedWindowAsWritten) and the image-count
 * clamp that treats a zero maximum as a bound (ImageCountAsWritten).  Their
 * corrected forms (ClampedWindow, Resolution, ImageCount) are stated beside
 * them, with lemmas saying where the two agree.
 */
module Swapchain {
  import opened Vulkan

  /** The image count the back ends ask for before clamping. */
  const PreferredImageCount: nat := 3

  /** The number of semaphore and fence sets swapchain_present rotates through. */
  const FramesInFlight: nat := 3

  /** The defaults src/renderer.c starts from: FIFO and R8G8B8A8_UNORM / SRGB_NONLINEAR. */
  const DefaultPresentMode: PresentMode := Fifo
  const DefaultFormat: SurfaceFormat := SurfaceFormat(FormatR8G8B8A8Unorm, ColorSpaceSrgbNonlinear)

  // ---------------------------------------------------------------------
  // The extent.

  /**
   * The window-size clamp as the code has it: the height's upper bound is
   * `maxImageExtent.width`.
   */
  function ClampedWindowAsWritten(caps: SurfaceCapabilities): (r: Extent)
    ensures r.width == Clamp(WindowWidth, caps.minImageExtent.width, caps.maxImageExtent.width)
    ensures r.height == Clamp(WindowHeight, caps.minImageExtent.height, caps.maxImageExtent.width)
  {
    Extent(Clamp(WindowWidth, caps.minImageExtent.width, caps.maxImageExtent.width),
           Clamp(WindowHeight, caps.minImageExtent.height, caps.maxImageExtent.width))
  }

  /** A surface 1000 wide and at most 300 high: the height 450 is kept although it exceeds 300. */
  lemma ClampedWindowAsWrittenTooHigh()
    ensures var caps := SurfaceCapabilities(1, 0, Extent(Uint32Max, Uint32Max), Extent(1, 1), Extent(1000, 300));
            ClampedWindowAsWritten(caps).height == 450 > caps.maxImageExtent.height
  {
  }

  /** The clamp with each dimension bounded by its own minimum and maximum. */
  function ClampedWindow(caps: SurfaceCapabilities): (r: Extent)
    ensures caps.minImageExtent.width <= caps.maxImageExtent.width ==>
              caps.minImageExtent.width <= r.width <= caps.maxImageExtent.width
    ensures caps.minImageExtent.height <= caps.maxImageExtent.height ==>
              caps.minImageExtent.height <= r.height <= caps.maxImageExtent.height
  {
    Extent(Clamp(WindowWidth, caps.minImageExtent.width, caps.maxImageExtent.width),
           Clamp(WindowHeight, caps.minImageExtent.height, caps.maxImageExtent.height))
  }

  /** The two clamps differ only in the height, and only when width and height bounds differ. */
  lemma ClampedWindowsAgree(caps: SurfaceCapabilities)
    requires caps.maxImageExtent.width == caps.maxImageExtent.height
    ensures ClampedWindowAsWritten(caps) == ClampedWindow(caps)
  {
  }

  /** choose_resolution as written: the surface's current extent unless its width is UINT32_MAX, else the as-written clamp. */
  function ResolutionAsWritten(caps: SurfaceCapabilities): (r: Extent)
  {
    if caps.currentExtent.width != Uint32Max then caps.currentExtent else ClampedWindowAsWritten(caps)
  }

  /**
   * The as-written extent is the surface's own when it has one; otherwise
   * the width is within its range and the height is at least the minimum
   * height and at most the maximum WIDTH.  It is the corrected Resolution
   * whenever the surface has an extent or a square maximum.
   */
  lemma ResolutionAsWrittenBounds(caps: SurfaceCapabilities)
    ensures caps.currentExtent.width != Uint32Max ==> ResolutionAsWritten(caps) == caps.currentExtent
    ensures caps.currentExtent.width == Uint32Max && caps.minImageExtent.width <= caps.maxImageExtent.width ==>
              caps.minImageExtent.width <= ResolutionAsWritten(caps).width <= caps.maxImageExtent.width
    ensures caps.currentExtent.width == Uint32Max && caps.minImageExtent.height <= caps.maxImageExtent.width ==>
              caps.minImageExtent.height <= ResolutionAsWritten(caps).height <= caps.maxImageExtent.width
    ensures caps.currentExtent.width != Uint32Max || caps.maxImageExtent.width == caps.maxImageExtent.height ==>
              ResolutionAsWritten(caps) == Resolution(caps)
  {
  }

  /** The corrected rule: the surface's current extent unless its width is UINT32_MAX, else ClampedWindow. */
  function Resolution(caps: SurfaceCapabilities): (r: Extent)
  {
    if caps.currentExtent.width != Uint32Max then caps.currentExtent else ClampedWindow(caps)
  }

  /**
   * The chosen extent is the surface's own when it has one; otherwise it is
   * within the supported range, and it is the window size whenever the
   * window size is supported.
   */
  lemma ResolutionSupported(caps: SurfaceCapabilities)
    ensures caps.currentExtent.width != Uint32Max ==> Resolution(caps) == caps.currentExtent
    ensures caps.currentExtent.width == Uint32Max &&
            caps.minImageExtent.width <= caps.maxImageExtent.width &&
            caps.minImageExtent.height <= caps.maxImageExtent.height ==>
              caps.minImageExtent.width <= Resolution(caps).width <= caps.maxImageExtent.width &&
              caps.minImageExtent.height <= Resolution(caps).height <= caps.maxImageExtent.height
    ensures caps.currentExtent.width == Uint32Max &&
            caps.minImageExtent.width <= WindowWidth <= caps.maxImageExtent.width &&
            caps.minImageExtent.height <= WindowHeight <= caps.maxImageExtent.height ==>
              Resolution(caps) == Extent(WindowWidth, WindowHeight)
  {
  }

  /**
   * The window-size clamp of choose_resolution's else branch, through its
   * if / else-if assignments; the height is compared with the maximum width.
   */
  method ClampWindow(caps: SurfaceCapabilities) returns (res: Extent)
    ensures res == ClampedWindowAsWritten(caps)
  {
    res := Extent(WindowWidth, WindowHeight);
    if res.width < caps.minImageExtent.width {
      res := res.(width := caps.minImageExtent.width);
    } else if res.width > caps.maxImageExtent.width {
      res := res.(width := caps.maxImageExtent.width);
    }
    if res.height < caps.minImageExtent.height {
      res := res.(height := caps.minImageExtent.height);
    } else if res.height > caps.maxImageExtent.width {
      res := res.(height := caps.maxImageExtent.width);
    }
  }

  /** choose_resolution: the current extent, or the window size clamped as written. */
  method ChooseResolution(caps: SurfaceCapabilities) returns (res: Extent)
    ensures res == ResolutionAsWritten(caps)
  {
    if caps.currentExtent.width != Uint32Max {
      res := caps.currentExtent;
    } else {
      res := ClampWindow(caps);
    }
  }

  // ---------------------------------------------------------------------
  // The image count.

  /** The wanted count, raised to minImageCount or else lowered to maxImageCount, as the code has it. */
  function ImageCountAsWritten(want: nat, caps: SurfaceCapabilities): (r: nat)
    ensures caps.minImageCount <= caps.maxImageCount ==> caps.minImageCount <= r <= caps.maxImageCount
    ensures want < caps.minImageCount ==> r == caps.minImageCount
  {
    Clamp(want, caps.minImageCount, caps.maxImageCount)
  }

  /**
   * maxImageCount 0 means "no limit", but the clamp asks for 0 images, fewer
   * than the minimum of 2.
   */
  lemma ImageCountAsWrittenZero()
    ensures var caps := SurfaceCapabilities(2, 0, Extent(800, 450), Extent(1, 1), Extent(800, 450));
            ImageCountAsWritten(PreferredImageCount, caps) == 0 < caps.minImageCount
  {
  }

  /** The clamp with an upper bound only when maxImageCount is not 0. */
  function ImageCount(want: nat, caps: SurfaceCapabilities): (r: nat)
    ensures caps.maxImageCount == 0 || caps.minImageCount <= caps.maxImageCount ==> r >= caps.minImageCount
    ensures caps.maxImageCount != 0 && caps.minImageCount <= caps.maxImageCount ==> r <= caps.maxImageCount
    ensures r == want || r == caps.minImageCount || r == caps.maxImageCount
  {
    if caps.maxImageCount == 0 then
      (if want < caps.minImageCount then caps.minImageCount else want)
    else Clamp(want, caps.minImageCount, caps.maxImageCount)
  }

  /** The image-count assignments: raised to minImageCount, or else lowered to maxImageCount. */
  method ClampImageCount(want: nat, caps: SurfaceCapabilities) returns (count: nat)
    ensures count == ImageCountAsWritten(want, caps)
  {
    count := want;
    if want < caps.minImageCount {
      count := caps.minImageCount;
    } else if want > caps.maxImageCount {
      count := caps.maxImageCount;
    }
  }

  /**
   * Whenever the surface bounds the count, both rules agree; without a bound
   * the corrected rule keeps the wanted count if it is supported.
   */
  lemma ImageCountsAgree(want: nat, caps: SurfaceCapabilities)
    ensures caps.maxImageCount != 0 ==> ImageCount(want, caps) == ImageCountAsWritten(want, caps)
    ensures caps.maxImageCount == 0 && caps.minImageCount <= want ==> ImageCount(want, caps) == want
  {
  }

  // ---------------------------------------------------------------------
  // The format and the present mode.

  /**
   * The format rule: the surface's first format, unless the list is a
   * single VK_FORMAT_UNDEFINED entry (no preference), which keeps `current`.
   * A surface reports at least one format.
   */
  function FormatChoice(formats: seq<SurfaceFormat>, current: SurfaceFormat): (r: SurfaceFormat)
    requires |formats| >= 1
    ensures r == current <== |formats| == 1 && formats[0].format == FormatUndefined
    ensures r != current ==> r == formats[0]
  {
    if |formats| != 1 || formats[0].format != FormatUndefined then formats[0] else current
  }

  /** The outcome is undefined exactly when the first entry is and it is not kept, or the kept one is. */
  lemma FormatChoiceUndefined(formats: seq<SurfaceFormat>, current: SurfaceFormat)
    requires |formats| >= 1
    ensures FormatChoice(formats, current).format == FormatUndefined <==>
              formats[0].format == FormatUndefined && (|formats| > 1 || current.format == FormatUndefined)
  {
  }

  /**
   * The present-mode rule: MAILBOX if listed, else IMMEDIATE if listed, else
   * the mode already in place.
   */
  function PresentModeChoice(modes: seq<PresentMode>, current: PresentMode): (r: PresentMode)
  {
    if Mailbox in modes then Mailbox else if Immediate in modes then Immediate else current
  }

  /** The chosen mode is listed, or it is the mode already in place. */
  lemma PresentModeListed(modes: seq<PresentMode>, current: PresentMode)
    ensures PresentModeChoice(modes, current) in modes || PresentModeChoice(modes, current) == current
    ensures PresentModeChoice(modes, current) != Mailbox ==> Mailbox !in modes
    ensures PresentModeChoice(modes, current) !in modes ==> Mailbox !in modes && Immediate !in modes
  {
  }

  /** FIFO support is required of every surface, so starting from FIFO always yields a supported mode. */
  lemma PresentModeFromFifoSupported(modes: seq<PresentMode>)
    requires Fifo in modes
    ensures PresentModeChoice(modes, Fifo) in modes
  {
  }

  /**
   * A zero-initialised `Swapchain` has presentMode 0, VK_PRESENT_MODE_IMMEDIATE_KHR:
   * on a surface that offers only FIFO, swapchain_create keeps IMMEDIATE.
   */
  lemma ZeroPresentModeUnsupported()
    ensures PresentModeChoice([Fifo], Immediate) == Immediate && Immediate !in [Fifo]
  {
  }

  /** The loop over the surface's present modes, with `break` on MAILBOX. */
  method ChoosePresentMode(modes: seq<PresentMode>, current: PresentMode) returns (mode: PresentMode)
    ensures mode == PresentModeChoice(modes, current)
  {
    mode := current;
    var i := 0;
    while i < |modes|
      invariant i <= |modes|
      invariant forall j :: 0 <= j < i ==> modes[j] != Mailbox
      invariant mode == (if exists j :: 0 <= j < i && modes[j] == Immediate then Immediate else current)
    {
      if modes[i] == Mailbox {
        mode := Mailbox;
        break;
      } else if modes[i] == Immediate {
        mode := Immediate;
      }
      i := i + 1;
    }
  }

  // ---------------------------------------------------------------------
  // Sharing and frames.

  datatype SharingInfo = SharingInfo(mode: SharingMode, queueFamilyIndices: seq<nat>)

  /** CONCURRENT over both families when they differ, EXCLUSIVE with no index list otherwise. */
  function Sharing(graphicsQueueId: nat, presentQueueId: nat): (r: SharingInfo)
    ensures r.mode == Concurrent <==> graphicsQueueId != presentQueueId
    ensures r.mode == Concurrent ==> r.queueFamilyIndices == [graphicsQueueId, presentQueueId]
    ensures r.mode == Exclusive ==> r.queueFamilyIndices == []
  {
    if graphicsQueueId != presentQueueId then
      SharingInfo(Concurrent, [graphicsQueueId, presentQueueId])
    else SharingInfo(Exclusive, [])
  }

  /** Concurrent sharing lists two distinct families, which the Vulkan specification requires. */
  lemma SharingIndicesDistinct(graphicsQueueId: nat, presentQueueId: nat)
    ensures var r := Sharing(graphicsQueueId, presentQueueId);
            |r.queueFamilyIndices| == 2 <==> r.mode == Concurrent
    ensures var r := Sharing(graphicsQueueId, presentQueueId);
            r.mode == Concurrent ==> r.queueFamilyIndices[0] != r.queueFamilyIndices[1]
  {
  }

  /** `frame_id = (frame_id + 1) % 3`. */
  function NextFrame(frameId: nat): (r: nat)
    ensures r < FramesInFlight
    ensures frameId < FramesInFlight - 1 ==> r == frameId + 1
  {
    (frameId + 1) % 3
  }

  /** Three presents bring a valid frame index back to where it started. */
  lemma NextFrameCycles(frameId: nat)
    requires frameId < FramesInFlight
    ensures NextFrame(NextFrame(NextFrame(frameId))) == frameId
    ensures NextFrame(frameId) != frameId
  {
  }

  /**
   * What swapchain_present returns: 0 when either the acquire or the
   * present reports VK_ERROR_OUT_OF_DATE_KHR (the present is not reached
   * after a failed acquire), 1 otherwise.
   */
  function PresentStatus(acquired: PresentResult, presented: PresentResult): (r: int)
    ensures r == 0 || r == 1
    ensures r == 1 <==> acquired != ErrorOutOfDate && presented != ErrorOutOfDate
  {
    if acquired == ErrorOutOfDate then 0
    else if presented == ErrorOutOfDate then 0
    else 1
  }

  /** The surface queries swapchain_create reads. */
  datatype Surface = Surface(caps: SurfaceCapabilities, formats: seq<SurfaceFormat>, modes: seq<PresentMode>)

  /** The `Swapchain` structure, reduced to the create-info fields the rules above fill in and `frame_id`. */
  class Swapchain {
    var minImageCount: nat
    var format: SurfaceFormat
    var imageExtent: Extent
    var sharing: SharingInfo
    var presentMode: PresentMode
    var frameId: nat

    ghost predicate Valid()
      reads this
    {
      frameId < FramesInFlight
    }

    /**
     * The zero-initialised `Swapchain`: frame 0, format UNDEFINED with
     * colour space 0 (SRGB_NONLINEAR) and present mode 0 (IMMEDIATE), the values
     * swapchain_create keeps when the surface leaves them open.
     */
    constructor ()
      ensures Valid() && frameId == 0
      ensures format == ZeroFormat && format.format == FormatUndefined && presentMode == Immediate
      ensures minImageCount == 0 && imageExtent == Extent(0, 0) && sharing == SharingInfo(Exclusive, [])
    {
      minImageCount := 0;
      format := ZeroFormat;
      imageExtent := Extent(0, 0);
      sharing := SharingInfo(Exclusive, []);
      presentMode := Immediate;
      frameId := 0;
    }

    /** swapchain_create, in its order: count, format, extent, sharing, present mode. */
    method Create(s: Surface, graphicsQueueId: nat, presentQueueId: nat)
      requires |s.formats| >= 1
      modifies this
      ensures minImageCount == ImageCountAsWritten(PreferredImageCount, s.caps)
      ensures format == FormatChoice(s.formats, old(format))
      ensures imageExtent == ResolutionAsWritten(s.caps)
      ensures sharing == Sharing(graphicsQueueId, presentQueueId)
      ensures presentMode == PresentModeChoice(s.modes, old(presentMode))
      ensures frameId == old(frameId)
    {
      minImageCount := ClampImageCount(PreferredImageCount, s.caps);
      if |s.formats| != 1 || s.formats[0].format != FormatUndefined {
        format := s.formats[0];
      }
      imageExtent := ChooseResolution(s.caps);
      if graphicsQueueId != presentQueueId {
        sharing := SharingInfo(Concurrent, [graphicsQueueId, presentQueueId]);
      } else {
        sharing := SharingInfo(Exclusive, []);
      }
      presentMode := ChoosePresentMode(s.modes, presentMode);
    }

    /** swapchain_resize's decision: the extent is chosen again from fresh capabilities. */
    method Resize(caps: SurfaceCapabilities)
      modifies this`imageExtent
      ensures imageExtent == ResolutionAsWritten(caps)
    {
      imageExtent := ChooseResolution(caps);
    }

    /**
     * swapchain_present: advance the frame, acquire, and on OUT_OF_DATE
     * resize (from `caps`) and return 0; otherwise submit and present, and
     * resize again if the present is OUT_OF_DATE.
     */
    method Present(acquired: PresentResult, presented: PresentResult, caps: SurfaceCapabilities) returns (status: int)
      modifies this`frameId, this`imageExtent
      ensures Valid() && frameId == NextFrame(old(frameId))
      ensures status == PresentStatus(acquired, presented)
      ensures imageExtent == (if status == 0 then ResolutionAsWritten(caps) else old(imageExtent))
    {
      frameId := (frameId + 1) % 3;
      if acquired == ErrorOutOfDate {
        Resize(caps);
        return 0;
      }
      if presented == ErrorOutOfDate {
        Resize(caps);
        return 0;
      }
      return 1;
    }
  }
}
