/**
 * The decisions of src/renderer.c.  Its static globals become the fields of
 * one `Renderer` object: the chosen physical device and queue families, the
 * format, the present mode, the extent, the image count and `frame_id`.
 * renderer_init applies the device, queue, format, present-mode and
 * image-count rules; renderer_create_swapchain applies the extent and
 * sharing rules and adopts the number of images the swapchain reports;
 * renderer_render rotates `frame_id` over that number.
 *
 * The number of images a created swapchain reports is an input
 * (`actualCount`), as are the surface queries.
 */
module Renderer {
  import opened Vulkan
  import Device
  import Swapchain

  /** What renderer_create_swapchain hands to vkCreateSwapchainKHR. */
  datatype SwapchainInfo = SwapchainInfo(
    minImageCount: nat, format: SurfaceFormat, extent: Extent,
    sharing: Swapchain.SharingInfo, presentMode: PresentMode)

  /** `(frame_id + 1) % image_count`. */
  function Advance(frameId: nat, count: nat): (r: nat)
    requires count > 0
    ensures r < count
    ensures frameId < count - 1 ==> r == frameId + 1
    ensures frameId == count - 1 ==> r == 0
  {
    (frameId + 1) % count
  }

  /** The frame index after n rendered frames. */
  function AdvanceTimes(frameId: nat, count: nat, n: nat): (r: nat)
    requires count > 0
  {
    if n == 0 then frameId else Advance(AdvanceTimes(frameId, count, n - 1), count)
  }

  /** From a valid index, n <= count frames later the index has moved n places, wrapping once. */
  lemma {:induction false} AdvanceTimesWraps(frameId: nat, count: nat, n: nat)
    requires count > 0 && frameId < count && n <= count
    ensures AdvanceTimes(frameId, count, n) ==
              (if frameId + n < count then frameId + n else frameId + n - count)
  {
    if n > 0 {
      AdvanceTimesWraps(frameId, count, n - 1);
    }
  }

  /** Every image is used in turn: after image_count frames the index is back where it started, and not before. */
  lemma AdvanceCycles(frameId: nat, count: nat)
    requires count > 0 && frameId < count
    ensures AdvanceTimes(frameId, count, count) == frameId
    ensures forall n :: 0 < n < count ==> AdvanceTimes(frameId, count, n) != frameId
  {
    AdvanceTimesWraps(frameId, count, count);
    forall n | 0 < n < count
      ensures AdvanceTimes(frameId, count, n) != frameId
    {
      AdvanceTimesWraps(frameId, count, n);
    }
  }

  /**
   * A queue-family search of renderer_init writes the id only when a family
   * qualifies; otherwise the id keeps its value.
   */
  function FamilyOr(has: seq<bool>, current: nat): (r: nat)
    ensures r == current || (r < |has| && has[r])
    ensures (forall j :: 0 <= j < |has| ==> !has[j]) ==> r == current
  {
    match First(has)
    case Some(k) => k
    case None => current
  }

  /** The id a found family gets is the one the device.c search reports. */
  lemma FamilyOrFound(has: seq<bool>, current: nat)
    requires exists j :: 0 <= j < |has| && has[j]
    ensures FamilyOr(has, current) == Device.FirstFamily(has).id
    ensures !Device.FirstFamily(has).failed
  {
  }

  /** The static globals of src/renderer.c that the rules read and write. */
  class Renderer {
    var physicalDevice: Option<nat>
    var graphicsQueueId: nat
    var presentQueueId: nat
    var format: SurfaceFormat
    var presentMode: PresentMode
    var imageExtent: Extent
    var imageCount: nat
    var frameId: nat
    /** The create-info of the last swapchain creation. */
    var info: SwapchainInfo
    /** Whether `fail_with_error` was reached. */
    var failed: bool

    /** The initialisers of the statics. */
    constructor ()
      ensures physicalDevice.None? && graphicsQueueId == 0 && presentQueueId == 0
      ensures format == Swapchain.DefaultFormat && presentMode == Swapchain.DefaultPresentMode
      ensures imageExtent == Extent(0, 0) && imageCount == Swapchain.PreferredImageCount && frameId == 0
      ensures info == SwapchainInfo(0, ZeroFormat, Extent(0, 0), Swapchain.SharingInfo(Exclusive, []), Immediate)
      ensures !failed
    {
      physicalDevice := None;
      graphicsQueueId, presentQueueId := 0, 0;
      format := Swapchain.DefaultFormat;
      presentMode := Swapchain.DefaultPresentMode;
      imageExtent := Extent(0, 0);
      imageCount := Swapchain.PreferredImageCount;
      frameId := 0;
      info := SwapchainInfo(0, ZeroFormat, Extent(0, 0), Swapchain.SharingInfo(Exclusive, []), Immediate);
      failed := false;
    }

    /**
     * renderer_create_swapchain: the extent rule, a create-info asking for
     * the current image count, and then the count the swapchain reports.
     */
    method CreateSwapchain(caps: SurfaceCapabilities, actualCount: nat)
      modifies this`imageExtent, this`info, this`imageCount
      ensures imageExtent == Swapchain.ResolutionAsWritten(caps)
      ensures info == SwapchainInfo(old(imageCount), format, imageExtent,
                                    Swapchain.Sharing(graphicsQueueId, presentQueueId), presentMode)
      ensures imageCount == actualCount
    {
      imageExtent := Swapchain.ChooseResolution(caps);
      var sharing;
      if graphicsQueueId != presentQueueId {
        sharing := Swapchain.SharingInfo(Concurrent, [graphicsQueueId, presentQueueId]);
      } else {
        sharing := Swapchain.SharingInfo(Exclusive, []);
      }
      info := SwapchainInfo(imageCount, format, imageExtent, sharing, presentMode);
      imageCount := actualCount;
    }

    /** The device and queue-family part of renderer_init. */
    method SelectDevice(p: Device.Platform)
      requires |p.familyFlags| == |p.presentSupport|
      modifies this`physicalDevice, this`graphicsQueueId, this`presentQueueId, this`failed
      ensures physicalDevice == (if Device.PreferredDevice(p.types).Some?
                                 then Device.PreferredDevice(p.types) else old(physicalDevice))
      ensures graphicsQueueId == FamilyOr(Device.HasGraphics(p.familyFlags), old(graphicsQueueId))
      ensures presentQueueId == FamilyOr(p.presentSupport, old(presentQueueId))
      ensures failed == (old(failed) || physicalDevice.None? ||
                         Device.FirstFamily(Device.HasGraphics(p.familyFlags)).failed ||
                         Device.FirstFamily(p.presentSupport).failed)
    {
      var chosen := Device.ChooseDevice(p.types, DiscreteGpu, IntegratedGpu);
      if chosen.Some? {
        physicalDevice := chosen;
      }
      if physicalDevice.None? {
        failed := true;
      }
      var gfx := Device.HasGraphics(p.familyFlags);
      var graphics := Device.FindFamily(gfx);
      if |gfx| > 0 && !graphics.failed {
        FirstIs(gfx, graphics.id);
        graphicsQueueId := graphics.id;
      }
      var present := Device.FindFamily(p.presentSupport);
      if |p.presentSupport| > 0 && !present.failed {
        FirstIs(p.presentSupport, present.id);
        presentQueueId := present.id;
      }
      failed := failed || graphics.failed || present.failed;
    }

    /** The surface part of renderer_init: format, present mode, then image count. */
    method SelectSurfaceRules(s: Swapchain.Surface)
      requires |s.formats| >= 1
      modifies this`format, this`presentMode, this`imageCount
      ensures format == Swapchain.FormatChoice(s.formats, old(format))
      ensures presentMode == Swapchain.PresentModeChoice(s.modes, old(presentMode))
      ensures imageCount == Swapchain.ImageCountAsWritten(old(imageCount), s.caps)
    {
      if |s.formats| != 1 || s.formats[0].format != FormatUndefined {
        format := s.formats[0];
      }
      presentMode := Swapchain.ChoosePresentMode(s.modes, presentMode);
      imageCount := Swapchain.ClampImageCount(imageCount, s.caps);
    }

    /** renderer_init: device and queues, the surface rules, then the swapchain. */
    method Init(p: Device.Platform, s: Swapchain.Surface, actualCount: nat)
      requires |p.familyFlags| == |p.presentSupport| && |s.formats| >= 1
      modifies this
      ensures physicalDevice == (if Device.PreferredDevice(p.types).Some?
                                 then Device.PreferredDevice(p.types) else old(physicalDevice))
      ensures graphicsQueueId == FamilyOr(Device.HasGraphics(p.familyFlags), old(graphicsQueueId))
      ensures presentQueueId == FamilyOr(p.presentSupport, old(presentQueueId))
      ensures failed == (old(failed) || physicalDevice.None? ||
                         Device.FirstFamily(Device.HasGraphics(p.familyFlags)).failed ||
                         Device.FirstFamily(p.presentSupport).failed)
      ensures format == Swapchain.FormatChoice(s.formats, old(format))
      ensures presentMode == Swapchain.PresentModeChoice(s.modes, old(presentMode))
      ensures info == SwapchainInfo(Swapchain.ImageCountAsWritten(old(imageCount), s.caps), format,
                                    Swapchain.ResolutionAsWritten(s.caps),
                                    Swapchain.Sharing(graphicsQueueId, presentQueueId), presentMode)
      ensures imageExtent == Swapchain.ResolutionAsWritten(s.caps)
      ensures imageCount == actualCount && frameId == old(frameId)
    {
      SelectDevice(p);
      SelectSurfaceRules(s);
      CreateSwapchain(s.caps, actualCount);
    }

    /**
     * renderer_render: an OUT_OF_DATE acquire recreates the swapchain and
     * returns before anything else; otherwise the frame is presented, an
     * OUT_OF_DATE present recreates the swapchain, and `frame_id` advances
     * over the image count then in force.  The swapchain must report at
     * least one image wherever the count is divided by.
     */
    method Render(acquired: PresentResult, presented: PresentResult, caps: SurfaceCapabilities, actualCount: nat)
      requires acquired != ErrorOutOfDate && presented != ErrorOutOfDate ==> imageCount > 0
      requires acquired != ErrorOutOfDate && presented == ErrorOutOfDate ==> actualCount > 0
      modifies this`imageExtent, this`info, this`imageCount, this`frameId
      ensures acquired == ErrorOutOfDate ==> frameId == old(frameId)
      ensures acquired != ErrorOutOfDate ==> imageCount > 0 && frameId == Advance(old(frameId), imageCount)
      ensures acquired == ErrorOutOfDate || presented == ErrorOutOfDate ==>
                imageExtent == Swapchain.ResolutionAsWritten(caps) && imageCount == actualCount &&
                info == SwapchainInfo(old(imageCount), format, imageExtent,
                                      Swapchain.Sharing(graphicsQueueId, presentQueueId), presentMode)
      ensures acquired != ErrorOutOfDate && presented != ErrorOutOfDate ==>
                imageExtent == old(imageExtent) && imageCount == old(imageCount) && info == old(info)
    {
      if acquired == ErrorOutOfDate {
        CreateSwapchain(caps, actualCount);
        return;
      }
      if presented == ErrorOutOfDate {
        CreateSwapchain(caps, actualCount);
      }
      frameId := (frameId + 1) % imageCount;
    }
  }
}
