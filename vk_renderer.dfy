/**
 * The decisions of vk/renderer.c, an older renderer whose rules differ from
 * those of src/device.c and src/swapchain.c:
 *   - it prefers the first integrated GPU and falls back to the last
 *     discrete one;
 *   - its present-family loop has no `break`;
 *   - its extent condition is inverted;
 *   - its memory-type search tests the requested property flags where the
 *     other renderers test `memoryTypeBits`, keeps the last match and never
 *     fails;
 *   - its pipe draw reads six indices too many.
 * Each rule is modelled as written, with a lemma exhibiting how it departs
 * from the rule the other renderers follow, and the class runs the rules as
 * written.  The device preference is a choice; the other four are defects,
 * whose corrected forms are Device.FirstFamily, Swapchain.Resolution,
 * Device.MemoryType and RendererVk.PipeDraw.
 *
 * A failure prints a message and calls `exit`, so it is an `exited` flag
 * after which nothing else changes.
 */
module VkRenderer {
  import opened Vulkan
  import Device
  import Swapchain
  import Renderer
  import RendererVk
  import Rect
  import Sprite

  // ---------------------------------------------------------------------
  // Device preference.

  /** flapRendererInit's preference: the first integrated GPU, otherwise the last discrete one. */
  function IntegratedPreferred(types: seq<DeviceType>): (r: Option<nat>)
    ensures r.Some? ==> r.value < |types| && (types[r.value] == IntegratedGpu || types[r.value] == DiscreteGpu)
  {
    Device.Preference(types, IntegratedGpu, DiscreteGpu)
  }

  /**
   * Both renderers find a device on exactly the same platforms, but with
   * one integrated and one discrete GPU they pick different ones.
   */
  lemma PreferencesDiverge(types: seq<DeviceType>)
    ensures IntegratedPreferred(types).None? <==> Device.PreferredDevice(types).None?
    ensures IntegratedPreferred([DiscreteGpu, IntegratedGpu]) == Some(1)
    ensures Device.PreferredDevice([DiscreteGpu, IntegratedGpu]) == Some(0)
  {
    Device.NoSuitableDevice(types, IntegratedGpu, DiscreteGpu);
    Device.NoSuitableDevice(types, DiscreteGpu, IntegratedGpu);
    Device.PreferenceIs([DiscreteGpu, IntegratedGpu], IntegratedGpu, DiscreteGpu, 1);
    Device.PreferenceIs([DiscreteGpu, IntegratedGpu], DiscreteGpu, IntegratedGpu, 0);
  }

  /** Without an integrated GPU, the discrete GPU chosen is the last, not the first. */
  lemma DiscreteFallbackIsLast(types: seq<DeviceType>, k: nat)
    requires k < |types| && forall j :: 0 <= j < |types| ==> types[j] != IntegratedGpu
    ensures IntegratedPreferred(types) == Some(k) <==>
              types[k] == DiscreteGpu && forall j :: k < j < |types| ==> types[j] != DiscreteGpu
  {
    Device.PreferenceIs(types, IntegratedGpu, DiscreteGpu, k);
  }

  // ---------------------------------------------------------------------
  // The present family, as written.

  /**
   * The present-family loop without `break`: the id ends at the last
   * supporting family, and the exit fires whenever the last family lacks
   * support.
   */
  function LastFamilyAsWritten(has: seq<bool>): (r: Choice)
    ensures r.failed <==> |has| > 0 && !has[|has| - 1]
    ensures !r.failed && |has| > 0 ==> r.id == |has| - 1
    ensures |has| == 0 ==> r == Choice(0, false)
  {
    if |has| == 0 then Choice(0, false)
    else if has[|has| - 1] then Choice(|has| - 1, false)
    else Choice(match Last(has) case Some(k) => k case None => 0, true)
  }

  /** The loop of flapRendererInit; the id is overwritten by every supporting family. */
  method FindLastFamilyAsWritten(has: seq<bool>) returns (r: Choice)
    ensures r == LastFamilyAsWritten(has)
  {
    var id := 0;
    var failed := false;
    var i := 0;
    while i < |has|
      invariant i <= |has|
      invariant failed == (i == |has| && i > 0 && !has[|has| - 1])
      invariant id == (match Last(has[..i]) case Some(k) => k case None => 0)
    {
      assert has[..i + 1][..i] == has[..i];
      if has[i] {
        id := i;
      } else if i == |has| - 1 {
        failed := true;
      }
      i := i + 1;
    }
    assert has[..i] == has;
    r := Choice(id, failed);
  }

  /**
   * A first family that supports presentation and a last one that does not:
   * the loop reaches the exit, where the search with `break` of src/device.c
   * picks family 0.
   */
  lemma LastFamilyAsWrittenFailsDespiteSupport()
    ensures LastFamilyAsWritten([true, false]).failed
    ensures Device.FirstFamily([true, false]) == Choice(0, false)
  {
    FirstIs([true, false], 0);
  }

  /** When the last family supports presentation both searches succeed, each with a supporting family. */
  lemma LastFamilyAsWrittenAgreesOnSuccess(has: seq<bool>)
    requires |has| > 0 && has[|has| - 1]
    ensures !LastFamilyAsWritten(has).failed && !Device.FirstFamily(has).failed
    ensures has[LastFamilyAsWritten(has).id] && has[Device.FirstFamily(has).id]
  {
  }

  // ---------------------------------------------------------------------
  // The extent, as written.

  /** The inverted condition: the surface's extent exactly when its width is UINT32_MAX. */
  function ExtentAsWritten(caps: SurfaceCapabilities): (r: Extent)
    ensures caps.currentExtent.width == Uint32Max ==> r == caps.currentExtent
    ensures caps.currentExtent.width != Uint32Max ==> r == Swapchain.ClampedWindowAsWritten(caps)
  {
    if caps.currentExtent.width == Uint32Max then caps.currentExtent
    else Swapchain.ClampedWindowAsWritten(caps)
  }

  /**
   * A surface that leaves the size to the swapchain gets a 4294967295-wide
   * extent; a 1920 x 1080 surface gets the window size instead of its own.
   */
  lemma ExtentAsWrittenInverted()
    ensures var caps := SurfaceCapabilities(1, 0, Extent(Uint32Max, Uint32Max), Extent(1, 1), Extent(4096, 4096));
            ExtentAsWritten(caps).width == Uint32Max > caps.maxImageExtent.width &&
            Swapchain.Resolution(caps) == Extent(WindowWidth, WindowHeight)
    ensures var caps := SurfaceCapabilities(1, 0, Extent(1920, 1080), Extent(1, 1), Extent(4096, 4096));
            ExtentAsWritten(caps) == Extent(WindowWidth, WindowHeight) &&
            Swapchain.Resolution(caps) == caps.currentExtent && caps.currentExtent != Extent(WindowWidth, WindowHeight)
  {
  }

  // ---------------------------------------------------------------------
  // The memory type, as written.

  /** Type i qualifies when bit i of the requested properties is set and it shares one of them. */
  predicate AcceptableAsWritten(types: seq<bv32>, wanted: bv32, i: nat)
    requires i < |types| <= MaxMemoryTypes
  {
    Bit(wanted, i) && types[i] & wanted != 0
  }

  function CandidatesAsWritten(types: seq<bv32>, wanted: bv32): (s: seq<bool>)
    requires |types| <= MaxMemoryTypes
    ensures |s| == |types|
    ensures forall i :: 0 <= i < |types| ==> s[i] == AcceptableAsWritten(types, wanted, i)
  {
    seq(|types|, i requires 0 <= i < |types| => AcceptableAsWritten(types, wanted, i))
  }

  /** The last qualifying index, or 0; there is no failure. */
  function MemoryTypeAsWritten(types: seq<bv32>, wanted: bv32): (r: nat)
    requires |types| <= MaxMemoryTypes
    ensures (exists i :: 0 <= i < |types| && AcceptableAsWritten(types, wanted, i)) ==>
              r < |types| && AcceptableAsWritten(types, wanted, r) &&
              forall j :: r < j < |types| ==> !AcceptableAsWritten(types, wanted, j)
    ensures (forall i :: 0 <= i < |types| ==> !AcceptableAsWritten(types, wanted, i)) ==> r == 0
  {
    match Last(CandidatesAsWritten(types, wanted))
    case Some(k) => k
    case None => 0
  }

  /** flapRendererCreateBuffer's loop, without `break`. */
  method FindMemoryTypeAsWritten(types: seq<bv32>, wanted: bv32) returns (best: nat)
    requires |types| <= MaxMemoryTypes
    ensures best == MemoryTypeAsWritten(types, wanted)
  {
    best := 0;
    var found := false;
    var i := 0;
    while i < |types|
      invariant i <= |types|
      invariant !found ==> best == 0 && forall j :: 0 <= j < i ==> !AcceptableAsWritten(types, wanted, j)
      invariant found ==> best < i && AcceptableAsWritten(types, wanted, best)
      invariant found ==> forall j :: best < j < i ==> !AcceptableAsWritten(types, wanted, j)
    {
      if AcceptableAsWritten(types, wanted, i) {
        best := i;
        found := true;
      }
      i := i + 1;
    }
    if found {
      LastIs(CandidatesAsWritten(types, wanted), best);
    }
  }

  /**
   * A buffer that may only live in memory type 0, on a device whose three
   * types are all host-visible and coherent, gets type 2; and a device
   * with no host-visible type gets type 0 without any failure.
   */
  lemma MemoryTypeAsWrittenIgnoresRequirements()
    ensures MemoryTypeAsWritten([6, 6, 6], 6) == 2 && !Bit(1, 2)
    ensures Device.MemoryType(1, [6, 6, 6], 6) == Choice(0, false)
    ensures MemoryTypeAsWritten([1], 6) == 0 && Device.MemoryType(1, [1], 6).failed
  {
    var s := CandidatesAsWritten([6, 6, 6], 6);
    assert s[2];
    LastIs(s, 2);
    FirstIs(Device.MemoryCandidates(1, [6, 6, 6], 6), 0);
    assert !CandidatesAsWritten([1], 6)[0];
    assert !Device.MemoryCandidates(1, [1], 6)[0];
  }

  // ---------------------------------------------------------------------
  // The pipe draw, as written.

  /** `(1 + FLAP_NUM_PIPES * 2) * 6` indices from index 6. */
  const PipeDrawAsWritten: DrawIndexed := DrawIndexed((1 + Sprite.FlapNumPipes * 2) * 6, 6)

  /**
   * The index buffer of vk/rect.c holds `(1 + FLAP_NUM_PIPES * 2) * 6`
   * entries; the pipe draw reads up to entry 60, six past its end.  The
   * draw of src/renderer_vk.c stays inside.
   */
  lemma PipeDrawAsWrittenOverruns()
    ensures !DrawInside(PipeDrawAsWritten, 6 * Rect.Capacity)
    ensures PipeDrawAsWritten.firstIndex + PipeDrawAsWritten.indexCount == 6 * Rect.Capacity + 6
    ensures DrawInside(RendererVk.PipeDraw, 6 * Rect.Capacity)
  {
  }

  /** What every command buffer receives: the bird draw and the as-written pipe draw. */
  const CommandsAsWritten: seq<DrawIndexed> := [RendererVk.BirdDraw, PipeDrawAsWritten]

  // ---------------------------------------------------------------------
  // The renderer.

  /** The statics of vk/renderer.c and the locals of flapRendererInit that outlive the search. */
  class VkRenderer {
    var physicalDevice: Option<nat>
    var format: SurfaceFormat
    var imageExtent: Extent
    var imageCount: nat
    /** The create-info of the swapchain. */
    var info: Renderer.SwapchainInfo
    var pipelineSet: bool
    var vertexBufferSet: bool
    var indexBufferSet: bool
    var commandBuffers: seq<seq<DrawIndexed>>
    /** Whether the process has called `exit`. */
    var exited: bool

    /** The initialisers of the statics: UNDEFINED format, image count 3. */
    constructor ()
      ensures physicalDevice.None? && format == ZeroFormat && imageExtent == Extent(0, 0)
      ensures imageCount == Swapchain.PreferredImageCount
      ensures info == Renderer.SwapchainInfo(0, ZeroFormat, Extent(0, 0), Swapchain.SharingInfo(Exclusive, []), Immediate)
      ensures !pipelineSet && !vertexBufferSet && !indexBufferSet && commandBuffers == [] && !exited
    {
      physicalDevice := None;
      format := ZeroFormat;
      imageExtent := Extent(0, 0);
      imageCount := Swapchain.PreferredImageCount;
      info := Renderer.SwapchainInfo(0, ZeroFormat, Extent(0, 0), Swapchain.SharingInfo(Exclusive, []), Immediate);
      pipelineSet, vertexBufferSet, indexBufferSet := false, false, false;
      commandBuffers := [];
      exited := false;
    }

    /**
     * flapRendererInit's decisions: the integrated-first device, the first
     * graphics family and the as-written present family, each fatal when
     * its search fails; then R8G8B8A8_UNORM / SRGB_NONLINEAR unless the
     * surface names a format, FIFO upgraded to MAILBOX or IMMEDIATE, the
     * inverted extent rule, the as-written image-count clamp, and the
     * swapchain.
     */
    method Init(p: Device.Platform, s: Swapchain.Surface, actualCount: nat)
      requires |p.familyFlags| == |p.presentSupport| && |s.formats| >= 1
      modifies this`physicalDevice, this`format, this`imageExtent, this`imageCount, this`info, this`exited
      ensures physicalDevice == IntegratedPreferred(p.types)
      ensures exited == (IntegratedPreferred(p.types).None? ||
                         Device.FirstFamily(Device.HasGraphics(p.familyFlags)).failed ||
                         LastFamilyAsWritten(p.presentSupport).failed)
      ensures exited ==> format == old(format) && imageExtent == old(imageExtent) &&
                         imageCount == old(imageCount) && info == old(info)
      ensures !exited ==> format == Swapchain.FormatChoice(s.formats, Swapchain.DefaultFormat)
      ensures !exited ==> imageExtent == ExtentAsWritten(s.caps)
      ensures !exited ==> info == Renderer.SwapchainInfo(
                Swapchain.ImageCountAsWritten(old(imageCount), s.caps), format, imageExtent,
                Swapchain.Sharing(Device.FirstFamily(Device.HasGraphics(p.familyFlags)).id,
                                  LastFamilyAsWritten(p.presentSupport).id),
                Swapchain.PresentModeChoice(s.modes, Fifo))
      ensures !exited ==> imageCount == actualCount
    {
      physicalDevice := Device.ChooseDevice(p.types, IntegratedGpu, DiscreteGpu);
      exited := false;
      if physicalDevice.None? {
        exited := true;
        return;
      }
      var graphics := Device.FindFamily(Device.HasGraphics(p.familyFlags));
      if graphics.failed {
        exited := true;
        return;
      }
      var present := FindLastFamilyAsWritten(p.presentSupport);
      if present.failed {
        exited := true;
        return;
      }
      var best := Swapchain.DefaultFormat;
      if |s.formats| != 1 || s.formats[0].format != FormatUndefined {
        best := s.formats[0];
      }
      format := best;
      var mode := Swapchain.ChoosePresentMode(s.modes, Fifo);
      if s.caps.currentExtent.width == Uint32Max {
        imageExtent := s.caps.currentExtent;
      } else {
        imageExtent := Swapchain.ClampWindow(s.caps);
      }
      imageCount := Swapchain.ClampImageCount(imageCount, s.caps);
      info := Renderer.SwapchainInfo(imageCount, best, imageExtent,
                                     Swapchain.Sharing(graphics.id, present.id), mode);
      imageCount := actualCount;
    }

    /** flapRendererSetPipeline. */
    method SetPipeline(isSet: bool)
      modifies this`pipelineSet
      ensures pipelineSet == isSet
    {
      pipelineSet := isSet;
    }

    /** flapRendererSetVertexBuffer. */
    method SetVertexBuffer(isSet: bool)
      modifies this`vertexBufferSet
      ensures vertexBufferSet == isSet
    {
      vertexBufferSet := isSet;
    }

    /** flapRendererSetIndexBuffer. */
    method SetIndexBuffer(isSet: bool)
      modifies this`indexBufferSet
      ensures indexBufferSet == isSet
    {
      indexBufferSet := isSet;
    }

    /**
     * flapRendererRecordCommandBuffers: a missing pipeline, vertex buffer or
     * index buffer ends the process before anything is recorded; otherwise
     * every image's command buffer gets the bird draw and the as-written
     * pipe draw, which reads past the end of the index buffer.
     */
    method Record()
      modifies this`exited, this`commandBuffers
      ensures exited == (old(exited) || RendererVk.RecordFaultOf(pipelineSet, vertexBufferSet, indexBufferSet).Some?)
      ensures RendererVk.RecordFaultOf(pipelineSet, vertexBufferSet, indexBufferSet).Some? ==>
                commandBuffers == old(commandBuffers)
      ensures RendererVk.RecordFaultOf(pipelineSet, vertexBufferSet, indexBufferSet).None? ==>
                |commandBuffers| == imageCount &&
                forall i :: 0 <= i < imageCount ==> commandBuffers[i] == CommandsAsWritten
      ensures RendererVk.RecordFaultOf(pipelineSet, vertexBufferSet, indexBufferSet).None? ==>
                forall i :: 0 <= i < imageCount ==> !DrawInside(commandBuffers[i][1], 6 * Rect.Capacity)
    {
      if !pipelineSet {
        exited := true;
        return;
      } else if !vertexBufferSet {
        exited := true;
        return;
      } else if !indexBufferSet {
        exited := true;
        return;
      }
      var recorded: seq<seq<DrawIndexed>> := [];
      var i := 0;
      while i < imageCount
        invariant i <= imageCount && |recorded| == i
        invariant forall k :: 0 <= k < i ==> recorded[k] == CommandsAsWritten
      {
        recorded := recorded + [[RendererVk.BirdDraw, PipeDrawAsWritten]];
        i := i + 1;
      }
      commandBuffers := recorded;
      PipeDrawAsWrittenOverruns();
    }

    /**
     * flapRendererCreateBuffer's memory-type choice as written: the last
     * type passing the as-written test, or 0.  The buffer's `memoryTypeBits`
     * (`typeBits`) is queried but never read, and no outcome exits.
     */
    method CreateBuffer(typeBits: bv32, types: seq<bv32>, wanted: bv32) returns (memoryTypeIndex: nat)
      requires |types| <= MaxMemoryTypes
      ensures memoryTypeIndex == MemoryTypeAsWritten(types, wanted)
      ensures memoryTypeIndex == 0 || memoryTypeIndex < |types|
    {
      memoryTypeIndex := FindMemoryTypeAsWritten(types, wanted);
    }
  }
}
