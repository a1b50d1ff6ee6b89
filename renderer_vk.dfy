/**
 * The decisions of src/renderer_vk.c, the second copy of the renderer that
 * the rectangle back end (src/rect_vk.c) drives.  renderer_init applies the
 * rules of src/renderer.c except that it chooses the extent itself;
 * renderer_create_buffer searches memory types as src/device.c does; and
 * renderer_record_command_buffers checks that a pipeline, a vertex buffer
 * and an index buffer were set, then records the same two indexed draws
 * into every command buffer.
 *
 * The objects handed to the setters are reduced to whether they are set.
 */
module RendererVk {
  import opened Vulkan
  import Device
  import Swapchain
  import Renderer
  import Rect
  import Sprite

  /** The failure renderer_record_command_buffers reports, if any. */
  datatype RecordFault = NoPipeline | NoVertexBuffer | NoIndexBuffer

  /** The guards, in their order: pipeline, then vertex buffer, then index buffer. */
  function RecordFaultOf(pipelineSet: bool, vertexBufferSet: bool, indexBufferSet: bool): (r: Option<RecordFault>)
    ensures r.None? <==> pipelineSet && vertexBufferSet && indexBufferSet
    ensures r == Some(NoPipeline) <==> !pipelineSet
    ensures r == Some(NoVertexBuffer) <==> pipelineSet && !vertexBufferSet
    ensures r == Some(NoIndexBuffer) <==> pipelineSet && vertexBufferSet && !indexBufferSet
  {
    if !pipelineSet then Some(NoPipeline)
    else if !vertexBufferSet then Some(NoVertexBuffer)
    else if !indexBufferSet then Some(NoIndexBuffer)
    else None
  }

  /** The bird's rectangle: six indices from the start of the table. */
  const BirdDraw: DrawIndexed := DrawIndexed(6, 0)

  /** The pipes' 2 * FLAP_NUM_PIPES rectangles, after the bird's. */
  const PipeDraw: DrawIndexed := DrawIndexed(Sprite.FlapNumPipes * 2 * 6, 6)

  /** What one command buffer draws. */
  const Commands: seq<DrawIndexed> := [BirdDraw, PipeDraw]

  /**
   * The two draws read the rectangle index table of src/rect.c back to back,
   * end exactly at its last entry, and so name only vertices of the
   * rectangle array.
   */
  lemma DrawsCoverIndexTable()
    ensures forall d :: d in Commands ==> DrawInside(d, |Rect.Indices|)
    ensures BirdDraw.firstIndex == 0 && BirdDraw.firstIndex + BirdDraw.indexCount == PipeDraw.firstIndex
    ensures PipeDraw.firstIndex + PipeDraw.indexCount == |Rect.Indices| == 6 * Rect.Capacity
    ensures forall j :: 0 <= j < |Rect.Indices| ==> Rect.Indices[j] < 4 * Rect.Capacity
  {
    Rect.IndicesInsideVertices();
  }

  /** The static globals of src/renderer_vk.c that the rules read and write. */
  class RendererVk {
    var physicalDevice: Option<nat>
    var graphicsQueueId: nat
    var presentQueueId: nat
    var format: SurfaceFormat
    var presentMode: PresentMode
    var imageExtent: Extent
    var imageCount: nat
    var frameId: nat
    /** The create-info of the last swapchain creation. */
    var info: Renderer.SwapchainInfo
    var pipelineSet: bool
    var vertexBufferSet: bool
    var indexBufferSet: bool
    /** The draws recorded into each of the `image_count` command buffers. */
    var commandBuffers: seq<seq<DrawIndexed>>
    /** Whether `window_fail_with_error` was reached. */
    var failed: bool

    /** The initialisers of the statics. */
    constructor ()
      ensures physicalDevice.None? && graphicsQueueId == 0 && presentQueueId == 0
      ensures format == Swapchain.DefaultFormat && presentMode == Swapchain.DefaultPresentMode
      ensures imageExtent == Extent(0, 0) && imageCount == Swapchain.PreferredImageCount && frameId == 0
      ensures info == Renderer.SwapchainInfo(0, ZeroFormat, Extent(0, 0), Swapchain.SharingInfo(Exclusive, []), Immediate)
      ensures !pipelineSet && !vertexBufferSet && !indexBufferSet
      ensures commandBuffers == [] && !failed
    {
      physicalDevice := None;
      graphicsQueueId, presentQueueId := 0, 0;
      format := Swapchain.DefaultFormat;
      presentMode := Swapchain.DefaultPresentMode;
      imageExtent := Extent(0, 0);
      imageCount := Swapchain.PreferredImageCount;
      frameId := 0;
      info := Renderer.SwapchainInfo(0, ZeroFormat, Extent(0, 0), Swapchain.SharingInfo(Exclusive, []), Immediate);
      pipelineSet, vertexBufferSet, indexBufferSet := false, false, false;
      commandBuffers := [];
      failed := false;
    }

    /**
     * The device and queue-family part of renderer_init.  The physical
     * device is a local, so it holds exactly what the search found.
     */
    method SelectDevice(p: Device.Platform)
      requires |p.familyFlags| == |p.presentSupport|
      modifies this`physicalDevice, this`graphicsQueueId, this`presentQueueId, this`failed
      ensures physicalDevice == Device.PreferredDevice(p.types)
      ensures graphicsQueueId == Renderer.FamilyOr(Device.HasGraphics(p.familyFlags), old(graphicsQueueId))
      ensures presentQueueId == Renderer.FamilyOr(p.presentSupport, old(presentQueueId))
      ensures failed == (old(failed) || physicalDevice.None? ||
                         Device.FirstFamily(Device.HasGraphics(p.familyFlags)).failed ||
                         Device.FirstFamily(p.presentSupport).failed)
    {
      physicalDevice := Device.ChooseDevice(p.types, DiscreteGpu, IntegratedGpu);
      if physicalDevice.None? {
        failed := true;
      }
      var gfx := Device.HasGraphics(p.familyFlags);
      var graphics := Device.FindFamily(gfx);
      if |gfx| > 0 && !graphics.failed {
        FirstIs(gfx, graphics.id);
        graphicsQueueId := graphics.id;
      }
      var present := Device.FindFamily(p.presentSupport);
      if |p.presentSupport| > 0 && !present.failed {
        FirstIs(p.presentSupport, present.id);
        presentQueueId := present.id;
      }
      failed := failed || graphics.failed || present.failed;
    }

    /** The surface part of renderer_init: format, present mode, extent, image count. */
    method SelectSurfaceRules(s: Swapchain.Surface)
      requires |s.formats| >= 1
      modifies this`format, this`presentMode, this`imageExtent, this`imageCount
      ensures format == Swapchain.FormatChoice(s.formats, old(format))
      ensures presentMode == Swapchain.PresentModeChoice(s.modes, old(presentMode))
      ensures imageExtent == Swapchain.ResolutionAsWritten(s.caps)
      ensures imageCount == Swapchain.ImageCountAsWritten(old(imageCount), s.caps)
    {
      if |s.formats| != 1 || s.formats[0].format != FormatUndefined {
        format := s.formats[0];
      }
      presentMode := Swapchain.ChoosePresentMode(s.modes, presentMode);
      imageExtent := Swapchain.ChooseResolution(s.caps);
      imageCount := Swapchain.ClampImageCount(imageCount, s.caps);
    }

    /** renderer_create_swapchain: a create-info from the chosen values. */
    method CreateSwapchain()
      modifies this`info
      ensures info == Renderer.SwapchainInfo(imageCount, format, imageExtent,
                                             Swapchain.Sharing(graphicsQueueId, presentQueueId), presentMode)
    {
      var sharing;
      if graphicsQueueId != presentQueueId {
        sharing := Swapchain.SharingInfo(Concurrent, [graphicsQueueId, presentQueueId]);
      } else {
        sharing := Swapchain.SharingInfo(Exclusive, []);
      }
      info := Renderer.SwapchainInfo(imageCount, format, imageExtent, sharing, presentMode);
    }

    /**
     * renderer_init: device and queues, the surface rules, the swapchain,
     * and then the number of images the swapchain reports.
     */
    method Init(p: Device.Platform, s: Swapchain.Surface, actualCount: nat)
      requires |p.familyFlags| == |p.presentSupport| && |s.formats| >= 1
      modifies this`physicalDevice, this`graphicsQueueId, this`presentQueueId, this`failed,
               this`format, this`presentMode, this`imageExtent, this`imageCount, this`info
      ensures physicalDevice == Device.PreferredDevice(p.types)
      ensures graphicsQueueId == Renderer.FamilyOr(Device.HasGraphics(p.familyFlags), old(graphicsQueueId))
      ensures presentQueueId == Renderer.FamilyOr(p.presentSupport, old(presentQueueId))
      ensures failed == (old(failed) || physicalDevice.None? ||
                         Device.FirstFamily(Device.HasGraphics(p.familyFlags)).failed ||
                         Device.FirstFamily(p.presentSupport).failed)
      ensures format == Swapchain.FormatChoice(s.formats, old(format))
      ensures presentMode == Swapchain.PresentModeChoice(s.modes, old(presentMode))
      ensures imageExtent == Swapchain.ResolutionAsWritten(s.caps)
      ensures info == Renderer.SwapchainInfo(Swapchain.ImageCountAsWritten(old(imageCount), s.caps), format, imageExtent,
                                             Swapchain.Sharing(graphicsQueueId, presentQueueId), presentMode)
      ensures imageCount == actualCount
    {
      SelectDevice(p);
      SelectSurfaceRules(s);
      CreateSwapchain();
      imageCount := actualCount;
    }

    /** renderer_render: frame_id advances over the image count; nothing else is decided. */
    method Render()
      requires imageCount > 0
      modifies this`frameId
      ensures frameId == Renderer.Advance(old(frameId), imageCount)
    {
      frameId := (frameId + 1) % imageCount;
    }

    /** renderer_set_pipeline. */
    method SetPipeline(isSet: bool)
      modifies this`pipelineSet
      ensures pipelineSet == isSet
    {
      pipelineSet := isSet;
    }

    /** renderer_set_vertex_buffer. */
    method SetVertexBuffer(isSet: bool)
      modifies this`vertexBufferSet
      ensures vertexBufferSet == isSet
    {
      vertexBufferSet := isSet;
    }

    /** renderer_set_index_buffer. */
    method SetIndexBuffer(isSet: bool)
      modifies this`indexBufferSet
      ensures indexBufferSet == isSet
    {
      indexBufferSet := isSet;
    }

    /**
     * renderer_record_command_buffers: the guards fire the failure in their
     * order, but recording goes on regardless, one command buffer per image.
     */
    method Record()
      modifies this`failed, this`commandBuffers
      ensures failed == (old(failed) || RecordFaultOf(pipelineSet, vertexBufferSet, indexBufferSet).Some?)
      ensures |commandBuffers| == imageCount
      ensures forall i :: 0 <= i < imageCount ==> commandBuffers[i] == Commands
    {
      if !pipelineSet {
        failed := true;
      } else if !vertexBufferSet {
        failed := true;
      } else if !indexBufferSet {
        failed := true;
      }
      var recorded: seq<seq<DrawIndexed>> := [];
      var i := 0;
      while i < imageCount
        invariant i <= imageCount && |recorded| == i
        invariant forall k :: 0 <= k < i ==> recorded[k] == Commands
      {
        recorded := recorded + [[BirdDraw, PipeDraw]];
        i := i + 1;
      }
      commandBuffers := recorded;
    }

    /**
     * renderer_create_buffer's memory-type choice: the search of
     * src/device.c over the properties of the chosen physical device.
     */
    method CreateBuffer(typeBits: bv32, types: seq<bv32>, wanted: bv32) returns (memoryTypeIndex: nat)
      requires |types| <= MaxMemoryTypes
      modifies this`failed
      ensures memoryTypeIndex == Device.MemoryType(typeBits, types, wanted).id
      ensures failed == (old(failed) || Device.MemoryType(typeBits, types, wanted).failed)
    {
      var r := Device.FindMemoryType(typeBits, types, wanted);
      memoryTypeIndex := r.id;
      failed := failed || r.failed;
    }
  }
}
