/**
 * The decisions of src/texture.c: the image-memory barrier that
 * texture_transition_layout records for a layout change, and the order in
 * which texture_create_from_image stages the pixels, changes the layout,
 * copies and changes the layout again.
 *
 * Command buffers are the sequence of commands recorded into them; the
 * decoded image (stb_image's result, or none when decoding fails) is an
 * input.  Flag values are those of the Vulkan headers.
 */
module Texture {
  import opened Vulkan
  import Device
  import Buffer

  datatype Layout = Undefined | General | ColorAttachmentOptimal | TransferSrcOptimal
                  | TransferDstOptimal | ShaderReadOnlyOptimal | PresentSrc

  const AccessNone: bv32 := 0
  const AccessShaderReadBit: bv32 := 0x20
  const AccessTransferWriteBit: bv32 := 0x1000

  const StageTopOfPipeBit: bv32 := 0x1
  const StageFragmentShaderBit: bv32 := 0x80
  const StageTransferBit: bv32 := 0x1000

  /** VK_QUEUE_FAMILY_IGNORED. */
  const QueueFamilyIgnored: nat := 0xFFFF_FFFF

  /** The fields of the recorded barrier and the two stage masks passed with it. */
  datatype Barrier = Barrier(
    oldLayout: Layout, newLayout: Layout,
    srcQueueFamily: nat, dstQueueFamily: nat,
    srcAccess: bv32, dstAccess: bv32,
    srcStage: bv32, dstStage: bv32)

  /**
   * The table of texture_transition_layout: UNDEFINED to TRANSFER_DST waits
   * for nothing and makes transfer writes visible to the transfer stage;
   * TRANSFER_DST to SHADER_READ_ONLY makes transfer writes visible to shader reads
   * in the fragment stage; any other pair keeps the zeroed masks and the
   * default stages TOP_OF_PIPE to TRANSFER.
   */
  function TransitionBarrier(oldLayout: Layout, newLayout: Layout): (b: Barrier)
    ensures b.oldLayout == oldLayout && b.newLayout == newLayout
    ensures b.srcQueueFamily == QueueFamilyIgnored && b.dstQueueFamily == QueueFamilyIgnored
  {
    if oldLayout == Undefined && newLayout == TransferDstOptimal then
      Barrier(oldLayout, newLayout, QueueFamilyIgnored, QueueFamilyIgnored,
              AccessNone, AccessTransferWriteBit, StageTopOfPipeBit, StageTransferBit)
    else if oldLayout == TransferDstOptimal && newLayout == ShaderReadOnlyOptimal then
      Barrier(oldLayout, newLayout, QueueFamilyIgnored, QueueFamilyIgnored,
              AccessTransferWriteBit, AccessShaderReadBit, StageTransferBit, StageFragmentShaderBit)
    else
      Barrier(oldLayout, newLayout, QueueFamilyIgnored, QueueFamilyIgnored,
              AccessNone, AccessNone, StageTopOfPipeBit, StageTransferBit)
  }

  /**
   * Only the two transitions of an upload make any memory visible; every
   * other pair is an execution-only dependency from TOP_OF_PIPE to TRANSFER.
   */
  lemma TransitionBarrierCases(oldLayout: Layout, newLayout: Layout)
    ensures var b := TransitionBarrier(oldLayout, newLayout);
            b.dstAccess != AccessNone <==>
              (oldLayout == Undefined && newLayout == TransferDstOptimal) ||
              (oldLayout == TransferDstOptimal && newLayout == ShaderReadOnlyOptimal)
    ensures var b := TransitionBarrier(oldLayout, newLayout);
            b.srcAccess == AccessNone <==> !(oldLayout == TransferDstOptimal && newLayout == ShaderReadOnlyOptimal)
    ensures var b := TransitionBarrier(oldLayout, newLayout);
            b.dstAccess == AccessNone ==> b.srcStage == StageTopOfPipeBit && b.dstStage == StageTransferBit
  {
  }

  /**
   * The upload's barriers bracket the copy: the first makes the image
   * writable by the transfer stage, whose writes the second waits for
   * before fragment shaders read them.
   */
  lemma UploadBarriersChain()
    ensures var first := TransitionBarrier(Undefined, TransferDstOptimal);
            var second := TransitionBarrier(TransferDstOptimal, ShaderReadOnlyOptimal);
            first.newLayout == second.oldLayout &&
            first.dstStage == second.srcStage == StageTransferBit &&
            first.dstAccess == second.srcAccess == AccessTransferWriteBit &&
            second.dstAccess == AccessShaderReadBit && second.dstStage == StageFragmentShaderBit
  {
  }

  /** texture_transition_layout: defaults, then the if / else-if over layout pairs. */
  method TransitionLayout(oldLayout: Layout, newLayout: Layout) returns (b: Barrier)
    ensures b == TransitionBarrier(oldLayout, newLayout)
  {
    b := Barrier(oldLayout, newLayout, QueueFamilyIgnored, QueueFamilyIgnored, 0, 0, 0, 0);
    var sourceStage := StageTopOfPipeBit;
    var destinationStage := StageTransferBit;
    if oldLayout == Undefined && newLayout == TransferDstOptimal {
      b := b.(srcAccess := AccessNone, dstAccess := AccessTransferWriteBit);
      sourceStage := StageTopOfPipeBit;
      destinationStage := StageTransferBit;
    } else if oldLayout == TransferDstOptimal && newLayout == ShaderReadOnlyOptimal {
      b := b.(srcAccess := AccessTransferWriteBit, dstAccess := AccessShaderReadBit);
      sourceStage := StageTransferBit;
      destinationStage := StageFragmentShaderBit;
    }
    b := b.(srcStage := sourceStage, dstStage := destinationStage);
  }

  /** A decoded RGBA image: four bytes per pixel. */
  datatype Image = Image(width: nat, height: nat, pixels: seq<bv8>)

  /** `width * height * 4`, the size of the decoded pixels and of the staging request. */
  function ImageSize(width: nat, height: nat): (n: nat)
  {
    width * height * 4
  }

  /** The commands the upload records, in order. */
  datatype Command = PipelineBarrier(barrier: Barrier) | CopyBufferToImage(width: nat, height: nat)

  /** The upload of texture_create_from_image: a transition, the copy, a transition. */
  function UploadCommands(width: nat, height: nat): (cs: seq<Command>)
    ensures |cs| == 3 && cs[1] == CopyBufferToImage(width, height)
    ensures cs[0] == PipelineBarrier(TransitionBarrier(Undefined, TransferDstOptimal))
    ensures cs[2] == PipelineBarrier(TransitionBarrier(TransferDstOptimal, ShaderReadOnlyOptimal))
  {
    [PipelineBarrier(TransitionBarrier(Undefined, TransferDstOptimal)),
     CopyBufferToImage(width, height),
     PipelineBarrier(TransitionBarrier(TransferDstOptimal, ShaderReadOnlyOptimal))]
  }

  /** The layouts an upload passes through end in SHADER_READ_ONLY, starting from the layout images are created in. */
  lemma UploadEndsShaderReadable(width: nat, height: nat)
    ensures var cs := UploadCommands(width, height);
            cs[0].barrier.oldLayout == Undefined &&
            cs[0].barrier.newLayout == cs[2].barrier.oldLayout == TransferDstOptimal &&
            cs[2].barrier.newLayout == ShaderReadOnlyOptimal
  {
  }

  /**
   * buffer_write as written copies the staging buffer's rounded size from
   * the decoded pixels, so every upload reads past their end: a 1 x 1 image
   * with 64-byte atoms reads 64 bytes of a 4-byte array.
   */
  lemma StagingWriteAsWrittenOverReads(width: nat, height: nat, alignment: nat)
    requires alignment > 0
    ensures ImageSize(width, height) < Buffer.ActualSize(ImageSize(width, height), alignment)
    ensures Buffer.ActualSize(ImageSize(1, 1), 64) == 64 && ImageSize(1, 1) == 4
  {
    Buffer.ActualSizeBounds(ImageSize(width, height), alignment);
  }

  /**
   * The staging buffer of texture_create_from_image: created HOST_VISIBLE |
   * HOST_COHERENT at the pixels' size, written with the pixels (as
   * intended), and destroyed after the copy.  Returns what it held and
   * whether its memory-type search failed.
   */
  method Stage(pixels: seq<bv8>, alignment: nat, typeBits: bv32, types: seq<bv32>)
    returns (staged: seq<Option<bv8>>, stagingFailed: bool)
    requires alignment > 0 && |types| <= MaxMemoryTypes
    ensures |staged| == Buffer.ActualSize(|pixels|, alignment)
    ensures staged[..|pixels|] == Buffer.Defined(pixels)
    ensures stagingFailed == Device.MemoryType(typeBits, types, MemoryHostVisibleBit | MemoryHostCoherentBit).failed
  {
    var staging := new Buffer.Buffer();
    staging.Create(|pixels|, alignment, typeBits, types, MemoryHostVisibleBit | MemoryHostCoherentBit);
    stagingFailed := staging.failed;
    Buffer.ActualSizeBounds(|pixels|, alignment);
    staging.Write(pixels);
    staged := staging.contents;
    var _ := staging.Destroy();
  }

  /** The `Texture` structure, reduced to what the selection rules and the upload decide. */
  class Texture {
    var width: nat
    var height: nat
    var memoryTypeIndex: nat
    /** The commands recorded for this texture so far. */
    var commands: seq<Command>
    /** Whether `window_fail_with_error` was reached. */
    var failed: bool

    constructor ()
      ensures width == 0 && height == 0 && memoryTypeIndex == 0 && commands == [] && !failed
    {
      width, height, memoryTypeIndex := 0, 0, 0;
      commands := [];
      failed := false;
    }

    /** texture_create: the size is recorded and the image gets a DEVICE_LOCAL memory type. */
    method Create(w: nat, h: nat, typeBits: bv32, types: seq<bv32>)
      requires |types| <= MaxMemoryTypes
      modifies this`width, this`height, this`memoryTypeIndex, this`failed
      ensures width == w && height == h
      ensures memoryTypeIndex == Device.MemoryType(typeBits, types, MemoryDeviceLocalBit).id
      ensures failed == (old(failed) || Device.MemoryType(typeBits, types, MemoryDeviceLocalBit).failed)
    {
      width, height := w, h;
      var r := Device.FindMemoryType(typeBits, types, MemoryDeviceLocalBit);
      memoryTypeIndex := r.id;
      failed := failed || r.failed;
    }

    /**
     * texture_create_from_image: fail when the image did not decode;
     * otherwise create the texture, stage the pixels in a HOST_VISIBLE |
     * HOST_COHERENT buffer (written as intended), transition, copy,
     * transition, and destroy the staging buffer.  `staged` is what the
     * staging buffer holds when the copy reads it.
     */
    method CreateFromImage(image: Option<Image>, alignment: nat,
                           imageTypeBits: bv32, bufferTypeBits: bv32, types: seq<bv32>)
      returns (staged: seq<Option<bv8>>)
      requires alignment > 0 && |types| <= MaxMemoryTypes
      requires image.Some? ==> |image.value.pixels| == ImageSize(image.value.width, image.value.height)
      modifies this`width, this`height, this`memoryTypeIndex, this`failed, this`commands
      ensures image.None? ==> failed && width == old(width) && height == old(height) &&
                              memoryTypeIndex == old(memoryTypeIndex) && commands == old(commands) && staged == []
      ensures image.Some? ==> width == image.value.width && height == image.value.height
      ensures image.Some? ==> memoryTypeIndex == Device.MemoryType(imageTypeBits, types, MemoryDeviceLocalBit).id
      ensures image.Some? ==>
                failed == (old(failed) ||
                           Device.MemoryType(imageTypeBits, types, MemoryDeviceLocalBit).failed ||
                           Device.MemoryType(bufferTypeBits, types, MemoryHostVisibleBit | MemoryHostCoherentBit).failed)
      ensures image.Some? ==> commands == old(commands) + UploadCommands(width, height)
      ensures image.Some? ==> |staged| == Buffer.ActualSize(ImageSize(width, height), alignment)
      ensures image.Some? ==> staged[..ImageSize(width, height)] == Buffer.Defined(image.value.pixels)
    {
      if image.None? {
        failed := true;
        return [];
      }
      var img := image.value;
      Create(img.width, img.height, imageTypeBits, types);
      var stagingFailed;
      staged, stagingFailed := Stage(img.pixels, alignment, bufferTypeBits, types);
      failed := failed || stagingFailed;
      RecordUpload(img.width, img.height);
    }

    /** The three commands of the upload, appended in order. */
    method RecordUpload(w: nat, h: nat)
      modifies this`commands
      ensures commands == old(commands) + UploadCommands(w, h)
    {
      var before := TransitionLayout(Undefined, TransferDstOptimal);
      commands := commands + [PipelineBarrier(before)];
      commands := commands + [CopyBufferToImage(w, h)];
      var after := TransitionLayout(TransferDstOptimal, ShaderReadOnlyOptimal);
      commands := commands + [PipelineBarrier(after)];
    }
  }
}
