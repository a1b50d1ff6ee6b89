# flap, modelled in Dafny

flap is a Flappy-Bird clone written in C, with Vulkan, OpenGL/ES, 3DS,
Switch and Android ports. This project models the small decision kernels
that sit under the graphics and windowing code:

- **Sprite and rectangle geometry.** Quads of four vertices live in static
  arrays, and a bump allocator hands out slots. Setters rewrite single
  vertex fields in place. There is an axis-aligned collision test, and a
  constant index table draws each quad as two triangles (modules `Sprite`,
  `SpriteC`, `SpriteImpl`, `SpriteGl`, `SpriteVk`, `Rect`, `FlapRect`).
  rect.c repeats src/rect.c function for function, so module `Rect` models
  both and `FlapRect` holds only rect.c's own store.
- **The game state machine** of `src/game.c`. It has the states
  PLAYING / FALLING / GAMEOVER, the pause toggle and the thrust cooldown.
  It lays out four groups of pipes, scrolls them, and recycles the group at
  `next_pipe` to the right edge while the gap closes (module `Game`).
- **The xoroshiro128+ generator** on 64-bit words (module `Xoroshiro`).
- **The Vulkan selection rules** (modules `Vulkan`, `Device`, `Swapchain`,
  `Renderer`, `RendererVk`, `VkRenderer`):
  - the physical-device preference;
  - the first graphics and present queue families;
  - the memory-type search;
  - format, present-mode and sharing-mode choice;
  - extent and image-count clamping;
  - frame-index rotation.
  `vk/renderer.c` follows rules visibly different from the other three
  renderers; module `VkRenderer` states each difference as a lemma.
- **Buffer size rounding and mapping**, and the **image-layout transition
  table** with the three-step texture upload (modules `Buffer`, `Texture`).
- **Input-flag decoding** of the Android, Switch and 3DS windows
  (modules `WindowAndroid`, `WindowAndroidVk`, `WindowConsoles`).

Modelling conventions:

- State the C code updates in place is a `class`. A static array is an
  `array` field or an `array` parameter. A `Sprite *` or `Rect *` into a
  static array is an index into that `array`.
- Coordinates, speeds and time are `real`. Generator words and Vulkan flag
  masks are `bv64` and `bv32`.
- A Vulkan call is replaced by its result, passed in as an input. These
  inputs are surface capabilities, format and present-mode lists, queue
  family flags, memory types, acquire and present results.
- `window_fail_with_error` is a `failed` flag. On Android it does not stop
  the caller, so the code after it still runs. The one exception is a
  missing image in texture_create_from_file: the code after it would read
  uninitialised sizes, so the model stops there, as the desktop exit does.
  `vk/renderer.c` calls `exit` instead, which is an `exited` flag after
  which nothing changes.
- The operations run the rules as the C code writes them, including the
  defects listed under "## Findings". Each of those defects also has a
  corrected rule beside it, with the intended property proved about it and
  a lemma saying where the two rules agree. The exception is buffer_write's
  over-read, which reads past its source. Buffer.Buffer.WriteAsWritten
  excludes it by a precondition, and the texture upload uses the corrected
  Buffer.Buffer.Write (see "## Left out").
- The clock and the keys pressed are inputs. The pipe heights are not:
  they come from the generator, seeded from the clock.

## Model

| member | source | states |
|---|---|---|
| Vulkan.Clamp | src/swapchain.c:14-18 | with lo <= hi the result lies in [lo, hi]; a value already inside is kept; the result is always the value or one of the bounds |
| Vulkan.ClampFavoursLowerBound | src/swapchain.c:14-18 | when the bounds are crossed (hi < lo), a value outside them goes to lo if below lo, else to hi, because the lower test comes first |
| Vulkan.First | src/device.c:49-57 | a search loop with `break`: the result is the least index that satisfies the test, and it is None exactly when no index does |
| Vulkan.Last | vk/renderer.c:139-149 | a search loop without `break`: the result is the greatest index that satisfies the test, and it is None exactly when no index does |
| Vulkan.FirstIs | src/device.c:49-57 | an index that satisfies the test, with none before it, is the first one |
| Vulkan.LastIs | vk/renderer.c:139-149 | an index that satisfies the test, with none after it, is the last one |
| Vulkan.FirstNoneIsLastNone | src/device.c:49-57 | the forward and the backward search fail on the same inputs |
| Device.Preference | src/device.c:17-27 | the chosen device has one of the two accepted types |
| Device.PreferredDevice | src/device.c:17-27 | device_create's choice is a discrete or an integrated GPU |
| Device.PreferenceIs | src/device.c:17-27 | iff: device k is chosen exactly when it is the first preferred-type device, or when no preferred device exists and k is the last fallback-type device |
| Device.NoSuitableDevice | src/device.c:28-30 | iff: no device is chosen, and the failure fires, exactly when no device has either type |
| Device.ChooseDevice | src/device.c:17-27 | the loop over the devices, with its break on a discrete GPU, computes the preference |
| Device.FirstFamily | src/device.c:49-57 | the id is the least family with the capability; failure exactly when families exist and none qualifies; with zero families neither failure fires and the id stays 0 |
| Device.FindFamily | src/device.c:49-57 | the queue-family loop, which fails at the last index, computes FirstFamily |
| Device.MemoryType | src/device.c:153-174 | without failure, the type is allowed by memoryTypeBits, has a requested property, and no smaller index qualifies; failure exactly when no index qualifies |
| Device.FindMemoryType | src/device.c:153-174 | device_find_memory_type's loop with break computes MemoryType |
| Device.Device.constructor | src/main.c:20 | the zero-initialised Device: no physical device, both queue ids 0, no failure |
| Device.Device.Create | src/device.c:6-112 | device_create: the chosen device; the first graphics and first present families; the command pool on the graphics family; failed when any of the three searches fails |
| Swapchain.ClampedWindowAsWritten | src/swapchain.c:12-24 | the width is 800 clamped to the width range; the height is 450 clamped between minImageExtent.height and maxImageExtent.width |
| Swapchain.ClampedWindowAsWrittenTooHigh | src/swapchain.c:20-24 | the as-written clamp returns a height of 450 for a surface whose maximum height is 300 |
| Swapchain.ClampedWindow | src/swapchain.c:12-24 | each side of the window size lies within that side's own [min, max] range |
| Swapchain.ClampedWindowsAgree | src/swapchain.c:20-24 | on a surface whose maximum extent is square the as-written and the corrected clamps agree |
| Swapchain.ResolutionSupported | src/swapchain.c:6-26 | for the corrected rule Resolution: the extent is currentExtent unless its width is UINT32_MAX; otherwise each side lies within the surface's range for that side, and the window size is kept whenever it is supported |
| Swapchain.ResolutionAsWrittenBounds | src/swapchain.c:6-26 | choose_resolution as written keeps a current extent; otherwise the width lies in its range and the height between minImageExtent.height and maxImageExtent.width; it equals the corrected Resolution when the surface has an extent or a square maximum |
| Swapchain.ClampWindow | src/swapchain.c:11-24 | the if / else-if assignments compute ClampedWindowAsWritten: the height is bounded by the maximum width |
| Swapchain.ChooseResolution | src/swapchain.c:6-26 | choose_resolution computes ResolutionAsWritten: the current extent, or the window size clamped as written |
| Swapchain.ClampImageCount | src/swapchain.c:39-45 | the count assignments compute ImageCountAsWritten, so a zero maximum gives a zero count |
| Swapchain.ImageCountAsWritten | src/swapchain.c:40-45 | the count is raised to minImageCount, and with min <= max it lies in [min, max] |
| Swapchain.ImageCountAsWrittenZero | src/swapchain.c:40-45 | with maxImageCount 0 (no limit) and minImageCount 2, the as-written rule gives 0 images |
| Swapchain.ImageCount | src/swapchain.c:40-45 | the corrected count: at least minImageCount, and at most maxImageCount unless that is 0; always the wanted count or one of the bounds |
| Swapchain.ImageCountsAgree | src/swapchain.c:40-45 | the two rules agree whenever maxImageCount is set; with no limit the count is the wanted count once that reaches the minimum |
| Swapchain.FormatChoice | src/swapchain.c:56-59 | a lone UNDEFINED entry keeps the current format; any other change takes formats[0] |
| Swapchain.FormatChoiceUndefined | src/swapchain.c:56-59 | iff: the chosen format is UNDEFINED exactly when formats[0] is UNDEFINED and either the list has more entries or the current format is UNDEFINED |
| Swapchain.PresentModeListed | src/swapchain.c:96-103 | the mode is a listed one or the old value; anything but MAILBOX means MAILBOX is not listed; an unlisted result means neither MAILBOX nor IMMEDIATE is listed |
| Swapchain.PresentModeFromFifoSupported | src/swapchain.c:96-103 | starting from FIFO on a surface that lists FIFO, the chosen mode is always supported |
| Swapchain.ZeroPresentModeUnsupported | src/swapchain.c:96-103 | starting from the zero-initialised mode (IMMEDIATE) on a FIFO-only surface, the chosen mode is one the surface does not list |
| Swapchain.ChoosePresentMode | src/swapchain.c:96-103 | the loop over the modes computes the MAILBOX > IMMEDIATE > old-value preference |
| Swapchain.Sharing | src/swapchain.c:66-77 | iff: CONCURRENT with the two queue indices exactly when the graphics and present ids differ; EXCLUSIVE with none otherwise |
| Swapchain.SharingIndicesDistinct | src/swapchain.c:66-77 | two family indices are given exactly when sharing is concurrent, and they are never the same family |
| Swapchain.NextFrame | src/swapchain.c:274 | the next frame id is a valid index into the three per-frame semaphores and fences, and is one more unless it wraps |
| Swapchain.NextFrameCycles | src/swapchain.c:274 | three presents bring a frame id back to itself, and one present always moves it |
| Swapchain.PresentStatus | src/swapchain.c:273-330 | iff: the result is 1 exactly when neither the acquire nor the present was out of date, and 0 otherwise |
| Swapchain.Swapchain.constructor | src/main.c:21 | the zero-initialised Swapchain: frame 0, zero count and extent, exclusive sharing, format UNDEFINED and present mode IMMEDIATE (value 0) |
| Swapchain.Swapchain.Create | src/swapchain.c:28-108 | swapchain_create fills in the as-written image count, the format choice, the as-written resolution, the sharing and the present-mode choice from the old mode, and leaves the frame id unchanged |
| Swapchain.Swapchain.Resize | src/swapchain.c:159-164 | the swapchain is rebuilt to the as-written resolution of the new capabilities |
| Swapchain.Swapchain.Present | src/swapchain.c:273-330 | the frame id advances on every call; the status is PresentStatus; an out-of-date result re-chooses the as-written resolution, otherwise the extent is unchanged |
| Renderer.Advance | src/renderer.c:375 | the new frame id is below image_count, is one more than the old one, and wraps to 0 after the last |
| Renderer.AdvanceTimesWraps | src/renderer.c:375 | n frames from a valid id land on (id + n) mod image_count |
| Renderer.AdvanceCycles | src/renderer.c:375 | image_count frames return to the starting id, and no smaller positive number of frames does |
| Renderer.FamilyOr | src/renderer.c:122-141 | the id is the unchanged current id or a family with the capability; with no such family it is the current id |
| Renderer.FamilyOrFound | src/renderer.c:122-130 | when a family qualifies, the loop with break finds the same family as device_create's search, and no failure fires |
| Renderer.Renderer.constructor | src/renderer.c:22-35 | the statics: no device, queue ids 0, the default format and FIFO, zero extent, image count 3, frame 0 |
| Renderer.Renderer.CreateSwapchain | src/renderer.c:379-436 | the extent is the as-written resolution, with the height bounded by the maximum width; the create-info carries the old image count, format, extent, sharing and mode; the count is then read back from the swapchain |
| Renderer.Renderer.SelectDevice | src/renderer.c:85-141 | discrete-first device choice, the first graphics and present families, and failure when any is missing |
| Renderer.Renderer.SelectSurfaceRules | src/renderer.c:191-233 | from the current statics: the format choice, the present-mode choice, and the as-written image-count clamp, under which a zero maximum gives zero |
| Renderer.Renderer.Init | src/renderer.c:49-240 | renderer_init: the device and families as in SelectDevice, then the surface rules and the swapchain with the as-written count and resolution, with the frame id unchanged |
| Renderer.Renderer.Render | src/renderer.c:329-376 | an out-of-date acquire recreates the swapchain and returns, leaving the frame id; otherwise the frame id advances modulo the image count, and an out-of-date present recreates the swapchain at the as-written resolution; a successful frame changes none of the swapchain state |
| RendererVk.RecordFaultOf | src/renderer_vk.c:563-572 | iff: no fault exactly when pipeline, vertex buffer and index buffer are all set; otherwise the first missing one, in that order |
| RendererVk.DrawsCoverIndexTable | src/renderer_vk.c:612-618 | the bird draw covers [0, 6), the pipe draw continues from 6 to the end of the 54-entry rect index table, and every index lies inside the vertex array |
| RendererVk.RendererVk.constructor | src/renderer_vk.c:19-50 | the statics: no device, default format and mode, image count 3, no pipeline or buffers bound, no command buffers |
| RendererVk.RendererVk.SelectDevice | src/renderer_vk.c:100-160 | discrete-first device, first graphics and first present family, failure when any is missing |
| RendererVk.RendererVk.SelectSurfaceRules | src/renderer_vk.c:216-274 | the format and present-mode choices, the as-written resolution and the as-written image-count clamp |
| RendererVk.RendererVk.CreateSwapchain | src/renderer_vk.c:507-542 | the create-info carries the chosen count, format, extent, sharing and present mode |
| RendererVk.RendererVk.Init | src/renderer_vk.c:53-279 | renderer_init: the device and families, the surface rules as written, the create-info with the as-written count, then the image count read back |
| RendererVk.RendererVk.Render | src/renderer_vk.c:503 | each rendered frame advances the frame id modulo the image count |
| RendererVk.RendererVk.SetPipeline | src/renderer_vk.c:554-556 | the pipeline becomes set or unset as given |
| RendererVk.RendererVk.SetVertexBuffer | src/renderer_vk.c:558 | the vertex buffer becomes set or unset as given |
| RendererVk.RendererVk.SetIndexBuffer | src/renderer_vk.c:560 | the index buffer becomes set or unset as given |
| RendererVk.RendererVk.Record | src/renderer_vk.c:562-624 | failed when a guard trips; one command buffer per swapchain image, each holding the bird draw and the in-range pipe draw |
| RendererVk.RendererVk.CreateBuffer | src/renderer_vk.c:644-659 | the memory type is device_find_memory_type's choice, and failure fires exactly when no type qualifies |
| VkRenderer.IntegratedPreferred | vk/renderer.c:89-103 | the chosen device is an integrated or a discrete GPU |
| VkRenderer.PreferencesDiverge | vk/renderer.c:89-99 | both preferences find a device on exactly the same inputs, but on [discrete, integrated] this file picks device 1 where device.c picks device 0 |
| VkRenderer.DiscreteFallbackIsLast | vk/renderer.c:89-99 | iff: device k is chosen exactly when it is the first integrated GPU, or when there is none and k is the last discrete GPU |
| VkRenderer.LastFamilyAsWritten | vk/renderer.c:139-149 | failure exactly when the last family lacks present support; otherwise the id is the last family |
| VkRenderer.FindLastFamilyAsWritten | vk/renderer.c:139-149 | the present loop without break computes LastFamilyAsWritten |
| VkRenderer.LastFamilyAsWrittenFailsDespiteSupport | vk/renderer.c:139-149 | with families [supported, unsupported] the loop fails although family 0 presents |
| VkRenderer.LastFamilyAsWrittenAgreesOnSuccess | vk/renderer.c:139-149 | when the last family presents, both searches succeed and both pick a family that presents |
| VkRenderer.ExtentAsWritten | vk/renderer.c:231-248 | width UINT32_MAX takes currentExtent, and any other width takes the window clamp |
| VkRenderer.ExtentAsWrittenInverted | vk/renderer.c:231-232 | the as-written rule returns the UINT32_MAX placeholder, beyond the maximum, as the extent, and replaces a defined 1920x1080 currentExtent by the window size |
| VkRenderer.MemoryTypeAsWritten | vk/renderer.c:574-582 | the result is the last index whose bit in the requested property mask is set and whose flags meet the request, or 0 when none is |
| VkRenderer.FindMemoryTypeAsWritten | vk/renderer.c:574-582 | the loop without break computes MemoryTypeAsWritten |
| VkRenderer.MemoryTypeAsWrittenIgnoresRequirements | vk/renderer.c:578-579 | the as-written search picks type 2, which memoryTypeBits forbids, where device.c picks type 0; with no usable type it returns 0 where device.c fails |
| VkRenderer.PipeDrawAsWrittenOverruns | vk/renderer.c:550-551 | the pipe draw ends at index 60 of a 54-entry index buffer; src/renderer_vk.c's draw stays inside |
| VkRenderer.VkRenderer.constructor | vk/renderer.c:24-27 | the statics: zero format and extent, image count 3, nothing bound, not exited |
| VkRenderer.VkRenderer.Init | vk/renderer.c:88-293 | integrated-first device, first graphics family, and the as-written last present family; exit exactly when the device is missing, the graphics search fails or LastFamilyAsWritten fails, and then nothing else changes; otherwise the format, the inverted extent rule ExtentAsWritten, the as-written count clamp, the sharing of those two families and the FIFO-based mode |
| VkRenderer.VkRenderer.SetPipeline | vk/renderer.c:487-491 | the pipeline becomes set or unset as given |
| VkRenderer.VkRenderer.SetVertexBuffer | vk/renderer.c:493 | the vertex buffer becomes set or unset as given |
| VkRenderer.VkRenderer.SetIndexBuffer | vk/renderer.c:495 | the index buffer becomes set or unset as given |
| VkRenderer.VkRenderer.Record | vk/renderer.c:497-557 | exits exactly when a guard trips, in the order pipeline, vertex buffer, index buffer; otherwise records, for every image, the bird draw and the as-written pipe draw of 54 indices from index 6, which is not inside the 54-entry index table |
| VkRenderer.VkRenderer.CreateBuffer | vk/renderer.c:574-582 | the as-written memory type MemoryTypeAsWritten, independent of the buffer's memoryTypeBits, and never an exit |
| Buffer.ActualSizeBounds | src/buffer.c:14-16 | the rounded size is a multiple of the alignment, strictly above the request and at most one alignment unit more |
| Buffer.ActualSizeOfAligned | src/buffer.c:15 | an already aligned request still gains a whole alignment unit |
| Buffer.ActualSizeLeast | src/buffer.c:15 | the rounded size is the least multiple of the alignment above the request |
| Buffer.Buffer.constructor | src/texture.c:114 | a zero-initialised Buffer: size 0, type 0, unmapped, no contents |
| Buffer.Buffer.Create | src/buffer.c:10-47 | the recorded size is the rounded size, not the request; the memory type comes from device_find_memory_type; the memory is mapped only when HOST_VISIBLE is requested; failure when no type fits |
| Buffer.Buffer.Destroy | src/buffer.c:49-55 | the memory is unmapped exactly when `data` is set |
| Buffer.Buffer.WriteAsWritten | src/buffer.c:57-59 | exactly `size` (rounded) bytes are copied from the source |
| Buffer.Buffer.Write | src/buffer.c:57-59 | the source's bytes land at the start of the mapping and the rest is unchanged |
| Buffer.Buffer.CopyTo | src/buffer.c:61-72 | the copied region is the source buffer's recorded size |
| Texture.TransitionBarrier | src/texture.c:165-207 | the barrier carries both layouts verbatim and ignores queue-family ownership |
| Texture.TransitionBarrierCases | src/texture.c:184-201 | iff: a destination access is set exactly for the two upload transitions, and a source access exactly for TRANSFER_DST to SHADER_READ_ONLY; every pair without a destination access waits from TOP_OF_PIPE to TRANSFER |
| Texture.UploadBarriersChain | src/texture.c:187-200 | the second upload barrier starts in the layout, stage and access the first one ends with (TRANSFER, TRANSFER_WRITE) and makes the writes visible to fragment-shader reads |
| Texture.TransitionLayout | src/texture.c:165-207 | texture_transition_layout's if/else chain computes TransitionBarrier |
| Texture.UploadCommands | src/texture.c:124-153 | the upload is the transition to TRANSFER_DST, then the whole-image copy, then the transition to SHADER_READ_ONLY |
| Texture.UploadEndsShaderReadable | src/texture.c:124-125 | the upload starts from UNDEFINED, passes through TRANSFER_DST and ends in SHADER_READ_ONLY |
| Texture.StagingWriteAsWrittenOverReads | src/texture.c:112-120 | the staging buffer's rounded size always exceeds the pixel data, so buffer_write as written reads past the pixels (64 bytes from a 4-byte 1x1 image) |
| Texture.Stage | src/texture.c:112-155 | the staging buffer has the rounded size, starts with the image's pixels, and fails exactly when no host-visible coherent type exists |
| Texture.Texture.constructor | src/sprite.c:27 | a zero-initialised Texture: no size, memory type 0, no commands, no failure |
| Texture.Texture.Create | src/texture.c:11-92 | the texture records its width and height; device-local memory from device_find_memory_type, failing when none exists |
| Texture.Texture.CreateFromImage | src/texture.c:94-156 | a missing image fails and leaves the texture unchanged; otherwise the image size, device-local memory, the staged pixels and the three upload commands |
| Texture.Texture.RecordUpload | src/texture.c:124-153 | the upload commands are appended to the recorded ones |
| Xoroshiro.ShiftPairIsRotation24 | src/xoroshiro.h:19 | the shift pair (x << 24) and (x >> 40) is a left rotation by 24 |
| Xoroshiro.ShiftPairIsRotation37 | src/xoroshiro.h:20 | the shift pair (x << 37) and (x >> 27) is a left rotation by 37 |
| Xoroshiro.NextIsReference | src/xoroshiro.h:18-20 | the new words are rotl(s0, 24) ^ (s0 ^ s1) ^ ((s0 ^ s1) << 16) and rotl(s0 ^ s1, 37), the reference algorithm's rotations 24/16/37 |
| Xoroshiro.EqualWordsCollapse | src/xoroshiro.h:17-20 | a state with equal words zeroes its second word and outputs the word shifted left by one |
| Xoroshiro.ZeroIsFixed | src/xoroshiro.h:14-22 | the all-zero state maps to itself and outputs 0 |
| Xoroshiro.Step | src/xoroshiro.h:14-22 | the result is the sum of the two old words modulo 2^64, and exactly the two state words are rewritten to the next state |
| Sprite.SetX | src/sprite.h:37-44 | left edge at `left`, the distance v2.x - v0.x kept, y and texture fields untouched; on a well-formed quad the shape and the width are kept |
| Sprite.SetY | src/sprite.h:46-53 | top edge at `top`, the height kept, x and texture fields untouched, the shape kept |
| Sprite.SetW | src/sprite.h:55-59 | the right edge at v0.x + w, v0 and v1 untouched; on a well-formed quad the width becomes w |
| Sprite.SetH | src/sprite.h:61-65 | the height becomes h, v0 and v3 untouched, x and texture fields untouched |
| Sprite.SetTh | src/sprite.h:67-71 | only v1.ty and v2.ty change, both to v0.ty + th |
| Sprite.WithTexture | src/sprite_impl.h:42-52 | left is shared by v0/v1, right by v2/v3, top by v0/v3 and bottom by v1/v2; no position is written |
| Sprite.IntersectSymmetric | src/sprite.h:100-110 | collision is symmetric |
| Sprite.TouchingDoNotIntersect | src/sprite.h:100-110 | sprites that only share an edge do not collide |
| Sprite.IntersectSelf | src/sprite.h:100-110 | a sprite of positive size collides with itself |
| Sprite.SetXYEstablishesRectangular | src/sprite.h:37-53 | set_x then set_y make any quad well formed, with its origin where it was put |
| Sprite.SetXAt | src/sprite.h:37-44 | sprite_set_x through a Sprite pointer rewrites that one array element |
| Sprite.SetYAt | src/sprite.h:46-53 | sprite_set_y through a Sprite pointer rewrites that one array element |
| Sprite.SetWAt | src/sprite.h:55-59 | sprite_set_w through a Sprite pointer rewrites that one array element |
| Sprite.SetHAt | src/sprite.h:61-65 | sprite_set_h through a Sprite pointer rewrites that one array element |
| Sprite.SetThAt | src/sprite.h:67-71 | sprite_set_th through a Sprite pointer rewrites that one array element |
| Sprite.QuadGroup | src/sprite_impl.h:13-31 | each quad contributes six indices |
| Sprite.QuadIndices | src/sprite_impl.h:13-31 | the table for n quads has 6n indices |
| Sprite.QuadIndicesAt | src/sprite_impl.h:13-31 | entry 6k + c is 4k plus the c-th corner of (0, 1, 2, 2, 0, 3) |
| Sprite.QuadIndicesBelow | src/sprite_impl.h:13-31 | the first 6m entries name only the first 4m vertices |
| SpriteImpl.Textured | src/sprite_impl.h:37-52 | the pixel rectangle (x, y, w, h) scaled back by the texture size gives v0's and v2's texture coordinates; positions untouched |
| SpriteImpl.SpriteStore.constructor | src/sprite_impl.h:9-11 | the zero-initialised static array of the given capacity, count 0 |
| SpriteImpl.SpriteStore.New | src/sprite_impl.h:33-55 | sprite_new returns slot `count`, bumps count by exactly one, and writes only that slot, with the texture rectangle |
| SpriteImpl.NewStore | src/sprite_impl.h:6-11 | kNumSprites slots over a 128x32 atlas, none handed out |
| SpriteImpl.IndicesFollowQuadPattern | src/sprite_impl.h:13-31 | `indices` has 252 entries and group k is (4k, 4k+1, 4k+2, 4k+2, 4k, 4k+3) |
| SpriteImpl.DrawStaysInside | src/sprite_3ds.c:20-21 | the drawn prefix of 6 * kNumSprites indices fits the table and names only vertices of `vertices[kNumSprites]` |
| SpriteC.NewStore | src/sprite.c:13-15 | 1 + FLAP_NUM_PIPES * 2 slots over the loaded texture, none handed out |
| SpriteC.NewSprite | src/sprite.c:186-202 | the integer rectangle converted to float, then slot `sprite_count` is textured and the count bumped by one |
| SpriteC.IntersectSymmetric | src/sprite.c:244-254 | this file's collision test is symmetric |
| SpriteC.TouchingDoNotIntersect | src/sprite.c:244-254 | sprites that only share an edge do not collide |
| SpriteC.AgreesWithHeaderIntersect | src/sprite.c:244-254 | on well-formed quads this test agrees with the far-corner test of src/sprite.h |
| SpriteC.DisagreesOnSkewedQuad | src/sprite.c:244-254 | on a quad with a slanted left edge the two tests disagree |
| SpriteC.GetWAfterSetW | src/sprite.c:220-238 | iff: get_w after set_w(w) is w exactly when v0.x = v1.x |
| SpriteC.DrawStaysInside | src/sprite.c:165 | the draw of 6 * (1 + FLAP_NUM_PIPES * 2) indices fits the 126-entry table and stays inside the 9 sprite slots |
| SpriteC.IndicesFollowQuadPattern | src/sprite.c:17-25 | `sprite_indices` has 126 entries and group k is (4k, 4k+1, 4k+2, 4k+2, 4k, 4k+3) |
| SpriteGl.NewStore | src/sprite_gl.c:9-14 | 1 + 4 * FLAP_NUM_PIPES slots over the 128x32 atlas, none handed out |
| SpriteGl.IndicesFollowQuadPattern | src/sprite_gl.c:16-34 | `indices` has 252 entries following the per-quad pattern |
| SpriteGl.DrawStaysInside | src/sprite_gl.c:127 | the drawn indices fit the table and name only vertices of the 17 slots |
| SpriteGl.StrnEqualIsPrefix | src/sprite_gl.c:52-58 | iff: strncmp against a whole pattern is zero exactly when the pattern is a prefix |
| SpriteGl.ChooseShaders | src/sprite_gl.c:52-58 | iff: the ES shaders exactly when the version string starts with "OpenGL ES", else the desktop shaders |
| SpriteVk.NewStore | src/sprite_vk.c:15-17 | 1 + 4 * FLAP_NUM_PIPES slots over the loaded texture, which must have a non-zero size |
| SpriteVk.IndicesFollowQuadPattern | src/sprite_vk.c:19-37 | `sprite_indices` has 252 entries following the per-quad pattern |
| SpriteVk.DrawStaysInside | src/sprite_vk.c:181 | the draw from index 0 fits the table and names only vertices of the 17 slots |
| Rect.SetX | src/rect.c:51-57 | all four vertices translated horizontally: x becomes the new value, width, height and y unchanged |
| Rect.SetY | src/rect.c:59-65 | all four vertices translated vertically: y becomes the new value, width, height and x unchanged |
| Rect.SetPosition | src/rect.c:67-70 | the origin moves to (x, y) with the size unchanged |
| Rect.Move | src/rect.c:72-75 | the origin shifts by (dx, dy) with the size unchanged |
| Rect.SetWidth | src/rect.c:77-80 | the width becomes w; only v1.x and v3.x change |
| Rect.SetHeight | src/rect.c:82-85 | the height becomes h; only v2.y and v3.y change |
| Rect.SetSize | src/rect.c:87-90 | width and height become w and h, the origin unchanged |
| Rect.IntersectSymmetric | src/rect.c:36-49 | collision is symmetric |
| Rect.TouchingDoNotIntersect | src/rect.c:36-49 | rectangles that only share an edge do not collide |
| Rect.MoveIsSetPosition | src/rect.c:72-75 | rect_move(dx, dy) is set_position(x + dx, y + dy) |
| Rect.SetSizeOrderIrrelevant | src/rect.c:87-90 | setting width then height equals setting height then width, since they touch disjoint fields |
| Rect.IntersectTranslationInvariant | src/rect.c:36-49 | moving both rectangles by the same offset does not change whether they collide |
| Rect.IndicesInsideVertices | src/rect.c:12-16 | `indices` has 54 entries, all below 36, the number of vertices of 9 rectangles |
| Rect.IndicesFirstSevenGroups | src/rect.c:12-16 | groups 0 to 6 draw quad k as (4k, 4k+1, 4k+2, 4k+2, 4k+1, 4k+3) |
| Rect.IndicesGroupsBelowFour | src/rect.c:12-16 | groups 0 to 3 follow the pattern |
| Rect.IndicesGroupsFourToSeven | src/rect.c:12-16 | groups 4 to 6 follow the pattern |
| Rect.IndicesAsWrittenDeviate | src/rect.c:15 | groups 7 and 8 break the pattern, and vertices 30 and 35 are never drawn |
| Rect.IntendedIndices | src/rect.c:12-16 | the corrected table has six indices per rectangle |
| Rect.IntendedIndicesAreQuads | src/rect.c:12-16 | every group of the corrected table, including 7 and 8, follows the per-rectangle pattern |
| Rect.IntendedIndicesInsideVertices | src/rect.c:10-16 | the corrected table names only vertices of the 9 rectangles |
| Rect.RectStore.constructor | src/rect.c:8-10 | the zero-initialised static array of 9 rectangles, count 0 |
| Rect.RectStore.New | src/rect.c:18 | rect_new returns slot `count` and bumps it by one, leaving the array as it was |
| Rect.SetXAt | src/rect.c:51-57 | rect_set_x through a Rect pointer rewrites that one array element |
| Rect.SetYAt | src/rect.c:59-65 | rect_set_y through a Rect pointer rewrites that one array element |
| Rect.SetPositionAt | src/rect.c:67-70 | rect_set_position through a Rect pointer rewrites that one array element |
| Rect.MoveAt | src/rect.c:72-75 | rect_move through a Rect pointer rewrites that one array element |
| Rect.SetWidthAt | src/rect.c:77-80 | rect_set_width through a Rect pointer rewrites that one array element |
| Rect.SetHeightAt | src/rect.c:82-85 | rect_set_height through a Rect pointer rewrites that one array element |
| Rect.SetSizeAt | src/rect.c:87-90 | rect_set_size through a Rect pointer rewrites that one array element |
| FlapRect.NewStore | rect.c:8-10 | rect.c's own static store of 9 rectangles, none handed out |
| Game.PipeHeight | src/game.c:99-101 | the random height always lies in [kMinPipeHeight, kMaxPipeHeight] |
| Game.TopBody | src/game.c:104-108 | the top body is well formed, hangs from the top of the screen at the body offset, pipe-body wide and h high |
| Game.Head | src/game.c:111-120 | a head is well formed at (x, top), one pipe wide and one head high |
| Game.BottomBody | src/game.c:123-129 | the bottom body is well formed, starts at `top` and reaches the bottom of the screen |
| Game.TopBodyIsSetterChain | src/game.c:104-108 | the top body is exactly what the chain of five sprite setters produces |
| Game.HeadIsSetterChain | src/game.c:111-120 | a head is exactly what the chain of four setters produces |
| Game.BottomBodyIsSetterChain | src/game.c:123-129 | the bottom body is exactly what the chain of five setters produces |
| Game.ResetGroup | src/game.c:98-129 | laying out group g changes only its four sprites |
| Game.ResetGroupIsUpdates | src/game.c:98-129 | the group layout is the four in-place writes of the loop body, in order |
| Game.ResetStep | src/game.c:96-129 | one loop iteration keeps the sprite count |
| Game.ResetFrom | src/game.c:95-130 | the loop from group g on never touches the bird or an earlier group |
| Game.PlaceBird | src/game.c:92-93 | the bird is put back at (kBirdX, kBirdY) |
| Game.ResetWorld | src/game.c:87-135 | after a reset: PLAYING, next_pipe 0, the initial gap, zero speeds, pause, time and thrust time unchanged, next_pipe well formed |
| Game.ResetWorldIs | src/game.c:87-135 | the reset is the bird and state stage, then the loop over the groups, then the speeds |
| Game.ResetGroupLayout | src/game.c:98-129 | a freshly laid out group g sits at x = g * kPipeStep with the passage gap between its heads |
| Game.ResetStepLaysOut | src/game.c:96-129 | each loop iteration lays out its own group |
| Game.ResetFromLaysOutFirst | src/game.c:95-130 | the loop from group g lays out group g |
| Game.Reached | src/game.c:94-130 | the state the reset loop has reached at group j, having started at group g, still holds all the sprites |
| Game.ResetFromReached | src/game.c:95-130 | running the loop from g ends where running it from any later group j ends |
| Game.ResetFromLaysOut | src/game.c:95-130 | the loop from group g lays out every group j >= g at x = j * kPipeStep |
| Game.ResetLayout | src/game.c:87-135 | after a reset the bird is at its start position and every group is laid out with the initial gap |
| Game.PassageHeight | src/game.c:112-118 | in a laid-out group the passage between the two heads is the gap less one head |
| Game.ScrollGroup | src/game.c:172-177 | scrolling one group changes only its four sprites |
| Game.ScrollStep | src/game.c:172-177 | a scroll iteration keeps the sprite count |
| Game.ScrollFrom | src/game.c:170-179 | scroll_pipes' loop from group g never touches the bird or an earlier group |
| Game.ScrollGroupShifts | src/game.c:170-179 | a scrolled group keeps its shape and its heights and only moves horizontally |
| Game.ScrollGroupKeepsLayout | src/game.c:170-179 | a group laid out at x is laid out at x + kScrollSpeed * dt after scrolling |
| Game.RecycledTopBody | src/game.c:221-223 | the recycled top body is at the right edge with the new height, its width and shape kept |
| Game.RecycledHead | src/game.c:226-231 | a recycled head is at the right edge with its top where asked, its size kept |
| Game.RecycledBottomBody | src/game.c:234-239 | the recycled bottom body is at the right edge and reaches the bottom of the screen |
| Game.GapShrinks | src/game.c:213 | the gap is kInitialPipeGap at time 0, nothing at kDeadline, and never grows |
| Game.RecycleGroup | src/game.c:221-239 | recycling changes only the four sprites of the group |
| Game.RecycleWorld | src/game.c:210-242 | recycling keeps the state, pause, speeds, times and bird, and keeps next_pipe well formed |
| Game.RecycleWorldIs | src/game.c:210-242 | recycling is the gap and generator step, then the sprites, then next_pipe advanced by 4 modulo 16 |
| Game.RecycleMovesGroupRight | src/game.c:210-242 | the group at next_pipe moves to x = kScreenRight and the next group becomes next_pipe |
| Game.RecycleGroupMoves | src/game.c:221-239 | all four sprites of a recycled group start at kScreenRight |
| Game.Accelerate | src/game.c:200-205 | gravity always applies; thrust adds kThrust and records the time exactly when it fires; nothing else changes |
| Game.MaybeRecycle | src/game.c:210 | the recycling test keeps the state, speeds, times and bird and keeps next_pipe well formed |
| Game.Judge | src/game.c:244-254 | a hit starts the fall at (-kFallSpeed, kFallSpeed); without a hit, leaving the bottom ends the game; the hit check comes first |
| Game.PlayStep | src/game.c:199-255 | the PLAYING case keeps the pause and time and records thrust exactly when it fires |
| Game.FallStep | src/game.c:256-261 | FALLING only accelerates, and goes to GAMEOVER exactly when the bird is below the bottom |
| Game.MovedBird | src/game.c:271-272 | the bird moves by its speed times dt, keeping its shape, size and texture |
| Game.MoveBird | src/game.c:271-272 | only the bird sprite moves, by (speed_x, speed_y) * dt |
| Game.Advance | src/game.c:198-269 | the state-machine step keeps the pause and the time and keeps next_pipe well formed |
| Game.UpdateWorld | src/game.c:184-273 | game_update keeps next_pipe one of 0, 4, 8, 12 |
| Game.UpdateWhenRunning | src/game.c:184-273 | unpaused, and on the frame that sets pause, game_update runs the full state-machine step and then moves the bird |
| Game.PausedFreezes | src/game.c:189-196 | while paused a frame only records the time, and a pause press lifts the pause |
| Game.PauseToggles | src/game.c:189-196 | every frame records the time, and the pause flag flips exactly when pause is pressed |
| Game.GameOverWaitsForThrust | src/game.c:262-266 | GAMEOVER goes to PLAYING, with next_pipe 0, exactly when thrust is pressed |
| Game.FallingNeverPlays | src/game.c:256-261 | from FALLING the next state is FALLING or GAMEOVER |
| Game.AboveTopFalls | src/game.c:244-251 | a playing bird above the top of the screen starts falling at kFallSpeed |
| Game.PlayStepAboveTop | src/game.c:244-251 | the PLAYING case turns a bird above the top into a falling one |
| Game.ThrustCooldown | src/game.c:202-205 | last_thrust moves, to now, only when thrust is pressed more than kThrustDelay after it |
| Game.SeedAsWrittenWordsEqual | src/game.c:141-142 | both seed words come out as t OR 0x80000000: the two constants are lost |
| Game.SeedWordsDiffer | src/game.c:141-142 | with the shift done in 64 bits the two seed words differ for every time below 2^31 |
| Game.NewBird | src/game.c:144-147 | the bird gets the bird texture and kBirdWidth by kBirdHeight |
| Game.AllocateGroupStep | src/game.c:151-164 | one iteration of game_init's loop textures the four sprites of group g |
| Game.AllocatedSprites | src/game.c:149-165 | the allocations of the first n groups keep the sprite count |
| Game.Game.constructor | src/game.c:140-168 | game_init: all sprites handed out, the generator seeded as written (both words `time \| 0x80000000`), and the state is that of a reset |
| Game.Game.AllocatePipes | src/game.c:149-165 | game_init's loop hands out all sixteen pipe sprites with their textures |
| Game.Game.AllocateBird | src/game.c:144-147 | the bird takes the first slot with its texture and size |
| Game.Game.AllocateGroup | src/game.c:151-164 | one loop iteration hands out four slots: body, head, head, body |
| Game.Game.Reset | src/game.c:87-135 | game_reset computes ResetWorld of the old state |
| Game.Game.BeginReset | src/game.c:88-93 | the state becomes PLAYING with the initial gap and the bird at its start |
| Game.Game.EndReset | src/game.c:131-134 | next_pipe becomes 0 and both speeds 0, nothing else changes |
| Game.Game.ResetAllPipes | src/game.c:95-130 | the loop over the groups computes ResetFrom from group 0 |
| Game.Game.PlaceBirdAt | src/game.c:92-93 | only the bird sprite is rewritten |
| Game.Game.ResetStepAt | src/game.c:96-129 | one iteration steps the generator and lays out that group |
| Game.Game.LayOutGroup | src/game.c:98-129 | the loop body writes the group's four sprites and nothing else |
| Game.Game.LayOutTopBody | src/game.c:104-108 | the top body's setter chain rewrites that one sprite |
| Game.Game.LayOutHead | src/game.c:111-120 | a head's setter chain rewrites that one sprite |
| Game.Game.LayOutBottomBody | src/game.c:123-129 | the bottom body's setter chain rewrites that one sprite |
| Game.Game.ScrollPipes | src/game.c:170-179 | scroll_pipes computes ScrollFrom from group 0 |
| Game.Game.ScrollGroupAt | src/game.c:172-177 | one iteration scrolls that group |
| Game.Game.Recycle | src/game.c:211-241 | the recycling branch computes RecycleWorld |
| Game.Game.MoveGroupRight | src/game.c:221-239 | the four sprites of the group are recycled and nothing else is changed |
| Game.Game.HitTest | src/game.c:244-248 | the hit test is a collision with one of the four sprites at next_pipe, or the bird above the top |
| Game.Game.Accelerating | src/game.c:200-205 | gravity and thrust as Accelerate |
| Game.Game.Scroll | src/game.c:207 | scroll_pipes as a step of the world; only sprites change |
| Game.Game.RecycleIfPassed | src/game.c:210-242 | the recycling test as MaybeRecycle |
| Game.Game.JudgeHit | src/game.c:244-254 | the hit test of the PLAYING case as Judge |
| Game.Game.Play | src/game.c:199-255 | the PLAYING case as PlayStep |
| Game.Game.Fall | src/game.c:256-261 | the FALLING case as FallStep |
| Game.Game.AdvanceState | src/game.c:198-269 | the switch on game_state as Advance |
| Game.Game.MoveBirdBy | src/game.c:271-272 | the bird moves as MoveBird |
| Game.Game.Update | src/game.c:184-273 | game_update computes UpdateWorld of the old state |
| WindowAndroid.FlagValue | src/window_android.c:72 | the stored int is 0 or 1, and 1 exactly when the flag is set |
| WindowAndroid.CmdEffect | src/window_android.c:21-30 | INIT_WINDOW raises window_ready, TERM_WINDOW raises should_close, any other command changes nothing |
| WindowAndroid.LostFocusIsNoOp | src/window_android.c:21-30 | a lost-focus command changes nothing |
| WindowAndroid.Handled | src/window_android.c:32-43 | iff: the handler returns 1 exactly for motion events, otherwise 0 |
| WindowAndroid.InputEffect | src/window_android.c:32-43 | motion DOWN sets thrust, motion UP clears it, every other event leaves all flags |
| WindowAndroid.Processed | src/window_android.c:56-70 | window_update processes at most the pending items |
| WindowAndroid.RunMonotone | src/window_android.c:56-70 | window_ready and should_close are never lowered |
| WindowAndroid.RunStopsAtDestroy | src/window_android.c:65-68 | at the first destroy request should_close is raised and polling stops: the items behind it are not processed |
| WindowAndroid.RunDrainsAll | src/window_android.c:56-70 | without a destroy request every pending item is processed |
| WindowAndroid.Window.constructor | src/window_android.c:12-15 | all three flags start cleared |
| WindowAndroid.Window.OnAppCmd | src/window_android.c:21-30 | on_app_cmd applies CmdEffect |
| WindowAndroid.Window.OnInputEvent | src/window_android.c:32-43 | on_input_event returns Handled and applies InputEffect |
| WindowAndroid.Window.Update | src/window_android.c:56-70 | the polling loop reaches the flags and the item count of Run and Processed |
| WindowAndroid.Window.ShouldClose | src/window_android.c:72 | returns 1 exactly when should_close is set |
| WindowAndroid.Window.GetThrust | src/window_android.c:81 | returns 1 exactly when thrust is set |
| WindowAndroidVk.GetExtensions | src/window_android_vk.c:100-105 | the count is 2 and is the length of the list VK_KHR_surface, VK_KHR_android_surface |
| WindowAndroidVk.Window.constructor | src/window_android_vk.c:18-21 | all three flags start cleared |
| WindowAndroidVk.Window.OnAppCmd | src/window_android_vk.c:23-34 | onAppCmd applies CmdEffect, LOST_FOCUS included as a no-op |
| WindowAndroidVk.Window.OnInputEvent | src/window_android_vk.c:36-47 | onInputEvent returns Handled and applies InputEffect |
| WindowAndroidVk.Window.Update | src/window_android_vk.c:73-87 | the polling loop reaches the flags and the item count of Run and Processed |
| WindowAndroidVk.Window.ShouldClose | src/window_android_vk.c:65 | returns 1 exactly when shouldClose is set |
| WindowAndroidVk.Window.GetThrust | src/window_android_vk.c:71 | returns 1 exactly when thrust is set |
| WindowConsoles.SwitchKeys | src/window_switch.c:9-21 | iff: thrust exactly when KEY_A is down; pause exactly when KEY_PLUS is down and KEY_A is not |
| WindowConsoles.SwitchKeysExclusive | src/window_switch.c:17-21 | never both flags; a press of either key raises one of them; both keys together only thrust |
| WindowConsoles.ThreeDsKeys | src/window_3ds.c:40-44 | iff: thrust exactly when KEY_A is down; pause never |
| WindowConsoles.ConsolesAgreeOnThrust | src/window_3ds.c:40-44 | the two consoles agree on thrust and differ exactly where the Switch pauses |
| WindowConsoles.Time | src/window_switch.c:34 | window_get_time is always 0 |
| WindowConsoles.SwitchWindow.constructor | src/window_switch.c:6-7 | both flags start at 0 |
| WindowConsoles.SwitchWindow.Update | src/window_switch.c:9-21 | both flags are cleared and then set as SwitchKeys decodes the keys |
| WindowConsoles.SwitchWindow.GetThrust | src/window_switch.c:36 | returns the stored thrust flag |
| WindowConsoles.SwitchWindow.GetPause | src/window_switch.c:38 | returns the stored pause flag |
| WindowConsoles.ThreeDsWindow.constructor | src/window_3ds.c:11-12 | both flags start at 0 |
| WindowConsoles.ThreeDsWindow.Update | src/window_3ds.c:29-57 | both flags are cleared, thrust is set as ThreeDsKeys decodes, and pause stays 0 |
| WindowConsoles.ThreeDsWindow.GetThrust | src/window_3ds.c:63 | returns the stored thrust flag |
| WindowConsoles.ThreeDsWindow.GetPause | src/window_3ds.c:65 | returns the stored pause flag, which an update leaves at 0 |

## Left out

- Every Vulkan, OpenGL, EGL, GLFW, SDL, citro3d and libnx call is left out. These calls create objects, record and submit commands, and present, and they are foreign code. Only the decisions around them are modelled. The calls' results come in as inputs.
- Semaphores, fences and queue submission in the render functions are left out. Only the frame index and the out-of-date handling are modelled.
- Fixed-size local arrays (`devices[2]`, `queue_families[8]`, `present_modes[8]` and similar) are sequences. Their capacity limits are not modelled, except the 32 memory types, where device_find_memory_type's bit test needs the limit.
- C integer widths are left out. `unsigned int` counts and sizes are unbounded naturals. The `width * height * 4` of the staging size cannot overflow in the model. The seed computation and the generator are the exceptions: they are modelled bit-exactly.
- Floating point is left out. Coordinates, speeds, the gap and time are reals, so rounding and float comparisons are exact. A pipe height is the generator's first state word s[0] after the step, scaled by 2^64 - 1. As in game.c, the value the step returns is discarded.
- `window_fail_with_error` is a flag. Its JNI dialog, its `pthread_exit` and its message strings are not modelled. The same holds for vk/renderer.c's `printf` and `exit`.
- The Android entry point's loop, which waits for `window_ready`, is not modelled, and neither is the clock-based `window_get_time` of the desktop and Android windows. The time enters game_update as an input.
- The looper, the HID key state and the clock are inputs. A polled item delivers one command or one input event, where the NDK can deliver several events through one input queue.
- vk/renderer.c's render function is not modelled. It is submission and presentation only.
- The texture and vertex data read from asset files, and PNG decoding, are left out.
- Shader and pipeline creation is left out, as is the pipeline cache. Of sprite_gl_init only the choice of shader sources is modelled.
- The Switch's `hidScanInput` and the 3DS's `hidScanInput` and `aptMainLoop` are left out. The keys pressed this frame are the input.
- Rect.RectStore.New: the C code does not compare `count` with the array length; the model demands `count` below the capacity, because a call past the end writes outside the static array.
- SpriteImpl.SpriteStore.New: as for rect_new, the unchecked bump past the end of `vertices` is excluded by a precondition; src/sprite.c, src/sprite_gl.c and src/sprite_vk.c share this.
- Buffer.Buffer.WriteAsWritten: requires the source to hold at least `size` bytes, because the C code reads that many. The corrected Buffer.Buffer.Write is used instead.
- Texture.Texture.CreateFromImage: a missing image stops the member, as the desktop `window_fail_with_error` exits. On Android the C code goes on to texture_create with uninitialised width and height and a NULL pixel pointer, and the model does not follow that path.
- VkRenderer.VkRenderer.Init: requires at least one surface format, because the C code reads `formats[0]` without checking the count. The same holds for Swapchain.Swapchain.Create and the other renderers' format choice.

## Findings

| source | as written | input that shows it | evidently intended | confidence | as-written member | corrected member |
|---|---|---|---|---|---|---|
| src/game.c:141-142 | `0xffe792a1 << 31` and `0xbffae98d << 31` are shifted as 32-bit `unsigned int`, so both seed words become `t \| 0x80000000` | any time t | the two 64-bit constants, shifted in 64 bits, give two different words | not executed | Game.SeedAsWrittenWordsEqual | Game.SeedWordsDiffer |
| src/rect.c:15 | index groups 7 and 8 are (28, 29, 27, 27, 29, 31) and (32, 33, 34, 34, 33, 34); group 7 uses vertex 27 of rectangle 6, and group 8 never draws vertex 35 | rectangles 7 and 8: group 7 reuses vertex 27 and skips 30, group 8 repeats 34 and skips 35 (the same table is in rect.c) | (4k, 4k+1, 4k+2, 4k+2, 4k+1, 4k+3) for every k | not executed | Rect.IndicesAsWrittenDeviate | Rect.IntendedIndicesAreQuads |
| src/swapchain.c:22-23 | the height's upper clamp compares with `maxImageExtent.width` (as do src/renderer.c:399-400, src/renderer_vk.c:264-265 and vk/renderer.c:245-246) | currentExtent width UINT32_MAX, max extent 1000x300: height 450 | clamp the height to `maxImageExtent.height` | not executed | Swapchain.ClampedWindowAsWrittenTooHigh | Swapchain.ResolutionSupported |
| src/swapchain.c:40-45 | the image count is lowered to `maxImageCount` even when it is 0, which means no limit (as do src/renderer.c:229-233, src/renderer_vk.c:270-274 and vk/renderer.c:251-255) | minImageCount 2, maxImageCount 0: count 0 | apply the upper bound only when maxImageCount is not 0 | not executed | Swapchain.ImageCountAsWrittenZero | Swapchain.ImageCount |
| src/swapchain.c:96-103 | the present mode keeps the zero-initialised `info.presentMode` (IMMEDIATE) when neither MAILBOX nor IMMEDIATE is listed | a surface that lists only FIFO, with the Swapchain zero-initialised at src/main.c:21 | start from FIFO, the one mode every surface supports, as src/renderer.c, src/renderer_vk.c and vk/renderer.c do; the model's Swapchain starts at IMMEDIATE, as written | not executed | Swapchain.ZeroPresentModeUnsupported | Swapchain.PresentModeFromFifoSupported |
| vk/renderer.c:139-149 | the present-family loop has no `break` and tests failure at the last index after every iteration | families [supports, does not]: failure | the first family with present support, as in src/device.c | not executed | VkRenderer.LastFamilyAsWrittenFailsDespiteSupport | Device.FirstFamily |
| vk/renderer.c:231-232 | the extent condition is inverted: `currentExtent` is used when its width is UINT32_MAX | currentExtent UINT32_MAX x UINT32_MAX becomes the extent | use `currentExtent` unless its width is UINT32_MAX | not executed | VkRenderer.ExtentAsWrittenInverted | Swapchain.ResolutionSupported |
| vk/renderer.c:578-579 | bit i of the requested property mask is tested in place of bit i of `memoryTypeBits`; the last match is kept and a miss gives 0 | memoryTypeBits 1, three types with flags 6, request 6: type 2 | the least allowed type with a requested property, failing when none exists, as in src/device.c | not executed | VkRenderer.MemoryTypeAsWrittenIgnoresRequirements | Device.MemoryType |
| vk/renderer.c:550-551 | the pipe draw reads `(1 + FLAP_NUM_PIPES * 2) * 6` indices from index 6, of an index buffer that holds only `(1 + FLAP_NUM_PIPES * 2) * 6` (vk/rect.c:25-26) | the draw ends at index 60 of 54 | `FLAP_NUM_PIPES * 2 * 6` indices from index 6, as in src/renderer_vk.c | not executed | VkRenderer.PipeDrawAsWrittenOverruns | RendererVk.DrawsCoverIndexTable |
| src/buffer.c:58 | buffer_write copies `buffer->size` bytes, the rounded size, from a source that holds the requested size | a 1x1 texture (4 bytes) with a 64-byte atom: 64 bytes read | copy the source's own length | not executed | Texture.StagingWriteAsWrittenOverReads | Buffer.Buffer.Write |
