# LLGI Vulkan command list: a Dafny model

This project models the bookkeeping of LLGI's Vulkan command list
(`src/Vulkan/LLGI.CommandListVulkan.cpp`) and proves properties of it. The
command list keeps one command buffer, one fence and one descriptor pool per
swap buffer, called a frame slot, and moves through the slots round-robin.
The model covers four parts:

- **The descriptor-set cache** (`DescriptorPoolVulkan`). Each pool keeps a
  growable cache of descriptor-set groups and a cursor. `Get` hands out the
  next cached group, or allocates and appends one when the cache is
  exhausted. `Reset` rewinds the cursor and frees nothing.
- **Frame-slot rotation.** `Initialize` creates the slots. `Begin` and
  `BeginExternal` advance the slot index modulo the slot count and rewind
  that slot's pool. `WaitUntilCompleted` waits only once a slot has been
  selected.
- **Draw assembly.** `Draw` binds the vertex buffer, the index buffer and the
  pipeline only when they are dirty. It writes one descriptor per bound
  constant buffer (binding 0) and per bound texture (unit u goes to
  binding u + 1) into a 16-entry array. It packs the sets of the stages in
  use and issues an indexed draw.
- **Copy and render pass.** `CopyTexture` refuses inside a render pass.
  Otherwise it requests transfer layouts, copies, and requests
  shader-readable layouts. `BeginRenderPass` counts the clear values,
  requests the depth layout, begins the pass, and records the final layout
  of every attachment.

The model's conventions:

- The command list's `calls` log holds one `VkCall` entry per command-buffer
  call (`begin`, `end`, `reset`, binds, `drawIndexed`, `copyImage`, render-pass
  begin and end, viewport, scissor), per `resetFences`, per `waitForFences`
  and per `updateDescriptorSets`. Device-side creation and allocation calls
  (`createDescriptorPool`, `allocateDescriptorSets`, `allocateCommandBuffers`,
  `createFence`) are not logged. An allocation of descriptor sets shows only
  as growth of the pool's cache.
- Handles that the device hands back are parameters of the operations that
  receive them: the descriptor sets `allocateDescriptorSets` would return,
  the command buffers `allocateCommandBuffers` would return, and the fences.
- The base `CommandList` state that `Draw` reads is the `Bindings` argument
  of `Draw`. That state is the bound vertex buffer, index buffer and
  pipeline with their dirty flags, plus the constant buffer and the texture
  list of each stage.
- The base class's render-pass bracket is the `isInRenderPass` flag.
- `RegisterReferencedObject` appends to `referencedObjects`.
- Each call to `TextureVulkan::ResourceBarrior` is logged as one
  `ResourceBarrier` entry, which records the request, not a native barrier
  (the texture code is not part of this model and may issue nothing when the
  layout already matches). The request also records the new layout on the
  texture. `ChangeImageLayout` records the layout and logs nothing.

Modules, one file each:

- `VulkanTypes` (`vulkan_types.dfy`): handles, the texture class, the call log.
- `DescriptorPool` (`descriptor_pool.dfy`): the cache as a value plus the
  `DescriptorPoolVulkan` class.
- `FrameSlots` (`frame_slots.dfy`): the slot index.
- `DrawAssembly` (`draw_assembly.dfy`): what one draw issues, plus the array
  loops that build it.
- `RenderPassClear` (`render_pass.dfy`): the clear-value array.
- `CommandList` (`command_list.dfy`): the `CommandListVulkan` class.

Two behaviours to note:

- `Begin` resets the slot's fence but does not wait on it. Waiting happens
  only in `WaitUntilCompleted`.
- `Get` ignores its pipeline argument on a cache hit. The cache is keyed by
  nothing but the cursor, so a group allocated against one pipeline's set
  layouts is handed out again to any later draw at the same position.

Two behaviours of the code are proved as they are:

- The descriptor sets are always bound from set index 0 (`firstSet` is 0
  whenever any set is bound).
- With depth cleared but colour not cleared and at least one render texture,
  `clearValueCount` is 1. The depth clear value sits at index n, outside
  that count.

Constants:

- The number of shader stages is 2, matching the two set layouts each
  allocation asks for.
- The descriptor-write capacity is 16.
- `RenderTargetMax` is taken as 4. `LLGI.Base.h`, which defines it, is not
  part of this model.

## Model

| member | source | states |
|---|---|---|
| DescriptorPool.PoolGet | src/Vulkan/LLGI.CommandListVulkan.cpp:42-60 | One `Get` as a value. The cursor advances by one and stays within the cache. The cache only grows, to max(old size, cursor + 1). The group returned is the one now stored at the old cursor. On an exhausted cache it is the freshly allocated group. |
| DescriptorPool.DescriptorPoolVulkan.constructor | src/Vulkan/LLGI.CommandListVulkan.cpp:16-31 | A new pool has `maxSets` = size × stage, an empty cache and cursor 0. |
| DescriptorPool.DescriptorPoolVulkan.Get | src/Vulkan/LLGI.CommandListVulkan.cpp:42-60 | Keeps the cursor within the cache. Agrees with `PoolGet`. On a hit it returns `cache[offset]` and leaves the cache unchanged. On a miss it appends exactly the allocated group and returns it. |
| DescriptorPool.DescriptorPoolVulkan.Reset | src/Vulkan/LLGI.CommandListVulkan.cpp:62 | Rewinds the cursor to 0, leaves the cache untouched and keeps the invariant. |
| DescriptorPool.PoolReset | src/Vulkan/LLGI.CommandListVulkan.cpp:62 | `Reset` as a value: every cached group is kept and the cursor goes back to the first, so a well-formed pool stays well formed. |
| DescriptorPool.PoolGets | src/Vulkan/LLGI.CommandListVulkan.cpp:42-60 | k consecutive `Get`s keep the pool well formed and return k groups. |
| DescriptorPool.GetsAllHit | src/Vulkan/LLGI.CommandListVulkan.cpp:44-48 | `Get`s that stay within the cache return the cached groups from the cursor on, in order, and leave the cache unchanged. |
| DescriptorPool.GetsAllMiss | src/Vulkan/LLGI.CommandListVulkan.cpp:50-59 | `Get`s from an exhausted cache append their allocations in order and return exactly them. |
| DescriptorPool.GetsSplit | src/Vulkan/LLGI.CommandListVulkan.cpp:42-60 | Running the `Get`s of a + b is running those of a, then those of b. |
| DescriptorPool.PoolGetsEffect | src/Vulkan/LLGI.CommandListVulkan.cpp:42-60 | k `Get`s from cursor o: the first min(k, size − o) are hits. Every later one appends its allocation. The cache only grows, to max(size, o + k). |
| DescriptorPool.ReplayAfterReset | src/Vulkan/LLGI.CommandListVulkan.cpp:42-62 | After `Reset`, k ≤ size `Get`s return `cache[0..k)` in order and allocate nothing, whatever the device would hand out. |
| DescriptorPool.FrameReturnsCachePrefix | src/Vulkan/LLGI.CommandListVulkan.cpp:42-62 | A frame begun by `Reset` is handed the first groups of the cache it leaves, in order. |
| DescriptorPool.SecondFrameReusesFirst | src/Vulkan/LLGI.CommandListVulkan.cpp:42-62 | A second frame on the same slot with no more draws than the first gets the first frame's groups and leaves the cache unchanged. |
| FrameSlots.NextSlot | src/Vulkan/LLGI.CommandListVulkan.cpp:125-126 | The index after `Begin` stays within the slots and is the old index plus one, wrapping to 0 after the last slot. |
| FrameSlots.SlotAfter | src/Vulkan/LLGI.CommandListVulkan.cpp:104-126 | The index after k `Begin`s from `Initialize` is −1 for k = 0, and a valid slot for k > 0. |
| FrameSlots.FirstRoundInOrder | src/Vulkan/LLGI.CommandListVulkan.cpp:104-126 | The first N `Begin`s pick slots 0, 1, …, N − 1. |
| FrameSlots.SlotAdvance | src/Vulkan/LLGI.CommandListVulkan.cpp:125-126 | d < N more `Begin`s from slot s land on s + d, wrapped once. |
| FrameSlots.SlotRecycledEveryN | src/Vulkan/LLGI.CommandListVulkan.cpp:125-126 | A slot comes round again exactly every N `Begin`s. |
| FrameSlots.SlotsDistinctWithinN | src/Vulkan/LLGI.CommandListVulkan.cpp:125-126 | Any N consecutive `Begin`s record into N different slots. |
| DrawAssembly.IndexTypeFor | src/Vulkan/LLGI.CommandListVulkan.cpp:192-197 | 32-bit indices exactly when the stride is 4. |
| DrawAssembly.ToUint32 | src/Vulkan/LLGI.CommandListVulkan.cpp:355 | The conversion of the index count to `uint32_t`: the result is below 2^32, congruent to the input modulo 2^32, and equal to the input when it already fits. |
| DrawAssembly.IndexCount | src/Vulkan/LLGI.CommandListVulkan.cpp:348-355 | The `drawIndexed` count is below 2^32 and congruent modulo 2^32 to indices per primitive (3 for triangles, 2 for lines) times the primitive count. It is 0 for points. |
| DrawAssembly.DescriptorWriteCount | src/Vulkan/LLGI.CommandListVulkan.cpp:224-306 | A draw issues one descriptor write per non-null constant buffer and per non-null texture. |
| DrawAssembly.WriteUniforms | src/Vulkan/LLGI.CommandListVulkan.cpp:224-270 | The array prefix it fills holds the uniform writes of the vertex stage's buffer, then the pixel stage's. Each stage is marked in use exactly when it has a constant buffer. |
| DrawAssembly.WriteStageTextures | src/Vulkan/LLGI.CommandListVulkan.cpp:276-305 | The inner texture loop skips null units. It appends one image write per bound unit, leaves the earlier writes in place, and advances the counter by the number of bound units. It marks the stage when any unit is bound and no other stage. |
| DrawAssembly.WriteTexturesOfStage | src/Vulkan/LLGI.CommandListVulkan.cpp:274-306 | One pass of the outer texture loop: the written prefix grows by exactly that stage's texture writes, the index stays within the 16-entry array, and the stage is flagged exactly when it is in use. |
| DrawAssembly.AssembleDescriptorWrites | src/Vulkan/LLGI.CommandListVulkan.cpp:213-306 | The writes handed to `updateDescriptorSets` are the constant-buffer writes, then every stage's texture writes. The stage flags say which stages are in use. |
| DrawAssembly.PackDescriptorSets | src/Vulkan/LLGI.CommandListVulkan.cpp:310-331 | The packed sets are the sets of the flagged stages in stage order. Every dynamic offset is 0. `firstSet` is 0 when any set is packed and −1 otherwise. |
| DrawAssembly.PackedSets | src/Vulkan/LLGI.CommandListVulkan.cpp:310-331 | As many sets are packed as stages are flagged. A set is packed exactly when its stage is flagged. Something is packed exactly when some stage is flagged. |
| DrawAssembly.DrawCalls | src/Vulkan/LLGI.CommandListVulkan.cpp:181-355 | The calls of one draw hold at least the descriptor update and the draw, and end with `drawIndexed` of the count `IndexCount` gives. |
| DrawAssembly.WritesCoverBindings | src/Vulkan/LLGI.CommandListVulkan.cpp:224-306 | Every bound constant buffer is written at binding 0 of its stage's set. Every bound texture in unit u is written at binding u + 1 in the shader-read-only layout. |
| DrawAssembly.WritesComeFromBindings | src/Vulkan/LLGI.CommandListVulkan.cpp:224-306 | Every write of a draw comes from a bound constant buffer at binding 0, or from a bound texture in unit u at binding u + 1 of its stage's set. |
| DrawAssembly.UnitWritesContain | src/Vulkan/LLGI.CommandListVulkan.cpp:276-305 | A bound texture in unit u is written at binding u + 1 of its stage's set. |
| DrawAssembly.UnitWritesOrigin | src/Vulkan/LLGI.CommandListVulkan.cpp:276-305 | Every texture write comes from a bound unit u at binding u + 1. |
| DrawAssembly.UniformWritesContain | src/Vulkan/LLGI.CommandListVulkan.cpp:224-270 | A bound constant buffer is written at binding 0 of its stage's set, with its size as range. |
| DrawAssembly.UniformWritesOrigin | src/Vulkan/LLGI.CommandListVulkan.cpp:224-270 | Every uniform write is at binding 0 and names a stage's bound constant buffer and set. |
| DrawAssembly.TextureWritesContain | src/Vulkan/LLGI.CommandListVulkan.cpp:274-306 | A stage's texture writes are among the draw's texture writes. |
| DrawAssembly.TextureWritesOrigin | src/Vulkan/LLGI.CommandListVulkan.cpp:274-306 | Every texture write comes from one stage's units. |
| DrawAssembly.DrawBindsOnlyWhatIsDirty | src/Vulkan/LLGI.CommandListVulkan.cpp:181-355 | A draw binds the vertex buffer, the index buffer and the pipeline once each if dirty and never otherwise. It issues exactly one indexed draw. |
| DrawAssembly.DrawBindsSetsOfStagesInUse | src/Vulkan/LLGI.CommandListVulkan.cpp:310-341 | A draw binds descriptor sets once exactly when some stage has a constant buffer or a non-null texture, and never otherwise. |
| DrawAssembly.DrawBindsPackedSets | src/Vulkan/LLGI.CommandListVulkan.cpp:310-341 | Every descriptor-set bind of a draw binds the packed sets of the stages in use, from set 0. |
| DrawAssembly.DrawIndexCount | src/Vulkan/LLGI.CommandListVulkan.cpp:189-355 | Without overflow, a draw ends with an indexed draw of 3p indices for triangles, 2p for lines and 0 otherwise. A dirty index buffer is bound as 32-bit exactly when its stride is 4. |
| RenderPassClear.ExpectedClearValueCount | src/Vulkan/LLGI.CommandListVulkan.cpp:420-435 | The count never exceeds the number of attachments. It is 0 exactly when neither colour (with render textures) nor a present depth texture is cleared. |
| RenderPassClear.ComputeClearValues | src/Vulkan/LLGI.CommandListVulkan.cpp:419-437 | The counter ends at (colour cleared ? n : 0) + (depth present and cleared ? 1 : 0). The array holds colour values below n when colour is cleared, the depth value at index n always, and default values elsewhere. |
| RenderPassClear.ClearedAttachmentsCovered | src/Vulkan/LLGI.CommandListVulkan.cpp:419-437 | When colour is cleared, or there are no render textures, every attachment the pass clears lies within the count and gets a clear value of its kind. |
| RenderPassClear.DepthClearSent | src/Vulkan/LLGI.CommandListVulkan.cpp:419-437 | The depth clear value is among the values the driver reads exactly when a depth texture is cleared and colour is cleared too, or there are no render textures. |
| RenderPassClear.DepthOnlyClearSendsDefault | src/Vulkan/LLGI.CommandListVulkan.cpp:419-437 | A depth-only clear with render textures sends one default value. The count does not reach the depth attachment at index n. |
| CommandList.CopyBarriersAgree | src/Vulkan/LLGI.CommandListVulkan.cpp:387-391 | The copy names each image in the layout the preceding layout requests put it in, and the requests leave both textures shader-readable. |
| CommandList.CopyCalls | src/Vulkan/LLGI.CommandListVulkan.cpp:387-391 | Five calls on the given command buffer: in the middle, the copy of the source's full extent onto the destination; on either side, layout-transition requests. |
| CommandList.RenderPassCalls | src/Vulkan/LLGI.CommandListVulkan.cpp:439-459 | A depth-layout request comes first exactly when there is a depth texture. Then come the begin with the counted clear values, one viewport and one full-image scissor. |
| CommandList.RenderPassBeginsInDepthLayout | src/Vulkan/LLGI.CommandListVulkan.cpp:439-453 | Whatever layout the depth texture was in, the pass begins with it in the depth-attachment layout, and the pass's calls leave it there. |
| CommandList.LastIndexOf | src/Vulkan/LLGI.CommandListVulkan.cpp:461-465 | The position of the last assignment to a texture in the attachment list. |
| CommandList.ChangeImageLayouts | src/Vulkan/LLGI.CommandListVulkan.cpp:461-465 | Each render texture ends in the final layout of its last position in the list. |
| CommandList.CommandListVulkan.constructor | src/Vulkan/LLGI.CommandListVulkan.cpp:64 | A new command list has no slots and no slot selected. |
| CommandList.CommandListVulkan.GetCommandBuffer | src/Vulkan/LLGI.CommandListVulkan.cpp:486-490 | Returns one of the slots' command buffers: the one of the slot being recorded. |
| CommandList.CommandListVulkan.GetFence | src/Vulkan/LLGI.CommandListVulkan.cpp:492 | Returns one of the slots' fences: the one of the slot being recorded. |
| CommandList.CommandListVulkan.Initialize | src/Vulkan/LLGI.CommandListVulkan.cpp:79-106 | Creates N command buffers, N new empty pools with `maxSets` = drawingCount × 2, and N fences. The buffers are allocated when standalone and null otherwise. The index is −1 and the invariant holds. |
| CommandList.CommandListVulkan.BeginExternal | src/Vulkan/LLGI.CommandListVulkan.cpp:108-119 | Advances to the next slot and installs the given command buffer there. Rewinds only that slot's pool; every other pool keeps its cache and cursor. |
| CommandList.CommandListVulkan.EndExternal | src/Vulkan/LLGI.CommandListVulkan.cpp:121 | Replaces the current slot's command buffer with the null handle. |
| CommandList.CommandListVulkan.Begin | src/Vulkan/LLGI.CommandListVulkan.cpp:123-140 | Advances to the next slot. Resets its fence, then resets and begins its command buffer. Rewinds only that slot's pool; every other pool keeps its cache and cursor. |
| CommandList.CommandListVulkan.End | src/Vulkan/LLGI.CommandListVulkan.cpp:142-146 | Ends the current slot's command buffer. |
| CommandList.CommandListVulkan.SetScissor | src/Vulkan/LLGI.CommandListVulkan.cpp:148-154 | Sets the given scissor on the current command buffer. |
| CommandList.CommandListVulkan.Draw | src/Vulkan/LLGI.CommandListVulkan.cpp:156-358 | Takes one `Get` from the current slot's pool and leaves every other pool alone. Issues the draw's calls on the current command buffer with the sets that `Get` returned. |
| CommandList.CommandListVulkan.RecordBufferBinds | src/Vulkan/LLGI.CommandListVulkan.cpp:181-200 | Issues the vertex- and index-buffer binds of a draw. |
| CommandList.CommandListVulkan.RecordSetsAndDraw | src/Vulkan/LLGI.CommandListVulkan.cpp:208-355 | Issues the descriptor update, the set bind, the pipeline bind and the indexed draw. |
| CommandList.CommandListVulkan.CopyTexture | src/Vulkan/LLGI.CommandListVulkan.cpp:360-395 | Inside a render pass it changes nothing. Otherwise it issues src→transfer-source, dst→transfer-destination, the copy, dst→shader-read and src→shader-read, then registers src and dst. Both end shader-readable. |
| CommandList.CommandListVulkan.ResourceBarrier | src/Vulkan/LLGI.CommandListVulkan.cpp:387-391 | A layout-transition request to the texture is logged, and the new layout is recorded on the texture. |
| CommandList.CommandListVulkan.BeginRenderPass | src/Vulkan/LLGI.CommandListVulkan.cpp:397-474 | Requests the depth layout, then issues the begin with the counted clear values, the viewport and the scissor. Every render texture ends in the final layout declared for its last position, and the depth texture in the one at index n. Enters the render pass. |
| CommandList.CommandListVulkan.EndRenderPass | src/Vulkan/LLGI.CommandListVulkan.cpp:476-484 | Ends the render pass on the current command buffer and leaves the bracket. |
| CommandList.CommandListVulkan.WaitUntilCompleted | src/Vulkan/LLGI.CommandListVulkan.cpp:494-502 | Waits on the current slot's fence once a slot is selected, and does nothing before that. |

## Left out

- Native calls are log entries only. What the driver does with them is not modelled.
- Fence waiting and its timeout are not modelled. `WaitUntilCompleted` logs the wait and nothing blocks.
- Device failures are not modelled: failed allocations, exhaustion of a pool's `maxSets`, and fence-wait results other than success.
- The base `CommandList` is not part of this model. Its parts enter only as follows:
  - `CommandList::Begin` and `CommandList::Draw` are not modelled. Their reset of the dirty state is absent, because the draw state is the `Bindings` argument.
  - The base `BeginRenderPass`/`EndRenderPass` are represented only by the render-pass flag.
  - The dirty-flag getters are the `Bindings` argument.
  - `RegisterReferencedObject` is an append to `referencedObjects`.
- `TextureVulkan::ResourceBarrior` and `ChangeImageLayout` are not shown. The model gives them the least behaviour the calling code relies on, as described above.
- The error log message of `CopyTexture` inside a render pass is not modelled. Only the early return is.
- Colour and depth clear payloads, viewport depth range, copy subresources and aspect masks are not modelled. These are floating-point or native structs. Clear values record only which kind was written.
- The wrap mode and filter of texture units are not modelled. They are read but never used in the draw.
- The samplers and the `pBufferInfo`/`pImageInfo` side arrays are not modelled. Writes carry the buffer, range and image view directly.
- Destructors and the reference counting of the graphics object are not modelled.
- CommandList.CommandListVulkan.Initialize: requires a command list that was never initialized. Calling it twice in the code appends a second set of pools and fences.
- CommandList.CommandListVulkan.Draw: requires at most 16 descriptor writes. The code overruns its fixed arrays beyond that.
- DrawAssembly.DrawIndexCount: stated only for p ≥ 0 without 32-bit overflow. `Draw` itself models the count as the exact product reduced modulo 2^32.
- CommandList.CommandListVulkan.BeginRenderPass: requires at most `RenderTargetMax` render textures and a final layout for every attachment. The code indexes its clear array and uses `finalLayouts_.at` unchecked, or throwing.
- The pool cursor is a signed `int` in the code. Its overflow after 2^31 `Get`s is not modelled.
