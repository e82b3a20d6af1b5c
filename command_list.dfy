/**
 * `CommandListVulkan`: one command buffer, one fence and one descriptor pool
 * per swap buffer (frame slot), used round-robin.
 *
 * The command-buffer calls, fence resets and waits, descriptor updates and
 * texture layout-transition requests are appended to `calls`. The state
 * the base `CommandList` keeps for draws (bound buffers, pipeline, constant
 * buffers, textures and their dirty flags) is the `Bindings` argument of
 * `Draw`. The base class's render-pass bracket is the `isInRenderPass` flag,
 * and its list of objects referenced by the frame is `referencedObjects`.
 */
module CommandList {
  import opened VulkanTypes
  import opened DescriptorPool
  import opened FrameSlots
  import opened DrawAssembly
  import opened RenderPassClear

  /** Whether the command list allocates its own command buffers or is handed them. */
  datatype CommandListPreCondition = Standalone | External

  /**
   * The recorded calls of `CopyTexture` outside a render pass: both textures
   * to transfer layouts, the copy of the source's full extent, both back to
   * shader-readable. The copy names each image in the layout the barriers left
   * it in, which for a copy onto itself is the destination layout.
   */
  function CopyCalls(cmd: CommandBuffer, src: TextureVulkan, dst: TextureVulkan): (r: seq<VkCall>)
    ensures |r| == 5
    ensures r[2].CopyImage? && r[2].cmd == cmd && r[2].src == src && r[2].dst == dst
    ensures r[2].width == src.width && r[2].height == src.height
    ensures forall i :: 0 <= i < |r| && i != 2 ==> r[i].ResourceBarrier? && r[i].cmd == cmd
  {
    [ResourceBarrier(cmd, src, TransferSrcOptimal),
     ResourceBarrier(cmd, dst, TransferDstOptimal),
     CopyImage(cmd, src, if src == dst then TransferDstOptimal else TransferSrcOptimal,
               dst, TransferDstOptimal, src.width, src.height),
     ResourceBarrier(cmd, dst, ShaderReadOnlyOptimal),
     ResourceBarrier(cmd, src, ShaderReadOnlyOptimal)]
  }

  /**
   * The layouts a copy names are the ones its barriers put the images in, and
   * the barriers leave both textures shader-readable, whatever their layouts
   * were before.
   */
  lemma CopyBarriersAgree(cmd: CommandBuffer, src: TextureVulkan, dst: TextureVulkan,
                          srcBefore: ImageLayout, dstBefore: ImageLayout)
    ensures var c := CopyCalls(cmd, src, dst);
            && c[2].CopyImage?
            && c[2].srcLayout == LayoutAfter(c[..2], src, srcBefore)
            && c[2].dstLayout == LayoutAfter(c[..2], dst, dstBefore)
            && LayoutAfter(c, src, srcBefore) == ShaderReadOnlyOptimal
            && LayoutAfter(c, dst, dstBefore) == ShaderReadOnlyOptimal
  {
    var c := CopyCalls(cmd, src, dst);
    assert c[..2][..1] == c[..1];
    assert c[..1][..0] == [];
    assert c[..|c| - 1] == c[..4];
    assert c[..4][..3] == c[..3];
  }

  /** The last position of t in s. */
  function LastIndexOf(s: seq<TextureVulkan>, t: TextureVulkan): (r: nat)
    requires t in s
    ensures r < |s| && s[r] == t
    ensures forall j :: r < j < |s| ==> s[j] != t
  {
    if s[|s| - 1] == t then |s| - 1 else LastIndexOf(s[..|s| - 1], t)
  }

  /**
   * The recorded calls of `BeginRenderPass`: the depth texture to the
   * depth-attachment layout, the render-pass begin with the counted clear
   * values, then a viewport and a scissor covering the whole image.
   */
  function RenderPassCalls(cmd: CommandBuffer, p: RenderPassDesc): (r: seq<VkCall>)
    ensures var k := if p.depthTexture.Some? then 1 else 0;
            && |r| == k + 3
            && (p.depthTexture.Some? ==> r[0] == ResourceBarrier(cmd, p.depthTexture.value, DepthStencilAttachmentOptimal))
            && r[k].BeginRenderPass? && r[k].clearValueCount == ExpectedClearValueCount(p)
            && r[k + 1] == SetViewport(cmd, p.width, p.height)
            && r[k + 2] == VkCall.SetScissor(cmd, 0, 0, p.width, p.height)
  {
    (if p.depthTexture.Some? then [ResourceBarrier(cmd, p.depthTexture.value, DepthStencilAttachmentOptimal)] else [])
    + [VkCall.BeginRenderPass(cmd, p.framebuffer, p.renderPass, p.width, p.height,
                              ExpectedClearValueCount(p), ClearValues(p))]
    + [SetViewport(cmd, p.width, p.height), VkCall.SetScissor(cmd, 0, 0, p.width, p.height)]
  }

  /**
   * Whatever layout the depth texture was in, the render pass begins with it
   * in the depth-attachment layout, and the calls leave it there.
   */
  lemma RenderPassBeginsInDepthLayout(cmd: CommandBuffer, p: RenderPassDesc, depthBefore: ImageLayout)
    requires p.depthTexture.Some?
    ensures var c := RenderPassCalls(cmd, p);
            && c[1].BeginRenderPass?
            && LayoutAfter(c[..1], p.depthTexture.value, depthBefore) == DepthStencilAttachmentOptimal
            && LayoutAfter(c, p.depthTexture.value, depthBefore) == DepthStencilAttachmentOptimal
  {
    var c := RenderPassCalls(cmd, p);
    var d := p.depthTexture.value;
    assert c[..1][..0] == [];
    assert c[..2][..1] == c[..1];
    assert LayoutAfter(c[..2], d, depthBefore) == DepthStencilAttachmentOptimal;
    assert c[..3][..2] == c[..2];
    assert LayoutAfter(c[..3], d, depthBefore) == DepthStencilAttachmentOptimal;
    assert c[..|c| - 1] == c[..3];
  }

  function DepthSet(p: RenderPassDesc): set<TextureVulkan> {
    if p.depthTexture.Some? then {p.depthTexture.value} else {}
  }

  class CommandListVulkan {
    var commandBuffers: seq<CommandBuffer>
    var descriptorPools: seq<DescriptorPoolVulkan>
    var fences: seq<Fence>
    /** The frame slot being recorded; -1 before the first `Begin`. */
    var currentSwapBufferIndex: int
    var isInRenderPass: bool
    var referencedObjects: seq<TextureVulkan>
    /** The calls recorded so far, oldest first. */
    var calls: seq<VkCall>

    /**
     * One command buffer, fence and pool per slot, the index within the slots
     * (or -1), a distinct pool per slot, each with its cursor within its cache.
     */
    ghost predicate Valid()
      reads this, descriptorPools
    {
      && |descriptorPools| == |commandBuffers|
      && |fences| == |commandBuffers|
      && -1 <= currentSwapBufferIndex < |commandBuffers|
      && (forall i, j :: 0 <= i < j < |descriptorPools| ==> descriptorPools[i] != descriptorPools[j])
      && (forall i :: 0 <= i < |descriptorPools| ==> descriptorPools[i].Valid())
    }

    /** A slot has been selected by `Begin` or `BeginExternal`. */
    predicate Recording()
      reads this
    {
      0 <= currentSwapBufferIndex < |commandBuffers|
    }

    /** The command buffer of the slot being recorded. */
    function GetCommandBuffer(): (r: CommandBuffer)
      reads this
      requires Recording()
      ensures r in commandBuffers
    {
      commandBuffers[currentSwapBufferIndex]
    }

    /** The fence of the slot being recorded. */
    function GetFence(): (r: Fence)
      reads this
      requires Recording() && |fences| == |commandBuffers|
      ensures r in fences
    {
      fences[currentSwapBufferIndex]
    }

    constructor ()
      ensures Valid() && commandBuffers == [] && descriptorPools == [] && fences == []
      ensures currentSwapBufferIndex == -1 && !isInRenderPass && referencedObjects == [] && calls == []
    {
      commandBuffers := [];
      descriptorPools := [];
      fences := [];
      currentSwapBufferIndex := -1;
      isInRenderPass := false;
      referencedObjects := [];
      calls := [];
    }

    /**
     * Sets up N = `swapBufferCount` slots: N command buffers (allocated when
     * standalone, null handles to be supplied later otherwise), N new pools
     * sized for `drawingCount` draws of two stages, and N fences; no slot is
     * selected. `allocatedBuffers` and `createdFences` are what the device
     * returns.
     */
    method Initialize(swapBufferCount: int, drawingCount: int, precondition: CommandListPreCondition,
                      allocatedBuffers: seq<CommandBuffer>, createdFences: seq<Fence>) returns (ok: bool)
      requires Valid() && commandBuffers == [] && descriptorPools == [] && fences == []
      requires 0 <= swapBufferCount && |createdFences| == swapBufferCount
      requires precondition == Standalone ==> |allocatedBuffers| == swapBufferCount
      modifies this
      ensures ok && Valid()
      ensures commandBuffers == if precondition == Standalone then allocatedBuffers
                                else seq(swapBufferCount, _ => NullCommandBuffer)
      ensures |descriptorPools| == swapBufferCount && fences == createdFences
      ensures forall i :: 0 <= i < swapBufferCount ==>
                fresh(descriptorPools[i]) && descriptorPools[i].maxSets == drawingCount * ShaderStageCount
                && descriptorPools[i].cache == [] && descriptorPools[i].offset == 0
      ensures currentSwapBufferIndex == -1
      ensures isInRenderPass == old(isInRenderPass) && referencedObjects == old(referencedObjects)
      ensures calls == old(calls)
    {
      if precondition == Standalone {
        commandBuffers := allocatedBuffers;
      } else {
        commandBuffers := seq(swapBufferCount, _ => NullCommandBuffer);
      }
      var i := 0;
      while i < swapBufferCount
        invariant 0 <= i <= swapBufferCount
        invariant |descriptorPools| == i && fences == createdFences[..i]
        invariant forall j :: 0 <= j < i ==>
                    fresh(descriptorPools[j]) && descriptorPools[j].maxSets == drawingCount * ShaderStageCount
                    && descriptorPools[j].cache == [] && descriptorPools[j].offset == 0
        invariant forall j, k :: 0 <= j < k < i ==> descriptorPools[j] != descriptorPools[k]
        invariant commandBuffers == if precondition == Standalone then allocatedBuffers
                                    else seq(swapBufferCount, _ => NullCommandBuffer)
        invariant isInRenderPass == old(isInRenderPass) && referencedObjects == old(referencedObjects)
        invariant calls == old(calls)
      {
        var dp := new DescriptorPoolVulkan(drawingCount, ShaderStageCount);
        descriptorPools := descriptorPools + [dp];
        fences := fences + [createdFences[i]];
        i := i + 1;
      }
      currentSwapBufferIndex := -1;
      ok := true;
    }

    /**
     * Advances to the next slot, installs the externally supplied command
     * buffer there and rewinds that slot's pool.
     */
    method BeginExternal(nativeCommandBuffer: CommandBuffer)
      requires Valid() && |commandBuffers| > 0
      modifies this, descriptorPools[NextSlot(currentSwapBufferIndex, |commandBuffers|)]
      ensures Valid() && Recording()
      ensures currentSwapBufferIndex == NextSlot(old(currentSwapBufferIndex), |old(commandBuffers)|)
      ensures commandBuffers == old(commandBuffers)[currentSwapBufferIndex := nativeCommandBuffer]
      ensures descriptorPools == old(descriptorPools) && fences == old(fences)
      ensures var i := currentSwapBufferIndex;
              descriptorPools[i].State() == PoolReset(old(descriptorPools[i].State()))
      ensures forall j :: 0 <= j < |descriptorPools| && j != currentSwapBufferIndex ==>
                descriptorPools[j].State() == old(descriptorPools[j].State())
      ensures isInRenderPass == old(isInRenderPass) && referencedObjects == old(referencedObjects)
      ensures calls == old(calls)
    {
      currentSwapBufferIndex := (currentSwapBufferIndex + 1) % |commandBuffers|;
      commandBuffers := commandBuffers[currentSwapBufferIndex := nativeCommandBuffer];
      var dp := descriptorPools[currentSwapBufferIndex];
      dp.Reset();
    }

    /** Forgets the externally supplied command buffer of the current slot. */
    method EndExternal()
      requires Valid() && Recording()
      modifies this`commandBuffers
      ensures Valid() && Recording()
      ensures commandBuffers == old(commandBuffers)[currentSwapBufferIndex := NullCommandBuffer]
    {
      commandBuffers := commandBuffers[currentSwapBufferIndex := NullCommandBuffer];
    }

    /**
     * Advances to the next slot, resets its fence and its command buffer,
     * begins recording and rewinds that slot's pool; every other slot's pool
     * keeps its cache and cursor.
     */
    method Begin()
      requires Valid() && |commandBuffers| > 0
      modifies this, descriptorPools[NextSlot(currentSwapBufferIndex, |commandBuffers|)]
      ensures Valid() && Recording()
      ensures currentSwapBufferIndex == NextSlot(old(currentSwapBufferIndex), |old(commandBuffers)|)
      ensures commandBuffers == old(commandBuffers) && descriptorPools == old(descriptorPools)
      ensures fences == old(fences)
      ensures calls == old(calls) + [ResetFences(GetFence()), ResetCommandBuffer(GetCommandBuffer()),
                                     BeginCommandBuffer(GetCommandBuffer())]
      ensures var i := currentSwapBufferIndex;
              descriptorPools[i].State() == PoolReset(old(descriptorPools[i].State()))
      ensures forall j :: 0 <= j < |descriptorPools| && j != currentSwapBufferIndex ==>
                descriptorPools[j].State() == old(descriptorPools[j].State())
      ensures isInRenderPass == old(isInRenderPass) && referencedObjects == old(referencedObjects)
    {
      currentSwapBufferIndex := (currentSwapBufferIndex + 1) % |commandBuffers|;
      calls := calls + [ResetFences(fences[currentSwapBufferIndex])];
      var cmdBuffer := commandBuffers[currentSwapBufferIndex];
      calls := calls + [ResetCommandBuffer(cmdBuffer)];
      calls := calls + [BeginCommandBuffer(cmdBuffer)];
      var dp := descriptorPools[currentSwapBufferIndex];
      dp.Reset();
    }

    /** Ends recording of the current slot's command buffer. */
    method End()
      requires Recording()
      modifies this`calls
      ensures calls == old(calls) + [EndCommandBuffer(GetCommandBuffer())]
    {
      var cmdBuffer := commandBuffers[currentSwapBufferIndex];
      calls := calls + [EndCommandBuffer(cmdBuffer)];
    }

    method SetScissor(x: int, y: int, width: int, height: int)
      requires Recording()
      modifies this`calls
      ensures calls == old(calls) + [VkCall.SetScissor(GetCommandBuffer(), x, y, width, height)]
    {
      var cmdBuffer := commandBuffers[currentSwapBufferIndex];
      calls := calls + [VkCall.SetScissor(cmdBuffer, x, y, width, height)];
    }

    /**
     * One draw: takes the next group of descriptor sets from the current
     * slot's pool (`fromDevice` is what the device would allocate on a cache
     * miss) and issues the calls `DrawCalls` describes on the current command
     * buffer.
     */
    method Draw(primitiveCount: int, b: Bindings, fromDevice: SetGroup)
      requires Valid() && Recording()
      requires Drawable(b) && WritesNeeded(b) <= DescriptorWriteCapacity && IsGroup(fromDevice)
      modifies this, descriptorPools[currentSwapBufferIndex]
      ensures Valid() && Recording()
      ensures currentSwapBufferIndex == old(currentSwapBufferIndex)
      ensures commandBuffers == old(commandBuffers) && descriptorPools == old(descriptorPools)
      ensures fences == old(fences)
      ensures var i := currentSwapBufferIndex;
              var g := PoolGet(old(descriptorPools[i].State()), fromDevice);
              && descriptorPools[i].State() == g.state
              && calls == old(calls) + DrawCalls(GetCommandBuffer(), b, g.sets, primitiveCount)
      ensures forall j :: 0 <= j < |descriptorPools| && j != currentSwapBufferIndex ==>
                descriptorPools[j].State() == old(descriptorPools[j].State())
      ensures isInRenderPass == old(isInRenderPass) && referencedObjects == old(referencedObjects)
    {
      var cmdBuffer := commandBuffers[currentSwapBufferIndex];
      RecordBufferBinds(cmdBuffer, b);
      var dp := descriptorPools[currentSwapBufferIndex];
      var descriptorSets := dp.Get(fromDevice);
      RecordSetsAndDraw(cmdBuffer, b, descriptorSets, primitiveCount);
    }

    /** The vertex- and index-buffer part of `Draw`. */
    method RecordBufferBinds(cmdBuffer: CommandBuffer, b: Bindings)
      requires Drawable(b)
      modifies this`calls
      ensures calls == old(calls) + BufferBindCalls(cmdBuffer, b)
    {
      var vb, ib := b.vertexBuffer.value, b.indexBuffer.value;
      if b.isVBDirtied {
        calls := calls + [BindVertexBuffers(cmdBuffer, vb.buffer, vb.offset)];
      }
      if b.isIBDirtied {
        var indexType := Uint16;
        if ib.stride == 2 {
          indexType := Uint16;
        }
        if ib.stride == 4 {
          indexType := Uint32;
        }
        calls := calls + [BindIndexBuffer(cmdBuffer, ib.buffer, ib.offset, indexType)];
      }
    }

    /**
     * The part of `Draw` after the descriptor sets are obtained: descriptor
     * writes, the bind of the sets in use, the pipeline bind, the draw.
     */
    method RecordSetsAndDraw(cmdBuffer: CommandBuffer, b: Bindings, descriptorSets: seq<DescriptorSet>,
                             primitiveCount: int)
      requires Drawable(b) && WritesNeeded(b) <= DescriptorWriteCapacity
      requires |descriptorSets| == ShaderStageCount
      modifies this`calls
      ensures calls == old(calls) + SetAndDrawCalls(cmdBuffer, b, descriptorSets, primitiveCount)
    {
      var pip := b.pipeline.value;
      var writes, stages := AssembleDescriptorWrites(b, descriptorSets);
      calls := calls + [UpdateDescriptorSets(writes)];

      var bound, offsets, firstSet := PackDescriptorSets(stages, descriptorSets);
      if firstSet >= 0 {
        calls := calls + [BindDescriptorSets(cmdBuffer, pip.layout, firstSet, bound, offsets)];
      }
      if b.isPipDirtied {
        calls := calls + [BindPipeline(cmdBuffer, pip.pipeline)];
      }

      var indexPerPrim := 0;
      if pip.topology == Triangle {
        indexPerPrim := 3;
      }
      if pip.topology == Line {
        indexPerPrim := 2;
      }
      calls := calls + [DrawIndexed(cmdBuffer, ToUint32(indexPerPrim * primitiveCount))];
    }

    /**
     * Copies `src` onto `dst` with the transitions around it and registers
     * both textures with the frame; inside a render pass it refuses and
     * changes nothing.
     */
    method CopyTexture(src: TextureVulkan, dst: TextureVulkan)
      requires Valid() && (isInRenderPass || Recording())
      modifies this, src, dst
      ensures Valid()
      ensures currentSwapBufferIndex == old(currentSwapBufferIndex) && isInRenderPass == old(isInRenderPass)
      ensures commandBuffers == old(commandBuffers) && descriptorPools == old(descriptorPools)
      ensures fences == old(fences)
      ensures old(isInRenderPass) ==>
                && calls == old(calls) && referencedObjects == old(referencedObjects)
                && src.layout == old(src.layout) && dst.layout == old(dst.layout)
      ensures !old(isInRenderPass) ==>
                && calls == old(calls) + CopyCalls(GetCommandBuffer(), src, dst)
                && referencedObjects == old(referencedObjects) + [src, dst]
                && src.layout == ShaderReadOnlyOptimal && dst.layout == ShaderReadOnlyOptimal
    {
      if isInRenderPass {
        return;
      }
      var cmdBuffer := commandBuffers[currentSwapBufferIndex];
      ResourceBarrier(cmdBuffer, src, TransferSrcOptimal);
      ResourceBarrier(cmdBuffer, dst, TransferDstOptimal);
      calls := calls + [CopyImage(cmdBuffer, src, src.layout, dst, dst.layout, src.width, src.height)];
      ResourceBarrier(cmdBuffer, dst, ShaderReadOnlyOptimal);
      ResourceBarrier(cmdBuffer, src, ShaderReadOnlyOptimal);
      referencedObjects := referencedObjects + [src];
      referencedObjects := referencedObjects + [dst];
    }

    /** A layout-transition request to a texture: logs the request and records the new layout. */
    method ResourceBarrier(cmd: CommandBuffer, t: TextureVulkan, newLayout: ImageLayout)
      modifies this`calls, t`layout
      ensures calls == old(calls) + [VkCall.ResourceBarrier(cmd, t, newLayout)]
      ensures t.layout == newLayout
    {
      calls := calls + [VkCall.ResourceBarrier(cmd, t, newLayout)];
      t.layout := newLayout;
    }

    /**
     * Begins render pass `p` on the current command buffer. Afterwards each
     * render texture (other than the depth texture) is tracked in the final
     * layout the pass declares for its last position among the render
     * textures, and the depth texture in the final layout at index n.
     */
    method BeginRenderPass(p: RenderPassDesc)
      requires Valid() && Recording() && PassWellFormed(p)
      modifies this, (set t | t in p.renderTextures), DepthSet(p)
      ensures Valid() && Recording()
      ensures currentSwapBufferIndex == old(currentSwapBufferIndex)
      ensures commandBuffers == old(commandBuffers) && descriptorPools == old(descriptorPools)
      ensures fences == old(fences) && referencedObjects == old(referencedObjects)
      ensures isInRenderPass
      ensures calls == old(calls) + RenderPassCalls(GetCommandBuffer(), p)
      ensures forall t :: t in p.renderTextures && p.depthTexture != Some(t) ==>
                t.layout == p.finalLayouts[LastIndexOf(p.renderTextures, t)]
      ensures p.depthTexture.Some? ==> p.depthTexture.value.layout == p.finalLayouts[|p.renderTextures|]
    {
      var n := |p.renderTextures|;
      var cmdBuffer := commandBuffers[currentSwapBufferIndex];
      var clearValueCount, clearValues := ComputeClearValues(p);
      ghost var before := calls;

      if p.depthTexture.Some? {
        ResourceBarrier(cmdBuffer, p.depthTexture.value, DepthStencilAttachmentOptimal);
      }
      calls := calls + [VkCall.BeginRenderPass(cmdBuffer, p.framebuffer, p.renderPass, p.width, p.height,
                                               clearValueCount, clearValues)];
      calls := calls + [SetViewport(cmdBuffer, p.width, p.height)];
      calls := calls + [VkCall.SetScissor(cmdBuffer, 0, 0, p.width, p.height)];
      assert calls == before + RenderPassCalls(cmdBuffer, p);

      ChangeImageLayouts(p.renderTextures, p.finalLayouts);
      if p.depthTexture.Some? {
        p.depthTexture.value.layout := p.finalLayouts[n];
      }
      isInRenderPass := true;
    }

    /** Ends the render pass on the current command buffer. */
    method EndRenderPass()
      requires Recording()
      modifies this`calls, this`isInRenderPass
      ensures !isInRenderPass
      ensures calls == old(calls) + [VkCall.EndRenderPass(GetCommandBuffer())]
    {
      var cmdBuffer := commandBuffers[currentSwapBufferIndex];
      calls := calls + [VkCall.EndRenderPass(cmdBuffer)];
      isInRenderPass := false;
    }

    /** Waits on the current slot's fence, if a slot has been selected at all. */
    method WaitUntilCompleted()
      requires Valid()
      modifies this`calls
      ensures currentSwapBufferIndex >= 0 ==> calls == old(calls) + [WaitForFences(GetFence())]
      ensures currentSwapBufferIndex < 0 ==> calls == old(calls)
    {
      if currentSwapBufferIndex >= 0 {
        calls := calls + [WaitForFences(fences[currentSwapBufferIndex])];
      }
    }
  }

  /**
   * `ChangeImageLayout` on each render texture in turn: each texture ends in
   * the layout given for its last position in `ts`.
   */
  method ChangeImageLayouts(ts: seq<TextureVulkan>, layouts: seq<ImageLayout>)
    requires |ts| <= |layouts|
    modifies set t | t in ts
    ensures forall t :: t in ts ==> t.layout == layouts[LastIndexOf(ts, t)]
  {
    var i := 0;
    while i < |ts|
      invariant 0 <= i <= |ts|
      invariant forall t :: t in ts[..i] ==> t.layout == layouts[LastIndexOf(ts[..i], t)]
    {
      ChangeLayoutStep(ts, layouts, i);
      ts[i].layout := layouts[i];
      i := i + 1;
    }
    assert ts[..|ts|] == ts;
  }

  /**
   * One step of the final-layout loop: setting the layout of the i-th render
   * texture makes it the last assignment for that texture, and leaves the last
   * position of every other texture where it was.
   */
  lemma ChangeLayoutStep(ts: seq<TextureVulkan>, layouts: seq<ImageLayout>, i: nat)
    requires i < |ts|
    ensures LastIndexOf(ts[..i + 1], ts[i]) == i
    ensures forall t :: t in ts[..i] && t != ts[i] ==>
              t in ts[..i + 1] && LastIndexOf(ts[..i + 1], t) == LastIndexOf(ts[..i], t)
  {
    assert ts[..i + 1][..i] == ts[..i];
  }
}
