/**
 * Opaque Vulkan handles, the texture object whose tracked layout the command
 * list updates, and the log entries that stand for the calls it records.
 *
 * The log holds the command-buffer calls, `resetFences`, `waitForFences` and
 * `updateDescriptorSets`, one `VkCall` each, plus one `ResourceBarrier` entry
 * per layout-transition request made to a texture. Device-side creation and
 * allocation calls are not logged. Nothing about what the driver does with a
 * call is modelled.
 */
module VulkanTypes {

  datatype Option<T> = None | Some(value: T)

  /**
   * `ShaderStageType::Max`: the vertex and the pixel stage. Each binding-set
   * allocation asks for one descriptor set per stage.
   */
  const ShaderStageCount := 2

  /** `vk::CommandBuffer`; the default-constructed handle is `NullCommandBuffer`. */
  datatype CommandBuffer = NullCommandBuffer | CommandBuffer(handle: nat)

  datatype Fence = Fence(handle: nat)
  datatype DescriptorSet = DescriptorSet(handle: nat)
  datatype BufferHandle = BufferHandle(handle: nat)
  datatype PipelineHandle = PipelineHandle(handle: nat)
  datatype PipelineLayout = PipelineLayout(handle: nat)
  datatype ImageView = ImageView(handle: nat)
  datatype Framebuffer = Framebuffer(handle: nat)
  datatype RenderPassHandle = RenderPassHandle(handle: nat)

  /** The image layouts the command list asks for. */
  datatype ImageLayout =
    | Undefined
    | TransferSrcOptimal
    | TransferDstOptimal
    | ShaderReadOnlyOptimal
    | ColorAttachmentOptimal
    | DepthStencilAttachmentOptimal
    | PresentSrc

  datatype IndexType = Uint16 | Uint32

  /** `vk::ClearValue`: the float payloads are not modelled, only which one was written. */
  datatype ClearValue = DefaultClear | ColorClear | DepthStencilClear

  /**
   * A `TextureVulkan`. Image, view and size do not change once the texture
   * exists; the layout it is tracked to be in does.
   */
  class TextureVulkan {
    const view: ImageView
    const width: int
    const height: int
    var layout: ImageLayout

    constructor (view: ImageView, width: int, height: int, layout: ImageLayout)
      ensures this.view == view && this.width == width && this.height == height
      ensures this.layout == layout
    {
      this.view := view;
      this.width := width;
      this.height := height;
      this.layout := layout;
    }
  }

  /** One descriptor write handed to `updateDescriptorSets`. */
  datatype DescriptorWrite =
    | UniformWrite(dstSet: DescriptorSet, binding: nat, buffer: BufferHandle, range: int)
    | ImageWrite(dstSet: DescriptorSet, binding: nat, view: ImageView, imageLayout: ImageLayout)

  /**
   * The recorded calls of the command list, in the order it makes them.
   * `ResourceBarrier` is a request to the texture to transition its layout,
   * not necessarily a native barrier.
   */
  datatype VkCall =
    | ResetFences(fence: Fence)
    | WaitForFences(fence: Fence)
    | ResetCommandBuffer(cmd: CommandBuffer)
    | BeginCommandBuffer(cmd: CommandBuffer)
    | EndCommandBuffer(cmd: CommandBuffer)
    | SetScissor(cmd: CommandBuffer, x: int, y: int, width: int, height: int)
    | SetViewport(cmd: CommandBuffer, width: int, height: int)
    | BindVertexBuffers(cmd: CommandBuffer, buffer: BufferHandle, offset: int)
    | BindIndexBuffer(cmd: CommandBuffer, buffer: BufferHandle, offset: int, indexType: IndexType)
    | UpdateDescriptorSets(writes: seq<DescriptorWrite>)
    | BindDescriptorSets(cmd: CommandBuffer, layout: PipelineLayout, firstSet: int,
                         sets: seq<DescriptorSet>, dynamicOffsets: seq<int>)
    | BindPipeline(cmd: CommandBuffer, pipeline: PipelineHandle)
    | DrawIndexed(cmd: CommandBuffer, indexCount: nat)
    | ResourceBarrier(cmd: CommandBuffer, texture: TextureVulkan, newLayout: ImageLayout)
    | CopyImage(cmd: CommandBuffer, src: TextureVulkan, srcLayout: ImageLayout,
                dst: TextureVulkan, dstLayout: ImageLayout, width: int, height: int)
    | BeginRenderPass(cmd: CommandBuffer, framebuffer: Framebuffer, renderPass: RenderPassHandle,
                      width: int, height: int, clearValueCount: int, clearValues: seq<ClearValue>)
    | EndRenderPass(cmd: CommandBuffer)

  /** How many calls of a log satisfy `p`. */
  function CountCalls(calls: seq<VkCall>, p: VkCall -> bool): nat {
    if calls == [] then 0 else (if p(calls[0]) then 1 else 0) + CountCalls(calls[1..], p)
  }

  lemma {:induction false} CountCallsAppend(a: seq<VkCall>, b: seq<VkCall>, p: VkCall -> bool)
    ensures CountCalls(a + b, p) == CountCalls(a, p) + CountCalls(b, p)
  {
    if a == [] {
      assert a + b == b;
    } else {
      assert (a + b)[0] == a[0];
      assert (a + b)[1..] == a[1..] + b;
      CountCallsAppend(a[1..], b, p);
    }
  }

  /**
   * The layout the barriers of a log leave texture t in, starting from
   * `initial`: the target of the last barrier on t, if any.
   */
  function LayoutAfter(calls: seq<VkCall>, t: TextureVulkan, initial: ImageLayout): ImageLayout {
    if calls == [] then initial
    else
      var last := calls[|calls| - 1];
      if last.ResourceBarrier? && last.texture == t then last.newLayout
      else LayoutAfter(calls[..|calls| - 1], t, initial)
  }

  predicate IsBindVertexBuffers(c: VkCall) { c.BindVertexBuffers? }
  predicate IsBindIndexBuffer(c: VkCall) { c.BindIndexBuffer? }
  predicate IsBindPipeline(c: VkCall) { c.BindPipeline? }
  predicate IsBindDescriptorSets(c: VkCall) { c.BindDescriptorSets? }
  predicate IsDrawIndexed(c: VkCall) { c.DrawIndexed? }
}
