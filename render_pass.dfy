/**
 * The clear values `BeginRenderPass` hands to the driver.
 *
 * The command list fills an array of `RenderTargetMax + 1` clear values: one
 * colour value per render texture when the pass clears colour, and the depth
 * value at index n (n = number of render textures). It counts the values it
 * means to pass in `clearValueCount`; the driver reads only that many.
 */
module RenderPassClear {
  import opened VulkanTypes

  /** The most render textures a pass can have; the clear array has one more slot for depth. */
  const RenderTargetMax := 4

  /** The part of a `RenderPassVulkan` that `BeginRenderPass` reads. */
  datatype RenderPassDesc = RenderPassDesc(
    renderTextures: seq<TextureVulkan>,
    depthTexture: Option<TextureVulkan>,
    isColorCleared: bool,
    isDepthCleared: bool,
    /** The final layout of each attachment: render textures first, then depth. */
    finalLayouts: seq<ImageLayout>,
    framebuffer: Framebuffer,
    renderPass: RenderPassHandle,
    width: int,
    height: int)

  function AttachmentCount(p: RenderPassDesc): nat {
    |p.renderTextures| + (if p.depthTexture.Some? then 1 else 0)
  }

  /** A pass fits the clear array and declares a final layout for every attachment. */
  predicate PassWellFormed(p: RenderPassDesc) {
    |p.renderTextures| <= RenderTargetMax && AttachmentCount(p) <= |p.finalLayouts|
  }

  /**
   * The `clearValueCount` the flags call for: one per render texture when
   * colour is cleared, plus one when there is a depth texture to clear.
   */
  function ExpectedClearValueCount(p: RenderPassDesc): (r: nat)
    ensures r <= AttachmentCount(p)
    ensures r == 0 <==> (!p.isColorCleared || |p.renderTextures| == 0) && !(p.depthTexture.Some? && p.isDepthCleared)
  {
    (if p.isColorCleared then |p.renderTextures| else 0)
    + (if p.depthTexture.Some? && p.isDepthCleared then 1 else 0)
  }

  /**
   * The clear value stored at index i once the array is filled: the depth
   * value at index n whatever the flags, colour values below n when colour is
   * cleared, the default value elsewhere.
   */
  function ClearValueAt(p: RenderPassDesc, i: int): ClearValue {
    if i == |p.renderTextures| then DepthStencilClear
    else if i < |p.renderTextures| && p.isColorCleared then ColorClear
    else DefaultClear
  }

  function ClearValues(p: RenderPassDesc): (r: seq<ClearValue>)
    ensures |r| == RenderTargetMax + 1
    ensures forall i :: 0 <= i < |r| ==> r[i] == ClearValueAt(p, i)
  {
    seq(RenderTargetMax + 1, i => ClearValueAt(p, i))
  }

  /** The clear values the driver actually reads: the first `clearValueCount` ones. */
  function SentClearValues(p: RenderPassDesc): seq<ClearValue>
    requires PassWellFormed(p)
  {
    ClearValues(p)[..ExpectedClearValueCount(p)]
  }

  /**
   * The clear-value bookkeeping of `BeginRenderPass`: fills the fixed array
   * and counts the values as it writes them.
   */
  method ComputeClearValues(p: RenderPassDesc) returns (clearValueCount: int, clearValues: seq<ClearValue>)
    requires PassWellFormed(p)
    ensures clearValueCount == ExpectedClearValueCount(p)
    ensures clearValues == ClearValues(p)
  {
    var n := |p.renderTextures|;
    var values := new ClearValue[RenderTargetMax + 1](_ => DefaultClear);
    clearValueCount := 0;
    if p.isColorCleared {
      var i := 0;
      while i < n
        invariant 0 <= i <= n
        invariant clearValueCount == i
        invariant forall j :: 0 <= j < values.Length ==> values[j] == (if j < i then ColorClear else DefaultClear)
      {
        values[i] := ColorClear;
        clearValueCount := clearValueCount + 1;
        i := i + 1;
      }
    }
    assert forall j :: 0 <= j < values.Length && j != n ==> values[j] == ClearValueAt(p, j);
    if p.depthTexture.Some? && p.isDepthCleared {
      values[n] := DepthStencilClear;
      clearValueCount := clearValueCount + 1;
    }
    values[n] := DepthStencilClear;
    clearValues := values[..];
  }

  /** Whether the pass asks for attachment a to be cleared. */
  predicate AttachmentCleared(p: RenderPassDesc, a: int) {
    || (0 <= a < |p.renderTextures| && p.isColorCleared)
    || (a == |p.renderTextures| && p.depthTexture.Some? && p.isDepthCleared)
  }

  /**
   * When colour is cleared, or there are no render textures, every attachment
   * the pass clears lies within the count, and its clear value is of its
   * kind: colour for a render texture, depth for the depth texture.
   */
  lemma ClearedAttachmentsCovered(p: RenderPassDesc, a: int)
    requires PassWellFormed(p) && AttachmentCleared(p, a)
    requires p.isColorCleared || |p.renderTextures| == 0
    ensures a < ExpectedClearValueCount(p)
    ensures SentClearValues(p)[a] == (if a < |p.renderTextures| then ColorClear else DepthStencilClear)
  {
    assert ClearValues(p)[a] == ClearValueAt(p, a);
  }

  /**
   * The depth clear value reaches the driver exactly when the pass has a
   * depth texture to clear and colour is cleared too (or there are no render
   * textures): it sits at index n, past the count when colour is not cleared.
   */
  lemma DepthClearSent(p: RenderPassDesc)
    requires PassWellFormed(p)
    ensures DepthStencilClear in SentClearValues(p)
        <==> p.depthTexture.Some? && p.isDepthCleared && (p.isColorCleared || |p.renderTextures| == 0)
  {
    var n := |p.renderTextures|;
    var sent := SentClearValues(p);
    if p.depthTexture.Some? && p.isDepthCleared && (p.isColorCleared || n == 0) {
      assert sent[n] == DepthStencilClear;
    }
    if DepthStencilClear in sent {
      var k :| 0 <= k < |sent| && sent[k] == DepthStencilClear;
      assert ClearValueAt(p, k) == DepthStencilClear;
    }
  }

  /**
   * A depth-only clear with render textures and colour not cleared: the count
   * is 1 and the one value sent is the default value at index 0, so the
   * depth attachment at index n >= 1 gets no clear value within the count.
   */
  lemma DepthOnlyClearSendsDefault(p: RenderPassDesc)
    requires PassWellFormed(p)
    requires !p.isColorCleared && p.depthTexture.Some? && p.isDepthCleared && |p.renderTextures| >= 1
    ensures SentClearValues(p) == [DefaultClear]
    ensures ExpectedClearValueCount(p) <= |p.renderTextures|
  {
    assert ClearValues(p)[0] == ClearValueAt(p, 0);
  }
}
