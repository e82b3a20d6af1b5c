/**
 * What `CommandListVulkan::Draw` assembles from the current bindings: the
 * descriptor writes (uniform buffers at binding 0, the texture in unit u at
 * binding u + 1), the shader stages in use, the descriptor sets packed for
 * `bindDescriptorSets`, the index type and the index count, and the native
 * calls one draw issues.
 *
 * The bindings come from the base `CommandList` (its getters for the current
 * vertex buffer, index buffer, pipeline, constant buffers and textures, with
 * their dirty flags); here they are one `Bindings` value.
 */
module DrawAssembly {
  import opened VulkanTypes

  /** Size of the fixed arrays of descriptor writes, buffer infos and image infos. */
  const DescriptorWriteCapacity := 16

  datatype Topology = Triangle | Line | Point

  datatype VertexBinding = VertexBinding(buffer: BufferHandle, offset: int)
  datatype IndexBinding = IndexBinding(buffer: BufferHandle, offset: int, stride: int)
  datatype Pipeline = Pipeline(pipeline: PipelineHandle, layout: PipelineLayout, topology: Topology)
  datatype ConstantBuffer = ConstantBuffer(buffer: BufferHandle, size: int)

  /**
   * The binding state a draw reads: each current object (None when none is
   * bound) with its dirty flag, one constant buffer per stage, and one list
   * of texture units per stage.
   */
  datatype Bindings = Bindings(
    vertexBuffer: Option<VertexBinding>, isVBDirtied: bool,
    indexBuffer: Option<IndexBinding>, isIBDirtied: bool,
    pipeline: Option<Pipeline>, isPipDirtied: bool,
    constantBuffers: seq<Option<ConstantBuffer>>,
    textures: seq<seq<Option<TextureVulkan>>>)

  predicate Shaped(b: Bindings) {
    |b.constantBuffers| == ShaderStageCount && |b.textures| == ShaderStageCount
  }

  /** The three objects a draw asserts are bound. */
  predicate Drawable(b: Bindings) {
    Shaped(b) && b.vertexBuffer.Some? && b.indexBuffer.Some? && b.pipeline.Some?
  }

  // ---------------------------------------------------------------------
  // Index type and index count

  /** 32-bit indices for a stride of 4 bytes, 16-bit indices otherwise. */
  function IndexTypeFor(stride: int): (t: IndexType)
    ensures t == Uint32 <==> stride == 4
  {
    if stride == 4 then Uint32 else Uint16
  }

  function IndicesPerPrimitive(topology: Topology): nat {
    match topology
    case Triangle => 3
    case Line => 2
    case Point => 0
  }

  predicate IsInt32(x: int) {
    -0x8000_0000 <= x < 0x8000_0000
  }

  /** The C++ conversion of an `int` to `uint32_t`: reduction modulo 2^32. */
  function ToUint32(x: int): (r: nat)
    ensures r < 0x1_0000_0000
    ensures (x - r) % 0x1_0000_0000 == 0
    ensures 0 <= x < 0x1_0000_0000 ==> r == x
  {
    x % 0x1_0000_0000
  }

  /**
   * The `indexCount` argument of `drawIndexed`: indices per primitive times
   * the primitive count, as a `uint32_t`; always 0 for points.
   */
  function IndexCount(topology: Topology, primitiveCount: int): (r: nat)
    ensures r < 0x1_0000_0000
    ensures (IndicesPerPrimitive(topology) * primitiveCount - r) % 0x1_0000_0000 == 0
    ensures topology == Point ==> r == 0
  {
    ToUint32(IndicesPerPrimitive(topology) * primitiveCount)
  }

  // ---------------------------------------------------------------------
  // Descriptor writes

  /** Uniform-buffer writes for the stages below n: the stage's set, binding 0. */
  function UniformWrites(cbs: seq<Option<ConstantBuffer>>, sets: seq<DescriptorSet>, n: nat): seq<DescriptorWrite>
    requires n <= |cbs| && n <= |sets|
  {
    if n == 0 then []
    else UniformWrites(cbs, sets, n - 1)
         + (if cbs[n - 1].Some?
            then [UniformWrite(sets[n - 1], 0, cbs[n - 1].value.buffer, cbs[n - 1].value.size)]
            else [])
  }

  /** Image writes for the units below n of one stage: the unit's texture at binding unit + 1. */
  function UnitWrites(units: seq<Option<TextureVulkan>>, dstSet: DescriptorSet, n: nat): seq<DescriptorWrite>
    requires n <= |units|
  {
    if n == 0 then []
    else UnitWrites(units, dstSet, n - 1)
         + (if units[n - 1].Some?
            then [ImageWrite(dstSet, n, units[n - 1].value.view, ShaderReadOnlyOptimal)]
            else [])
  }

  /** Image writes for the stages below n, stage by stage. */
  function TextureWrites(textures: seq<seq<Option<TextureVulkan>>>, sets: seq<DescriptorSet>, n: nat): seq<DescriptorWrite>
    requires n <= |textures| && n <= |sets|
  {
    if n == 0 then []
    else TextureWrites(textures, sets, n - 1) + UnitWrites(textures[n - 1], sets[n - 1], |textures[n - 1]|)
  }

  /** Everything one draw hands to `updateDescriptorSets`, in order. */
  function DescriptorWrites(b: Bindings, sets: seq<DescriptorSet>): seq<DescriptorWrite>
    requires Shaped(b) && |sets| == ShaderStageCount
  {
    UniformWrites(b.constantBuffers, sets, ShaderStageCount) + TextureWrites(b.textures, sets, ShaderStageCount)
  }

  function BoundConstantBuffers(cbs: seq<Option<ConstantBuffer>>, n: nat): nat
    requires n <= |cbs|
  {
    if n == 0 then 0 else BoundConstantBuffers(cbs, n - 1) + (if cbs[n - 1].Some? then 1 else 0)
  }

  function BoundUnits(units: seq<Option<TextureVulkan>>, n: nat): nat
    requires n <= |units|
  {
    if n == 0 then 0 else BoundUnits(units, n - 1) + (if units[n - 1].Some? then 1 else 0)
  }

  function BoundTextures(textures: seq<seq<Option<TextureVulkan>>>, n: nat): nat
    requires n <= |textures|
  {
    if n == 0 then 0 else BoundTextures(textures, n - 1) + BoundUnits(textures[n - 1], |textures[n - 1]|)
  }

  /** The number of non-null constant buffers and textures: one write each. */
  function WritesNeeded(b: Bindings): nat
    requires Shaped(b)
  {
    BoundConstantBuffers(b.constantBuffers, ShaderStageCount) + BoundTextures(b.textures, ShaderStageCount)
  }

  // ---------------------------------------------------------------------
  // Stages in use and the packed descriptor sets

  predicate HasTextureBelow(units: seq<Option<TextureVulkan>>, n: nat)
    requires n <= |units|
  {
    exists u :: 0 <= u < n && units[u].Some?
  }

  /** A stage is in use when it has a constant buffer or a non-null texture. */
  predicate StageInUse(b: Bindings, s: nat)
    requires Shaped(b) && s < ShaderStageCount
  {
    b.constantBuffers[s].Some? || HasTextureBelow(b.textures[s], |b.textures[s]|)
  }

  function StagesInUse(b: Bindings): (r: seq<bool>)
    requires Shaped(b)
  {
    [StageInUse(b, 0), StageInUse(b, 1)]
  }

  /** The sets of the flagged stages below n, in stage order. */
  function Packed(stages: seq<bool>, sets: seq<DescriptorSet>, n: nat): seq<DescriptorSet>
    requires n <= |stages| && n <= |sets|
  {
    if n == 0 then [] else Packed(stages, sets, n - 1) + (if stages[n - 1] then [sets[n - 1]] else [])
  }

  function CountTrue(stages: seq<bool>, n: nat): nat
    requires n <= |stages|
  {
    if n == 0 then 0 else CountTrue(stages, n - 1) + (if stages[n - 1] then 1 else 0)
  }

  function Zeros(n: nat): (r: seq<int>)
    ensures |r| == n && forall i :: 0 <= i < n ==> r[i] == 0
  {
    seq(n, _ => 0)
  }

  // ---------------------------------------------------------------------
  // The calls of one draw

  /** The vertex- and index-buffer binds of a draw, each only when its binding is dirty. */
  function BufferBindCalls(cmd: CommandBuffer, b: Bindings): seq<VkCall>
    requires Drawable(b)
  {
    var vb, ib := b.vertexBuffer.value, b.indexBuffer.value;
    (if b.isVBDirtied then [BindVertexBuffers(cmd, vb.buffer, vb.offset)] else [])
    + (if b.isIBDirtied then [BindIndexBuffer(cmd, ib.buffer, ib.offset, IndexTypeFor(ib.stride))] else [])
  }

  /**
   * The rest of a draw, once the descriptor sets are obtained: the descriptor
   * writes, the bind of the sets in use, the pipeline bind when dirty and the
   * indexed draw.
   */
  function SetAndDrawCalls(cmd: CommandBuffer, b: Bindings, sets: seq<DescriptorSet>, primitiveCount: int): seq<VkCall>
    requires Drawable(b) && |sets| == ShaderStageCount
  {
    var pip := b.pipeline.value;
    var bound := Packed(StagesInUse(b), sets, ShaderStageCount);
    [UpdateDescriptorSets(DescriptorWrites(b, sets))]
    + (if |bound| > 0 then [BindDescriptorSets(cmd, pip.layout, 0, bound, Zeros(|bound|))] else [])
    + (if b.isPipDirtied then [BindPipeline(cmd, pip.pipeline)] else [])
    + [DrawIndexed(cmd, IndexCount(pip.topology, primitiveCount))]
  }

  /**
   * The calls one `Draw` records on `cmd`, given the descriptor sets it
   * obtained from the slot's pool.
   */
  function DrawCalls(cmd: CommandBuffer, b: Bindings, sets: seq<DescriptorSet>, primitiveCount: int): (r: seq<VkCall>)
    requires Drawable(b) && |sets| == ShaderStageCount
    ensures |r| >= 2 && r[|r| - 1] == DrawIndexed(cmd, IndexCount(b.pipeline.value.topology, primitiveCount))
  {
    BufferBindCalls(cmd, b) + SetAndDrawCalls(cmd, b, sets, primitiveCount)
  }

  // ---------------------------------------------------------------------
  // Counting lemmas used by the assembly loops

  lemma {:induction false} UniformWritesLength(cbs: seq<Option<ConstantBuffer>>, sets: seq<DescriptorSet>, n: nat)
    requires n <= |cbs| && n <= |sets|
    ensures |UniformWrites(cbs, sets, n)| == BoundConstantBuffers(cbs, n)
  {
    if n > 0 { UniformWritesLength(cbs, sets, n - 1); }
  }

  lemma {:induction false} UnitWritesLength(units: seq<Option<TextureVulkan>>, dstSet: DescriptorSet, n: nat)
    requires n <= |units|
    ensures |UnitWrites(units, dstSet, n)| == BoundUnits(units, n)
  {
    if n > 0 { UnitWritesLength(units, dstSet, n - 1); }
  }

  lemma {:induction false} TextureWritesLength(textures: seq<seq<Option<TextureVulkan>>>, sets: seq<DescriptorSet>, n: nat)
    requires n <= |textures| && n <= |sets|
    ensures |TextureWrites(textures, sets, n)| == BoundTextures(textures, n)
  {
    if n > 0 {
      TextureWritesLength(textures, sets, n - 1);
      UnitWritesLength(textures[n - 1], sets[n - 1], |textures[n - 1]|);
    }
  }

  lemma {:induction false} BoundUnitsMonotone(units: seq<Option<TextureVulkan>>, m: nat, n: nat)
    requires m <= n <= |units|
    ensures BoundUnits(units, m) <= BoundUnits(units, n)
    decreases n - m
  {
    if m < n { BoundUnitsMonotone(units, m, n - 1); }
  }

  lemma {:induction false} BoundTexturesMonotone(textures: seq<seq<Option<TextureVulkan>>>, m: nat, n: nat)
    requires m <= n <= |textures|
    ensures BoundTextures(textures, m) <= BoundTextures(textures, n)
    decreases n - m
  {
    if m < n { BoundTexturesMonotone(textures, m, n - 1); }
  }

  /** One write per non-null constant buffer and per non-null texture, no more. */
  lemma DescriptorWriteCount(b: Bindings, sets: seq<DescriptorSet>)
    requires Shaped(b) && |sets| == ShaderStageCount
    ensures |DescriptorWrites(b, sets)| == WritesNeeded(b)
  {
    UniformWritesLength(b.constantBuffers, sets, ShaderStageCount);
    TextureWritesLength(b.textures, sets, ShaderStageCount);
  }

  // ---------------------------------------------------------------------
  // The assembly itself, over the source's fixed-size arrays

  /**
   * The stage flags once the textures of the stages below `done` have been
   * visited: those stages are marked when in use, the others when they have
   * a constant buffer.
   */
  function StagesMarked(b: Bindings, done: nat): seq<bool>
    requires Shaped(b)
  {
    [if 0 < done then StageInUse(b, 0) else b.constantBuffers[0].Some?,
     if 1 < done then StageInUse(b, 1) else b.constantBuffers[1].Some?]
  }

  /**
   * The constant-buffer part of a draw: the vertex stage's buffer, then the
   * pixel stage's, each at binding 0 of its stage's set.
   */
  method WriteUniforms(writeDescriptorSets: array<DescriptorWrite>, inUse: array<bool>,
                       cbs: seq<Option<ConstantBuffer>>, sets: seq<DescriptorSet>)
    returns (writeDescriptorIndex: nat)
    requires writeDescriptorSets.Length >= ShaderStageCount
    requires inUse.Length == |cbs| == |sets| == ShaderStageCount
    requires !inUse[0] && !inUse[1]
    modifies writeDescriptorSets, inUse
    ensures writeDescriptorIndex <= ShaderStageCount
    ensures writeDescriptorSets[..writeDescriptorIndex] == UniformWrites(cbs, sets, ShaderStageCount)
    ensures inUse[0] == cbs[0].Some? && inUse[1] == cbs[1].Some?
  {
    writeDescriptorIndex := 0;
    if cbs[0].Some? {
      var vcb := cbs[0].value;
      inUse[0] := true;
      writeDescriptorSets[writeDescriptorIndex] := UniformWrite(sets[0], 0, vcb.buffer, vcb.size);
      writeDescriptorIndex := writeDescriptorIndex + 1;
    }
    assert writeDescriptorSets[..writeDescriptorIndex] == UniformWrites(cbs, sets, 1);
    if cbs[1].Some? {
      var pcb := cbs[1].value;
      inUse[1] := true;
      writeDescriptorSets[writeDescriptorIndex] := UniformWrite(sets[1], 0, pcb.buffer, pcb.size);
      writeDescriptorIndex := writeDescriptorIndex + 1;
    }
  }

  /**
   * The inner loop of the texture assignment for one stage: every non-null
   * unit gets an image write at binding unit + 1 into the next free entry,
   * and marks the stage as in use.
   */
  method WriteStageTextures(writeDescriptorSets: array<DescriptorWrite>, start: nat, inUse: array<bool>,
                            stage: nat, units: seq<Option<TextureVulkan>>, dstSet: DescriptorSet)
    returns (end: nat)
    requires start + BoundUnits(units, |units|) <= writeDescriptorSets.Length
    requires stage < inUse.Length
    modifies writeDescriptorSets, inUse
    ensures end == start + BoundUnits(units, |units|)
    ensures writeDescriptorSets[..end] == old(writeDescriptorSets[..start]) + UnitWrites(units, dstSet, |units|)
    ensures inUse[stage] == (old(inUse[stage]) || HasTextureBelow(units, |units|))
    ensures forall s :: 0 <= s < inUse.Length && s != stage ==> inUse[s] == old(inUse[s])
  {
    BoundUnitsMonotone(units, 0, |units|);
    end := start;
    var unit := 0;
    while unit < |units|
      invariant 0 <= unit <= |units|
      invariant end == start + BoundUnits(units, unit)
      invariant end <= writeDescriptorSets.Length
      invariant writeDescriptorSets[..end] == old(writeDescriptorSets[..start]) + UnitWrites(units, dstSet, unit)
      invariant inUse[stage] == (old(inUse[stage]) || HasTextureBelow(units, unit))
      invariant forall s :: 0 <= s < inUse.Length && s != stage ==> inUse[s] == old(inUse[s])
    {
      if units[unit].None? {
        unit := unit + 1;
        continue;
      }
      inUse[stage] := true;
      BoundUnitsMonotone(units, unit + 1, |units|);
      writeDescriptorSets[end] := ImageWrite(dstSet, unit + 1, units[unit].value.view, ShaderReadOnlyOptimal);
      end := end + 1;
      unit := unit + 1;
    }
  }

  /**
   * One pass of the outer texture loop: appends the writes of stage `stage`
   * and marks that stage when it is in use.
   */
  method WriteTexturesOfStage(writeDescriptorSets: array<DescriptorWrite>, writeDescriptorIndex: nat,
                              inUse: array<bool>, b: Bindings, sets: seq<DescriptorSet>,
                              ghost uniforms: seq<DescriptorWrite>, stage: nat)
    returns (next: nat)
    requires Shaped(b) && |sets| == ShaderStageCount && stage < ShaderStageCount
    requires WritesNeeded(b) <= DescriptorWriteCapacity == writeDescriptorSets.Length
    requires |uniforms| == BoundConstantBuffers(b.constantBuffers, ShaderStageCount)
    requires writeDescriptorIndex == |uniforms| + BoundTextures(b.textures, stage)
    requires writeDescriptorSets[..writeDescriptorIndex] == uniforms + TextureWrites(b.textures, sets, stage)
    requires inUse.Length == ShaderStageCount && inUse[..] == StagesMarked(b, stage)
    modifies writeDescriptorSets, inUse
    ensures next == |uniforms| + BoundTextures(b.textures, stage + 1)
    ensures next <= DescriptorWriteCapacity
    ensures writeDescriptorSets[..next] == uniforms + TextureWrites(b.textures, sets, stage + 1)
    ensures inUse[..] == StagesMarked(b, stage + 1)
  {
    BoundTexturesMonotone(b.textures, stage + 1, ShaderStageCount);
    ghost var before := writeDescriptorSets[..writeDescriptorIndex];
    next := WriteStageTextures(writeDescriptorSets, writeDescriptorIndex, inUse,
                               stage, b.textures[stage], sets[stage]);
    assert writeDescriptorSets[..next]
        == before + UnitWrites(b.textures[stage], sets[stage], |b.textures[stage]|);
    assert TextureWrites(b.textures, sets, stage + 1)
        == TextureWrites(b.textures, sets, stage) + UnitWrites(b.textures[stage], sets[stage], |b.textures[stage]|);
    assert inUse[stage] == StageInUse(b, stage);
    assert inUse[..] == StagesMarked(b, stage + 1);
  }

  /**
   * Fills the 16-entry array of descriptor writes and the per-stage "in use"
   * flags: the vertex stage's constant buffer, the pixel stage's, then every
   * non-null texture, stage by stage and unit by unit.
   */
  method AssembleDescriptorWrites(b: Bindings, sets: seq<DescriptorSet>)
    returns (writes: seq<DescriptorWrite>, stages: seq<bool>)
    requires Shaped(b) && |sets| == ShaderStageCount
    requires WritesNeeded(b) <= DescriptorWriteCapacity
    ensures writes == DescriptorWrites(b, sets)
    ensures stages == StagesInUse(b)
  {
    var writeDescriptorSets := new DescriptorWrite[DescriptorWriteCapacity];
    var inUse := new bool[ShaderStageCount](_ => false);
    var writeDescriptorIndex;

    writeDescriptorIndex := WriteUniforms(writeDescriptorSets, inUse, b.constantBuffers, sets);
    ghost var uniforms := UniformWrites(b.constantBuffers, sets, ShaderStageCount);
    UniformWritesLength(b.constantBuffers, sets, ShaderStageCount);

    var stage := 0;
    while stage < ShaderStageCount
      invariant 0 <= stage <= ShaderStageCount
      invariant writeDescriptorIndex == |uniforms| + BoundTextures(b.textures, stage)
      invariant writeDescriptorIndex <= DescriptorWriteCapacity
      invariant writeDescriptorSets[..writeDescriptorIndex] == uniforms + TextureWrites(b.textures, sets, stage)
      invariant inUse.Length == ShaderStageCount && inUse[..] == StagesMarked(b, stage)
    {
      writeDescriptorIndex := WriteTexturesOfStage(writeDescriptorSets, writeDescriptorIndex, inUse, b, sets,
                                                   uniforms, stage);
      stage := stage + 1;
    }
    writes := writeDescriptorSets[..writeDescriptorIndex];
    stages := inUse[..];
  }

  /**
   * Packs the sets of the stages in use into the front of a per-stage array.
   * `firstSet` records the pack position of the first stage in use, so it is
   * 0 whenever anything is packed and -1 otherwise.
   */
  method PackDescriptorSets(stages: seq<bool>, sets: seq<DescriptorSet>)
    returns (bound: seq<DescriptorSet>, offsets: seq<int>, firstSet: int)
    requires |stages| == ShaderStageCount && |sets| == ShaderStageCount
    ensures bound == Packed(stages, sets, ShaderStageCount)
    ensures offsets == Zeros(|bound|)
    ensures firstSet == if |bound| > 0 then 0 else -1
  {
    var descriptorSets := new DescriptorSet[ShaderStageCount];
    var dynamicOffsets := new int[ShaderStageCount];
    var descriptorIndex := 0;
    firstSet := -1;
    for i := 0 to ShaderStageCount
      invariant descriptorIndex <= i
      invariant descriptorSets[..descriptorIndex] == Packed(stages, sets, i)
      invariant dynamicOffsets[..descriptorIndex] == Zeros(descriptorIndex)
      invariant firstSet == if descriptorIndex > 0 then 0 else -1
    {
      if !stages[i] {
        continue;
      }
      descriptorSets[descriptorIndex] := sets[i];
      dynamicOffsets[descriptorIndex] := 0;
      if firstSet < 0 {
        firstSet := descriptorIndex;
      }
      descriptorIndex := descriptorIndex + 1;
    }
    bound := descriptorSets[..descriptorIndex];
    offsets := dynamicOffsets[..descriptorIndex];
  }

  // ---------------------------------------------------------------------
  // Where each write comes from

  lemma {:induction false} UnitWritesContain(units: seq<Option<TextureVulkan>>, dstSet: DescriptorSet, n: nat, u: nat)
    requires u < n <= |units| && units[u].Some?
    ensures ImageWrite(dstSet, u + 1, units[u].value.view, ShaderReadOnlyOptimal) in UnitWrites(units, dstSet, n)
  {
    if u < n - 1 {
      UnitWritesContain(units, dstSet, n - 1, u);
    }
  }

  lemma {:induction false} TextureWritesContain(textures: seq<seq<Option<TextureVulkan>>>, sets: seq<DescriptorSet>,
                                                n: nat, s: nat, w: DescriptorWrite)
    requires s < n <= |textures| && n <= |sets|
    requires w in UnitWrites(textures[s], sets[s], |textures[s]|)
    ensures w in TextureWrites(textures, sets, n)
  {
    if s < n - 1 {
      TextureWritesContain(textures, sets, n - 1, s, w);
    }
  }

  lemma {:induction false} UniformWritesContain(cbs: seq<Option<ConstantBuffer>>, sets: seq<DescriptorSet>, n: nat, s: nat)
    requires s < n <= |cbs| && n <= |sets| && cbs[s].Some?
    ensures UniformWrite(sets[s], 0, cbs[s].value.buffer, cbs[s].value.size) in UniformWrites(cbs, sets, n)
  {
    if s < n - 1 {
      UniformWritesContain(cbs, sets, n - 1, s);
    }
  }

  /**
   * Every bound resource is written: the constant buffer of stage s at
   * binding 0 of set s, and the texture in unit u of stage s at binding
   * u + 1 of set s, in shader-read-only layout.
   */
  lemma WritesCoverBindings(b: Bindings, sets: seq<DescriptorSet>)
    requires Shaped(b) && |sets| == ShaderStageCount
    ensures forall s :: 0 <= s < ShaderStageCount && b.constantBuffers[s].Some? ==>
              UniformWrite(sets[s], 0, b.constantBuffers[s].value.buffer, b.constantBuffers[s].value.size)
                in DescriptorWrites(b, sets)
    ensures forall s, u :: 0 <= s < ShaderStageCount && 0 <= u < |b.textures[s]| && b.textures[s][u].Some? ==>
              ImageWrite(sets[s], u + 1, b.textures[s][u].value.view, ShaderReadOnlyOptimal)
                in DescriptorWrites(b, sets)
  {
    forall s | 0 <= s < ShaderStageCount && b.constantBuffers[s].Some?
      ensures UniformWrite(sets[s], 0, b.constantBuffers[s].value.buffer, b.constantBuffers[s].value.size)
                in DescriptorWrites(b, sets)
    {
      UniformWritesContain(b.constantBuffers, sets, ShaderStageCount, s);
    }
    forall s, u | 0 <= s < ShaderStageCount && 0 <= u < |b.textures[s]| && b.textures[s][u].Some?
      ensures ImageWrite(sets[s], u + 1, b.textures[s][u].value.view, ShaderReadOnlyOptimal)
                in DescriptorWrites(b, sets)
    {
      var w := ImageWrite(sets[s], u + 1, b.textures[s][u].value.view, ShaderReadOnlyOptimal);
      UnitWritesContain(b.textures[s], sets[s], |b.textures[s]|, u);
      TextureWritesContain(b.textures, sets, ShaderStageCount, s, w);
    }
  }

  /** A unit write is an image write for a non-null unit, at that unit's binding + 1. */
  predicate FromUnit(units: seq<Option<TextureVulkan>>, dstSet: DescriptorSet, w: DescriptorWrite) {
    && w.ImageWrite? && w.dstSet == dstSet && w.imageLayout == ShaderReadOnlyOptimal
    && exists u :: 0 <= u < |units| && units[u].Some? && units[u].value.view == w.view && w.binding == u + 1
  }

  lemma {:induction false} UnitWritesOrigin(units: seq<Option<TextureVulkan>>, dstSet: DescriptorSet, n: nat, w: DescriptorWrite)
    requires n <= |units| && w in UnitWrites(units, dstSet, n)
    ensures FromUnit(units, dstSet, w)
  {
    if w in UnitWrites(units, dstSet, n - 1) {
      UnitWritesOrigin(units, dstSet, n - 1, w);
    } else {
      assert units[n - 1].Some? && w == ImageWrite(dstSet, n, units[n - 1].value.view, ShaderReadOnlyOptimal);
    }
  }

  lemma {:induction false} TextureWritesOrigin(textures: seq<seq<Option<TextureVulkan>>>, sets: seq<DescriptorSet>,
                                               n: nat, w: DescriptorWrite)
    requires n <= |textures| && n <= |sets| && w in TextureWrites(textures, sets, n)
    ensures exists s :: 0 <= s < n && FromUnit(textures[s], sets[s], w)
  {
    if w in TextureWrites(textures, sets, n - 1) {
      TextureWritesOrigin(textures, sets, n - 1, w);
    } else {
      UnitWritesOrigin(textures[n - 1], sets[n - 1], |textures[n - 1]|, w);
    }
  }

  lemma {:induction false} UniformWritesOrigin(cbs: seq<Option<ConstantBuffer>>, sets: seq<DescriptorSet>, n: nat, w: DescriptorWrite)
    requires n <= |cbs| && n <= |sets| && w in UniformWrites(cbs, sets, n)
    ensures w.UniformWrite? && w.binding == 0
    ensures exists s :: 0 <= s < n && cbs[s] == Some(ConstantBuffer(w.buffer, w.range)) && w.dstSet == sets[s]
  {
    if w in UniformWrites(cbs, sets, n - 1) {
      UniformWritesOrigin(cbs, sets, n - 1, w);
    } else {
      assert cbs[n - 1] == Some(ConstantBuffer(w.buffer, w.range)) && w.dstSet == sets[n - 1];
    }
  }

  /**
   * Nothing else is written: a uniform write is at binding 0 of the set of a
   * stage whose constant buffer it names; an image write is at binding u + 1
   * of the set of a stage whose unit u holds a texture with that view.
   */
  lemma WritesComeFromBindings(b: Bindings, sets: seq<DescriptorSet>, w: DescriptorWrite)
    requires Shaped(b) && |sets| == ShaderStageCount
    requires w in DescriptorWrites(b, sets)
    ensures w.UniformWrite? ==>
              w.binding == 0 &&
              exists s :: 0 <= s < ShaderStageCount &&
                b.constantBuffers[s] == Some(ConstantBuffer(w.buffer, w.range)) && w.dstSet == sets[s]
    ensures w.ImageWrite? ==>
              exists s :: 0 <= s < ShaderStageCount && FromUnit(b.textures[s], sets[s], w)
  {
    if w in UniformWrites(b.constantBuffers, sets, ShaderStageCount) {
      UniformWritesOrigin(b.constantBuffers, sets, ShaderStageCount, w);
    } else {
      TextureWritesOrigin(b.textures, sets, ShaderStageCount, w);
    }
  }

  // ---------------------------------------------------------------------
  // Packing

  /**
   * The packed sets are exactly the sets of the flagged stages, one per
   * flagged stage and in stage order.
   */
  lemma {:induction false} PackedSets(stages: seq<bool>, sets: seq<DescriptorSet>, n: nat)
    requires n <= |stages| && n <= |sets|
    ensures |Packed(stages, sets, n)| == CountTrue(stages, n)
    ensures forall i :: 0 <= i < n && stages[i] ==> sets[i] in Packed(stages, sets, n)
    ensures forall x :: x in Packed(stages, sets, n) ==> exists i :: 0 <= i < n && stages[i] && sets[i] == x
    ensures |Packed(stages, sets, n)| > 0 <==> exists i :: 0 <= i < n && stages[i]
  {
    if n > 0 {
      PackedSets(stages, sets, n - 1);
      var p := Packed(stages, sets, n - 1);
      forall x | x in Packed(stages, sets, n)
        ensures exists i :: 0 <= i < n && stages[i] && sets[i] == x
      {
        if x !in p {
          assert stages[n - 1] && sets[n - 1] == x;
        }
      }
      if stages[n - 1] {
        assert sets[n - 1] in Packed(stages, sets, n);
      }
    }
  }

  // ---------------------------------------------------------------------
  // Properties of one draw

  lemma CountCallsOfSix(c1: seq<VkCall>, c2: seq<VkCall>, c3: seq<VkCall>, c4: seq<VkCall>, c5: seq<VkCall>,
                      c6: seq<VkCall>, p: VkCall -> bool)
    ensures CountCalls(c1 + c2 + c3 + c4 + c5 + c6, p)
         == CountCalls(c1, p) + CountCalls(c2, p) + CountCalls(c3, p)
          + CountCalls(c4, p) + CountCalls(c5, p) + CountCalls(c6, p)
  {
    CountCallsAppend(c1, c2, p);
    CountCallsAppend(c1 + c2, c3, p);
    CountCallsAppend(c1 + c2 + c3, c4, p);
    CountCallsAppend(c1 + c2 + c3 + c4, c5, p);
    CountCallsAppend(c1 + c2 + c3 + c4 + c5, c6, p);
  }

  /** The six parts of a draw's calls, in order. */
  lemma DrawCallsParts(cmd: CommandBuffer, b: Bindings, sets: seq<DescriptorSet>, primitiveCount: int)
    requires Drawable(b) && |sets| == ShaderStageCount
    ensures var vb, ib, pip := b.vertexBuffer.value, b.indexBuffer.value, b.pipeline.value;
            var bound := Packed(StagesInUse(b), sets, ShaderStageCount);
            DrawCalls(cmd, b, sets, primitiveCount)
            == (if b.isVBDirtied then [BindVertexBuffers(cmd, vb.buffer, vb.offset)] else [])
             + (if b.isIBDirtied then [BindIndexBuffer(cmd, ib.buffer, ib.offset, IndexTypeFor(ib.stride))] else [])
             + [UpdateDescriptorSets(DescriptorWrites(b, sets))]
             + (if |bound| > 0 then [BindDescriptorSets(cmd, pip.layout, 0, bound, Zeros(|bound|))] else [])
             + (if b.isPipDirtied then [BindPipeline(cmd, pip.pipeline)] else [])
             + [DrawIndexed(cmd, IndexCount(pip.topology, primitiveCount))]
  {
    var vb, ib, pip := b.vertexBuffer.value, b.indexBuffer.value, b.pipeline.value;
    var bound := Packed(StagesInUse(b), sets, ShaderStageCount);
    var c1 := if b.isVBDirtied then [BindVertexBuffers(cmd, vb.buffer, vb.offset)] else [];
    var c2 := if b.isIBDirtied then [BindIndexBuffer(cmd, ib.buffer, ib.offset, IndexTypeFor(ib.stride))] else [];
    var c3 := [UpdateDescriptorSets(DescriptorWrites(b, sets))];
    var c4 := if |bound| > 0 then [BindDescriptorSets(cmd, pip.layout, 0, bound, Zeros(|bound|))] else [];
    var c5 := if b.isPipDirtied then [BindPipeline(cmd, pip.pipeline)] else [];
    var c6 := [DrawIndexed(cmd, IndexCount(pip.topology, primitiveCount))];
    assert BufferBindCalls(cmd, b) == c1 + c2;
    assert SetAndDrawCalls(cmd, b, sets, primitiveCount) == c3 + c4 + c5 + c6;
    SixAssociate(c1, c2, c3, c4, c5, c6);
  }

  lemma SixAssociate(c1: seq<VkCall>, c2: seq<VkCall>, c3: seq<VkCall>, c4: seq<VkCall>, c5: seq<VkCall>,
                     c6: seq<VkCall>)
    ensures (c1 + c2) + (c3 + c4 + c5 + c6) == c1 + c2 + c3 + c4 + c5 + c6
  {
  }

  /**
   * A draw binds the vertex buffer, the index buffer and the pipeline once
   * each when its dirty flag is set and not at all otherwise, and issues
   * exactly one indexed draw.
   */
  lemma DrawBindsOnlyWhatIsDirty(cmd: CommandBuffer, b: Bindings, sets: seq<DescriptorSet>, primitiveCount: int)
    requires Drawable(b) && |sets| == ShaderStageCount
    ensures var calls := DrawCalls(cmd, b, sets, primitiveCount);
            && CountCalls(calls, IsBindVertexBuffers) == (if b.isVBDirtied then 1 else 0)
            && CountCalls(calls, IsBindIndexBuffer) == (if b.isIBDirtied then 1 else 0)
            && CountCalls(calls, IsBindPipeline) == (if b.isPipDirtied then 1 else 0)
            && CountCalls(calls, IsDrawIndexed) == 1
  {
    var vb, ib, pip := b.vertexBuffer.value, b.indexBuffer.value, b.pipeline.value;
    var bound := Packed(StagesInUse(b), sets, ShaderStageCount);
    var c1 := if b.isVBDirtied then [BindVertexBuffers(cmd, vb.buffer, vb.offset)] else [];
    var c2 := if b.isIBDirtied then [BindIndexBuffer(cmd, ib.buffer, ib.offset, IndexTypeFor(ib.stride))] else [];
    var c3 := [UpdateDescriptorSets(DescriptorWrites(b, sets))];
    var c4 := if |bound| > 0 then [BindDescriptorSets(cmd, pip.layout, 0, bound, Zeros(|bound|))] else [];
    var c5 := if b.isPipDirtied then [BindPipeline(cmd, pip.pipeline)] else [];
    var c6 := [DrawIndexed(cmd, IndexCount(pip.topology, primitiveCount))];
    DrawCallsParts(cmd, b, sets, primitiveCount);
    SixPartCounts(c1, c2, c3, c4, c5, c6);
  }

  /**
   * A draw binds descriptor sets once exactly when some stage has a constant
   * buffer or a non-null texture, never otherwise.
   */
  lemma DrawBindsSetsOfStagesInUse(cmd: CommandBuffer, b: Bindings, sets: seq<DescriptorSet>, primitiveCount: int)
    requires Drawable(b) && |sets| == ShaderStageCount
    ensures var calls := DrawCalls(cmd, b, sets, primitiveCount);
            CountCalls(calls, IsBindDescriptorSets) == (if StageInUse(b, 0) || StageInUse(b, 1) then 1 else 0)
  {
    var vb, ib, pip := b.vertexBuffer.value, b.indexBuffer.value, b.pipeline.value;
    var bound := Packed(StagesInUse(b), sets, ShaderStageCount);
    var c1 := if b.isVBDirtied then [BindVertexBuffers(cmd, vb.buffer, vb.offset)] else [];
    var c2 := if b.isIBDirtied then [BindIndexBuffer(cmd, ib.buffer, ib.offset, IndexTypeFor(ib.stride))] else [];
    var c3 := [UpdateDescriptorSets(DescriptorWrites(b, sets))];
    var c4 := if |bound| > 0 then [BindDescriptorSets(cmd, pip.layout, 0, bound, Zeros(|bound|))] else [];
    var c5 := if b.isPipDirtied then [BindPipeline(cmd, pip.pipeline)] else [];
    var c6 := [DrawIndexed(cmd, IndexCount(pip.topology, primitiveCount))];
    var calls := DrawCalls(cmd, b, sets, primitiveCount);
    assert calls == c1 + c2 + c3 + c4 + c5 + c6 by {
      DrawCallsParts(cmd, b, sets, primitiveCount);
    }
    var stages := StagesInUse(b);
    assert |bound| > 0 <==> StageInUse(b, 0) || StageInUse(b, 1) by {
      PackedSets(stages, sets, ShaderStageCount);
      assert stages[0] == StageInUse(b, 0) && stages[1] == StageInUse(b, 1);
    }
    SixPartCounts(c1, c2, c3, c4, c5, c6);
  }

  /** Every descriptor-set bind in `calls` binds `bound` from set 0. */
  predicate BindsOnly(calls: seq<VkCall>, bound: seq<DescriptorSet>) {
    forall c :: c in calls && c.BindDescriptorSets? ==> c.firstSet == 0 && c.sets == bound
  }

  lemma BindsOnlyAppend(a: seq<VkCall>, c: seq<VkCall>, bound: seq<DescriptorSet>)
    requires BindsOnly(a, bound) && BindsOnly(c, bound)
    ensures BindsOnly(a + c, bound)
  {
    forall x | x in a + c && x.BindDescriptorSets?
      ensures x.firstSet == 0 && x.sets == bound
    {
      assert x in a || x in c;
    }
  }

  /** Every descriptor-set bind of a draw binds the packed sets of the stages in use, from set 0. */
  lemma DrawBindsPackedSets(cmd: CommandBuffer, b: Bindings, sets: seq<DescriptorSet>, primitiveCount: int)
    requires Drawable(b) && |sets| == ShaderStageCount
    ensures BindsOnly(DrawCalls(cmd, b, sets, primitiveCount), Packed(StagesInUse(b), sets, ShaderStageCount))
  {
    var bound := Packed(StagesInUse(b), sets, ShaderStageCount);
    var pip := b.pipeline.value;
    var head := BufferBindCalls(cmd, b);
    var tail := SetAndDrawCalls(cmd, b, sets, primitiveCount);
    assert BindsOnly(head, bound) by {
      forall x | x in head ensures !x.BindDescriptorSets? {
      }
    }
    assert BindsOnly(tail, bound) by {
      var c4 := if |bound| > 0 then [BindDescriptorSets(cmd, pip.layout, 0, bound, Zeros(|bound|))] else [];
      var rest := [UpdateDescriptorSets(DescriptorWrites(b, sets))];
      var c5 := if b.isPipDirtied then [BindPipeline(cmd, pip.pipeline)] else [];
      var c6 := [DrawIndexed(cmd, IndexCount(pip.topology, primitiveCount))];
      assert tail == rest + c4 + c5 + c6;
      forall x | x in tail && x.BindDescriptorSets?
        ensures x.firstSet == 0 && x.sets == bound
      {
        assert x in c4;
      }
    }
    BindsOnlyAppend(head, tail, bound);
  }

  /**
   * The counts of a log made of an optional vertex-buffer bind, an optional
   * index-buffer bind, one descriptor update, an optional descriptor-set
   * bind, an optional pipeline bind and one indexed draw.
   */
  lemma SixPartCounts(c1: seq<VkCall>, c2: seq<VkCall>, c3: seq<VkCall>, c4: seq<VkCall>, c5: seq<VkCall>,
                      c6: seq<VkCall>)
    requires |c1| <= 1 && (c1 != [] ==> c1[0].BindVertexBuffers?)
    requires |c2| <= 1 && (c2 != [] ==> c2[0].BindIndexBuffer?)
    requires |c3| == 1 && c3[0].UpdateDescriptorSets?
    requires |c4| <= 1 && (c4 != [] ==> c4[0].BindDescriptorSets?)
    requires |c5| <= 1 && (c5 != [] ==> c5[0].BindPipeline?)
    requires |c6| == 1 && c6[0].DrawIndexed?
    ensures var calls := c1 + c2 + c3 + c4 + c5 + c6;
            && CountCalls(calls, IsBindVertexBuffers) == |c1|
            && CountCalls(calls, IsBindIndexBuffer) == |c2|
            && CountCalls(calls, IsBindPipeline) == |c5|
            && CountCalls(calls, IsBindDescriptorSets) == |c4|
            && CountCalls(calls, IsDrawIndexed) == 1
  {
    CountAtMostOne(c1); CountAtMostOne(c2); CountAtMostOne(c3);
    CountAtMostOne(c4); CountAtMostOne(c5); CountAtMostOne(c6);
    CountCallsOfSix(c1, c2, c3, c4, c5, c6, IsBindVertexBuffers);
    CountCallsOfSix(c1, c2, c3, c4, c5, c6, IsBindIndexBuffer);
    CountCallsOfSix(c1, c2, c3, c4, c5, c6, IsBindPipeline);
    CountCallsOfSix(c1, c2, c3, c4, c5, c6, IsBindDescriptorSets);
    CountCallsOfSix(c1, c2, c3, c4, c5, c6, IsDrawIndexed);
  }

  /** The counts of a log of at most one call. */
  lemma CountAtMostOne(c: seq<VkCall>)
    requires |c| <= 1
    ensures CountCalls(c, IsBindVertexBuffers) == (if c != [] && c[0].BindVertexBuffers? then 1 else 0)
    ensures CountCalls(c, IsBindIndexBuffer) == (if c != [] && c[0].BindIndexBuffer? then 1 else 0)
    ensures CountCalls(c, IsBindPipeline) == (if c != [] && c[0].BindPipeline? then 1 else 0)
    ensures CountCalls(c, IsBindDescriptorSets) == (if c != [] && c[0].BindDescriptorSets? then 1 else 0)
    ensures CountCalls(c, IsDrawIndexed) == (if c != [] && c[0].DrawIndexed? then 1 else 0)
  {
    if c != [] {
      assert c[1..] == [];
    }
  }

  /**
   * A draw of p primitives (p >= 0, 32-bit arithmetic not overflowing) ends
   * with one indexed draw of 3p indices for triangles, 2p for lines and 0
   * for any other topology; a dirty index buffer is bound with 32-bit
   * indices exactly when its stride is 4.
   */
  lemma DrawIndexCount(cmd: CommandBuffer, b: Bindings, sets: seq<DescriptorSet>, primitiveCount: int)
    requires Drawable(b) && |sets| == ShaderStageCount
    requires 0 <= primitiveCount && IsInt32(IndicesPerPrimitive(b.pipeline.value.topology) * primitiveCount)
    ensures var calls := DrawCalls(cmd, b, sets, primitiveCount);
            var expected := match b.pipeline.value.topology
                            case Triangle => 3 * primitiveCount
                            case Line => 2 * primitiveCount
                            case Point => 0;
            && |calls| > 0 && calls[|calls| - 1] == DrawIndexed(cmd, expected)
            && (b.isIBDirtied ==>
                  (calls[if b.isVBDirtied then 1 else 0]
                   == BindIndexBuffer(cmd, b.indexBuffer.value.buffer, b.indexBuffer.value.offset,
                                      if b.indexBuffer.value.stride == 4 then Uint32 else Uint16)))
  {
  }
}
