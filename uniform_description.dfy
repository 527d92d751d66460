// Headers/UniformDescription.h: one descriptor-set layout built from a list of
// (descriptor type, shader stage) pairs, one descriptor set per frame in flight,
// and the writes that point each binding of each set at its resource.
module UniformDescriptions {
  import opened Common
  import opened Initializers

  /** SHADER_STAGE, whose values are the VkShaderStageFlagBits they stand for, and the
      Vertex | Fragment combination the scene casts into it. */
  datatype ShaderStage = VertexStage | FragmentStage | ComputeStage | VertexFragmentStage

  function StageFlags(stage: ShaderStage): (r: nat)
    ensures r in {1, 16, 32, 17}
  {
    match stage
    case VertexStage => 1
    case FragmentStage => 16
    case ComputeStage => 32
    case VertexFragmentStage => 17
  }

  /** One entry of the constructor's description list. */
  datatype Description = Description(kind: DescriptorType, stage: ShaderStage)

  datatype LayoutBinding = LayoutBinding(binding: nat, descriptorType: DescriptorType, stageFlags: nat, descriptorCount: nat)

  /** Which member of the DescriptionInfo union a write takes for a descriptor type. */
  datatype InfoSource = ImageInfo | BufferInfo | TexelBufferView

  /** The switch of the write loop: image-like types read the image info, the four plain
      buffer types the buffer info, and the two texel-buffer types the buffer view. */
  function SourceOf(kind: DescriptorType): (r: InfoSource)
    ensures r == ImageInfo <==> kind in {Sampler, CombinedImageSampler, SampledImage, StorageImage, InputAttachment}
    ensures r == BufferInfo <==> kind in {UniformBuffer, StorageBuffer, UniformBufferDynamic, StorageBufferDynamic}
    ensures r == TexelBufferView <==> kind in {UniformTexelBuffer, StorageTexelBuffer}
  {
    match kind
    case Sampler | CombinedImageSampler | SampledImage | StorageImage | InputAttachment => ImageInfo
    case UniformBuffer | StorageBuffer | UniformBufferDynamic | StorageBufferDynamic => BufferInfo
    case UniformTexelBuffer | StorageTexelBuffer => TexelBufferView
  }

  /** A VkWriteDescriptorSet; the three info members hold the address taken from the
      DescriptionInfo list (0 for nullptr). */
  datatype WriteDescriptor = WriteDescriptor(
    dstSet: Handle,
    dstBinding: nat,
    dstArrayElement: nat,
    descriptorCount: nat,
    descriptorType: DescriptorType,
    imageInfo: Handle,
    bufferInfo: Handle,
    texelBufferView: Handle)

  /** A value-initialised VkWriteDescriptorSet (type 0 is VK_DESCRIPTOR_TYPE_SAMPLER). */
  const EmptyWrite: WriteDescriptor := WriteDescriptor(NullHandle, 0, 0, 0, Sampler, NullHandle, NullHandle, NullHandle)

  /** The write template before the frame loop: one descriptor at array element 0. */
  const WriteTemplate: WriteDescriptor := EmptyWrite.(dstArrayElement := 0, descriptorCount := 1)

  /** The write reads `info` through the member its type calls for. */
  predicate Reads(write: WriteDescriptor, info: Handle)
  {
    match SourceOf(write.descriptorType)
    case ImageInfo => write.imageInfo == info
    case BufferInfo => write.bufferInfo == info
    case TexelBufferView => write.texelBufferView == info
  }

  /** The write updates one descriptor of binding `binding` of `dstSet`, of type `kind`,
      from `info`. */
  predicate Targets(write: WriteDescriptor, dstSet: Handle, binding: nat, kind: DescriptorType, info: Handle)
  {
    write.dstSet == dstSet && write.dstBinding == binding && write.descriptorType == kind &&
    write.dstArrayElement == 0 && write.descriptorCount == 1 && Reads(write, info)
  }

  // ----------------------------------------------------------------- layout

  /** The binding loop: binding i has number i, the i-th type and stage, and one descriptor. */
  method LayoutBindings(descriptions: seq<Description>) returns (bindings: seq<LayoutBinding>)
    ensures |bindings| == |descriptions|
    ensures forall i :: 0 <= i < |descriptions| ==>
              bindings[i] == LayoutBinding(i, descriptions[i].kind, StageFlags(descriptions[i].stage), 1)
  {
    bindings := seq(|descriptions|, _ => LayoutBinding(0, Sampler, 0, 0));
    var descIndex := 0;
    while descIndex < |descriptions|
      invariant 0 <= descIndex <= |descriptions| && |bindings| == |descriptions|
      invariant forall i :: 0 <= i < descIndex ==>
                  bindings[i] == LayoutBinding(i, descriptions[i].kind, StageFlags(descriptions[i].stage), 1)
    {
      var description := descriptions[descIndex];
      bindings := bindings[descIndex := LayoutBinding(descIndex, description.kind, StageFlags(description.stage), 1)];
      descIndex := descIndex + 1;
    }
  }

  // ----------------------------------------------------------- info indices

  /** Which entry of the info list frame `frame` uses for binding `binding`: offscreen
      descriptions give each frame its own block of |infos| / pendingFrames entries; the
      others share the first block. It is always inside the list. */
  function InfoIndex(frame: nat, binding: nat, infoCount: nat, pendingFrames: nat, isOffscreen: bool): (r: nat)
    requires 1 <= pendingFrames && frame < pendingFrames && binding < infoCount / pendingFrames
    ensures r < infoCount
  {
    var blockSize := infoCount / pendingFrames;
    BlockInside(frame, binding, blockSize, pendingFrames, infoCount);
    binding + if isOffscreen then frame * blockSize else 0
  }

  lemma BlockInside(frame: nat, binding: nat, blockSize: nat, pendingFrames: nat, infoCount: nat)
    requires 1 <= pendingFrames && frame < pendingFrames && binding < blockSize && blockSize == infoCount / pendingFrames
    ensures frame * blockSize + binding < infoCount
  {
    MulMonotone(frame + 1, pendingFrames, blockSize);
    assert frame * blockSize + binding < (frame + 1) * blockSize;
    assert pendingFrames * blockSize <= infoCount;
  }

  /** Offscreen, no two (frame, binding) pairs share an info entry. */
  lemma OffscreenInfosDisjoint(f1: nat, d1: nat, f2: nat, d2: nat, infoCount: nat, pendingFrames: nat)
    requires 1 <= pendingFrames && f1 < pendingFrames && f2 < pendingFrames
    requires d1 < infoCount / pendingFrames && d2 < infoCount / pendingFrames
    requires InfoIndex(f1, d1, infoCount, pendingFrames, true) == InfoIndex(f2, d2, infoCount, pendingFrames, true)
    ensures f1 == f2 && d1 == d2
  {
    var c := infoCount / pendingFrames;
    if f1 < f2 {
      MulMonotone(f1 + 1, f2, c);
      assert false;
    } else if f2 < f1 {
      MulMonotone(f2 + 1, f1, c);
      assert false;
    }
  }

  /** Not offscreen, every frame reads the same entries. */
  lemma OnscreenInfosShared(f1: nat, f2: nat, d: nat, infoCount: nat, pendingFrames: nat)
    requires 1 <= pendingFrames && f1 < pendingFrames && f2 < pendingFrames && d < infoCount / pendingFrames
    ensures InfoIndex(f1, d, infoCount, pendingFrames, false) == InfoIndex(f2, d, infoCount, pendingFrames, false) == d
  {
  }

  // ----------------------------------------------------------------- writes

  /** One frame's write array is right: as long as the info block, and binding d of the
      frame's set is written from the d-th entry of the frame's info block. */
  predicate FrameWritten(writes: seq<WriteDescriptor>, descriptions: seq<Description>, infos: seq<Handle>,
                         frame: nat, pendingFrames: nat, isOffscreen: bool, dstSet: Handle)
    requires 1 <= pendingFrames && frame < pendingFrames && |descriptions| <= |infos| / pendingFrames
  {
    |writes| == |infos| / pendingFrames &&
    forall d :: 0 <= d < |descriptions| ==>
      Targets(writes[d], dstSet, d, descriptions[d].kind, infos[InfoIndex(frame, d, |infos|, pendingFrames, isOffscreen)])
  }

  /** The binding loop of one frame: `write` is the reused VkWriteDescriptorSet, already
      aimed at the frame's set; for each binding it gets the binding number, the type and
      the info member its type calls for, and is copied into slot d of a write array sized
      to the info block. The members a binding does not set keep what an earlier binding
      left in them, which Vulkan ignores for that type. */
  method FrameWrites(descriptions: seq<Description>, infos: seq<Handle>, frame: nat, pendingFrames: nat,
                     isOffscreen: bool, write: WriteDescriptor)
    returns (writes: seq<WriteDescriptor>, last: WriteDescriptor)
    requires 1 <= pendingFrames && frame < pendingFrames && |descriptions| <= |infos| / pendingFrames
    requires write.dstArrayElement == 0 && write.descriptorCount == 1
    ensures FrameWritten(writes, descriptions, infos, frame, pendingFrames, isOffscreen, write.dstSet)
    ensures forall d :: |descriptions| <= d < |writes| ==> writes[d] == EmptyWrite
    ensures last.dstSet == write.dstSet && last.dstArrayElement == 0 && last.descriptorCount == 1
  {
    var descInfoCount := |infos| / pendingFrames;
    writes := seq(descInfoCount, _ => EmptyWrite);
    last := write;
    var infoIndex := if isOffscreen then frame * descInfoCount else 0;
    var descIndex := 0;
    while descIndex < |descriptions|
      invariant 0 <= descIndex <= |descriptions| && |writes| == descInfoCount
      invariant last.dstSet == write.dstSet && last.dstArrayElement == 0 && last.descriptorCount == 1
      invariant forall d :: 0 <= d < descIndex ==>
                  Targets(writes[d], write.dstSet, d, descriptions[d].kind,
                          infos[InfoIndex(frame, d, |infos|, pendingFrames, isOffscreen)])
      invariant forall d :: descIndex <= d < descInfoCount ==> writes[d] == EmptyWrite
    {
      var kind := descriptions[descIndex].kind;
      var info := infos[InfoIndex(frame, descIndex, |infos|, pendingFrames, isOffscreen)];
      last := last.(dstBinding := descIndex, descriptorType := kind);
      match kind {
        case Sampler | CombinedImageSampler | SampledImage | StorageImage | InputAttachment =>
          last := last.(imageInfo := info);
        case UniformBuffer | StorageBuffer | UniformBufferDynamic | StorageBufferDynamic =>
          last := last.(bufferInfo := info);
        case UniformTexelBuffer | StorageTexelBuffer =>
          last := last.(texelBufferView := info);
      }
      writes := writes[descIndex := last];
      descIndex := descIndex + 1;
    }
  }

  /** The frame loop: frame f aims the reused write at its own set and hands the first
      |descriptions| entries of its write array to vkUpdateDescriptorSets. */
  method DescriptorWrites(descriptions: seq<Description>, infos: seq<Handle>, sets: seq<Handle>,
                          pendingFrames: nat, isOffscreen: bool)
    returns (updates: seq<seq<WriteDescriptor>>)
    requires 1 <= pendingFrames && |sets| == pendingFrames && |descriptions| <= |infos| / pendingFrames
    ensures |updates| == pendingFrames
    ensures forall f :: 0 <= f < pendingFrames ==>
              |updates[f]| == |descriptions| &&
              forall d :: 0 <= d < |descriptions| ==>
                Targets(updates[f][d], sets[f], d, descriptions[d].kind,
                        infos[InfoIndex(f, d, |infos|, pendingFrames, isOffscreen)])
  {
    var write := WriteTemplate;
    updates := [];
    var frameIndex := 0;
    while frameIndex < pendingFrames
      invariant 0 <= frameIndex <= pendingFrames && |updates| == frameIndex
      invariant write.dstArrayElement == 0 && write.descriptorCount == 1
      invariant forall f :: 0 <= f < frameIndex ==>
                  |updates[f]| == |descriptions| &&
                  forall d :: 0 <= d < |descriptions| ==>
                    Targets(updates[f][d], sets[f], d, descriptions[d].kind,
                            infos[InfoIndex(f, d, |infos|, pendingFrames, isOffscreen)])
    {
      write := write.(dstSet := sets[frameIndex]);
      var writes;
      writes, write := FrameWrites(descriptions, infos, frameIndex, pendingFrames, isOffscreen, write);
      updates := updates + [writes[..|descriptions|]];
      frameIndex := frameIndex + 1;
    }
  }

  // ---------------------------------------------------------------- the class

  class UniformDescription {
    var descriptors: seq<Handle>
    var descriptorLayouts: seq<Handle>
    /** The bindings handed to vkCreateDescriptorSetLayout. */
    var layoutBindings: seq<LayoutBinding>
    /** The write arrays handed to vkUpdateDescriptorSets, one per frame. */
    var updates: seq<seq<WriteDescriptor>>

    /** UniformDescription(device, descriptions, descriptionsInfo, pendingFrames,
        isOffscreen): one layout from the bindings, repeated for every frame; one set per
        frame; and each set's bindings written from the info list. The division by
        pendingFrames needs it nonzero, and the write array, sized to the info block, is
        indexed by binding number, so the descriptions must fit in one block. The layout
        and the sets the driver returns are parameters. */
    constructor (descriptions: seq<Description>, descriptionsInfo: seq<Handle>, pendingFrames: nat, isOffscreen: bool,
                 createdLayout: Handle, allocatedSets: seq<Handle>)
      requires 1 <= pendingFrames && |descriptions| <= |descriptionsInfo| / pendingFrames
      requires |allocatedSets| == pendingFrames
      ensures |layoutBindings| == |descriptions|
      ensures forall i :: 0 <= i < |descriptions| ==>
                layoutBindings[i] == LayoutBinding(i, descriptions[i].kind, StageFlags(descriptions[i].stage), 1)
      ensures descriptorLayouts == seq(pendingFrames, _ => createdLayout)
      ensures descriptors == allocatedSets
      ensures |updates| == pendingFrames
      ensures forall f :: 0 <= f < pendingFrames ==>
                |updates[f]| == |descriptions| &&
                forall d :: 0 <= d < |descriptions| ==>
                  Targets(updates[f][d], descriptors[f], d, descriptions[d].kind,
                          descriptionsInfo[InfoIndex(f, d, |descriptionsInfo|, pendingFrames, isOffscreen)])
    {
      var bindings := LayoutBindings(descriptions);
      layoutBindings := bindings;
      descriptorLayouts := seq(pendingFrames, _ => createdLayout);
      descriptors := allocatedSets;
      var writes := DescriptorWrites(descriptions, descriptionsInfo, allocatedSets, pendingFrames, isOffscreen);
      updates := writes;
    }
  }
}
