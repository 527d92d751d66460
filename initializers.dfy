// Creation-info builders of Headers/Initializers.h: small structs filled from
// their arguments, the descriptor-pool size list and the pool create-info sum.
module Initializers {
  import opened Common

  // ---------------------------------------------------------------- Instance

  datatype InstanceCreateInfo = InstanceCreateInfo(
    extensionNames: seq<string>,
    enabledExtensionCount: nat,
    layerNames: seq<string>,
    enabledLayerCount: nat)

  const ValidationLayerName: string := "VK_LAYER_LUNARG_standard_validation"

  /** Instance::CreateInfo. With the validation layer the layer name is appended to the
      caller's layer list; without it the uint32 extension count is decremented. */
  function InstanceCreateInfoOf(extensionNames: seq<string>, layerNames: seq<string>, validationLayer: bool): (r: InstanceCreateInfo)
    requires |extensionNames| < U32Modulus && |layerNames| + 1 < U32Modulus
    ensures r.extensionNames == extensionNames
    ensures validationLayer ==> r.enabledExtensionCount == |extensionNames|
    ensures validationLayer ==> r.layerNames == layerNames + [ValidationLayerName] && r.enabledLayerCount == |layerNames| + 1
    ensures !validationLayer ==> r.layerNames == layerNames && r.enabledLayerCount == 0
    ensures !validationLayer && |extensionNames| > 0 ==> r.enabledExtensionCount == |extensionNames| - 1
    ensures !validationLayer && |extensionNames| == 0 ==> r.enabledExtensionCount == U32Modulus - 1
  {
    if validationLayer then
      var layers := layerNames + [ValidationLayerName];
      InstanceCreateInfo(extensionNames, Wrap32(|extensionNames|), layers, Wrap32(|layers|))
    else
      InstanceCreateInfo(extensionNames, Wrap32(Wrap32(|extensionNames|) - 1), layerNames, 0)
  }

  /** The names Vulkan reads: the first enabledExtensionCount entries, when that many exist. */
  function EnabledExtensions(info: InstanceCreateInfo): Option<seq<string>>
  {
    if info.enabledExtensionCount <= |info.extensionNames| then Some(info.extensionNames[..info.enabledExtensionCount]) else None
  }

  /** Without the validation layer the last listed extension is never enabled, and an
      empty list asks Vulkan to read 0xFFFFFFFF names from an empty array. */
  lemma NoValidationDropsLastExtension(extensionNames: seq<string>, layerNames: seq<string>)
    requires |extensionNames| < U32Modulus && |layerNames| + 1 < U32Modulus
    ensures |extensionNames| > 0 ==>
      EnabledExtensions(InstanceCreateInfoOf(extensionNames, layerNames, false)) == Some(extensionNames[..|extensionNames| - 1])
    ensures |extensionNames| == 0 ==> EnabledExtensions(InstanceCreateInfoOf(extensionNames, layerNames, false)) == None
  {
  }

  // --------------------------------------------------------------- Swapchain

  datatype SharingMode = Exclusive | Concurrent
  datatype PresentMode = Immediate | Fifo

  datatype SurfaceFormat = SurfaceFormat(format: nat, colorSpace: nat)

  datatype SwapchainCreateInfo = SwapchainCreateInfo(
    surface: Handle,
    imageFormat: nat,
    imageColorSpace: nat,
    extentWidth: nat,
    extentHeight: nat,
    minImageCount: nat,
    imageArrayLayers: nat,
    imageUsage: bv32,
    imageSharingMode: SharingMode,
    preTransform: nat,
    compositeAlphaOpaque: bool,
    presentMode: PresentMode,
    clipped: bool)

  /** Swapchain::CreateInfo: double buffering decides both the image count and the present mode. */
  function SwapchainCreateInfoOf(surface: Handle, surfaceFormat: SurfaceFormat, width: nat, height: nat, usage: bv32,
                                 transform: nat, doubleBuffering: bool, singleSharing: bool): (r: SwapchainCreateInfo)
    ensures r.minImageCount == 2 <==> doubleBuffering
    ensures r.minImageCount == 1 <==> !doubleBuffering
    ensures r.presentMode == Fifo <==> doubleBuffering
    ensures r.imageSharingMode == Exclusive <==> singleSharing
    ensures r.imageFormat == surfaceFormat.format && r.imageColorSpace == surfaceFormat.colorSpace
    ensures r.imageUsage == usage && r.imageArrayLayers == 1 && r.clipped && r.compositeAlphaOpaque
  {
    SwapchainCreateInfo(surface, surfaceFormat.format, surfaceFormat.colorSpace, width, height,
      if doubleBuffering then 2 else 1, 1, usage,
      if singleSharing then Exclusive else Concurrent, transform, true,
      if doubleBuffering then Fifo else Immediate, true)
  }

  // ------------------------------------------------------------------- Image

  const AspectColor: nat := 1

  datatype SubresourceRange = SubresourceRange(
    aspectMask: nat,
    baseMipLevel: nat,
    levelCount: nat,
    baseArrayLayer: nat,
    layerCount: nat)

  /** The mip level / array layer pairs a range covers. */
  predicate Covers(range: SubresourceRange, level: nat, layer: nat)
  {
    range.baseMipLevel <= level < range.baseMipLevel + range.levelCount &&
    range.baseArrayLayer <= layer < range.baseArrayLayer + range.layerCount
  }

  /** Image::SubresourceRange, whose parameter order (aspect, levelCount, firstMip,
      layerCount, baseLayer) differs from the struct's field order. */
  function SubresourceRangeOf(aspect: nat, levelCount: nat, firstMipmapLevel: nat, layerCount: nat, baseArrayLayer: nat): (r: SubresourceRange)
    ensures forall level: nat, layer: nat :: Covers(r, level, layer) <==>
      firstMipmapLevel <= level < firstMipmapLevel + levelCount && baseArrayLayer <= layer < baseArrayLayer + layerCount
    ensures r.aspectMask == aspect
  {
    SubresourceRange(aspect, firstMipmapLevel, levelCount, baseArrayLayer, layerCount)
  }

  // -------------------------------------------------------------------- Pool

  const ResetCommandBufferBit: nat := 2

  datatype CommandPoolCreateInfo = CommandPoolCreateInfo(flags: nat, queueFamilyIndex: nat)

  /** Pool::CommandCreateInfo always asks for resettable command buffers. */
  function CommandCreateInfo(createFlags: nat, queueFamilyIndex: nat): (r: CommandPoolCreateInfo)
    ensures r.flags == ResetCommandBufferBit && r.queueFamilyIndex == queueFamilyIndex
  {
    CommandPoolCreateInfo(ResetCommandBufferBit, queueFamilyIndex)
  }

  /** The createFlags argument has no influence on the result. */
  lemma CommandCreateInfoIgnoresFlags(f1: nat, f2: nat, queueFamilyIndex: nat)
    ensures CommandCreateInfo(f1, queueFamilyIndex) == CommandCreateInfo(f2, queueFamilyIndex)
  {
  }

  datatype DescriptorType =
    | Sampler | CombinedImageSampler | SampledImage | StorageImage
    | UniformTexelBuffer | StorageTexelBuffer | UniformBuffer | StorageBuffer
    | UniformBufferDynamic | StorageBufferDynamic | InputAttachment

  datatype PoolSize = PoolSize(kind: DescriptorType, descriptorCount: nat)

  /** The descriptor type each argument of Pool::DescriptorSizes stands for, in argument order. */
  const SizeArgumentKinds: seq<DescriptorType> :=
    [Sampler, CombinedImageSampler, SampledImage, StorageImage, UniformBuffer, UniformBufferDynamic,
     UniformTexelBuffer, StorageBuffer, StorageBufferDynamic, StorageTexelBuffer, InputAttachment]

  /** The argument positions of Pool::DescriptorSizes, one by one. */
  lemma ArgumentKinds()
    ensures SizeArgumentKinds[0] == Sampler
    ensures SizeArgumentKinds[1] == CombinedImageSampler
    ensures SizeArgumentKinds[2] == SampledImage
    ensures SizeArgumentKinds[3] == StorageImage
    ensures SizeArgumentKinds[4] == UniformBuffer
    ensures SizeArgumentKinds[5] == UniformBufferDynamic
    ensures SizeArgumentKinds[6] == UniformTexelBuffer
    ensures SizeArgumentKinds[7] == StorageBuffer
    ensures SizeArgumentKinds[8] == StorageBufferDynamic
    ensures SizeArgumentKinds[9] == StorageTexelBuffer
    ensures SizeArgumentKinds[10] == InputAttachment
  {
  }

  /** Reference definition: the entries contributed by the first n arguments. */
  function PoolSizesOf(counts: seq<nat>, n: nat): (r: seq<PoolSize>)
    requires n <= |counts| <= |SizeArgumentKinds|
    decreases n
  {
    if n == 0 then []
    else PoolSizesOf(counts, n - 1) + (if counts[n - 1] > 0 then [PoolSize(SizeArgumentKinds[n - 1], counts[n - 1])] else [])
  }

  function NonZeroCount(counts: seq<nat>): nat
  {
    if |counts| == 0 then 0 else (if counts[0] > 0 then 1 else 0) + NonZeroCount(counts[1..])
  }

  function SumCounts(counts: seq<nat>): nat
  {
    if |counts| == 0 then 0 else counts[0] + SumCounts(counts[1..])
  }

  function SumDescriptorCounts(sizes: seq<PoolSize>): nat
  {
    if |sizes| == 0 then 0 else sizes[0].descriptorCount + SumDescriptorCounts(sizes[1..])
  }

  /** Pool::DescriptorSizes: one conditional push per argument, in argument order.
      The counts are the eleven uint32 arguments, in order. */
  method DescriptorSizes(counts: seq<nat>) returns (sizes: seq<PoolSize>, reserved: nat)
    requires |counts| == |SizeArgumentKinds|
    ensures sizes == PoolSizesOf(counts, |counts|)
    ensures reserved == NonZeroCount(counts)
  {
    reserved := NonZeroCount(counts);
    ArgumentKinds();
    sizes := [];
    sizes := PushIfPositive(counts, 0, sizes, Sampler);
    sizes := PushIfPositive(counts, 1, sizes, CombinedImageSampler);
    sizes := PushIfPositive(counts, 2, sizes, SampledImage);
    sizes := PushIfPositive(counts, 3, sizes, StorageImage);
    sizes := PushIfPositive(counts, 4, sizes, UniformBuffer);
    sizes := PushIfPositive(counts, 5, sizes, UniformBufferDynamic);
    sizes := PushIfPositive(counts, 6, sizes, UniformTexelBuffer);
    sizes := PushIfPositive(counts, 7, sizes, StorageBuffer);
    sizes := PushIfPositive(counts, 8, sizes, StorageBufferDynamic);
    sizes := PushIfPositive(counts, 9, sizes, StorageTexelBuffer);
    sizes := PushIfPositive(counts, 10, sizes, InputAttachment);
  }

  /** The repeated step of DescriptorSizes: push {kind, count} only when argument n, the
      count, is positive; kind is the type that argument stands for. */
  method PushIfPositive(counts: seq<nat>, n: nat, sizes: seq<PoolSize>, kind: DescriptorType) returns (r: seq<PoolSize>)
    requires n < |counts| <= |SizeArgumentKinds| && SizeArgumentKinds[n] == kind
    requires sizes == PoolSizesOf(counts, n)
    ensures r == PoolSizesOf(counts, n + 1)
  {
    r := sizes;
    if counts[n] > 0 {
      r := r + [PoolSize(kind, counts[n])];
    }
  }

  /** One entry per nonzero argument, so the reservation is exact. */
  lemma {:induction false} PoolSizesLength(counts: seq<nat>, n: nat)
    requires n <= |counts| <= |SizeArgumentKinds|
    ensures |PoolSizesOf(counts, n)| == NonZeroCount(counts[..n])
    decreases n
  {
    if n > 0 {
      PoolSizesLength(counts, n - 1);
      assert counts[..n] == counts[..n - 1] + [counts[n - 1]];
      NonZeroCountAppend(counts[..n - 1], counts[n - 1]);
    }
  }

  /** Zero counts are omitted: every entry carries a positive count. */
  lemma {:induction false} PoolSizesPositive(counts: seq<nat>, n: nat)
    requires n <= |counts| <= |SizeArgumentKinds|
    ensures forall e :: e in PoolSizesOf(counts, n) ==> e.descriptorCount > 0
    decreases n
  {
    if n > 0 {
      PoolSizesPositive(counts, n - 1);
    }
  }

  /** Argument i contributes an entry of its own type and count exactly when it is nonzero. */
  lemma {:induction false} PoolSizesMembership(counts: seq<nat>, n: nat, i: nat)
    requires i < n <= |counts| <= |SizeArgumentKinds|
    ensures counts[i] > 0 <==> PoolSize(SizeArgumentKinds[i], counts[i]) in PoolSizesOf(counts, n)
    decreases n
  {
    if i < n - 1 {
      PoolSizesMembership(counts, n - 1, i);
      KindsDistinct(i, n - 1);
    } else if counts[i] == 0 {
      PoolSizesKindsBefore(counts, n - 1, i);
    }
  }

  /** Entries built from the first n arguments only use the types of those arguments. */
  lemma {:induction false} PoolSizesKindsBefore(counts: seq<nat>, n: nat, j: nat)
    requires n <= j < |counts| <= |SizeArgumentKinds|
    ensures forall e :: e in PoolSizesOf(counts, n) ==> e.kind != SizeArgumentKinds[j]
    decreases n
  {
    if n > 0 {
      PoolSizesKindsBefore(counts, n - 1, j);
      KindsDistinct(n - 1, j);
    }
  }

  /** The entries' counts add up to the sum of all arguments. */
  lemma {:induction false} PoolSizesSum(counts: seq<nat>, n: nat)
    requires n <= |counts| <= |SizeArgumentKinds|
    ensures SumDescriptorCounts(PoolSizesOf(counts, n)) == SumCounts(counts[..n])
    decreases n
  {
    if n > 0 {
      PoolSizesSum(counts, n - 1);
      assert counts[..n] == counts[..n - 1] + [counts[n - 1]];
      SumCountsAppend(counts[..n - 1], counts[n - 1]);
      var prev := PoolSizesOf(counts, n - 1);
      var tail := if counts[n - 1] > 0 then [PoolSize(SizeArgumentKinds[n - 1], counts[n - 1])] else [];
      SumAppend(prev, tail);
    }
  }

  lemma KindsDistinct(i: nat, j: nat)
    requires i < j < |SizeArgumentKinds|
    ensures SizeArgumentKinds[i] != SizeArgumentKinds[j]
  {
  }

  lemma {:induction false} SumAppend(a: seq<PoolSize>, b: seq<PoolSize>)
    ensures SumDescriptorCounts(a + b) == SumDescriptorCounts(a) + SumDescriptorCounts(b)
  {
    if |a| > 0 {
      SumAppend(a[1..], b);
      assert (a + b)[1..] == a[1..] + b;
    } else {
      assert a + b == b;
    }
  }

  lemma {:induction false} NonZeroCountAppend(counts: seq<nat>, x: nat)
    ensures NonZeroCount(counts + [x]) == NonZeroCount(counts) + (if x > 0 then 1 else 0)
  {
    if |counts| > 0 {
      NonZeroCountAppend(counts[1..], x);
      assert (counts + [x])[1..] == counts[1..] + [x];
    }
  }

  lemma {:induction false} SumCountsAppend(counts: seq<nat>, x: nat)
    ensures SumCounts(counts + [x]) == SumCounts(counts) + x
  {
    if |counts| > 0 {
      SumCountsAppend(counts[1..], x);
      assert (counts + [x])[1..] == counts[1..] + [x];
    }
  }

  datatype DescriptorPoolCreateInfo = DescriptorPoolCreateInfo(maxSets: nat, poolSizeCount: nat, poolSizes: seq<PoolSize>)

  /** Pool::DescriptorCreateInfo: maxSets is the uint32 running sum of the entries' counts. */
  method DescriptorCreateInfo(sizes: seq<PoolSize>) returns (info: DescriptorPoolCreateInfo)
    requires |sizes| < U32Modulus
    ensures info.maxSets == Wrap32(SumDescriptorCounts(sizes))
    ensures info.poolSizeCount == |sizes| && info.poolSizes == sizes
  {
    var maxDescriptorsCount: nat := 0;
    var count := |sizes|;
    var i := 0;
    while i < count
      invariant 0 <= i <= count
      invariant maxDescriptorsCount == Wrap32(SumDescriptorCounts(sizes[..i]))
    {
      assert sizes[..i + 1] == sizes[..i] + [sizes[i]];
      SumAppend(sizes[..i], [sizes[i]]);
      Wrap32Sum(SumDescriptorCounts(sizes[..i]), sizes[i].descriptorCount);
      maxDescriptorsCount := Wrap32(maxDescriptorsCount + Wrap32(sizes[i].descriptorCount));
      i := i + 1;
    }
    assert sizes[..count] == sizes;
    info := DescriptorPoolCreateInfo(maxDescriptorsCount, count, sizes);
  }

  // ----------------------------------------------------------------- Command

  datatype CommandBufferAllocateInfo = CommandBufferAllocateInfo(commandPool: Handle, level: nat, commandBufferCount: nat)

  /** Command::BufferAllocateInfo: level 0 is primary, 1 secondary, anything else becomes primary. */
  function BufferAllocateInfo(commandPool: Handle, level: nat, count: nat): (r: CommandBufferAllocateInfo)
    ensures r.level <= 1
    ensures level <= 1 ==> r.level == level
    ensures level > 1 ==> r.level == 0
    ensures r.commandPool == commandPool && r.commandBufferCount == count
  {
    CommandBufferAllocateInfo(commandPool, if level > 1 then 0 else level, count)
  }

  /** Clamping is idempotent: rebuilding from the clamped level changes nothing. */
  lemma BufferAllocateInfoIdempotent(commandPool: Handle, level: nat, count: nat)
    ensures BufferAllocateInfo(commandPool, BufferAllocateInfo(commandPool, level, count).level, count)
         == BufferAllocateInfo(commandPool, level, count)
  {
  }

  // ------------------------------------------------------------------- Fence

  datatype FenceCreateInfo = FenceCreateInfo(signaled: bool)

  /** Fence::CreateInfo: every fence is created already signalled. */
  function FenceCreateInfoOf(): (r: FenceCreateInfo)
    ensures r.signaled
  {
    FenceCreateInfo(true)
  }
}
