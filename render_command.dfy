// Sources/RenderCommand.cpp: one command buffer with its pool and queue. The
// recorded Vulkan calls are kept as a trace of events; the image layouts those
// events imply are checked by a small simulation over every (mip level, array
// layer) of the uploaded image.
module RenderCommands {
  import opened Common
  import opened Initializers
  import opened Textures

  // ------------------------------------------------------------------- queues

  /** COMMAND_TYPE: the queue capability a render command asks for. */
  datatype CommandType = GraphicsOp | ComputeOp | TransferOp | SparseMemoryOp | ProtectedMemory

  /** The VkQueueFlagBits value of each COMMAND_TYPE enumerator. */
  function TypeBit(t: CommandType): (r: bv32)
    ensures r != 0 && r & (r - 1) == 0
  {
    match t
    case GraphicsOp => 1
    case ComputeOp => 2
    case TransferOp => 4
    case SparseMemoryOp => 8
    case ProtectedMemory => 16
  }

  datatype QueueFamilyProperties = QueueFamilyProperties(queueFlags: bv32, queueCount: nat)

  /** struct Queue: the default constructor leaves the type unset, hence the Option. */
  datatype Queue = Queue(familyIndex: nat, apiQueue: Handle, kind: Option<CommandType>)

  const DefaultQueue: Queue := Queue(0, NullHandle, None)

  /** A family AllocateQueue accepts: it has a queue and shares a bit with the requested type. */
  predicate FamilySuitable(family: QueueFamilyProperties, bit: bv32)
  {
    family.queueCount > 0 && family.queueFlags & bit != 0
  }

  /** Reference definition of the queue-family search: the first suitable family. */
  function FirstQueueFamily(families: seq<QueueFamilyProperties>, bit: bv32): (r: Option<nat>)
    ensures r.Some? ==> r.value < |families| && FamilySuitable(families[r.value], bit)
    ensures r.Some? ==> forall j :: 0 <= j < r.value ==> !FamilySuitable(families[j], bit)
    ensures r.None? <==> forall j :: 0 <= j < |families| ==> !FamilySuitable(families[j], bit)
  {
    if |families| == 0 then None
    else if FamilySuitable(families[0], bit) then Some(0)
    else match FirstQueueFamily(families[1..], bit) {
      case None => None
      case Some(k) => Some(k + 1)
    }
  }

  /** The first suitable family is determined by the two facts that characterise it. */
  lemma FirstQueueFamilyUnique(families: seq<QueueFamilyProperties>, bit: bv32, i: nat)
    requires i < |families| && FamilySuitable(families[i], bit)
    requires forall j :: 0 <= j < i ==> !FamilySuitable(families[j], bit)
    ensures FirstQueueFamily(families, bit) == Some(i)
  {
    var r := FirstQueueFamily(families, bit);
    assert r.Some?;
    assert !(r.value < i);
    assert !(i < r.value);
  }

  // ------------------------------------------------------- recorded commands

  datatype ImageLayout = Undefined | TransferDst | TransferSrc | ShaderReadOnly

  /** The extent written into a copy or blit region (width, height; depth is always 1). */
  datatype Extent = Extent(width: int, height: int)

  /** The calls a render command issues on its command buffer and queue. Begin always
      asks for ONE_TIME_SUBMIT and Reset always releases resources, so neither flag is kept. */
  datatype CommandEvent =
    | BeginBuffer(buffer: Handle)
    | Barrier(image: Handle, range: SubresourceRange, oldLayout: ImageLayout, newLayout: ImageLayout)
    | CopyBufferToImage(source: Handle, image: Handle, layout: ImageLayout, layerCount: nat, extent: Extent)
    | Blit(image: Handle, srcLevel: nat, srcExtent: Extent, dstLevel: nat, dstExtent: Extent)
    | EndBuffer(buffer: Handle)
    | Submit(queue: Handle, buffer: Handle, fence: Handle)
    | WaitIdle(queue: Handle)
    | ResetBuffer(buffer: Handle)

  /** The device calls Shutdown makes to release what the command owns. */
  datatype Release = FreeCommandBuffer(pool: Handle, buffer: Handle) | DestroyCommandPool(pool: Handle)

  /** static_cast<int32_t> of a uint32_t value (two's complement). */
  function Int32Of(x: nat): (r: int)
    requires x < U32Modulus
    ensures -0x8000_0000 <= r < 0x8000_0000
    ensures x < 0x8000_0000 ==> r == x
  {
    if x < 0x8000_0000 then x else x - U32Modulus
  }

  /** x >> k on an unsigned value: k halvings, each rounding down. */
  function Shr(x: nat, k: nat): (r: nat)
    ensures r <= x
  {
    if k == 0 then x else Shr(x, k - 1) / 2
  }

  /** One side of mip level `level`: (uint32_t)size >> level, then cast to int32_t. */
  function MipExtent(size: nat, level: nat): int
  {
    Int32Of(Shr(Wrap32(size), level))
  }

  /** The subresource range one mip step works on: the single level `level`. */
  function LevelRange(range: SubresourceRange, level: nat): SubresourceRange
  {
    range.(baseMipLevel := level, levelCount := 1)
  }

  /** Step L of the mip loop: level L-1 becomes a blit source, is blitted into level L,
      and is handed to the fragment shader. */
  function MipStep(image: Handle, range: SubresourceRange, width: nat, height: nat, level: nat): seq<CommandEvent>
    requires level >= 1
  {
    [Barrier(image, LevelRange(range, level - 1), TransferDst, TransferSrc),
     Blit(image, level - 1, Extent(MipExtent(width, level - 1), MipExtent(height, level - 1)),
          level, Extent(MipExtent(width, level), MipExtent(height, level))),
     Barrier(image, LevelRange(range, level - 1), TransferSrc, ShaderReadOnly)]
  }

  /** Steps 1 .. levels-1 of the mip loop, in order. */
  function MipChain(image: Handle, range: SubresourceRange, width: nat, height: nat, levels: nat): seq<CommandEvent>
  {
    if levels <= 1 then []
    else MipChain(image, range, width, height, levels - 1) + MipStep(image, range, width, height, levels - 1)
  }

  /** Everything SingleSubmit records and submits, in order. */
  function SingleSubmitCommands(commandBuffer: Handle, queue: Handle, image: Handle, source: Handle,
                                width: nat, height: nat, mipmapLevels: nat,
                                range: SubresourceRange, generateMipmaps: bool): seq<CommandEvent>
  {
    [BeginBuffer(commandBuffer),
     Barrier(image, range, Undefined, TransferDst),
     CopyBufferToImage(source, image, TransferDst, range.layerCount, Extent(Wrap32(width), Wrap32(height)))]
    + (if generateMipmaps then
         MipChain(image, range, width, height, mipmapLevels)
         + [Barrier(image, LevelRange(range, Wrap32(mipmapLevels - 1)), TransferDst, ShaderReadOnly)]
       else
         [Barrier(image, range, TransferDst, ShaderReadOnly)])
    + [EndBuffer(commandBuffer), Submit(queue, commandBuffer, NullHandle), WaitIdle(queue), ResetBuffer(commandBuffer)]
  }

  /** The releases Shutdown performs for a given pool and buffer. */
  function ShutdownReleases(pool: Handle, buffer: Handle): (r: seq<Release>)
    ensures r == [] <==> pool == NullHandle && buffer == NullHandle
    ensures FreeCommandBuffer(pool, buffer) in r <==> buffer != NullHandle
    ensures DestroyCommandPool(pool) in r <==> pool != NullHandle
    ensures forall i, j :: 0 <= i < |r| && 0 <= j < |r| && r[i].DestroyCommandPool? && r[j].FreeCommandBuffer? ==> j < i
  {
    (if buffer != NullHandle then [FreeCommandBuffer(pool, buffer)] else [])
    + (if pool != NullHandle then [DestroyCommandPool(pool)] else [])
  }

  // ------------------------------------------------------ layout simulation

  /** The layout of every subresource of one image, indexed [mip level][array layer]. */
  type Layouts = seq<seq<ImageLayout>>

  predicate Shaped(ls: Layouts, levels: nat, layers: nat)
  {
    |ls| == levels && forall lv :: 0 <= lv < |ls| ==> |ls[lv]| == layers
  }

  function Row(layers: nat, layout: ImageLayout): (r: seq<ImageLayout>)
    ensures |r| == layers && forall ly :: 0 <= ly < layers ==> r[ly] == layout
  {
    seq(layers, _ => layout)
  }

  function AllOf(levels: nat, layers: nat, layout: ImageLayout): (r: Layouts)
    ensures Shaped(r, levels, layers) && forall lv :: 0 <= lv < levels ==> r[lv] == Row(layers, layout)
  {
    seq(levels, _ => Row(layers, layout))
  }

  function Progress(level: int, done: nat): ImageLayout
  {
    if level < done then ShaderReadOnly else TransferDst
  }

  /** Levels below `done` are ready for the shader; the rest still hold transfer data. */
  function Uniform(levels: nat, layers: nat, done: nat): (r: Layouts)
    ensures Shaped(r, levels, layers)
    ensures forall lv :: 0 <= lv < levels ==> r[lv] == Row(layers, Progress(lv, done))
  {
    seq(levels, lv => Row(layers, Progress(lv, done)))
  }

  /** A range names only subresources that exist, and at least one of each. */
  predicate RangeInImage(ls: Layouts, range: SubresourceRange)
  {
    range.levelCount >= 1 && range.layerCount >= 1 &&
    range.baseMipLevel + range.levelCount <= |ls| &&
    forall lv :: 0 <= lv < |ls| ==> range.baseArrayLayer + range.layerCount <= |ls[lv]|
  }

  /** The layouts of one level after a transition over `range` to `to`. */
  function Retarget(row: seq<ImageLayout>, range: SubresourceRange, level: nat, to: ImageLayout): (r: seq<ImageLayout>)
    ensures |r| == |row|
  {
    seq(|row|, ly requires 0 <= ly < |row| => if Covers(range, level, ly) then to else row[ly])
  }

  /** A layout transition. UNDEFINED as the old layout accepts any current layout (the
      contents are discarded); any other old layout must be the current one everywhere. */
  function ApplyBarrier(ls: Layouts, range: SubresourceRange, from: ImageLayout, to: ImageLayout): Option<Layouts>
  {
    if RangeInImage(ls, range) &&
       (from == Undefined ||
        forall lv, ly :: 0 <= lv < |ls| && 0 <= ly < |ls[lv]| && Covers(range, lv, ly) ==> ls[lv][ly] == from)
    then Some(seq(|ls|, lv requires 0 <= lv < |ls| => Retarget(ls[lv], range, lv, to)))
    else None
  }

  /** The effect of one recorded event on the image, or None if Vulkan's layout rules reject it.
      A copy needs its layers of level 0 in TRANSFER_DST; a blit reads layer 0 of its source
      level in TRANSFER_SRC and writes layer 0 of its destination level in TRANSFER_DST. */
  function Step(ls: Layouts, event: CommandEvent): Option<Layouts>
  {
    match event
    case Barrier(_, range, from, to) => ApplyBarrier(ls, range, from, to)
    case CopyBufferToImage(_, _, layout, layerCount, _) =>
      if layout == TransferDst && |ls| >= 1 && layerCount <= |ls[0]| &&
         forall ly :: 0 <= ly < layerCount ==> ls[0][ly] == TransferDst
      then Some(ls) else None
    case Blit(_, srcLevel, _, dstLevel, _) =>
      if srcLevel < |ls| && dstLevel < |ls| && |ls[srcLevel]| >= 1 && |ls[dstLevel]| >= 1 &&
         ls[srcLevel][0] == TransferSrc && ls[dstLevel][0] == TransferDst
      then Some(ls) else None
    case _ => Some(ls)
  }

  /** Replays a trace on one image (every event of SingleSubmit names the same image). */
  function Simulate(ls: Layouts, events: seq<CommandEvent>): Option<Layouts>
    decreases |events|
  {
    if |events| == 0 then Some(ls)
    else match Step(ls, events[0]) {
      case None => None
      case Some(next) => Simulate(next, events[1..])
    }
  }

  lemma {:induction false} SimulateAppend(ls: Layouts, a: seq<CommandEvent>, b: seq<CommandEvent>)
    ensures Simulate(ls, a + b) == match Simulate(ls, a) { case None => None case Some(m) => Simulate(m, b) }
    decreases |a|
  {
    if |a| == 0 {
      assert a + b == b;
    } else {
      assert (a + b)[0] == a[0];
      assert (a + b)[1..] == a[1..] + b;
      match Step(ls, a[0]) {
        case None =>
        case Some(next) => SimulateAppend(next, a[1..], b);
      }
    }
  }

  /** A barrier over whole levels [base, base+count) and every layer, on an image whose
      affected levels are all in `from`, replaces exactly those levels by rows of `to`. */
  lemma BarrierOnLevels(ls: Layouts, levels: nat, layers: nat, range: SubresourceRange, from: ImageLayout, to: ImageLayout)
    requires Shaped(ls, levels, layers) && layers >= 1
    requires range.baseArrayLayer == 0 && range.layerCount == layers
    requires range.levelCount >= 1 && range.baseMipLevel + range.levelCount <= levels
    requires from == Undefined ||
             forall lv :: range.baseMipLevel <= lv < range.baseMipLevel + range.levelCount ==> ls[lv] == Row(layers, from)
    ensures ApplyBarrier(ls, range, from, to).Some?
    ensures var r := ApplyBarrier(ls, range, from, to).value;
            |r| == levels &&
            forall lv :: 0 <= lv < levels ==>
              r[lv] == if range.baseMipLevel <= lv < range.baseMipLevel + range.levelCount then Row(layers, to) else ls[lv]
  {
    assert RangeInImage(ls, range);
    if from != Undefined {
      forall lv, ly | 0 <= lv < |ls| && 0 <= ly < |ls[lv]| && Covers(range, lv, ly)
        ensures ls[lv][ly] == from
      {
        assert ls[lv] == Row(layers, from);
      }
    }
    var got := seq(|ls|, lv requires 0 <= lv < |ls| => Retarget(ls[lv], range, lv, to));
    forall lv | 0 <= lv < levels
      ensures got[lv] == if range.baseMipLevel <= lv < range.baseMipLevel + range.levelCount then Row(layers, to) else ls[lv]
    {
      RetargetWholeLevel(ls[lv], range, lv, to, layers);
    }
  }

  /** A range over every layer replaces a covered level by a row of `to` and leaves any other level. */
  lemma RetargetWholeLevel(row: seq<ImageLayout>, range: SubresourceRange, level: nat, to: ImageLayout, layers: nat)
    requires |row| == layers && range.baseArrayLayer == 0 && range.layerCount == layers
    ensures range.baseMipLevel <= level < range.baseMipLevel + range.levelCount ==> Retarget(row, range, level, to) == Row(layers, to)
    ensures !(range.baseMipLevel <= level < range.baseMipLevel + range.levelCount) ==> Retarget(row, range, level, to) == row
  {
    var r := Retarget(row, range, level, to);
    if range.baseMipLevel <= level < range.baseMipLevel + range.levelCount {
      forall ly | 0 <= ly < layers
        ensures r[ly] == Row(layers, to)[ly]
      {
        assert Covers(range, level, ly);
      }
    } else {
      forall ly | 0 <= ly < layers
        ensures r[ly] == row[ly]
      {
        assert !Covers(range, level, ly);
      }
    }
  }

  /** The first three events (begin, acquire barrier, copy) leave every level in TRANSFER_DST. */
  lemma UploadPrefix(commandBuffer: Handle, image: Handle, source: Handle, width: nat, height: nat, levels: nat, layers: nat)
    requires levels >= 1 && layers >= 1
    ensures var range := SubresourceRangeOf(AspectColor, levels, 0, layers, 0);
            Simulate(AllOf(levels, layers, Undefined),
                     [BeginBuffer(commandBuffer),
                      Barrier(image, range, Undefined, TransferDst),
                      CopyBufferToImage(source, image, TransferDst, range.layerCount, Extent(Wrap32(width), Wrap32(height)))])
            == Some(Uniform(levels, layers, 0))
  {
    var range := SubresourceRangeOf(AspectColor, levels, 0, layers, 0);
    var start := AllOf(levels, layers, Undefined);
    var copy := CopyBufferToImage(source, image, TransferDst, range.layerCount, Extent(Wrap32(width), Wrap32(height)));
    var events := [BeginBuffer(commandBuffer), Barrier(image, range, Undefined, TransferDst), copy];
    assert Shaped(start, levels, layers);
    BarrierOnLevels(start, levels, layers, range, Undefined, TransferDst);
    var afterAcquire := Uniform(levels, layers, 0);
    var r := ApplyBarrier(start, range, Undefined, TransferDst).value;
    assert r == afterAcquire;
    assert Step(afterAcquire, copy) == Some(afterAcquire);
    assert events[1..][1..][1..] == [];
    calc {
      Simulate(start, events);
      Simulate(start, events[1..]);
      Simulate(afterAcquire, events[1..][1..]);
      Simulate(afterAcquire, events[1..][1..][1..]);
    }
  }

  /** Mip step L takes the image from "levels below L-1 done" to "levels below L done". */
  lemma MipStepSimulates(image: Handle, width: nat, height: nat, levels: nat, layers: nat, level: nat)
    requires layers >= 1 && 1 <= level < levels
    ensures var range := SubresourceRangeOf(AspectColor, levels, 0, layers, 0);
            Simulate(Uniform(levels, layers, level - 1), MipStep(image, range, width, height, level))
            == Some(Uniform(levels, layers, level))
  {
    var range := SubresourceRangeOf(AspectColor, levels, 0, layers, 0);
    var one := LevelRange(range, level - 1);
    var events := MipStep(image, range, width, height, level);
    var before := Uniform(levels, layers, level - 1);
    var after := Uniform(levels, layers, level);
    var middle := before[level - 1 := Row(layers, TransferSrc)];
    assert Shaped(middle, levels, layers);
    BarrierOnLevels(before, levels, layers, one, TransferDst, TransferSrc);
    var r1 := ApplyBarrier(before, one, TransferDst, TransferSrc).value;
    assert r1 == middle;
    assert Step(middle, events[1]) == Some(middle);
    BarrierOnLevels(middle, levels, layers, one, TransferSrc, ShaderReadOnly);
    var r2 := ApplyBarrier(middle, one, TransferSrc, ShaderReadOnly).value;
    assert r2 == after;
    assert events[1..][1..][1..] == [];
    calc {
      Simulate(before, events);
      Simulate(middle, events[1..]);
      Simulate(middle, events[1..][1..]);
      Simulate(after, events[1..][1..][1..]);
    }
  }

  /** The first n-1 mip steps finish exactly the levels below n-1. */
  lemma {:induction false} MipChainSimulates(image: Handle, width: nat, height: nat, levels: nat, layers: nat, n: nat)
    requires layers >= 1 && 1 <= n <= levels
    ensures var range := SubresourceRangeOf(AspectColor, levels, 0, layers, 0);
            Simulate(Uniform(levels, layers, 0), MipChain(image, range, width, height, n))
            == Some(Uniform(levels, layers, n - 1))
  {
    var range := SubresourceRangeOf(AspectColor, levels, 0, layers, 0);
    if n > 1 {
      var chain := MipChain(image, range, width, height, n - 1);
      var step := MipStep(image, range, width, height, n - 1);
      assert MipChain(image, range, width, height, n) == chain + step;
      MipChainSimulates(image, width, height, levels, layers, n - 1);
      SimulateAppend(Uniform(levels, layers, 0), chain, step);
      MipStepSimulates(image, width, height, levels, layers, n - 1);
    }
  }

  /** End, submit, wait and reset do not touch the image. */
  lemma SuffixKeepsLayouts(ls: Layouts, commandBuffer: Handle, queue: Handle)
    ensures Simulate(ls, [EndBuffer(commandBuffer), Submit(queue, commandBuffer, NullHandle), WaitIdle(queue), ResetBuffer(commandBuffer)]) == Some(ls)
  {
    var events := [EndBuffer(commandBuffer), Submit(queue, commandBuffer, NullHandle), WaitIdle(queue), ResetBuffer(commandBuffer)];
    assert events[1..][1..][1..][1..] == [];
    calc {
      Simulate(ls, events);
      Simulate(ls, events[1..]);
      Simulate(ls, events[1..][1..]);
      Simulate(ls, events[1..][1..][1..]);
      Simulate(ls, events[1..][1..][1..][1..]);
    }
  }

  /** The upload of a whole image (every level, every layer) is accepted by Vulkan's layout
      rules at every step and leaves every subresource in SHADER_READ_ONLY, with and without
      mipmap generation. With mipmaps the loop bound is the image's own level count. */
  lemma {:induction false} UploadLeavesShaderReadOnly(commandBuffer: Handle, queue: Handle, image: Handle, source: Handle,
                                                      width: nat, height: nat, mipmapLevels: nat,
                                                      levels: nat, layers: nat, generateMipmaps: bool)
    requires levels >= 1 && layers >= 1
    requires generateMipmaps ==> mipmapLevels == levels && levels <= U32Modulus
    ensures Simulate(AllOf(levels, layers, Undefined),
                     SingleSubmitCommands(commandBuffer, queue, image, source, width, height, mipmapLevels,
                                          SubresourceRangeOf(AspectColor, levels, 0, layers, 0), generateMipmaps))
            == Some(AllOf(levels, layers, ShaderReadOnly))
  {
    var range := SubresourceRangeOf(AspectColor, levels, 0, layers, 0);
    var prefix := [BeginBuffer(commandBuffer),
                   Barrier(image, range, Undefined, TransferDst),
                   CopyBufferToImage(source, image, TransferDst, range.layerCount, Extent(Wrap32(width), Wrap32(height)))];
    var finish := if generateMipmaps then
                    MipChain(image, range, width, height, mipmapLevels)
                    + [Barrier(image, LevelRange(range, Wrap32(mipmapLevels - 1)), TransferDst, ShaderReadOnly)]
                  else [Barrier(image, range, TransferDst, ShaderReadOnly)];
    var suffix := [EndBuffer(commandBuffer), Submit(queue, commandBuffer, NullHandle), WaitIdle(queue), ResetBuffer(commandBuffer)];
    var start := AllOf(levels, layers, Undefined);
    var done := AllOf(levels, layers, ShaderReadOnly);
    assert SingleSubmitCommands(commandBuffer, queue, image, source, width, height, mipmapLevels, range, generateMipmaps)
           == prefix + finish + suffix;
    UploadPrefix(commandBuffer, image, source, width, height, levels, layers);
    SimulateAppend(start, prefix, finish);
    SimulateAppend(start, prefix + finish, suffix);
    SuffixKeepsLayouts(done, commandBuffer, queue);
    var ready := Uniform(levels, layers, 0);
    if generateMipmaps {
      var last := [Barrier(image, LevelRange(range, levels - 1), TransferDst, ShaderReadOnly)];
      assert finish == MipChain(image, range, width, height, levels) + last;
      MipChainSimulates(image, width, height, levels, layers, levels);
      SimulateAppend(ready, MipChain(image, range, width, height, levels), last);
      var almost := Uniform(levels, layers, levels - 1);
      BarrierOnLevels(almost, levels, layers, LevelRange(range, levels - 1), TransferDst, ShaderReadOnly);
      var r := ApplyBarrier(almost, LevelRange(range, levels - 1), TransferDst, ShaderReadOnly).value;
      assert r == done;
      assert Simulate(almost, last) == Simulate(done, last[1..]);
    } else {
      BarrierOnLevels(ready, levels, layers, range, TransferDst, ShaderReadOnly);
      var r := ApplyBarrier(ready, range, TransferDst, ShaderReadOnly).value;
      assert r == done;
      assert Simulate(ready, finish) == Simulate(done, finish[1..]);
    }
  }

  // ------------------------------------------------------------ blit extents

  lemma MulLe(a: nat, b: nat, d: nat)
    requires a <= b
    ensures a * d <= b * d
  {
    var k: nat := b - a;
    assert b * d == a * d + k * d;
  }

  lemma DivUnique(x: nat, d: nat, q: nat, r: nat)
    requires d >= 1 && x == q * d + r && r < d
    ensures x / d == q
  {
    var q', r' := x / d, x % d;
    assert x == q' * d + r';
    if q' < q {
      MulLe(q' + 1, q, d);
    } else if q' > q {
      MulLe(q + 1, q', d);
    }
  }

  lemma DivMonotone(a: nat, b: nat, d: nat)
    requires d >= 1 && a <= b
    ensures a / d <= b / d
  {
    var qa, qb := a / d, b / d;
    assert a == qa * d + a % d;
    assert b == qb * d + b % d;
    if qa > qb {
      MulLe(qb + 1, qa, d);
    }
  }

  /** Halving the quotient by p is dividing by 2p. */
  lemma HalveTwice(x: nat, p: nat)
    requires p >= 1
    ensures (x / p) / 2 == x / (2 * p)
  {
    var q, r := x / p, x % p;
    var a, b := q / 2, q % 2;
    assert x == q * p + r;
    assert q * p == a * (2 * p) + b * p by {
      assert q == 2 * a + b;
    }
    assert b * p <= p by {
      MulLe(b, 1, p);
    }
    DivUnique(x, 2 * p, a, b * p + r);
  }

  /** The shift is a division by a power of two. */
  lemma {:induction false} ShrIsDivision(x: nat, k: nat)
    ensures Shr(x, k) == x / Pow2(k)
  {
    if k > 0 {
      ShrIsDivision(x, k - 1);
      HalveTwice(x, Pow2(k - 1));
    }
  }

  /** The destination extent of blit L is the source extent of blit L+1, and each blit
      halves the side (rounding down) for images whose sides fit int32 extents. */
  lemma BlitExtentsChain(image: Handle, range: SubresourceRange, width: nat, height: nat, level: nat)
    requires level >= 1
    requires width < 0x8000_0000 && height < 0x8000_0000
    ensures MipStep(image, range, width, height, level)[1].dstExtent == MipStep(image, range, width, height, level + 1)[1].srcExtent
    ensures var e := MipStep(image, range, width, height, level)[1];
            e.dstExtent.width == e.srcExtent.width / 2 && e.dstExtent.height == e.srcExtent.height / 2
  {
  }

  /** The last blit of the chain writes a level that is one texel along the larger side. */
  lemma LastBlitIsOneTexel(image: Handle, range: SubresourceRange, width: nat, height: nat)
    requires 1 <= Max(width, height) && width < 0x8000_0000 && height < 0x8000_0000
    requires MipLevels(width, height) >= 2
    ensures var e := MipStep(image, range, width, height, MipLevels(width, height) - 1)[1];
            Max(e.dstExtent.width, e.dstExtent.height) == 1
  {
    var levels := MipLevels(width, height);
    var p := Pow2(levels - 1);
    LastMipIsOneTexel(width, height);
    ShrIsDivision(width, levels - 1);
    ShrIsDivision(height, levels - 1);
    if width <= height {
      DivMonotone(width, height, p);
    } else {
      DivMonotone(height, width, p);
    }
  }

  // ------------------------------------------------------------ the command

  class RenderCommand {
    const commandType: CommandType
    var commandPool: Handle
    var commandBuffer: Handle
    var queue: Queue
    /** m_IsSetup: not initialised by the C++ constructor; false here. */
    var isSetup: bool
    /** Every call made on the command buffer or its queue, oldest first. */
    var recorded: seq<CommandEvent>

    constructor (kind: CommandType)
      ensures commandType == kind
      ensures commandPool == NullHandle && commandBuffer == NullHandle
      ensures queue == DefaultQueue && !isSetup && recorded == []
    {
      commandType := kind;
      commandPool := NullHandle;
      commandBuffer := NullHandle;
      queue := DefaultQueue;
      isSetup := false;
      recorded := [];
    }

    /** RenderCommand::AllocateQueue: take the first family that has a queue of the requested kind. */
    method AllocateQueue(families: seq<QueueFamilyProperties>) returns (ok: bool)
      modifies this
      ensures match FirstQueueFamily(families, TypeBit(commandType)) {
        case Some(i) => ok && queue == Queue(i, NullHandle, Some(commandType))
        case None => !ok && queue == old(queue)
      }
      ensures commandPool == old(commandPool) && commandBuffer == old(commandBuffer)
      ensures isSetup == old(isSetup) && recorded == old(recorded)
    {
      var bit := TypeBit(commandType);
      ok := false;
      var index := 0;
      while index < |families|
        invariant 0 <= index <= |families|
        invariant forall j :: 0 <= j < index ==> !FamilySuitable(families[j], bit)
        invariant queue == old(queue)
        invariant commandPool == old(commandPool) && commandBuffer == old(commandBuffer)
        invariant isSetup == old(isSetup) && recorded == old(recorded)
      {
        if FamilySuitable(families[index], bit) {
          queue := Queue(index, NullHandle, Some(commandType));
          ok := true;
          break;
        }
        index := index + 1;
      }
      if ok {
        FirstQueueFamilyUnique(families, bit, index);
      }
    }

    /** RenderCommand::Setup: succeeds, and marks the command set up, iff a queue family fits. */
    method Setup(families: seq<QueueFamilyProperties>) returns (ok: bool)
      modifies this
      ensures ok <==> FirstQueueFamily(families, TypeBit(commandType)).Some?
      ensures ok ==> isSetup && queue == Queue(FirstQueueFamily(families, TypeBit(commandType)).value, NullHandle, Some(commandType))
      ensures !ok ==> isSetup == old(isSetup) && queue == old(queue)
      ensures commandPool == old(commandPool) && commandBuffer == old(commandBuffer) && recorded == old(recorded)
    {
      ok := AllocateQueue(families);
      if ok {
        isSetup := true;
      }
    }

    /** RenderCommand::Prepare: only a set-up command gets its queue, pool and buffer. The
        handles the driver hands back are parameters; each creation step always succeeds. */
    method Prepare(deviceQueue: Handle, createdPool: Handle, allocatedBuffer: Handle)
      returns (ok: bool, poolInfo: Option<CommandPoolCreateInfo>, allocateInfo: Option<CommandBufferAllocateInfo>)
      modifies this
      ensures ok == old(isSetup)
      ensures ok ==> queue == old(queue).(apiQueue := deviceQueue) && commandPool == createdPool && commandBuffer == allocatedBuffer
      ensures ok ==> poolInfo == Some(CommandPoolCreateInfo(ResetCommandBufferBit, old(queue).familyIndex))
      ensures ok ==> allocateInfo == Some(CommandBufferAllocateInfo(createdPool, 0, 1))
      ensures !ok ==> queue == old(queue) && commandPool == old(commandPool) && commandBuffer == old(commandBuffer)
      ensures !ok ==> poolInfo == None && allocateInfo == None
      ensures isSetup == old(isSetup) && recorded == old(recorded)
    {
      poolInfo, allocateInfo := None, None;
      ok := false;
      if isSetup {
        queue := queue.(apiQueue := deviceQueue);
        var pi := CommandCreateInfo(ResetCommandBufferBit, queue.familyIndex);
        commandPool := createdPool;
        poolInfo := Some(pi);
        var ai := BufferAllocateInfo(commandPool, 0, 1);
        commandBuffer := allocatedBuffer;
        allocateInfo := Some(ai);
        ok := true;
      }
    }

    /** RenderCommand::Shutdown: release what is non-null, then null both handles. */
    method Shutdown() returns (released: seq<Release>)
      modifies this
      ensures released == ShutdownReleases(old(commandPool), old(commandBuffer))
      ensures commandPool == NullHandle && commandBuffer == NullHandle
      ensures queue == old(queue) && isSetup == old(isSetup) && recorded == old(recorded)
    {
      released := [];
      if commandBuffer != NullHandle {
        released := released + [FreeCommandBuffer(commandPool, commandBuffer)];
      }
      commandBuffer := NullHandle;
      if commandPool != NullHandle {
        released := released + [DestroyCommandPool(commandPool)];
      }
      commandPool := NullHandle;
    }

    method Begin()
      modifies this
      ensures recorded == old(recorded) + [BeginBuffer(commandBuffer)]
      ensures commandPool == old(commandPool) && commandBuffer == old(commandBuffer)
      ensures queue == old(queue) && isSetup == old(isSetup)
    {
      recorded := recorded + [BeginBuffer(commandBuffer)];
    }

    method End()
      modifies this
      ensures recorded == old(recorded) + [EndBuffer(commandBuffer)]
      ensures commandPool == old(commandPool) && commandBuffer == old(commandBuffer)
      ensures queue == old(queue) && isSetup == old(isSetup)
    {
      recorded := recorded + [EndBuffer(commandBuffer)];
    }

    method Reset()
      modifies this
      ensures recorded == old(recorded) + [ResetBuffer(commandBuffer)]
      ensures commandPool == old(commandPool) && commandBuffer == old(commandBuffer)
      ensures queue == old(queue) && isSetup == old(isSetup)
    {
      recorded := recorded + [ResetBuffer(commandBuffer)];
    }

    /** RenderCommand::CanPresentSurface: whether the surface accepts presentation from this
        command's queue family (the families that can present are a parameter). */
    method CanPresentSurface(presentFamilies: set<nat>) returns (r: bool)
      ensures r <==> queue.familyIndex in presentFamilies
    {
      r := queue.familyIndex in presentFamilies;
    }

    /** RenderCommand::SingleSubmit: records the upload of `source` into the texture's image,
        submits it without a fence, waits for the queue and resets the buffer. */
    method SingleSubmit(texture: Texture, source: Handle, subRange: SubresourceRange, generateMipmaps: bool)
      modifies this
      ensures recorded == old(recorded) + SingleSubmitCommands(commandBuffer, queue.apiQueue, texture.image, source,
                                                               texture.width, texture.height, texture.mipmapLevels,
                                                               subRange, generateMipmaps)
      ensures commandPool == old(commandPool) && commandBuffer == old(commandBuffer)
      ensures queue == old(queue) && isSetup == old(isSetup)
    {
      var image := texture.image;
      var textureWidth := Wrap32(texture.width);
      var textureHeight := Wrap32(texture.height);
      recorded := recorded + [BeginBuffer(commandBuffer),
                              Barrier(image, subRange, Undefined, TransferDst),
                              CopyBufferToImage(source, image, TransferDst, subRange.layerCount, Extent(textureWidth, textureHeight))];
      ghost var afterCopy := recorded;

      if !generateMipmaps {
        recorded := recorded + [Barrier(image, subRange, TransferDst, ShaderReadOnly)];
      }

      if generateMipmaps {
        RecordMipChain(image, subRange, texture.width, texture.height, texture.mipmapLevels);
        var range := LevelRange(subRange, Wrap32(texture.mipmapLevels - 1));
        recorded := recorded + [Barrier(image, range, TransferDst, ShaderReadOnly)];
      }
      ghost var afterLayouts := recorded;

      recorded := recorded + [EndBuffer(commandBuffer), Submit(queue.apiQueue, commandBuffer, NullHandle), WaitIdle(queue.apiQueue)];
      Reset();
      assert recorded == afterLayouts + [EndBuffer(commandBuffer), Submit(queue.apiQueue, commandBuffer, NullHandle),
                                         WaitIdle(queue.apiQueue), ResetBuffer(commandBuffer)];
    }

    /** The mip loop of SingleSubmit: for L = 1 .. levels-1, level L-1 is made a blit source,
        blitted into level L and handed to the shader. The loop mutates one range, as the source does. */
    method RecordMipChain(image: Handle, subRange: SubresourceRange, width: nat, height: nat, levels: nat)
      modifies this
      ensures recorded == old(recorded) + MipChain(image, subRange, width, height, levels)
      ensures commandPool == old(commandPool) && commandBuffer == old(commandBuffer)
      ensures queue == old(queue) && isSetup == old(isSetup)
    {
      var textureWidth := Wrap32(width);
      var textureHeight := Wrap32(height);
      var range := subRange;
      var mipmapLevel := 1;
      while mipmapLevel < levels
        invariant 1 <= mipmapLevel <= Max(levels, 1)
        invariant recorded == old(recorded) + MipChain(image, subRange, width, height, mipmapLevel)
        invariant range.aspectMask == subRange.aspectMask && range.baseArrayLayer == subRange.baseArrayLayer
        invariant range.layerCount == subRange.layerCount
        invariant commandPool == old(commandPool) && commandBuffer == old(commandBuffer)
        invariant queue == old(queue) && isSetup == old(isSetup)
      {
        var srcExtent := Extent(Int32Of(Shr(textureWidth, mipmapLevel - 1)), Int32Of(Shr(textureHeight, mipmapLevel - 1)));
        var dstExtent := Extent(Int32Of(Shr(textureWidth, mipmapLevel)), Int32Of(Shr(textureHeight, mipmapLevel)));
        range := range.(baseMipLevel := mipmapLevel - 1, levelCount := 1);
        recorded := recorded + [Barrier(image, range, TransferDst, TransferSrc),
                                Blit(image, mipmapLevel - 1, srcExtent, mipmapLevel, dstExtent),
                                Barrier(image, range, TransferSrc, ShaderReadOnly)];
        mipmapLevel := mipmapLevel + 1;
      }
    }
  }
}
