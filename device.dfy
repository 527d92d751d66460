// Sources/Device.cpp: the capability choices the device makes once at start-up
// (physical device, memory type, multisampling level, descriptor pool) and the
// main loop that drives one frame per iteration.
module Devices {
  import opened Common
  import opened Initializers

  /** VK_MAX_MEMORY_TYPES: a device reports at most 32 memory types. */
  const MaxMemoryTypes: nat := 32

  const FormatFeatureBlitSrc: bv32 := 0x400
  const FormatFeatureBlitDst: bv32 := 0x800

  datatype PhysicalDeviceType = OtherGpu | IntegratedGpu | DiscreteGpu | VirtualGpu | CpuDevice

  datatype DeviceProperties = DeviceProperties(
    deviceType: PhysicalDeviceType,
    framebufferColorSampleCounts: bv32,
    framebufferDepthSampleCounts: bv32,
    minUniformBufferOffsetAlignment: nat)

  /** One entry written by vkEnumeratePhysicalDevices. */
  datatype PhysicalDevice = PhysicalDevice(handle: Handle, properties: DeviceProperties)

  datatype MemoryAllocateInfo = MemoryAllocateInfo(allocationSize: nat, memoryTypeIndex: nat)

  /** Calls the main loop makes into the render handle, the scene and the window. */
  datatype FrameCall = BeginRender | ScenePrepare | SceneRender | EndRender | RetrieveInputs

  // ------------------------------------------------------------ memory types

  /** Memory type i is allowed by the filter and has every requested property bit. */
  predicate MemoryTypeSuitable(flags: seq<bv32>, typeFilter: bv32, properties: bv32, i: nat)
    requires i < |flags| <= MaxMemoryTypes
  {
    typeFilter & (1 << i) != 0 && flags[i] & properties == properties
  }

  predicate AnySuitable(flags: seq<bv32>, typeFilter: bv32, properties: bv32)
    requires |flags| <= MaxMemoryTypes
  {
    exists i :: 0 <= i < |flags| && MemoryTypeSuitable(flags, typeFilter, properties, i)
  }

  // ----------------------------------------------------------- multisampling

  /** The sample-count bits RetrieveMaxAntialiasingLevel tries, highest first. */
  const SampleCountCandidates: seq<bv32> := [64, 32, 16, 8, 4, 2]

  /** Reference definition: the first candidate present in counts, or 1 (VK_SAMPLE_COUNT_1_BIT). */
  function FirstPresent(counts: bv32, candidates: seq<bv32>): bv32
  {
    if |candidates| == 0 then 1
    else if counts & candidates[0] != 0 then candidates[0]
    else FirstPresent(counts, candidates[1..])
  }

  /** std::min on the two sample-count masks, compared as unsigned numbers. */
  function NumericMin(a: bv32, b: bv32): bv32
  {
    if a <= b then a else b
  }

  /** The sample counts as the source computes them: the numeric minimum of the two masks. */
  function SampleCountsAsWritten(props: DeviceProperties): bv32
  {
    NumericMin(props.framebufferColorSampleCounts, props.framebufferDepthSampleCounts)
  }

  /** The sample counts both attachments support: the intersection of the two masks. */
  function SupportedSampleCounts(props: DeviceProperties): (r: bv32)
    ensures r & props.framebufferColorSampleCounts == r && r & props.framebufferDepthSampleCounts == r
  {
    props.framebufferColorSampleCounts & props.framebufferDepthSampleCounts
  }

  /** With the numeric minimum, a colour mask {1,2,4,8} and a depth mask {1,4,16} give
      8 samples, which the depth attachment does not support. */
  lemma AntialiasingAsWrittenExceedsDepth()
    ensures var props := DeviceProperties(DiscreteGpu, 0x0F, 0x15, 256);
      FirstPresent(SampleCountsAsWritten(props), SampleCountCandidates) == 8 &&
      props.framebufferDepthSampleCounts & 8 == 0
  {
    var props := DeviceProperties(DiscreteGpu, 0x0F, 0x15, 256);
    SampleLevelCases(SampleCountsAsWritten(props));
  }

  lemma FirstPresentStep(counts: bv32, c: bv32, rest: seq<bv32>)
    ensures FirstPresent(counts, [c] + rest) == if counts & c != 0 then c else FirstPresent(counts, rest)
  {
    assert ([c] + rest)[1..] == rest;
  }

  /** FirstPresent over the six candidates, case by case. */
  lemma SampleLevelCases(counts: bv32)
    ensures FirstPresent(counts, SampleCountCandidates) ==
      if counts & 64 != 0 then 64 else if counts & 32 != 0 then 32 else if counts & 16 != 0 then 16
      else if counts & 8 != 0 then 8 else if counts & 4 != 0 then 4 else if counts & 2 != 0 then 2 else 1
  {
    FirstPresentStep(counts, 2, []);
    FirstPresentStep(counts, 4, [2]);
    FirstPresentStep(counts, 8, [4, 2]);
    FirstPresentStep(counts, 16, [8, 4, 2]);
    FirstPresentStep(counts, 32, [16, 8, 4, 2]);
    FirstPresentStep(counts, 64, [32, 16, 8, 4, 2]);
    assert [2] + [] == [2];
    assert [4] + [2] == [4, 2];
    assert [8] + [4, 2] == [8, 4, 2];
    assert [16] + [8, 4, 2] == [16, 8, 4, 2];
    assert [32] + [16, 8, 4, 2] == [32, 16, 8, 4, 2];
    assert [64] + [32, 16, 8, 4, 2] == SampleCountCandidates;
  }

  /** With the intersection, the chosen level is supported by both attachments and is at
      least every candidate level they share. */
  lemma MaxAntialiasingSupported(props: DeviceProperties)
    ensures var r := FirstPresent(SupportedSampleCounts(props), SampleCountCandidates);
      (r == 1 || (props.framebufferColorSampleCounts & r != 0 && props.framebufferDepthSampleCounts & r != 0)) &&
      forall c :: c in SampleCountCandidates && SupportedSampleCounts(props) & c != 0 ==> r >= c
  {
    SampleLevelCases(SupportedSampleCounts(props));
  }

  // ---------------------------------------------------------- physical device

  /** Index of the first enumerated slot holding a discrete GPU. */
  function FirstDiscrete(slots: seq<Option<PhysicalDevice>>): (r: Option<nat>)
    ensures r.Some? ==> r.value < |slots| && slots[r.value].Some? && slots[r.value].value.properties.deviceType == DiscreteGpu
    ensures r.Some? ==> forall j :: 0 <= j < r.value ==> !(slots[j].Some? && slots[j].value.properties.deviceType == DiscreteGpu)
    ensures r.None? ==> forall j :: 0 <= j < |slots| ==> !(slots[j].Some? && slots[j].value.properties.deviceType == DiscreteGpu)
  {
    if |slots| == 0 then None
    else if slots[0].Some? && slots[0].value.properties.deviceType == DiscreteGpu then Some(0)
    else match FirstDiscrete(slots[1..]) {
      case None => None
      case Some(k) => Some(k + 1)
    }
  }

  /** The slot vector after enumeration: the first min(capacity, |available|) devices,
      then null slots up to the capacity. */
  function EnumeratedSlots(available: seq<PhysicalDevice>, capacity: nat): (r: seq<Option<PhysicalDevice>>)
    ensures |r| == capacity
    ensures forall i :: 0 <= i < capacity ==> (r[i].Some? <==> i < |available|)
    ensures forall i :: 0 <= i < capacity && i < |available| ==> r[i] == Some(available[i])
  {
    seq(capacity, i requires 0 <= i < capacity => if i < |available| then Some(available[i]) else None)
  }

  class Device {
    var maxPhysicalDevicesCount: nat
    var physicalDevice: Option<Handle>
    var physicalDeviceProperties: Option<DeviceProperties>
    var memoryPropertiesFlags: seq<bv32>
    var maxAALevel: bv32
    var frame: nat
    var calls: seq<FrameCall>

    constructor ()
      ensures maxPhysicalDevicesCount == 9
      ensures physicalDevice == None && physicalDeviceProperties == None
      ensures memoryPropertiesFlags == [] && calls == []
    {
      maxPhysicalDevicesCount := 9;
      physicalDevice := None;
      physicalDeviceProperties := None;
      memoryPropertiesFlags := [];
      calls := [];
    }

    /** Device::CreatePhysicalDevice: the first discrete GPU among the enumerated slots;
        otherwise the device in slot 0 (without recording its properties); failure when
        slot 0 is null. */
    method CreatePhysicalDevice(available: seq<PhysicalDevice>) returns (ok: bool)
      requires maxPhysicalDevicesCount >= 1
      modifies this
      ensures maxPhysicalDevicesCount == Min(old(maxPhysicalDevicesCount), |available|)
      ensures var slots := EnumeratedSlots(available, old(maxPhysicalDevicesCount))[..maxPhysicalDevicesCount];
        match FirstDiscrete(slots) {
          case Some(i) =>
            ok && physicalDevice == Some(available[i].handle) && physicalDeviceProperties == Some(available[i].properties)
          case None =>
            physicalDeviceProperties == old(physicalDeviceProperties) &&
            if old(physicalDevice).Some? then ok && physicalDevice == old(physicalDevice)
            else if |available| > 0 then ok && physicalDevice == Some(available[0].handle)
            else !ok && physicalDevice == None
        }
      ensures memoryPropertiesFlags == old(memoryPropertiesFlags) && calls == old(calls) && frame == old(frame)
    {
      var capacity := maxPhysicalDevicesCount;
      var physicalDevices := EnumeratedSlots(available, capacity);
      maxPhysicalDevicesCount := Min(capacity, |available|);
      ghost var slots := physicalDevices[..maxPhysicalDevicesCount];
      var index := 0;
      while index < maxPhysicalDevicesCount
        invariant 0 <= index <= maxPhysicalDevicesCount
        invariant forall j :: 0 <= j < index ==> !(slots[j].Some? && slots[j].value.properties.deviceType == DiscreteGpu)
        invariant physicalDevice == old(physicalDevice) && physicalDeviceProperties == old(physicalDeviceProperties)
      {
        var current := physicalDevices[index];
        if current.Some? && current.value.properties.deviceType == DiscreteGpu {
          physicalDevice := Some(current.value.handle);
          physicalDeviceProperties := Some(current.value.properties);
          assert FirstDiscrete(slots) == Some(index) by {
            FirstDiscreteUnique(slots, index);
          }
          break;
        }
        index := index + 1;
      }
      if index == maxPhysicalDevicesCount {
        FirstDiscreteNone(slots);
      }
      if physicalDevice.None? {
        if physicalDevices[0].Some? {
          physicalDevice := Some(physicalDevices[0].value.handle);
        } else {
          return false;
        }
      }
      return true;
    }

    /** Device::LoadMemoryProperties: keep the flags of the reported memory types. */
    method LoadMemoryProperties(memoryTypes: seq<bv32>, memoryTypeCount: nat)
      requires memoryTypeCount <= |memoryTypes| && memoryTypeCount <= MaxMemoryTypes
      modifies this
      ensures memoryPropertiesFlags == memoryTypes[..memoryTypeCount]
      ensures physicalDevice == old(physicalDevice) && physicalDeviceProperties == old(physicalDeviceProperties)
      ensures calls == old(calls) && frame == old(frame)
    {
      memoryPropertiesFlags := seq(memoryTypeCount, _ => 0);
      var propertyIndex := 0;
      while propertyIndex < memoryTypeCount
        invariant 0 <= propertyIndex <= memoryTypeCount == |memoryPropertiesFlags|
        invariant memoryPropertiesFlags[..propertyIndex] == memoryTypes[..propertyIndex]
        invariant physicalDevice == old(physicalDevice) && physicalDeviceProperties == old(physicalDeviceProperties)
        invariant calls == old(calls) && frame == old(frame)
      {
        memoryPropertiesFlags := memoryPropertiesFlags[propertyIndex := memoryTypes[propertyIndex]];
        propertyIndex := propertyIndex + 1;
      }
    }

    /** Device::FindMemoryType: the smallest suitable memory type, or 0 when none is. */
    method FindMemoryType(typeFilter: bv32, properties: bv32) returns (index: nat)
      requires |memoryPropertiesFlags| <= MaxMemoryTypes
      ensures AnySuitable(memoryPropertiesFlags, typeFilter, properties) ==>
        index < |memoryPropertiesFlags| && MemoryTypeSuitable(memoryPropertiesFlags, typeFilter, properties, index) &&
        forall j :: 0 <= j < index ==> !MemoryTypeSuitable(memoryPropertiesFlags, typeFilter, properties, j)
      ensures !AnySuitable(memoryPropertiesFlags, typeFilter, properties) ==> index == 0
    {
      var i := 0;
      while i < |memoryPropertiesFlags|
        invariant 0 <= i <= |memoryPropertiesFlags|
        invariant forall j :: 0 <= j < i ==> !MemoryTypeSuitable(memoryPropertiesFlags, typeFilter, properties, j)
      {
        if MemoryTypeSuitable(memoryPropertiesFlags, typeFilter, properties, i) {
          return i;
        }
        i := i + 1;
      }
      return 0;
    }

    /** Device::AllocateMemory never reports a failure; the memory type comes from FindMemoryType. */
    method AllocateMemory(requirementsSize: nat, memoryTypeBits: bv32, memoryType: bv32) returns (ok: bool, info: MemoryAllocateInfo)
      requires |memoryPropertiesFlags| <= MaxMemoryTypes
      ensures ok && info.allocationSize == requirementsSize
      ensures AnySuitable(memoryPropertiesFlags, memoryTypeBits, memoryType) ==>
        info.memoryTypeIndex < |memoryPropertiesFlags| &&
        MemoryTypeSuitable(memoryPropertiesFlags, memoryTypeBits, memoryType, info.memoryTypeIndex)
    {
      var typeIndex := FindMemoryType(memoryTypeBits, memoryType);
      info := MemoryAllocateInfo(requirementsSize, typeIndex);
      ok := true;
    }

    /** The limits m_PhysicalDeviceProperties holds: the chosen device's, or, when
        CreatePhysicalDevice fell back to slot 0 without fetching them, whatever the field
        held before (`unset`). */
    function PropertiesRead(unset: DeviceProperties): (r: DeviceProperties)
      reads this
      ensures physicalDeviceProperties.Some? ==> r == physicalDeviceProperties.value
      ensures physicalDeviceProperties.None? ==> r == unset
    {
      if physicalDeviceProperties.Some? then physicalDeviceProperties.value else unset
    }

    /** Device::RetrieveMaxAntialiasingLevel, computed on the samples both attachments
        support (the source takes the numeric minimum of the masks; see
        AntialiasingAsWrittenExceedsDepth). The limits are those PropertiesRead gives. */
    method RetrieveMaxAntialiasingLevel(unset: DeviceProperties)
      modifies this
      ensures physicalDevice == old(physicalDevice) && physicalDeviceProperties == old(physicalDeviceProperties)
      ensures maxAALevel == FirstPresent(SupportedSampleCounts(old(PropertiesRead(unset))), SampleCountCandidates)
      ensures maxAALevel in SampleCountCandidates || maxAALevel == 1
      ensures memoryPropertiesFlags == old(memoryPropertiesFlags) && calls == old(calls) && frame == old(frame)
    {
      var counts := SupportedSampleCounts(PropertiesRead(unset));
      SampleLevelCases(counts);
      if counts & 64 != 0 { maxAALevel := 64; return; }
      if counts & 32 != 0 { maxAALevel := 32; return; }
      if counts & 16 != 0 { maxAALevel := 16; return; }
      if counts & 8 != 0 { maxAALevel := 8; return; }
      if counts & 4 != 0 { maxAALevel := 4; return; }
      if counts & 2 != 0 { maxAALevel := 2; return; }
      maxAALevel := 1;
    }

    /** Device::Update: while the window stays open (closeAfter iterations), begin a frame,
        prepare and render the scene except on frame 0, end the frame, poll input and count
        the frame. */
    method Update(closeAfter: nat)
      modifies this
      ensures calls == old(calls) + UpdateCalls(old(frame), closeAfter)
      ensures frame == old(frame) + closeAfter
      ensures physicalDevice == old(physicalDevice) && physicalDeviceProperties == old(physicalDeviceProperties)
      ensures memoryPropertiesFlags == old(memoryPropertiesFlags)
    {
      var iteration := 0;
      while iteration < closeAfter
        invariant 0 <= iteration <= closeAfter
        invariant calls == old(calls) + UpdateCalls(old(frame), iteration)
        invariant frame == old(frame) + iteration
        invariant physicalDevice == old(physicalDevice) && physicalDeviceProperties == old(physicalDeviceProperties)
        invariant memoryPropertiesFlags == old(memoryPropertiesFlags)
      {
        calls := calls + [BeginRender];
        if frame != 0 {
          calls := calls + [ScenePrepare, SceneRender];
        }
        calls := calls + [EndRender, RetrieveInputs];
        frame := frame + 1;
        iteration := iteration + 1;
      }
    }
  }

  lemma {:induction false} FirstDiscreteUnique(slots: seq<Option<PhysicalDevice>>, k: nat)
    requires k < |slots| && slots[k].Some? && slots[k].value.properties.deviceType == DiscreteGpu
    requires forall j :: 0 <= j < k ==> !(slots[j].Some? && slots[j].value.properties.deviceType == DiscreteGpu)
    ensures FirstDiscrete(slots) == Some(k)
  {
  }

  lemma FirstDiscreteNone(slots: seq<Option<PhysicalDevice>>)
    requires forall j :: 0 <= j < |slots| ==> !(slots[j].Some? && slots[j].value.properties.deviceType == DiscreteGpu)
    ensures FirstDiscrete(slots) == None
  {
  }

  /** Device::HasRequiredFeatures: both blit bits are in the optimal-tiling features. */
  function HasRequiredFeatures(optimalTilingFeatures: bv32): (r: bool)
    ensures r <==> optimalTilingFeatures & (FormatFeatureBlitSrc | FormatFeatureBlitDst) == FormatFeatureBlitSrc | FormatFeatureBlitDst
  {
    optimalTilingFeatures & FormatFeatureBlitSrc != 0 && optimalTilingFeatures & FormatFeatureBlitDst != 0
  }

  /** The calls of one loop iteration on frame f. */
  function IterationCalls(f: nat): seq<FrameCall>
  {
    [BeginRender] + (if f != 0 then [ScenePrepare, SceneRender] else []) + [EndRender, RetrieveInputs]
  }

  /** The calls of n loop iterations starting on frame f. */
  function UpdateCalls(f: nat, n: nat): seq<FrameCall>
  {
    if n == 0 then [] else UpdateCalls(f, n - 1) + IterationCalls(f + n - 1)
  }

  /** Number of occurrences of call c in calls. */
  function Count(calls: seq<FrameCall>, c: FrameCall): nat
  {
    if |calls| == 0 then 0 else (if calls[0] == c then 1 else 0) + Count(calls[1..], c)
  }

  lemma {:induction false} CountAppend(a: seq<FrameCall>, b: seq<FrameCall>, c: FrameCall)
    ensures Count(a + b, c) == Count(a, c) + Count(b, c)
  {
    if |a| > 0 {
      CountAppend(a[1..], b, c);
      assert (a + b)[1..] == a[1..] + b;
    } else {
      assert a + b == b;
    }
  }

  /** Every iteration begins and ends exactly one frame; the scene is prepared and rendered
      on every iteration except the one on frame 0. */
  lemma {:induction false} UpdateCallCounts(f: nat, n: nat)
    ensures Count(UpdateCalls(f, n), BeginRender) == n
    ensures Count(UpdateCalls(f, n), EndRender) == n
    ensures Count(UpdateCalls(f, n), ScenePrepare) == (if f == 0 && n > 0 then n - 1 else n)
    ensures Count(UpdateCalls(f, n), SceneRender) == Count(UpdateCalls(f, n), ScenePrepare)
  {
    if n > 0 {
      UpdateCallCounts(f, n - 1);
      var prev := UpdateCalls(f, n - 1);
      var last := IterationCalls(f + n - 1);
      CountAppend(prev, last, BeginRender);
      CountAppend(prev, last, EndRender);
      CountAppend(prev, last, ScenePrepare);
      CountAppend(prev, last, SceneRender);
      IterationCallCounts(f + n - 1);
    }
  }

  lemma IterationCallCounts(f: nat)
    ensures Count(IterationCalls(f), BeginRender) == 1 && Count(IterationCalls(f), EndRender) == 1
    ensures Count(IterationCalls(f), ScenePrepare) == (if f == 0 then 0 else 1)
    ensures Count(IterationCalls(f), SceneRender) == (if f == 0 then 0 else 1)
  {
    if f != 0 {
      assert IterationCalls(f) == [BeginRender, ScenePrepare, SceneRender, EndRender, RetrieveInputs];
    } else {
      var calls: seq<FrameCall> := [BeginRender, EndRender, RetrieveInputs];
      assert IterationCalls(f) == calls;
      assert Count(calls, ScenePrepare) == 0 && Count(calls, SceneRender) == 0;
    }
  }

  /** The first iteration of the loop (frame 0) neither prepares nor renders the scene. */
  lemma FirstFrameSkipsScene(n: nat)
    requires n > 0
    ensures UpdateCalls(0, n)[..3] == [BeginRender, EndRender, RetrieveInputs]
  {
    UpdatePrefix(0, 1, n);
  }

  lemma {:induction false} UpdatePrefix(f: nat, m: nat, n: nat)
    requires m <= n
    ensures |UpdateCalls(f, m)| <= |UpdateCalls(f, n)|
    ensures UpdateCalls(f, n)[..|UpdateCalls(f, m)|] == UpdateCalls(f, m)
    decreases n
  {
    if m < n {
      UpdatePrefix(f, m, n - 1);
    }
  }

  /** The pool arguments of Device::CreateDescriptorPool, in DescriptorSizes argument order. */
  const DevicePoolCounts: seq<nat> := [100, 100, 100, 100, 100, 100, 0, 100, 100, 0, 200]

  /** Device::CreateDescriptorPool: nine non-empty pool sizes totalling 1000 descriptors,
      which is also the number of sets the pool allows. */
  method CreateDescriptorPool() returns (info: DescriptorPoolCreateInfo)
    ensures info.poolSizeCount == 9 && info.maxSets == 1000
    ensures forall e :: e in info.poolSizes ==> e.descriptorCount > 0
  {
    var counts := DevicePoolCounts;
    var sizes, reserved := DescriptorSizes(counts);
    PoolSizesLength(counts, |counts|);
    PoolSizesSum(counts, |counts|);
    PoolSizesPositive(counts, |counts|);
    assert counts[..|counts|] == counts;
    DevicePoolTotals();
    info := DescriptorCreateInfo(sizes);
  }

  /** The argument list of CreateDescriptorPool has nine nonzero entries summing to 1000. */
  lemma DevicePoolTotals()
    ensures NonZeroCount(DevicePoolCounts) == 9 && SumCounts(DevicePoolCounts) == 1000
  {
  }
}
