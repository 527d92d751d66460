// Sources/Scene.cpp: the layout of the per-mesh dynamic uniform buffer. Each mesh owns
// SHADOWMAP_CASCADE_COUNT consecutive slots, one per shadow cascade, each `stride` bytes
// long, where stride is sizeof(MeshData) rounded up to the device's
// minUniformBufferOffsetAlignment. Draws pick a slot with a dynamic offset, which the
// valid-usage rules of vkCmdBindDescriptorSets (Vulkan 1.0 specification, "Descriptor
// Set Binding") require to be a multiple of that alignment.
module SceneLayout {
  import opened Common

  /** SHADOWMAP_CASCADE_COUNT and SHADOWMAP_SPOTLIGHT_COUNT (Headers/Shadow.h). */
  const CascadeCount: nat := 4
  const SpotShadowCount: nat := 1

  /** sizeof(MeshData): a mat4 (64), MaterialData (a vec4 and three floats, 28), a
      uint32_t and a float. */
  const MeshDataSize: nat := 100

  /** The element count the per-mesh buffers are created with. */
  const PerMeshSlotCount: nat := 100

  const U64Modulus: nat := 0x1_0000_0000_0000_0000

  // ----------------------------------------------------------------- stride

  /** x & ~(2^k - 1): x with its k lowest bits cleared. */
  function ClearLowBits(x: nat, k: nat): nat
  {
    if k == 0 then x else 2 * ClearLowBits(x / 2, k - 1)
  }

  /** Clearing the k low bits rounds down to a multiple of 2^k. */
  lemma {:induction false} ClearLowBitsRoundsDown(x: nat, k: nat)
    ensures ClearLowBits(x, k) == x - x % Pow2(k)
  {
    if k > 0 {
      var half := Pow2(k - 1);
      ClearLowBitsRoundsDown(x / 2, k - 1);
      var q, b := x / 2, x % 2;
      var t, s := q / half, q % half;
      DivMod(x, 2);
      DivMod(q, half);
      assert Pow2(k) == 2 * half;
      assert x == (t * Pow2(k)) + (2 * s + b);
      QuotientRemainder(t, Pow2(k), 2 * s + b);
    }
  }

  /** m_PerMeshBufferAlignment for a minimum alignment of 2^alignmentLog: the uint64_t
      round-up (sizeof(MeshData) + a - 1) & ~(a - 1), converted to uint32_t. */
  function Stride(alignmentLog: nat): nat
  {
    Wrap32(ClearLowBits((MeshDataSize + Pow2(alignmentLog) - 1) % U64Modulus, alignmentLog))
  }

  /** For any alignment up to 2^31, the stride is the least multiple of the alignment
      that holds a MeshData. */
  lemma StrideRoundsUp(alignmentLog: nat)
    requires Pow2(alignmentLog) <= 0x8000_0000
    ensures var a, stride := Pow2(alignmentLog), Stride(alignmentLog);
      stride % a == 0 && MeshDataSize <= stride < MeshDataSize + a
  {
    var a := Pow2(alignmentLog);
    var x := MeshDataSize + a - 1;
    QuotientRemainder(0, U64Modulus, x);
    ClearLowBitsRoundsDown(x, alignmentLog);
    RoundDownBounds(x, a);
    var rounded := x - x % a;
    assert ClearLowBits(x, alignmentLog) == rounded;
    assert Stride(alignmentLog) == Wrap32(rounded);
  }

  /** Rounding down to a multiple of m moves x by less than m. */
  lemma RoundDownBounds(x: nat, m: nat)
    requires m > 0
    ensures (x - x % m) % m == 0 && x - m < x - x % m <= x
  {
    DivMod(x, m);
    QuotientRemainder(x / m, m, 0);
  }

  /** Powers of two multiply by adding exponents. */
  lemma {:induction false} Pow2Product(i: nat, j: nat)
    ensures Pow2(i) * Pow2(j) == Pow2(i + j)
  {
    if i > 0 {
      Pow2Product(i - 1, j);
    }
  }

  lemma Pow2Of32()
    ensures Pow2(32) == U32Modulus
  {
    assert Pow2(1) == 2;
    assert Pow2(2) == 4;
    assert Pow2(3) == 8;
    assert Pow2(4) == 16;
    Pow2Product(4, 4);
    Pow2Product(8, 8);
    Pow2Product(16, 16);
  }

  /** A power of two up to 2^32 divides 2^32. */
  lemma Pow2DividesU32(k: nat)
    requires k <= 32
    ensures U32Modulus % Pow2(k) == 0
  {
    var j: nat := 32 - k;
    var a, b := Pow2(k), Pow2(j);
    Pow2Product(j, k);
    assert j + k == 32;
    Pow2Of32();
    QuotientRemainder(b, a, 0);
  }

  /** Converting a multiple of a divisor of 2^32 to uint32_t gives a multiple again. */
  lemma WrapKeepsMultiple(x: nat, a: nat)
    requires a >= 1 && U32Modulus % a == 0 && x % a == 0
    ensures Wrap32(x) % a == 0
  {
    var p, t := x / a, U32Modulus / a;
    assert x == p * a;
    assert U32Modulus == t * a;
    var h, z := p / t, p % t;
    assert p == h * t + z;
    assert x == h * U32Modulus + z * a;
    MulMonotone(z + 1, t, a);
    assert z * a + a <= U32Modulus;
    QuotientRemainder(h, U32Modulus, z * a);
    QuotientRemainder(z, a, 0);
  }

  /** Any alignment up to 2^31 divides 2^32 and the stride computed for it. */
  lemma StrideAligned(alignmentLog: nat)
    requires alignmentLog <= 31
    ensures Pow2(alignmentLog) >= 1 && U32Modulus % Pow2(alignmentLog) == 0
    ensures Stride(alignmentLog) % Pow2(alignmentLog) == 0
    ensures MeshDataSize <= Stride(alignmentLog) < MeshDataSize + Pow2(alignmentLog)
  {
    var j: nat := 31 - alignmentLog;
    Pow2Product(alignmentLog, j);
    assert alignmentLog + j == 31;
    Pow2Of32();
    assert Pow2(32) == 2 * Pow2(31);
    MulMonotone(1, Pow2(j), Pow2(alignmentLog));
    StrideRoundsUp(alignmentLog);
    Pow2DividesU32(alignmentLog);
  }

  // ---------------------------------------------------------------- offsets

  /** The slot of mesh m's data for cascade c. */
  function SlotIndex(mesh: nat, cascade: nat): nat
  {
    mesh * CascadeCount + cascade
  }

  /** The dynamic offset of the cascade passes, (m * 4 + c) * stride in uint32_t. Reducing
      once at the end gives the value of the step-by-step uint32_t arithmetic. */
  function CascadeOffset(mesh: nat, cascade: nat, stride: nat): nat
  {
    Wrap32(SlotIndex(mesh, cascade) * stride)
  }

  /** The dynamic offset of the spot-shadow and main passes, m * stride * 4 in uint32_t. */
  function MainOffset(mesh: nat, stride: nat): nat
  {
    Wrap32(mesh * stride * CascadeCount)
  }

  /** The main and spot-shadow passes read each mesh's cascade-0 slot. */
  lemma MainOffsetIsFirstCascade(mesh: nat, stride: nat)
    ensures MainOffset(mesh, stride) == CascadeOffset(mesh, 0, stride)
  {
    assert mesh * stride * CascadeCount == (mesh * CascadeCount + 0) * stride;
  }

  /** Every dynamic offset is a multiple of the alignment when the stride is, whatever
      the wrap-around. */
  lemma OffsetsAligned(mesh: nat, cascade: nat, stride: nat, alignment: nat)
    requires alignment >= 1 && U32Modulus % alignment == 0 && stride % alignment == 0
    ensures CascadeOffset(mesh, cascade, stride) % alignment == 0
    ensures MainOffset(mesh, stride) % alignment == 0
  {
    var s := stride / alignment;
    assert stride == s * alignment;
    assert SlotIndex(mesh, cascade) * stride == (SlotIndex(mesh, cascade) * s) * alignment;
    QuotientRemainder(SlotIndex(mesh, cascade) * s, alignment, 0);
    WrapKeepsMultiple(SlotIndex(mesh, cascade) * stride, alignment);
    MainOffsetIsFirstCascade(mesh, stride);
    QuotientRemainder(SlotIndex(mesh, 0) * s, alignment, 0);
    assert SlotIndex(mesh, 0) * stride == (SlotIndex(mesh, 0) * s) * alignment;
    WrapKeepsMultiple(SlotIndex(mesh, 0) * stride, alignment);
  }

  /** The slot of (m, c) for c < 4 gives back m and c: no two pairs share a slot. */
  lemma SlotIndexInverse(mesh: nat, cascade: nat)
    requires cascade < CascadeCount
    ensures SlotIndex(mesh, cascade) / CascadeCount == mesh
    ensures SlotIndex(mesh, cascade) % CascadeCount == cascade
  {
    QuotientRemainder(mesh, CascadeCount, cascade);
  }

  /** Distinct (mesh, cascade) pairs occupy disjoint byte ranges of one stride each. */
  lemma SlotsDisjoint(m1: nat, c1: nat, m2: nat, c2: nat, stride: nat)
    requires c1 < CascadeCount && c2 < CascadeCount && (m1, c1) != (m2, c2)
    ensures SlotIndex(m1, c1) * stride + stride <= SlotIndex(m2, c2) * stride ||
            SlotIndex(m2, c2) * stride + stride <= SlotIndex(m1, c1) * stride
  {
    SlotIndexInverse(m1, c1);
    SlotIndexInverse(m2, c2);
    var i, j := SlotIndex(m1, c1), SlotIndex(m2, c2);
    if i < j {
      MulMonotone(i + 1, j, stride);
    } else {
      MulMonotone(j + 1, i, stride);
    }
  }

  // ---------------------------------------------------------------- staging

  /** The byte count of the per-mesh buffer, a dynamic buffer of 100 elements. */
  function PerMeshBufferSize(stride: nat): nat
  {
    PerMeshSlotCount * stride
  }

  /** Where Prepare's last write into the staging block ends: the MeshData of the last
      mesh's last cascade. */
  function StagingWriteEnd(meshCount: nat, stride: nat): nat
  {
    if meshCount == 0 then 0 else SlotIndex(meshCount - 1, CascadeCount - 1) * stride + MeshDataSize
  }

  /** As written, the staging block m_MeshesData is allocated meshesCount * 4 BYTES
      (a uint32_t product converted to size_t). */
  function StagingBytesAsWritten(meshCount: nat): nat
  {
    Wrap32(meshCount * CascadeCount)
  }

  /** As written, every Prepare with at least one mesh writes past the staging block, and
      within the 25-mesh bound the block is smaller than the per-mesh buffer the upload
      copies from it, so the upload reads past it too. */
  lemma StagingAsWrittenOverflows(meshCount: nat, stride: nat)
    requires meshCount >= 1 && stride >= MeshDataSize
    ensures StagingBytesAsWritten(meshCount) < StagingWriteEnd(meshCount, stride)
    ensures meshCount * CascadeCount <= PerMeshSlotCount ==> StagingBytesAsWritten(meshCount) < PerMeshBufferSize(stride)
  {
    var last := SlotIndex(meshCount - 1, CascadeCount - 1);
    assert last + 1 == meshCount * CascadeCount;
    MulMonotone(MeshDataSize, stride, last);
    assert StagingWriteEnd(meshCount, stride) >= (last + 1) * MeshDataSize;
    MulMonotone(MeshDataSize, stride, PerMeshSlotCount);
  }

  /** The input that shows it: three meshes and a 256-byte stride give a 12-byte block,
      while the first MeshData alone is 100 bytes and cascade 1 of mesh 0 starts at 256. */
  lemma StagingCounterexample()
    ensures StagingBytesAsWritten(3) == 12
    ensures CascadeOffset(0, 1, 256) == 256 && StagingWriteEnd(3, 256) == 2916
  {
  }

  /** Corrected: the staging block is as large as the per-mesh buffer it is uploaded to,
      100 * stride bytes. */
  function StagingBytes(stride: nat): nat
  {
    PerMeshBufferSize(stride)
  }

  /** With the corrected block, every slot Prepare writes lies inside it as long as the
      meshes' slots fit in the buffer's 100 elements (at most 25 meshes). */
  lemma StagingFits(meshCount: nat, stride: nat, mesh: nat, cascade: nat)
    requires meshCount * CascadeCount <= PerMeshSlotCount && stride >= MeshDataSize
    requires mesh < meshCount && cascade < CascadeCount
    ensures SlotIndex(mesh, cascade) * stride + MeshDataSize <= StagingBytes(stride)
    ensures StagingWriteEnd(meshCount, stride) <= StagingBytes(stride)
  {
    var i := SlotIndex(mesh, cascade);
    var last := SlotIndex(meshCount - 1, CascadeCount - 1);
    assert last + 1 == meshCount * CascadeCount;
    assert i <= last;
    MulMonotone(i + 1, PerMeshSlotCount, stride);
    MulMonotone(last + 1, PerMeshSlotCount, stride);
    assert (i + 1) * stride == i * stride + stride;
    assert (last + 1) * stride == last * stride + stride;
  }
}
