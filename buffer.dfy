// Headers/Buffer.h: a host-visible Vulkan buffer and the byte copies into its
// mapped memory. Element values are modelled by their object representation, a
// sequence of bytes; the element size sizeof(T) is a parameter.
module Buffers {
  import opened Common

  /** BUFFER_TYPE: the usage a buffer is created for. */
  datatype BufferType =
    | TransferSource | TransferDest | UniformTexel | StorageTexel
    | Uniform | Storage | Index | Vertex | Indirect

  /** The VkBufferUsageFlagBits value of each BUFFER_TYPE enumerator. */
  function UsageBit(t: BufferType): (r: bv32)
    ensures r != 0 && r & (r - 1) == 0
  {
    match t
    case TransferSource => 1
    case TransferDest => 2
    case UniformTexel => 4
    case StorageTexel => 8
    case Uniform => 16
    case Storage => 32
    case Index => 64
    case Vertex => 128
    case Indirect => 256
  }

  datatype BufferCreateInfo = BufferCreateInfo(usage: bv32, size: nat, exclusive: bool)

  /** Initializers::Buffer::CreateInfo: the usage bit, the size, exclusive sharing. */
  function BufferCreateInfoOf(kind: BufferType, sizeInBytes: nat): (r: BufferCreateInfo)
    ensures r.usage == UsageBit(kind) && r.size == sizeInBytes && r.exclusive
  {
    BufferCreateInfo(UsageBit(kind), sizeInBytes, true)
  }

  /** Size of a static buffer: sizeof(T) * dataCount, computed in size_t. */
  function StaticSize(elementSize: nat, dataCount: nat): (r: nat)
    ensures elementSize >= 1 ==> r >= dataCount
    ensures dataCount >= 1 ==> r >= elementSize
    ensures r == 0 <==> elementSize == 0 || dataCount == 0
  {
    elementSize * dataCount
  }

  /** Size of a dynamic buffer: dataCount * alignment, a product of two uint32_t, so it
      wraps modulo 2^32 before it is widened to uint64_t. */
  function DynamicSize(dataCount: nat, alignment: nat): (r: nat)
    ensures r < U32Modulus
    ensures dataCount * alignment < U32Modulus ==> r == dataCount * alignment
  {
    Wrap32(dataCount * alignment)
  }

  /** The device calls Destroy makes. */
  datatype Release = DestroyBuffer(buffer: Handle) | FreeMemory(memory: Handle)

  /** What Destroy releases for a given pair of handles: each one that is not null. */
  function DestroyReleases(buffer: Handle, memory: Handle): (r: seq<Release>)
    ensures DestroyBuffer(buffer) in r <==> buffer != NullHandle
    ensures FreeMemory(memory) in r <==> memory != NullHandle
    ensures |r| <= 2 && (r == [] <==> buffer == NullHandle && memory == NullHandle)
  {
    (if buffer != NullHandle then [DestroyBuffer(buffer)] else [])
    + (if memory != NullHandle then [FreeMemory(memory)] else [])
  }

  // ---------------------------------------------------------- byte copies

  /** memcpy of `bytes` into `memory` at `offset`. */
  function Write(memory: seq<byte>, offset: nat, bytes: seq<byte>): (r: seq<byte>)
    requires offset + |bytes| <= |memory|
    ensures |r| == |memory|
    ensures r[..offset] == memory[..offset]
    ensures r[offset..offset + |bytes|] == bytes
    ensures r[offset + |bytes|..] == memory[offset + |bytes|..]
  {
    memory[..offset] + bytes + memory[offset + |bytes|..]
  }

  /** The byte count the chunked overload copies for one chunk: its size as uint32_t. */
  function ChunkLength(chunk: seq<byte>): (r: nat)
    ensures r <= |chunk|
    ensures |chunk| < U32Modulus ==> r == |chunk|
  {
    Wrap32(|chunk|)
  }

  /** Where the chunked overload writes chunk i: dataSize * dataIndex in uint32_t, where
      dataSize is the size of chunk i itself (not of the chunks before it). */
  function ChunkOffset(chunks: seq<seq<byte>>, i: nat): nat
    requires i < |chunks|
  {
    Wrap32(ChunkLength(chunks[i]) * i)
  }

  /** Every chunk lands inside the mapped memory. */
  predicate ChunksFit(chunks: seq<seq<byte>>, size: nat)
  {
    forall i :: 0 <= i < |chunks| ==> ChunkOffset(chunks, i) + ChunkLength(chunks[i]) <= size
  }

  /** memcpy of `bytes` into the mapped memory at `offset` when the copy may run past its
      end: the bytes that land inside the memory are written, and those past its end fall
      outside what the model keeps. */
  function ClippedWrite(memory: seq<byte>, offset: nat, bytes: seq<byte>): (r: seq<byte>)
    ensures |r| == |memory|
  {
    if offset >= |memory| then memory
    else Write(memory, offset, if offset + |bytes| <= |memory| then bytes else bytes[..|memory| - offset])
  }

  /** Byte j of the memory after a clipped copy: the copied byte inside the copy's range,
      the old byte elsewhere. */
  lemma ClippedWriteBytes(memory: seq<byte>, offset: nat, bytes: seq<byte>)
    ensures forall j :: 0 <= j < |memory| ==>
              ClippedWrite(memory, offset, bytes)[j] == if offset <= j < offset + |bytes| then bytes[j - offset] else memory[j]
  {
    if offset < |memory| {
      var kept := if offset + |bytes| <= |memory| then bytes else bytes[..|memory| - offset];
      var r := Write(memory, offset, kept);
      assert forall j :: offset <= j < offset + |kept| ==> r[j] == r[offset..offset + |kept|][j - offset];
      assert forall j :: offset + |kept| <= j < |memory| ==> r[j] == r[offset + |kept|..][j - offset - |kept|];
    }
  }

  /** A copy that fits is a plain Write. */
  lemma ClippedWriteFits(memory: seq<byte>, offset: nat, bytes: seq<byte>)
    requires offset + |bytes| <= |memory|
    ensures ClippedWrite(memory, offset, bytes) == Write(memory, offset, bytes)
  {
    var r := Write(memory, offset, bytes);
    assert forall j :: offset <= j < offset + |bytes| ==> r[j] == r[offset..offset + |bytes|][j - offset];
    assert forall j :: offset + |bytes| <= j < |memory| ==> r[j] == r[offset + |bytes|..][j - offset - |bytes|];
  }

  /** The memory after the first n chunk copies, in order. */
  function ChunkedWrite(memory: seq<byte>, chunks: seq<seq<byte>>, n: nat): (r: seq<byte>)
    requires n <= |chunks|
    ensures |r| == |memory|
  {
    if n == 0 then memory
    else
      var chunk := chunks[n - 1];
      ClippedWrite(ChunkedWrite(memory, chunks, n - 1), ChunkOffset(chunks, n - 1), chunk[..ChunkLength(chunk)])
  }

  /** One more chunk copy, at the offset the loop of UpdateData computes. */
  lemma ChunkedWriteStep(memory: seq<byte>, chunks: seq<seq<byte>>, n: nat)
    requires n < |chunks|
    ensures ChunkedWrite(memory, chunks, n + 1) ==
              ClippedWrite(ChunkedWrite(memory, chunks, n), ChunkOffset(chunks, n), chunks[n][..ChunkLength(chunks[n])])
  {
  }

  /** One more chunk copy that fits, written with the offset the loop of UpdateData computes. */
  lemma ChunkedWriteNext(memory: seq<byte>, chunks: seq<seq<byte>>, n: nat)
    requires n < |chunks| && ChunksFit(chunks, |memory|)
    ensures Wrap32(ChunkLength(chunks[n]) * n) + ChunkLength(chunks[n]) <= |memory|
    ensures ChunkedWrite(memory, chunks, n + 1) ==
              Write(ChunkedWrite(memory, chunks, n), Wrap32(ChunkLength(chunks[n]) * n), chunks[n][..ChunkLength(chunks[n])])
  {
    assert ChunkOffset(chunks, n) + ChunkLength(chunks[n]) <= |memory|;
    ClippedWriteFits(ChunkedWrite(memory, chunks, n), ChunkOffset(chunks, n), chunks[n][..ChunkLength(chunks[n])]);
  }

  /** Some chunk among the first n runs past `size` bytes: the flag the loop of UpdateData
      would raise, one chunk at a time. */
  predicate OverrunBefore(chunks: seq<seq<byte>>, size: nat, n: nat)
    requires n <= |chunks|
  {
    n > 0 && (OverrunBefore(chunks, size, n - 1) || ChunkOffset(chunks, n - 1) + ChunkLength(chunks[n - 1]) > size)
  }

  /** Some chunk among the first n overruns the memory exactly when one of them ends past it. */
  lemma {:induction false} OverrunBeforeSome(chunks: seq<seq<byte>>, size: nat, n: nat)
    requires n <= |chunks|
    ensures OverrunBefore(chunks, size, n) <==>
              exists i :: 0 <= i < n && ChunkOffset(chunks, i) + ChunkLength(chunks[i]) > size
  {
    if n > 0 {
      OverrunBeforeSome(chunks, size, n - 1);
    }
  }

  /** Some chunk overruns the memory exactly when the chunks do not all fit. */
  lemma OverrunIsUnfit(chunks: seq<seq<byte>>, size: nat)
    ensures OverrunBefore(chunks, size, |chunks|) <==> !ChunksFit(chunks, size)
  {
    OverrunBeforeSome(chunks, size, |chunks|);
  }

  function Concat(chunks: seq<seq<byte>>): seq<byte>
  {
    if |chunks| == 0 then [] else Concat(chunks[..|chunks| - 1]) + chunks[|chunks| - 1]
  }

  lemma {:induction false} ConcatLength(chunks: seq<seq<byte>>, k: nat)
    requires forall i :: 0 <= i < |chunks| ==> |chunks[i]| == k
    ensures |Concat(chunks)| == k * |chunks|
  {
    if |chunks| > 0 {
      ConcatLength(chunks[..|chunks| - 1], k);
      assert k * |chunks| == k * (|chunks| - 1) + k;
    }
  }

  /** Chunks of one common size k that fill at most the memory all land inside it, at k*i. */
  lemma EqualChunksFit(chunks: seq<seq<byte>>, k: nat, size: nat)
    requires forall i :: 0 <= i < |chunks| ==> |chunks[i]| == k
    requires k * |chunks| <= size && k * |chunks| < U32Modulus
    ensures ChunksFit(chunks, size)
    ensures forall i :: 0 <= i < |chunks| ==> ChunkOffset(chunks, i) == k * i && ChunkLength(chunks[i]) == k
  {
    forall i | 0 <= i < |chunks|
      ensures ChunkOffset(chunks, i) == k * i && ChunkLength(chunks[i]) == k
      ensures ChunkOffset(chunks, i) + ChunkLength(chunks[i]) <= size
    {
      MulMonotone(i + 1, |chunks|, k);
      assert k * (i + 1) == k * i + k;
    }
  }

  /** With chunks of one common size k the copies lay the chunks end to end: the first
      k*n bytes are their concatenation and the rest of the memory is untouched. */
  lemma {:induction false} EqualChunksConcatenate(memory: seq<byte>, chunks: seq<seq<byte>>, k: nat, n: nat)
    requires n <= |chunks|
    requires forall i :: 0 <= i < |chunks| ==> |chunks[i]| == k
    requires k * |chunks| <= |memory| && k * |chunks| < U32Modulus
    ensures ChunksFit(chunks, |memory|) && k * n <= |memory|
    ensures ChunkedWrite(memory, chunks, n)[..k * n] == Concat(chunks[..n])
    ensures ChunkedWrite(memory, chunks, n)[k * n..] == memory[k * n..]
  {
    EqualChunksFit(chunks, k, |memory|);
    MulMonotone(n, |chunks|, k);
    if n > 0 {
      EqualChunksConcatenate(memory, chunks, k, n - 1);
      ConcatenateStep(memory, chunks, k, n);
    }
  }

  /** A copy placed right after a prefix that is already in place extends that prefix and
      leaves the rest of the memory as it was. */
  lemma WriteExtends(before: seq<byte>, memory: seq<byte>, prefix: seq<byte>, offset: nat, bytes: seq<byte>)
    requires |before| == |memory| && offset + |bytes| <= |memory|
    requires before[..offset] == prefix && before[offset..] == memory[offset..]
    ensures Write(before, offset, bytes)[..offset + |bytes|] == prefix + bytes
    ensures Write(before, offset, bytes)[offset + |bytes|..] == memory[offset + |bytes|..]
  {
    var after := Write(before, offset, bytes);
    assert after[..offset + |bytes|] == after[..offset] + after[offset..offset + |bytes|];
    assert before[offset + |bytes|..] == before[offset..][|bytes|..];
    assert memory[offset + |bytes|..] == memory[offset..][|bytes|..];
  }

  /** The inductive step of EqualChunksConcatenate: chunk n-1 goes right after the first n-1. */
  lemma ConcatenateStep(memory: seq<byte>, chunks: seq<seq<byte>>, k: nat, n: nat)
    requires 1 <= n <= |chunks| && k * n <= |memory|
    requires ChunksFit(chunks, |memory|)
    requires ChunkOffset(chunks, n - 1) == k * (n - 1) && |chunks[n - 1]| == k && ChunkLength(chunks[n - 1]) == k
    requires ChunkedWrite(memory, chunks, n - 1)[..k * (n - 1)] == Concat(chunks[..n - 1])
    requires ChunkedWrite(memory, chunks, n - 1)[k * (n - 1)..] == memory[k * (n - 1)..]
    ensures ChunkedWrite(memory, chunks, n)[..k * n] == Concat(chunks[..n])
    ensures ChunkedWrite(memory, chunks, n)[k * n..] == memory[k * n..]
  {
    var offset := k * (n - 1);
    assert k * n == offset + k;
    var chunk := chunks[n - 1];
    var before := ChunkedWrite(memory, chunks, n - 1);
    assert ChunkedWrite(memory, chunks, n) == Write(before, offset, chunk) by {
      assert chunk[..k] == chunk;
      ClippedWriteFits(before, offset, chunk);
    }
    WriteExtends(before, memory, Concat(chunks[..n - 1]), offset, chunk);
    assert Concat(chunks[..n]) == Concat(chunks[..n - 1]) + chunk by {
      assert chunks[..n][..n - 1] == chunks[..n - 1];
    }
  }

  /** With chunks of different sizes the copies overlap: two chunks [1, 2] and [3] put the
      second chunk at offset 1*1, over the first chunk's second byte. */
  lemma UnequalChunksOverlap()
    ensures var chunks: seq<seq<byte>> := [[1, 2], [3]];
            ChunksFit(chunks, 3) &&
            ChunkedWrite([0, 0, 0], chunks, 2) == [1, 3, 0] &&
            ChunkedWrite([0, 0, 0], chunks, 2) != Concat(chunks)
  {
    var chunks: seq<seq<byte>> := [[1, 2], [3]];
    assert ChunkOffset(chunks, 1) == 1;
    assert ChunksFit(chunks, 3);
    var first := ChunkedWrite([0, 0, 0], chunks, 1);
    assert first == Write([0, 0, 0], 0, [1, 2]);
    assert first == [1, 2, 0];
    assert ChunkedWrite([0, 0, 0], chunks, 2) == Write(first, 1, [3]);
    assert Concat(chunks) == [1, 2, 3];
  }

  // ---------------------------------------------------------------- Buffer

  class Buffer {
    var buffer: Handle
    var memory: Handle
    /** m_Size, in bytes. */
    var size: nat
    /** The creation info handed to vkCreateBuffer. */
    var createInfo: BufferCreateInfo
    /** The bytes of the bound device memory (host visible, coherent); the model starts
        them at zero, where the driver leaves them undefined. */
    var contents: seq<byte>

    /** Buffer(device, type, dataCount): a static buffer of dataCount elements. The
        created and allocated handles are parameters (allocation always succeeds). */
    constructor Static(kind: BufferType, elementSize: nat, dataCount: nat, createdBuffer: Handle, allocatedMemory: Handle)
      ensures size == StaticSize(elementSize, dataCount)
      ensures createInfo == BufferCreateInfoOf(kind, size)
      ensures buffer == createdBuffer && memory == allocatedMemory
      ensures contents == seq(size, _ => 0)
    {
      size := StaticSize(elementSize, dataCount);
      createInfo := BufferCreateInfoOf(kind, StaticSize(elementSize, dataCount));
      buffer := createdBuffer;
      memory := allocatedMemory;
      contents := seq(StaticSize(elementSize, dataCount), _ => 0);
    }

    /** Buffer(device, type, dataCount, alignment): a dynamic buffer of dataCount slots. */
    constructor Dynamic(kind: BufferType, dataCount: nat, alignment: nat, createdBuffer: Handle, allocatedMemory: Handle)
      ensures size == DynamicSize(dataCount, alignment)
      ensures createInfo == BufferCreateInfoOf(kind, size)
      ensures buffer == createdBuffer && memory == allocatedMemory
      ensures contents == seq(size, _ => 0)
    {
      size := DynamicSize(dataCount, alignment);
      createInfo := BufferCreateInfoOf(kind, DynamicSize(dataCount, alignment));
      buffer := createdBuffer;
      memory := allocatedMemory;
      contents := seq(DynamicSize(dataCount, alignment), _ => 0);
    }

    predicate Valid()
      reads this
    {
      |contents| == size
    }

    /** Buffer::Destroy: releases each non-null handle and leaves both handles as they were,
        so a second call releases the same handles again. */
    method Destroy() returns (released: seq<Release>)
      ensures released == DestroyReleases(buffer, memory)
    {
      released := [];
      if buffer != NullHandle {
        released := released + [DestroyBuffer(buffer)];
      }
      if memory != NullHandle {
        released := released + [FreeMemory(memory)];
      }
    }

    /** UpdateData(vector) and UpdateData(const T *): copy exactly m_Size bytes from the start
        of the source, which must hold that many. */
    method UpdateData(data: seq<byte>)
      requires Valid() && size <= |data|
      modifies this
      ensures buffer == old(buffer) && memory == old(memory) && size == old(size) && createInfo == old(createInfo)
      ensures Valid()
      ensures contents == data[..size]
    {
      contents := data[..size];
    }

    /** UpdateData(vector<vector>): chunk i goes to byte offset size(chunk i) * i. The source
        does not check that a chunk ends inside the memory; `overrun` reports that one did
        not, and only the bytes inside the memory are kept. */
    method UpdateChunks(chunks: seq<seq<byte>>) returns (overrun: bool)
      requires Valid()
      modifies this`contents
      ensures Valid()
      ensures contents == ChunkedWrite(old(contents), chunks, |chunks|)
      ensures overrun <==> !ChunksFit(chunks, size)
      ensures buffer == old(buffer) && memory == old(memory) && size == old(size) && createInfo == old(createInfo)
    {
      ghost var prior := contents;
      var dataIndex := 0;
      overrun := false;
      while dataIndex < |chunks|
        invariant 0 <= dataIndex <= |chunks|
        invariant Valid()
        invariant contents == ChunkedWrite(prior, chunks, dataIndex)
        invariant overrun <==> OverrunBefore(chunks, size, dataIndex)
      {
        var chunk := chunks[dataIndex];
        var dataSize := ChunkLength(chunk);
        var offset := ChunkOffset(chunks, dataIndex);
        ChunkedWriteStep(prior, chunks, dataIndex);
        if offset + dataSize > size {
          overrun := true;
        }
        contents := ClippedWrite(contents, offset, chunk[..dataSize]);
        dataIndex := dataIndex + 1;
      }
      OverrunIsUnfit(chunks, size);
    }
  }
}
