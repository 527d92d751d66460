# LightAndShadow_Vulkan: a model of the renderer core

LightAndShadow_Vulkan is a small C++ Vulkan renderer. It shows a scene of meshes
and lights, with cascaded shadow maps for the directional light, spot-light shadow
maps and a cube-map skybox. Most of its code sets up GPU API objects. Under that
set-up is sequential integer and sequence logic, and this project models that logic
in Dafny and proves what it guarantees.

What is modelled, one module per source file (or per part of `Sources/Scene.cpp`):

- `Scenes`, `SceneNames`, `SceneLayout`, `SceneFrames` (`Sources/Scene.cpp`).
  - The `Scene` class keeps the object list and the parallel name list. Names are
    made unique by `GetDefinitiveObjectName`.
  - It keeps the mesh and light lists and the spot-light counter.
  - It keeps one `UniformDescription` per mesh, stored after the offscreen and
    cascade ones, so mesh *i* owns description *i + 2*.
  - The per-mesh dynamic uniform buffer is laid out in stride-sized slots, one per
    (mesh, cascade), with aligned dynamic offsets.
  - `Prepare` fills the staging block and the light block.
  - `Render` records the commands of a frame, modelled as a trace of draw events.
- `RenderHandles` (`Sources/RenderHandle.cpp`).
  - The frames-in-flight slot protocol of `BeginRender` and `EndRender`.
  - Render-command setup and the choice of the present queue.
  - The swapchain's format and usage choice.
  - The image, view and sampler helpers.
  - The texture and skybox uploads through the single-use command.
- `RenderCommands` (`Sources/RenderCommand.cpp`).
  - A command buffer's set-up, prepare and shutdown states.
  - The queue-family search.
  - The layout transitions and blits of `SingleSubmit`. A simulation over every
    (mip level, layer) checks that every level ends in `SHADER_READ_ONLY_OPTIMAL`.
- `Buffers` (`Headers/Buffer.h`): buffer sizes, and the byte copies of the three
  `UpdateData` overloads, including the chunked one.
- `Initializers` (`Headers/Initializers.h`) and `UniformDescriptions`
  (`Headers/UniformDescription.h`).
  - The create-info builders.
  - The descriptor-pool size list and its sum.
  - The descriptor binding layout, the (frame, binding) to info-index mapping, and
    which resource each descriptor type writes.
- `Devices` (`Sources/Device.cpp`).
  - Memory-type search and the multisampling level.
  - Physical-device choice and the required blit features.
  - The descriptor-pool counts.
  - The main loop, which does not prepare or render the scene on frame 0.
- `Spheres`, `Skyboxes`, `SkyboxTables`, `Textures` (`Sources/Sphere.cpp`,
  `Sources/Skybox.cpp`, `Headers/Skybox.h`, `Sources/Texture.cpp`).
  - The UV-sphere index generation, in both its strip and list variants.
  - The skybox's face loading and size sum.
  - The cube tables and their byte images.
  - The mip-level count.
- `LoaderFbx`, `Meshes`, `Objects` (`Sources/Tools/LoaderFbx.cpp`, `Sources/Mesh.cpp`,
  `Headers/Object.h`, `Headers/Light.h`).
  - Flattening an imported scene into vertex arrays, indices and texture paths.
  - The vertex zip and the material choice.
  - The draw gate on the albedo alpha.
- `Common` and `DrawEvents` hold the shared vocabulary:
  - optional values;
  - opaque handles (0 is `VK_NULL_HANDLE`);
  - explicit uint8/uint16/uint32 wrap-around;
  - the recorded command events.

Modelling conventions:

- Vulkan handles are natural numbers. A handle the driver would create is a
  parameter of the operation that creates it.
- Recorded commands are a sequence of events, not Vulkan calls.
- A C++ object whose fields change is a Dafny `class` with those fields. Its methods
  state their whole new state.
- A C++ fixed-width integer is an unbounded integer with the wrap-around written out
  where the source can reach it.
- Where the source has a defect, the model keeps the code as written next to a
  corrected version, and the rest of the model uses the corrected version (see
  Findings).

## Model

| member | source | states |
|---|---|---|
| Common.Wrap32 | Sources/RenderHandle.cpp:440 | conversion to uint32_t: a value below 2^32, equal to the input when it fits and congruent to it modulo 2^32 |
| Common.Wrap32Sum | Sources/Skybox.cpp:29 | adding in uint32_t step by step gives the wrapped total |
| Common.Wrap16 | Headers/Mesh.h:63 | conversion to uint16_t: a value below 2^16, equal to the input when it fits and congruent to it modulo 2^16 |
| Common.MaskKeepsSupportedFlags | Sources/RenderHandle.cpp:266-268 | usage & supported equals usage exactly when every requested usage bit is supported |
| Buffers.UsageBit | Headers/Buffer.h:13-24 | every BUFFER_TYPE enumerator is a single usage bit (non-zero, a power of two) |
| Buffers.BufferCreateInfoOf | Headers/Initializers.h:218-229 | the create info carries the buffer type as usage, the requested byte size and exclusive sharing |
| Buffers.StaticSize | Headers/Buffer.h:36 | sizeof(T) * dataCount: zero exactly when either factor is zero, otherwise at least each factor |
| Buffers.DynamicSize | Headers/Buffer.h:53 | dataCount * alignment as a uint32_t product: always below 2^32, and the exact product whenever it fits |
| Buffers.DestroyReleases | Headers/Buffer.h:67-73 | Destroy releases the buffer iff its handle is non-null and the memory iff its handle is non-null, nothing else |
| Buffers.Write | Headers/Buffer.h:80 | a memcpy at an offset replaces exactly the bytes in [offset, offset+n) and keeps every byte before and after |
| Buffers.ChunkLength | Headers/Buffer.h:101 | the per-chunk byte count is the chunk size as uint32_t: never more than the chunk, and exact below 2^32 |
| Buffers.ClippedWrite | Headers/Buffer.h:101-102 | one unchecked memcpy into the mapped memory keeps the memory's length; the bytes past its end are not kept |
| Buffers.ClippedWriteBytes | Headers/Buffer.h:101-102 | the copy replaces exactly the bytes from the offset up to the end of the copy or of the memory, and keeps every other byte |
| Buffers.ClippedWriteFits | Headers/Buffer.h:101-102 | a copy that fits the memory is an ordinary write |
| Buffers.ChunkedWrite | Headers/Buffer.h:98-103 | the memory after the first n chunk copies keeps its length |
| Buffers.ChunkedWriteStep | Headers/Buffer.h:98-103 | each loop step copies chunk n at uint32_t(size(chunk n) * n), clipped to the memory |
| Buffers.OverrunBeforeSome | Headers/Buffer.h:98-103 | the overrun flag after n steps is raised iff one of the first n copies ends past the memory |
| Buffers.OverrunIsUnfit | Headers/Buffer.h:98-103 | some copy ends past the memory iff the chunks do not all fit |
| Buffers.ChunkedWriteNext | Headers/Buffer.h:101-102 | one loop step of the chunked UpdateData stays inside the memory and adds exactly the next copy, at dataSize * dataIndex |
| Buffers.ConcatLength | Headers/Buffer.h:98-103 | n chunks of common size k hold k*n bytes in all |
| Buffers.EqualChunksFit | Headers/Buffer.h:98-103 | chunks of one common size k whose total fits the buffer all land inside it, chunk i at offset k*i |
| Buffers.EqualChunksConcatenate | Headers/Buffer.h:98-103 | with chunks of one common size the copies lay them end to end: the first k*n bytes are their concatenation and the rest is untouched |
| Buffers.ConcatenateStep | Headers/Buffer.h:101-102 | the inductive step of EqualChunksConcatenate: chunk n-1 lands right after the first n-1 |
| Buffers.WriteExtends | Headers/Buffer.h:102 | a copy placed right after a prefix already in place extends the prefix and keeps the tail |
| Buffers.UnequalChunksOverlap | Headers/Buffer.h:101-102 | chunks of different sizes overlap: [1, 2] and [3] give [1, 3, 0], not their concatenation |
| Buffers.Buffer.Static | Headers/Buffer.h:34-48 | a static buffer has size sizeof(T)*dataCount, create info of that size and type, the given handles; a failed allocation does not stop construction |
| Buffers.Buffer.Dynamic | Headers/Buffer.h:51-65 | a dynamic buffer has size dataCount*alignment (uint32_t), create info of that size and type, the given handles |
| Buffers.Buffer.Destroy | Headers/Buffer.h:67-73 | releases exactly the non-null handles and leaves both handles as they were |
| Buffers.Buffer.UpdateData | Headers/Buffer.h:76-91 | both overloads need at least m_Size source bytes and leave the memory equal to the first m_Size source bytes, whatever it held before (the last write wins) |
| Buffers.Buffer.UpdateChunks | Headers/Buffer.h:93-106 | the vector-of-vectors overload leaves the memory equal to the chunk copies in order, chunk i at size(chunk i) * i, and changes nothing else; the returned flag is true iff some copy ran past the memory |
| Devices.SupportedSampleCounts | Sources/Device.cpp:362 | corrected: the sample counts taken from the two limits are supported by both the colour and the depth attachments |
| Devices.AntialiasingAsWrittenExceedsDepth | Sources/Device.cpp:362-395 | as written (numeric minimum of the masks), colour {1,2,4,8} and depth {1,4,16} choose 8 samples, which the depth attachment does not support |
| Devices.SampleLevelCases | Sources/Device.cpp:364-395 | the chosen level is 64, 32, 16, 8, 4 or 2, the first of them present in the mask in that order, and 1 when none is |
| Devices.FirstPresentStep | Sources/Device.cpp:364-395 | each guarded early return: the first candidate if present, otherwise the choice among the rest |
| Devices.MaxAntialiasingSupported | Sources/Device.cpp:360-396 | corrected: the chosen level is 1 or supported by both attachments, and no higher candidate is supported by both |
| Devices.FirstDiscrete | Sources/Device.cpp:273-290 | the index of the first enumerated slot holding a discrete GPU, or none when no slot does |
| Devices.FirstDiscreteUnique | Sources/Device.cpp:273-290 | a discrete GPU at slot k with none before it is exactly what FirstDiscrete returns |
| Devices.FirstDiscreteNone | Sources/Device.cpp:273-290 | with no discrete GPU among the slots, FirstDiscrete returns none |
| Devices.EnumeratedSlots | Sources/Device.cpp:269-271 | the slot vector of m_MaxPhysicalDevicesCount entries holds the first min(count, available) devices in order, and null after them |
| Devices.Device.constructor | Sources/Device.cpp:17-33 | m_MaxPhysicalDevicesCount starts at 9, no physical device is chosen and nothing has been called |
| Devices.Device.CreatePhysicalDevice | Sources/Device.cpp:267-301 | the count becomes min(9, available); the first discrete GPU is chosen with its properties; otherwise a device already held is kept, else the first slot, and it fails only when that slot is null |
| Devices.Device.LoadMemoryProperties | Sources/Device.cpp:348-356 | m_MemoryPropertiesFlags becomes the flags of the reported memory types, in order, and nothing else changes |
| Devices.Device.FindMemoryType | Sources/Device.cpp:227-239 | the smallest i whose bit is set in typeFilter and whose flags hold every requested property; 0 when there is none |
| Devices.Device.AllocateMemory | Sources/Device.cpp:211-223 | always reports success, with the requested size and a suitable memory type whenever one exists |
| Devices.Device.PropertiesRead | Sources/Device.cpp:360-362 | the properties the device read from the driver, or the given contents of the unset m_PhysicalDeviceProperties when none were read |
| Devices.Device.RetrieveMaxAntialiasingLevel | Sources/Device.cpp:360-396 | m_MaxAALevel is the highest of 64..2 present in the samples both attachments support, or 1 (corrected; see Findings); the limits come from PropertiesRead, so an unset slot is also covered |
| Devices.Device.Update | Sources/Device.cpp:183-206 | n loop iterations append exactly the calls of each iteration in order and advance m_Frame by n |
| Devices.HasRequiredFeatures | Sources/Device.cpp:337-344 | holds iff both the BLIT_SRC and BLIT_DST bits are in the optimal-tiling features |
| Devices.CountAppend | Sources/Device.cpp:185-205 | counting calls distributes over concatenated traces |
| Devices.IterationCallCounts | Sources/Device.cpp:191-204 | one iteration begins and ends one frame; it prepares and renders the scene once unless the frame is 0 |
| Devices.UpdateCallCounts | Sources/Device.cpp:183-206 | n iterations call BeginRender and EndRender n times each; from frame 0 the scene is prepared n-1 times, otherwise n times, and rendered as often as prepared |
| Devices.FirstFrameSkipsScene | Sources/Device.cpp:191-202 | the first iteration, on frame 0, calls BeginRender, EndRender and RetrieveInputs and nothing of the scene |
| Devices.UpdatePrefix | Sources/Device.cpp:185-205 | the calls of m iterations are a prefix of those of n >= m iterations |
| Devices.CreateDescriptorPool | Sources/Device.cpp:324-333 | the pool gets nine non-empty pool sizes and maxSets 1000 |
| Devices.DevicePoolTotals | Sources/Device.cpp:326 | the argument list (100, 100, 100, 100, 100, 100, 0, 100, 100, 0, 200) has nine nonzero entries summing to 1000 |
| Initializers.InstanceCreateInfoOf | Headers/Initializers.h:120-138 | the extension list is passed as is; with the validation layer its name is appended to the layers and counted; without it no layer is enabled and the extension count is one less than listed (wrapping to 2^32-1 for an empty list) |
| Initializers.NoValidationDropsLastExtension | Headers/Initializers.h:126-133 | without the validation layer the enabled extensions are the listed ones minus the last; with an empty list the count names more extensions than exist |
| Initializers.SwapchainCreateInfoOf | Headers/Initializers.h:160-186 | minImageCount is 2 with FIFO iff doubleBuffering, otherwise 1 with IMMEDIATE; sharing is EXCLUSIVE iff singleSharing; format, colour space and usage are the arguments |
| Initializers.SubresourceRangeOf | Headers/Initializers.h:302-314 | the range covers exactly the levels [firstMip, firstMip + levelCount) and layers [baseLayer, baseLayer + layerCount), whatever the argument order, with the given aspect |
| Initializers.CommandCreateInfo | Headers/Initializers.h:320-330 | the pool always gets RESET_COMMAND_BUFFER and the given queue family |
| Initializers.CommandCreateInfoIgnoresFlags | Headers/Initializers.h:320-330 | two calls that differ only in createFlags give the same result |
| Initializers.DescriptorSizes | Headers/Initializers.h:351-402 | the entries are the conditional pushes in argument order, and the reservation equals the number of nonzero arguments |
| Initializers.PushIfPositive | Headers/Initializers.h:378-399 | one guarded push: the entries of the first n+1 arguments |
| Initializers.PoolSizesLength | Headers/Initializers.h:363-376 | one entry per nonzero argument, so the reservation is exact |
| Initializers.PoolSizesPositive | Headers/Initializers.h:378-399 | zero counts are omitted: every entry has a positive count |
| Initializers.PoolSizesMembership | Headers/Initializers.h:378-399 | argument i yields the entry {type i, count i} iff it is nonzero |
| Initializers.PoolSizesKindsBefore | Headers/Initializers.h:378-399 | entries from the first n arguments use only those arguments' types, so the order follows the argument order |
| Initializers.PoolSizesSum | Headers/Initializers.h:378-399 | the entries' counts add up to the sum of all arguments |
| Initializers.KindsDistinct | Headers/Initializers.h:378-399 | the eleven arguments stand for eleven different descriptor types |
| Initializers.DescriptorCreateInfo | Headers/Initializers.h:332-349 | maxSets is the uint32_t sum of the entries' counts; poolSizeCount is the number of entries, which are passed as given |
| Initializers.BufferAllocateInfo | Headers/Initializers.h:411-425 | a level above 1 becomes 0 (primary), 0 and 1 are kept; pool and count are the arguments |
| Initializers.BufferAllocateInfoIdempotent | Headers/Initializers.h:413-414 | clamping the level twice is clamping it once |
| Initializers.FenceCreateInfoOf | Headers/Initializers.h:431-440 | every fence is created already signalled |
| LoaderFbx.VertexDefaults | Sources/Tools/LoaderFbx.cpp:36-100 | the position is copied; a missing normal or UV becomes zero; the colour is the vertex colour, else the material diffuse colour (left unset when the material has none), else white when there is no material |
| LoaderFbx.MeshVertices | Sources/Tools/LoaderFbx.cpp:33-101 | one vertex per position of the mesh |
| LoaderFbx.AllVertices | Sources/Tools/LoaderFbx.cpp:22-101 | the vertices of the first n meshes, end to end, VertexCount of them in all |
| LoaderFbx.TriangleIndices | Sources/Tools/LoaderFbx.cpp:104-114 | corrected faces loop: three uint16_t indices per triangle, offset by the vertices before the mesh |
| LoaderFbx.SceneIndices | Sources/Tools/LoaderFbx.cpp:22-114 | corrected: three uint16_t indices per triangle of every mesh so far |
| LoaderFbx.LastIndexOf | Sources/Tools/LoaderFbx.cpp:121-136 | find_last_of of one character: the last position holding it, or none (npos) when it does not occur |
| LoaderFbx.FolderPrefixShape | Sources/Tools/LoaderFbx.cpp:121-131 | the folder is a prefix of the model path that is empty or ends in '/'; it is empty iff the path has no '/' or only one at position 0; otherwise it reaches the last '/' |
| LoaderFbx.BaseNameShape | Sources/Tools/LoaderFbx.cpp:133-139 | the texture's file name is a suffix of its path without any '/', and without any '\' when the path has no '/' |
| LoaderFbx.LoadVertices | Sources/Tools/LoaderFbx.cpp:33-101 | the vertex loop appends one position, UV, normal and colour per vertex: four arrays of equal length holding VertexOf of each vertex |
| LoaderFbx.LoadFaces | Sources/Tools/LoaderFbx.cpp:104-114 | corrected faces loop: the result is TriangleIndices of the mesh's faces |
| LoaderFbx.LoadMesh | Sources/Tools/LoaderFbx.cpp:24-161 | one mesh: its vertices, its triangles offset by the earlier vertices, and its diffuse and normal texture paths |
| LoaderFbx.UnzipsAppend | Sources/Tools/LoaderFbx.cpp:41-100 | appending keeps the four output arrays aligned entry by entry |
| LoaderFbx.Load | Sources/Tools/LoaderFbx.cpp:12-168 | fails iff the importer yields no scene, then with every output empty; otherwise the outputs are the vertices of all meshes, the corrected index list and the texture paths, in mesh order |
| LoaderFbx.TriangleIndicesPrefix | Sources/Tools/LoaderFbx.cpp:105-114 | the indices of the first a faces are a prefix of those of the first b >= a |
| LoaderFbx.TriangleSlot | Sources/Tools/LoaderFbx.cpp:108-113 | corrected: triangle i occupies the three slots after the triangles before it, holding its corners plus the base |
| LoaderFbx.TriangleCountMonotone | Sources/Tools/LoaderFbx.cpp:105-114 | more faces never means fewer triangles |
| LoaderFbx.TriangleIndicesInRange | Sources/Tools/LoaderFbx.cpp:108-113 | when the faces address the mesh's own vertices, every index falls in [base, base + vertexCount) |
| LoaderFbx.SceneIndicesPrefix | Sources/Tools/LoaderFbx.cpp:22-114 | the index list of the first a meshes is a prefix of that of the first b >= a |
| LoaderFbx.AllVerticesAt | Sources/Tools/LoaderFbx.cpp:22-101 | vertex v of mesh m sits VertexCount(m) + v into the vertices of every longer mesh prefix |
| LoaderFbx.SceneSlot | Sources/Tools/LoaderFbx.cpp:22-114 | corrected: corner c of triangle i of mesh m is stored after the earlier meshes' and triangles' indices, as that corner plus the earlier meshes' vertex count |
| LoaderFbx.IndicesAddressOwnVertices | Sources/Tools/LoaderFbx.cpp:110-112 | corrected: with at most 65536 vertices, every stored index names, among all vertices, exactly the vertex its face names in its own mesh |
| LoaderFbx.VertexCountMonotone | Sources/Tools/LoaderFbx.cpp:22-101 | more meshes never means fewer vertices |
| LoaderFbx.FirstFaceGateDropsTriangles | Sources/Tools/LoaderFbx.cpp:107-108 | as written, a mesh whose first face is a line loses every triangle after it; the corrected gate keeps them |
| LoaderFbx.TwoTriangles | Sources/Tools/LoaderFbx.cpp:22-114 | a scene of two meshes with one triangle over three vertices each |
| LoaderFbx.IndicesMissEarlierMeshes | Sources/Tools/LoaderFbx.cpp:110-112 | as written, the second mesh's triangle stores 0, 1, 2 and so names the first mesh's vertices |
| LoaderFbx.IndicesFollowEarlierMeshes | Sources/Tools/LoaderFbx.cpp:110-112 | corrected, the second mesh's triangle names its own vertices 3, 4, 5 |
| Meshes.ChooseMaterial | Sources/Mesh.cpp:52-60 | every choice carries the default material data |
| Meshes.MaterialChoice | Sources/Mesh.cpp:52-60 | a colour texture exists iff the load failed or a diffuse texture was found; a normal map iff both lists are non-empty; on a failed load the model path itself is the texture; the first diffuse and normal entries are used; the albedo alpha is 1 |
| Meshes.ZipVertices | Sources/Mesh.cpp:36-46 | one vertex per position; vertex i holds the i-th position, UV, normal and colour |
| Meshes.ZipUndoesUnzip | Sources/Mesh.cpp:36-46 | zipping the four arrays Load produced gives back exactly the vertices Load split up |
| Meshes.VertexVectorBytes | Sources/Mesh.cpp:48-50 | the bytes of a vertex vector are sizeof(VertexData) per vertex |
| Meshes.VertexVectorBytesAt | Sources/Mesh.cpp:48-50 | vertex i occupies exactly bytes 48 i to 48 (i + 1), in its struct layout |
| Meshes.NewVertexBuffer | Sources/Mesh.cpp:48-50 | the vertex buffer is sized to sizeof(VertexData) times the uint32_t vertex count and holds the vertices' bytes |
| Meshes.NewIndexBuffer | Sources/Mesh.cpp:49-50 | the index buffer is sized to two bytes per index and holds the little-endian bytes of the indices |
| Meshes.TruncateToU32 | Sources/Mesh.cpp:77 | static_cast<uint32_t> of the alpha truncates toward zero: the integer part of a non-negative value, 0 below 1 |
| Meshes.DefaultAlphaDrawsWhenOpaque | Sources/Mesh.cpp:75-78 | with the default alpha 1 the mesh draws exactly in the calls with isOpaque 1 |
| Meshes.TranslucentDrawsWhenTransparent | Sources/Mesh.cpp:77 | any alpha in [0, 1) truncates to 0: the mesh draws exactly in the calls with isOpaque 0 |
| Meshes.GateSelectsOneCall | Sources/Mesh.cpp:77 | a mesh never draws in both the opaque and the transparent call, and an alpha of 2 or more draws in neither |
| Meshes.Mesh.constructor | Sources/Mesh.cpp:11-62 | m_IsOpaque starts true; an empty path loads nothing and keeps the default material; a failed load uses the path as texture; otherwise vertices, indices and material come from Load and both buffers are created and hold the vertices' and the indices' bytes |
| Meshes.Mesh.Render | Sources/Mesh.cpp:75-88 | records the binds and the draw of |m_Indices| indices exactly when the truncated alpha equals isOpaque, and nothing otherwise |
| Meshes.Mesh.SetMaterial | Headers/Mesh.h:56 | the material becomes the given one and nothing else changes |
| Meshes.DrawCoversIndexBuffer | Sources/Mesh.cpp:83-86 | when the gate opens the draw covers every index in the index buffer, which decodes back to m_Indices while their count fits a uint32_t |
| Meshes.DrawCallsStayInPass | Sources/Mesh.cpp:75-88 | Render records only binds and draws, never a pass boundary |
| Objects.ObjectTypeValue | Headers/Object.h:15-21 | each OBJECT_TYPE enumerator has its value, below 4 |
| Objects.ObjectTypeValues | Headers/Object.h:15-21 | the enumerator values are distinct, and only SpotLight has value 3 |
| Objects.Object.constructor | Sources/Object.cpp:9-10 | an object keeps the name it is given |
| Objects.Object.SetName | Headers/Object.h:54 | the name becomes the new one |
| Objects.AsPoint | Headers/Light.h:65 | a light position is stored as a point: the same x, y, z and w = 1 |
| Objects.Signed32 | Headers/Light.h:45 | the int conversion of a uint32_t is the value in [-2^31, 2^31) congruent to it modulo 2^32 |
| Objects.Signed32RoundTrip | Headers/Light.h:45 | a type value below 2^31 keeps its value, and converting back to uint32_t gives every value back |
| Objects.BaseTypeMatchesData | Headers/Light.h:45 | the Object type names an enumerator iff the data's type holds its value |
| Objects.Light.constructor | Headers/Light.h:39-47 | keeps the data with its position made a point, the luminous flow, and the direction (0, 0, 1, 0); the Object type is the data's type read as OBJECT_TYPE |
| Objects.Light.SetType | Headers/Light.h:81 | the int is stored modulo 2^32 into the data's type; nothing else changes, the Object type included |
| RenderCommands.TypeBit | Headers/RenderCommand.h:17-22 | every COMMAND_TYPE enumerator (graphics, compute, transfer) is a single queue-flag bit |
| RenderCommands.FirstQueueFamily | Sources/RenderCommand.cpp:318-339 | the queue family AllocateQueue picks: the first family with queueCount > 0 whose flags contain the type's bit; None exactly when no family qualifies |
| RenderCommands.FirstQueueFamilyUnique | Sources/RenderCommand.cpp:324-333 | the loop breaks at the first suitable family: any suitable index preceded only by unsuitable ones is the one chosen |
| RenderCommands.Int32Of | Sources/RenderCommand.cpp:166 | the static_cast<int32_t> of a uint32_t lies in the int32 range and keeps every value below 2^31 |
| RenderCommands.Shr | Sources/RenderCommand.cpp:166 | a right shift of an unsigned extent never exceeds the extent |
| RenderCommands.ShrIsDivision | Sources/RenderCommand.cpp:166-174 | shifting right by k is division by 2^k |
| RenderCommands.ShutdownReleases | Sources/RenderCommand.cpp:52-63 | Shutdown frees the command buffer iff its handle is non-null and destroys the pool iff its handle is non-null, the buffer before the pool, and releases nothing when both are null |
| RenderCommands.Row | Sources/RenderCommand.cpp:91-101 | the layouts of every array layer of one mip level, all equal to the given layout |
| RenderCommands.AllOf | Sources/RenderCommand.cpp:91-101 | an image whose every level and layer has one layout |
| RenderCommands.Uniform | Sources/RenderCommand.cpp:155-241 | the image after the first `done` mip steps: levels below `done` shader-read-only, the rest transfer-destination |
| RenderCommands.Retarget | Sources/RenderCommand.cpp:176-189 | a barrier rewrites the layouts of one level without changing the number of layers |
| RenderCommands.SimulateAppend | Sources/RenderCommand.cpp:80-256 | replaying two recorded command sequences one after the other is replaying their concatenation |
| RenderCommands.BarrierOnLevels | Sources/RenderCommand.cpp:104-198 | a barrier over whole levels succeeds when those levels are in its old layout (or it discards them from UNDEFINED), moves exactly those levels to the new layout and leaves every other level as it was |
| RenderCommands.RetargetWholeLevel | Sources/RenderCommand.cpp:176-177 | a barrier covering all layers turns a level inside its range into a uniform row of the new layout and leaves a level outside the range unchanged |
| RenderCommands.UploadPrefix | Sources/RenderCommand.cpp:83-133 | begin, the UNDEFINED-to-TRANSFER_DST barrier over the whole range and the buffer copy leave every level in TRANSFER_DST |
| RenderCommands.MipStepSimulates | Sources/RenderCommand.cpp:155-222 | one mip iteration (barrier to TRANSFER_SRC, blit, barrier to SHADER_READ_ONLY on the previous level) advances the image by exactly one level |
| RenderCommands.MipChainSimulates | Sources/RenderCommand.cpp:155-222 | the mip loop up to level n-1 leaves levels below n-1 shader-read-only and the rest transfer-destination |
| RenderCommands.SuffixKeepsLayouts | Sources/RenderCommand.cpp:244-256 | ending, submitting, waiting idle and resetting do not change any layout |
| RenderCommands.UploadLeavesShaderReadOnly | Sources/RenderCommand.cpp:80-256 | a single-submit upload, with or without mipmap generation, starts from UNDEFINED and leaves every level and layer of the image SHADER_READ_ONLY, with every barrier finding the layout it expects |
| RenderCommands.BlitExtentsChain | Sources/RenderCommand.cpp:166-174 | the destination extent of one blit is the source extent of the next, and each blit halves (rounding down) both dimensions |
| RenderCommands.LastBlitIsOneTexel | Sources/RenderCommand.cpp:155-174 | with the texture's mip level count, the last blit writes a level whose larger side is one texel |
| RenderCommands.RenderCommand.constructor | Sources/RenderCommand.cpp:11-18 | a new command keeps its type, with null pool and buffer, a default queue, not set up, nothing recorded |
| RenderCommands.RenderCommand.AllocateQueue | Sources/RenderCommand.cpp:318-339 | succeeds iff some family is suitable and then takes the first suitable family with the command's type; otherwise the queue is unchanged |
| RenderCommands.RenderCommand.Setup | Sources/RenderCommand.cpp:29-38 | sets m_IsSetup and the queue exactly when a queue family is found; returns false and changes nothing otherwise |
| RenderCommands.RenderCommand.Prepare | Sources/RenderCommand.cpp:286-314 | only a set-up command prepares: it takes the device queue, creates a pool resettable per buffer on the queue's family and allocates one primary buffer from it; otherwise returns false and changes nothing |
| RenderCommands.RenderCommand.Shutdown | Sources/RenderCommand.cpp:52-63 | releases what ShutdownReleases names and nulls both handles |
| RenderCommands.RenderCommand.Begin | Sources/RenderCommand.cpp:67-76 | appends the begin of the command buffer and changes nothing else |
| RenderCommands.RenderCommand.End | Sources/RenderCommand.cpp:261-264 | appends the end of the command buffer and changes nothing else |
| RenderCommands.RenderCommand.Reset | Sources/RenderCommand.cpp:268-271 | appends the reset of the command buffer and changes nothing else |
| RenderCommands.RenderCommand.CanPresentSurface | Sources/RenderCommand.cpp:275-282 | true iff the surface can be presented from the command's queue family |
| RenderCommands.RenderCommand.SingleSubmit | Sources/RenderCommand.cpp:80-257 | records exactly the upload sequence SingleSubmitCommands, whose layout effect UploadLeavesShaderReadOnly states |
| RenderCommands.RenderCommand.RecordMipChain | Sources/RenderCommand.cpp:155-222 | the mip loop records MipChain, one MipStep per level from 1 to the level count |
| RenderHandles.Resize | Sources/RenderHandle.cpp:62-79 | std::vector::resize: the new length, the old entries kept below it and value-initialised entries above |
| RenderHandles.NextFrame | Sources/RenderHandle.cpp:218 | the next frame slot, (current + 1) % N stored in a uint8_t, is a valid slot below N and below 256 |
| RenderHandles.Advance | Sources/RenderHandle.cpp:218 | k frames after a valid slot the slot is still valid |
| RenderHandles.FrameSlotsCycle | Sources/RenderHandle.cpp:218 | for N <= 256 frames in flight, after k frames the slot is k mod N: every slot is visited in turn |
| RenderHandles.SlotWrapsPast255 | Headers/RenderHandle.h:137 | with more than 256 frames in flight the uint8_t slot wraps to 0 before reaching N (255 of 300 is followed by 0, not 256) |
| RenderHandles.FirstPresenting | Sources/RenderHandle.cpp:90-99 | the first command queue whose family can present; None exactly when no queue's family can |
| RenderHandles.PresentChoiceIsFirst | Sources/RenderHandle.cpp:96-98 | starting with no present queue, the queue chosen is the first presenting queue, or none when no queue presents |
| RenderHandles.PresentChoiceKeepsSetQueue | Sources/RenderHandle.cpp:96 | a present queue already set is never replaced |
| RenderHandles.PresentChoiceStep | Sources/RenderHandle.cpp:90-99 | preparing one more command offers its queue, carrying its device queue, to the choice |
| RenderHandles.FirstUnsupported | Sources/RenderHandle.cpp:64-69 | the index of the first requested command type no queue family supports, or the count when all are supported |
| RenderHandles.FirstPreferred | Sources/RenderHandle.cpp:242-255 | the first surface format with the preferred format (SRGB or UNORM B8G8R8A8) and the sRGB non-linear colour space; None exactly when there is none |
| RenderHandles.FreshFormatChoice | Sources/RenderHandle.cpp:242-259 | with no prior format the choice is the first preferred format, else the first format offered; always a format the surface offers |
| RenderHandles.HeldFormatSurvives | Sources/RenderHandle.cpp:258-259 | a prior surface format is kept when no preferred format is offered (the fallback only fires on UNDEFINED) |
| RenderHandles.CreateRenderCommands | Sources/RenderHandle.cpp:60-69 | one fresh, set-up command per type up to the first unsupported one, where the loop stops; success iff every type is supported |
| RenderHandles.NewCommand | Sources/RenderHandle.cpp:66-72 | a fresh command of the type, set up exactly when some queue family supports the type |
| RenderHandles.PreparedCount | Sources/RenderHandle.cpp:90-94 | how many commands the Prepare loop gets through: all before it are set up, and the one it stops at is not |
| RenderHandles.QueuesOf | Sources/RenderHandle.cpp:92 | the queues of the commands, in order |
| RenderHandles.PreparedQueues | Sources/RenderHandle.cpp:90-99 | the first n queues each carrying its device queue |
| RenderHandles.PrepareOne | Sources/RenderHandle.cpp:93 | preparing one command succeeds exactly when it was set up, and then takes its device queue, pool and buffer; nothing changes otherwise |
| RenderHandles.PickPresent | Sources/RenderHandle.cpp:96-98 | one present-queue test: the command's queue is taken only while none is set and its family presents |
| RenderHandles.PrepareAt | Sources/RenderHandle.cpp:92-98 | one loop iteration changes only its own command and offers that command's prepared queue to the present choice |
| RenderHandles.PrepareCommands | Sources/RenderHandle.cpp:89-99 | the loop prepares commands in order until the first that was never set up, fails iff there is one, and sets the present queue to the first prepared queue whose family presents |
| RenderHandles.CreateFrameSync | Sources/RenderHandle.cpp:104-113 | one fence and two semaphores created per frame in flight, in slot order |
| RenderHandles.MaskUsage | Sources/RenderHandle.cpp:266-273 | the requested swapchain usage is accepted iff every bit is supported by the surface, and is then used unchanged |
| RenderHandles.PickSurfaceFormat | Sources/RenderHandle.cpp:244-259 | the chosen format is ChosenFormat, characterised by FreshFormatChoice and HeldFormatSurvives |
| RenderHandles.CreateImageViews | Sources/RenderHandle.cpp:332-355 | fails and leaves the views alone when there are no images; otherwise one view per image, each created from the same view info with that image |
| RenderHandles.CreateSampler | Sources/RenderHandle.cpp:359-372 | one sampler per image, always succeeding |
| RenderHandles.CreateImages | Sources/RenderHandle.cpp:304-328 | one image and one memory allocation per requested image, each of the required size and, when a suitable memory type exists, of a suitable type |
| RenderHandles.Stage | Sources/RenderHandle.cpp:440-442 | a fresh transfer-source staging buffer of the requested size holding the first size bytes of the pixels |
| RenderHandles.StageChunks | Sources/RenderHandle.cpp:513-525 | a fresh transfer-source staging buffer of the skybox size holding the six faces, written chunk by chunk at multiples of the face size; the flag is true iff a face ran past the buffer |
| RenderHandles.EqualFacesStageInOrder | Sources/RenderHandle.cpp:513-525 | six faces of one size k in a buffer of 6 k bytes all fit, and the staging buffer holds them end to end |
| RenderHandles.FaceChunks | Sources/RenderHandle.cpp:514-523 | the six faces' pixel vectors, in face order |
| RenderHandles.RenderHandle.constructor | Sources/RenderHandle.cpp:13-34 | null surface and swapchain, UNDEFINED surface format, no images, commands, fences or semaphores, default present queue, frame slot 0 |
| RenderHandles.RenderHandle.SetupCommands | Sources/RenderHandle.cpp:60-73 | the render commands are resized to the type count and created up to the first unsupported type; success also needs the single graphics command to find a queue |
| RenderHandles.RenderHandle.ResizeFrameVectors | Sources/RenderHandle.cpp:75-79 | records N and resizes the fence and semaphore vectors to N, leaving the commands alone |
| RenderHandles.RenderHandle.Setup | Sources/RenderHandle.cpp:44-82 | takes the created surface; succeeds iff every command and the single command are set up; only then records N and resizes the per-frame vectors |
| RenderHandles.RenderHandle.CreateSyncObjects | Sources/RenderHandle.cpp:103-113 | every frame slot gets its created fence (signalled) and two semaphores |
| RenderHandles.RenderHandle.PrepareRenderCommands | Sources/RenderHandle.cpp:86-99 | fails iff some render command was never set up; the present queue becomes the first prepared queue that can present, unless one was already set |
| RenderHandles.RenderHandle.Prepare | Sources/RenderHandle.cpp:86-116 | as PrepareRenderCommands, then prepares the single command and creates the per-frame fences and semaphores; on success with N no larger than the command count the frame loop's invariant FramesReady holds |
| RenderHandles.RenderHandle.BeginRender | Sources/RenderHandle.cpp:158-173 | waits on and resets the current slot's fence (which is signalled or pending, so the wait returns), resets and begins that slot's command and acquires an image with that slot's acquire semaphore; the frame invariant is kept |
| RenderHandles.RenderHandle.EndRender | Sources/RenderHandle.cpp:177-219 | ends the slot's command, submits it waiting on the acquire semaphore and signalling the present semaphore and the slot's fence, presents the acquired image on the present queue, and moves to the next slot; the frame invariant is kept |
| RenderHandles.RenderHandle.CreateSwapchain | Sources/RenderHandle.cpp:223-300 | fails with no surface format or with an unsupported usage bit; the format choice and extent are kept even when the usage check then fails; on success the swapchain create info, images and views are those created |
| RenderHandles.RenderHandle.SetSurface | Sources/RenderHandle.cpp:242-264 | sets the surface format by ChosenFormat and the extent to the surface's current extent |
| RenderHandles.RenderHandle.TakeSwapchain | Sources/RenderHandle.cpp:275-297 | stores the created swapchain and its images; the views are replaced only when there is at least one image |
| RenderHandles.RenderHandle.PrepareTexture | Sources/RenderHandle.cpp:376-449 | fails and changes nothing when the texture has no pixels; otherwise attaches the created image, memory, view and sampler, stages width*height*4 bytes (uint32_t), records a mipmapped single submit over all the texture's levels and frees the pixels |
| RenderHandles.RenderHandle.AttachImage | Sources/RenderHandle.cpp:400-437 | the texture takes the created image, memory, view and sampler, and keeps its pixels |
| RenderHandles.RenderHandle.UploadSkybox | Sources/RenderHandle.cpp:512-530 | stages the six faces at consecutive face-size offsets, records a single submit without mipmaps into face 0's image and frees every face's pixels; the flag is true iff a face ran past the staging buffer |
| RenderHandles.RenderHandle.PrepareSkybox | Sources/RenderHandle.cpp:453-533 | face 0 takes the created cube image, memory, view and sampler; the staging buffer holds the six faces; one single submit over six layers and one level is recorded; every face's pixels are freed; always succeeds; the flag is true iff a face ran past the staging buffer |
| Scenes.Staged | Sources/Scene.cpp:181-202 | the staging block after the mesh loop keeps its length |
| Scenes.StagedSlots | Sources/Scene.cpp:183-201 | slot 4m + c holds mesh m's material with cascade index c, and every slot past the meshes keeps what it held |
| Scenes.SlotOfIndex | Sources/Scene.cpp:187 | slot i lies in mesh n's block of four exactly when i / 4 == n, with cascade i % 4 |
| Scenes.MaterialsOf | Sources/Scene.cpp:192-196 | the material data of each mesh, in mesh order |
| Scenes.LightsUpload | Sources/Scene.cpp:206-215 | the UBOLights block: count is the number of lights; entry i copies light i's data with its position moved to view space and its direction's w set to 1; entries past the lights stay zero |
| Scenes.LightDatas | Sources/Scene.cpp:211 | the data of each light, in light order |
| Scenes.MeshInfos | Sources/Scene.cpp:1770 | the info list holds nine entries per pending frame |
| Scenes.MeshInfosLayout | Sources/Scene.cpp:1884-1904 | the flat info index of frame f and binding d, as UniformDescription reads it, is 9f + d, and the entry there is what the scene wrote for that frame and binding |
| Scenes.NewMeshDescription | Sources/Scene.cpp:1754-1906 | a fresh description with the nine mesh bindings (types and stages), one set per frame, and every binding of every frame written from its info |
| Scenes.CascadeInfos | Sources/Scene.cpp:1522-1584 | the cascade info list holds three entries per pending frame |
| Scenes.CascadeInfosLayout | Sources/Scene.cpp:1577-1584 | the flat index of frame f and binding d is 3f + d, and the entry there is the cascade info for that frame and binding |
| Scenes.MeshFrames | Sources/Scene.cpp:326-360 | for each mesh, its description's set for the image and its two draws (Render(0) and Render(1)) |
| Scenes.Scene.constructor | Sources/Scene.cpp:15-29 | no objects, names, meshes, lights or descriptions, no skybox, spot-light count 0; the invariant holds |
| Scenes.Scene.GetDefinitiveObjectName | Sources/Scene.cpp:1912-1926 | the name returned is the first candidate (name, name1, name2, ...) not yet taken, is appended to the names, and the names stay pairwise distinct; an untaken name is returned as is |
| Scenes.Scene.AddObject | Sources/Scene.cpp:432-437 | the object is renamed to its definitive name, appended together with that name, and the invariant (objects and names aligned, names distinct) is kept |
| Scenes.Scene.RemoveObject | Sources/Scene.cpp:441-450 | the first occurrence of the object and the name at the same index are erased; nothing changes when it is absent; its name is free again |
| Scenes.Scene.UpdateMeshBuffer | Sources/Scene.cpp:1754-1908 | appends one fresh description written for the new mesh, keeping the earlier ones |
| Scenes.Scene.AddMesh | Sources/Scene.cpp:454-467 | the mesh is added as an object and appended; a texture with pixels is uploaded as PrepareTexture does (the created image, view and sampler attached, a staging copy of its pixels, the single-submit commands recorded, the pixels freed), and one without pixels is left untouched; the mesh gets description |meshes| + 1, whose image binding reads the texture's view after the upload, so description m + 2 still belongs to mesh m |
| Scenes.Scene.DeleteMesh | Sources/Scene.cpp:471-482 | a mesh in the list is removed as an object, and the mesh and description index + 2 are erased together, so the description alignment survives; an absent mesh changes nothing |
| Scenes.Scene.AddLight | Sources/Scene.cpp:500-514 | the light is added as an object and appended; the spot-light count rises by one exactly for a spot light |
| Scenes.Scene.DeleteLight | Sources/Scene.cpp:486-496 | a light in the list is removed from the lights and as an object; an absent light changes nothing; the spot-light count is never lowered |
| Scenes.Scene.CreateUniformBuffers | Sources/Scene.cpp:843-862 | the per-mesh stride is the MeshData size rounded up to the device alignment (a multiple of it, at least the size, less than size + alignment); the staging slots are empty and the per-frame contents unwritten |
| Scenes.Scene.CreateFixedDescriptions | Sources/Scene.cpp:1464-1584 | description 0 is the offscreen one (one input attachment per swapchain view, two sets) and description 1 the cascade one (three bindings per frame, written from the cascade infos); both have no owning mesh |
| Scenes.Scene.CreateMeshDescriptions | Sources/Scene.cpp:1412-1448 | after the two fixed descriptions, description m + 2 is a fresh description written for mesh m |
| Scenes.Scene.StageMesh | Sources/Scene.cpp:185-201 | the cascade loop writes slots base .. base + 3 with the mesh's material and cascade indices 0 .. 3 and no other slot |
| Scenes.Scene.FillLights | Sources/Scene.cpp:206-215 | the lights loop builds LightsUpload of the scene's lights |
| Scenes.Scene.StageMeshes | Sources/Scene.cpp:181-202 | the mesh loop leaves the staging block equal to Staged of the meshes' materials |
| Scenes.Scene.Prepare | Sources/Scene.cpp:160-218 | the staging block gets every mesh's four slots, and only the current frame's per-mesh and lights buffers receive the staging block and the lights block |
| Scenes.Scene.FrameOf | Sources/Scene.cpp:236-360 | what a frame reads: the cascade set from description 1, the skybox set from description 2, and for mesh m description m + 2 (which mesh m owns) and its two draws |
| Scenes.Scene.Render | Sources/Scene.cpp:234-373 | records FrameTrace of the frame; render passes open and close in turn, the framebuffers begun are the spot shadow one per mesh, the four cascades, then the image's objects framebuffer, and every dynamic offset is a multiple of the device alignment |
| SceneFrames.RunAppend | Sources/Scene.cpp:234-373 | replaying two command runs in a row is replaying their concatenation |
| SceneFrames.RunOne | Sources/Scene.cpp:261-273 | replaying one command is one step of the pass-state machine |
| SceneFrames.RunThrough | Sources/Scene.cpp:234-373 | two runs that each succeed compose into one successful run |
| SceneFrames.StateCommandsKeep | Sources/Scene.cpp:253-281 | pipeline binds, descriptor binds and depth-bias commands leave the pass state as it was |
| SceneFrames.DrawsKeepPassOpen | Sources/Scene.cpp:270-300 | a mesh's buffer binds and draws keep an open pass open |
| SceneFrames.PassBalanced | Sources/Scene.cpp:261-273 | a pass that begins, records commands that keep it open and ends, returns to no pass open |
| SceneFrames.SpotPassBalanced | Sources/Scene.cpp:258-274 | one spot-shadow pass opens and closes cleanly |
| SceneFrames.SpotPassesOfMeshIsOne | Sources/Scene.cpp:258 | with one spot-shadow map, a mesh's spot loop is the single pass into map 0 |
| SceneFrames.SpotPassesBalanced | Sources/Scene.cpp:256-275 | the whole spot-shadow loop leaves no pass open and nests none |
| SceneFrames.CascadeMeshesInPass | Sources/Scene.cpp:290-301 | the mesh loop of a cascade pass keeps its pass open |
| SceneFrames.CascadePassesBalanced | Sources/Scene.cpp:283-305 | the cascade loop leaves no pass open and nests none |
| SceneFrames.MeshSweepInPass | Sources/Scene.cpp:326-360 | a sweep of the main pass over the meshes keeps the pass open |
| SceneFrames.MainPassBalanced | Sources/Scene.cpp:319-372 | the main pass opens and closes cleanly |
| SceneFrames.FramePassesBalanced | Sources/Scene.cpp:234-373 | a frame never begins a pass inside another and leaves none open |
| SceneFrames.BegunAppend | Sources/Scene.cpp:234-373 | the framebuffers begun by two runs in a row are those of the first then the second |
| SceneFrames.NoneBegun | Sources/Scene.cpp:265-271 | a run without a BeginPass begins no framebuffer |
| SceneFrames.PassBegun | Sources/Scene.cpp:260-273 | a balanced pass begins exactly its own framebuffer |
| SceneFrames.SpotPassesBegun | Sources/Scene.cpp:256-275 | the spot loop begins spot framebuffer 0 once per mesh |
| SceneFrames.CascadeMeshesNoBegin | Sources/Scene.cpp:290-301 | the mesh loop of a cascade pass begins no pass |
| SceneFrames.MeshSweepNoBegin | Sources/Scene.cpp:326-360 | a main-pass sweep begins no pass |
| SceneFrames.CascadePassesBegun | Sources/Scene.cpp:283-305 | the first n cascade passes begin cascade framebuffers 0 .. n-1 in order |
| SceneFrames.MainPassBegun | Sources/Scene.cpp:313-319 | the main pass begins only the framebuffer of the image index |
| SceneFrames.FramebufferOrder | Sources/Scene.cpp:234-373 | a frame begins spot framebuffer 0 once per mesh, then the four cascade framebuffers, then the image's objects framebuffer: meshes x spot maps + cascades + 1 passes |
| SceneFrames.CascadeMeshesAligned | Sources/Scene.cpp:296-297 | the cascade-pass offsets (4m + c) * stride, as uint32_t, are multiples of the alignment when the stride is |
| SceneFrames.MeshSweepAligned | Sources/Scene.cpp:328-357 | the main-pass offsets m * stride * 4, as uint32_t, are multiples of the alignment when the stride is |
| SceneFrames.SpotPassesAligned | Sources/Scene.cpp:267-268 | the spot-pass offsets are multiples of the alignment when the stride is |
| SceneFrames.CascadePassesAligned | Sources/Scene.cpp:283-305 | all cascade-pass offsets are multiples of the alignment when the stride is |
| SceneFrames.FrameOffsetsAligned | Sources/Scene.cpp:234-373 | every dynamic offset bound in a frame (the skybox's 0 included) is a multiple of the device alignment when the stride is |
| SceneFrames.RecordSpotPasses | Sources/Scene.cpp:256-275 | the spot loop records SpotPasses over all meshes |
| SceneFrames.RecordCascadePasses | Sources/Scene.cpp:281-305 | the cascade loop records the four cascade passes |
| SceneFrames.RecordCascadePass | Sources/Scene.cpp:286-304 | one cascade iteration records CascadePass c |
| SceneFrames.RecordMeshSweep | Sources/Scene.cpp:326-333 | one mesh loop of the main pass records MeshSweep over all meshes |
| SceneFrames.RecordFrame | Sources/Scene.cpp:234-373 | Render records FrameTrace of the frame |
| SceneLayout.ClearLowBitsRoundsDown | Sources/Scene.cpp:843 | x & ~(2^k - 1) is x rounded down to a multiple of 2^k |
| SceneLayout.StrideRoundsUp | Sources/Scene.cpp:843 | for any power-of-two alignment up to 2^31 the per-mesh stride is the least multiple of the alignment not below sizeof(MeshData) |
| SceneLayout.StrideAligned | Sources/Scene.cpp:843 | for alignments up to 2^31 the alignment divides 2^32, and the stride is an aligned value in [sizeof(MeshData), sizeof(MeshData) + alignment) |
| SceneLayout.MainOffsetIsFirstCascade | Sources/Scene.cpp:267-328 | the offset m * stride * 4 of the spot and main passes is the cascade-0 slot of mesh m |
| SceneLayout.OffsetsAligned | Sources/Scene.cpp:267-355 | every uint32_t dynamic offset is a multiple of the alignment when the stride is, wrap-around included |
| SceneLayout.SlotIndexInverse | Sources/Scene.cpp:187 | slot 4m + c, for c < 4, gives back m and c |
| SceneLayout.SlotsDisjoint | Sources/Scene.cpp:187 | distinct (mesh, cascade) pairs occupy disjoint stride-long byte ranges |
| SceneLayout.StagingAsWrittenOverflows | Sources/Scene.cpp:849-855 | as written, the staging block of meshesCount * 4 bytes ends before Prepare's last write for every non-empty scene, and within the 25-mesh bound it is smaller than the per-mesh buffer the upload copies from it |
| SceneLayout.StagingCounterexample | Sources/Scene.cpp:849-855 | three meshes with a 256-byte stride: a 12-byte block, while the second slot already starts at byte 256 and the last write ends at byte 2916 |
| SceneLayout.StagingFits | Sources/Scene.cpp:849-853 | with the block sized to the per-mesh buffer (100 strides), every slot Prepare writes lies inside it while the meshes fill at most 100 slots |
| Skyboxes.FacePath | Sources/Skybox.cpp:13-27 | face k's path is the folder, then face k's name (right, left, up, down, back, front), then the extension |
| Skyboxes.FacePixels | Sources/Skybox.cpp:27 | a face decoded with four channels holds width * height * 4 bytes (uint32_t) |
| Skyboxes.FaceImages | Sources/Skybox.cpp:23-30 | six faces, face k decoded from its own path |
| Skyboxes.LoadFaces | Sources/Skybox.cpp:11-30 | six distinct fresh textures, face k loaded from its path, and m_Size the uint32_t sum of the faces' byte counts |
| Skyboxes.LoadNext | Sources/Skybox.cpp:24-30 | one loop iteration loads the next face and adds its byte count, keeping the faces already loaded |
| Skyboxes.SumStep | Sources/Skybox.cpp:29 | accumulating the uint32_t size face by face gives the wrapped sum of all face sizes |
| Skyboxes.LoadFace | Sources/Skybox.cpp:26-29 | a fresh texture loaded from the path, and its byte count |
| Skyboxes.CubeBuffers | Sources/Skybox.cpp:32-36 | a vertex buffer of 8 vec3 holding the cube corners and an index buffer of 36 uint16_t holding the cube indices |
| Skyboxes.Skybox.constructor | Sources/Skybox.cpp:9-49 | six faces loaded from their paths, m_Size their total byte count, and fresh vertex and index buffers filled with the cube tables |
| Skyboxes.Skybox.Render | Sources/Skybox.cpp:53-62 | binds the vertex and 16-bit index buffers and draws 36 indices, exactly the index count its buffer decodes to |
| Skyboxes.Skybox.FreeTextures | Sources/Skybox.cpp:66-72 | every face's pixels are freed and its image, view, memory and sampler kept |
| SkyboxTables.FaceIndices | Headers/Skybox.h:44-63 | the six indices of one cube face, in table order |
| SkyboxTables.TableSizes | Headers/Skybox.h:32-63 | 8 cube corners and 36 indices, six per face |
| SkyboxTables.IndicesCoverVertices | Headers/Skybox.h:32-63 | every index names a corner, and every corner is used |
| SkyboxTables.UnitCoordinates | Headers/Skybox.h:32-42 | every corner coordinate is -1 or 1 |
| SkyboxTables.FacePlane | Headers/Skybox.h:44-63 | each face has an axis and a side of the unit cube |
| SkyboxTables.FacesAreQuads | Headers/Skybox.h:44-63 | each face's six indices lie on one side of the cube and name exactly four corners |
| SkyboxTables.QuadCorners | Headers/Skybox.h:47 | two triangles a,b,c and c,d,a sharing a diagonal name four corners |
| SkyboxTables.TrianglesShareDiagonal | Headers/Skybox.h:44-63 | each face is two triangles a,b,c and c,d,a joined along their shared diagonal |
| SkyboxTables.IndexBytes | Sources/Skybox.cpp:35-36 | the uint16_t index upload is two bytes per index |
| SkyboxTables.DecodeIndices | Sources/Skybox.cpp:35-36 | reading 16-bit indices back yields one index per two bytes |
| SkyboxTables.IndexBytesRoundTrip | Sources/Skybox.cpp:35-36 | the index buffer reads back as the indices uploaded |
| SkyboxTables.VertexBytes | Sources/Skybox.cpp:32-33 | the vec3 upload is twelve bytes per corner |
| SkyboxTables.DecodeVertices | Sources/Skybox.cpp:32-33 | reading vec3 corners back yields one corner per twelve bytes |
| SkyboxTables.VertexBytesRoundTrip | Sources/Skybox.cpp:32-33 | unit corners uploaded as floats read back as the same corners |
| SkyboxTables.SignByte | Sources/Skybox.cpp:32-33 | the fourth byte of each float is the byte carrying its sign |
| SkyboxTables.CubeVertexBytes | Sources/Skybox.cpp:32-33 | the corner upload is 96 bytes |
| SkyboxTables.CubeIndexBytes | Sources/Skybox.cpp:35-36 | the index upload is 72 bytes |
| SkyboxTables.CubeBytesRoundTrip | Sources/Skybox.cpp:32-36 | the skybox buffers read back as the corner and index tables |
| Textures.BitLength | Sources/Texture.cpp:16 | the number of binary digits of n: 2^(r-1) <= n < 2^r |
| Textures.MipLevels | Sources/Texture.cpp:16 | floor(log2(max(w, h))) + 1: the count r with 2^(r-1) <= max(w, h) < 2^r |
| Textures.LastMipIsOneTexel | Sources/Texture.cpp:16 | halving the larger side MipLevels - 1 times leaves one texel |
| Textures.BitLengthMonotone | Sources/Texture.cpp:16 | a larger side never has fewer mip levels |
| Textures.Texture.constructor | Sources/Texture.cpp:11-17 | the path, size and channels of the decoded image, its mip level count, and width * height * channels bytes of pixels |
| Textures.Texture.FreeTexture | Sources/Texture.cpp:21-24 | clears the pixels and keeps the image, view, memory and sampler |
| Spheres.Truncated | Headers/Mesh.h:63 | pushing an index into the uint16_t index vector keeps it modulo 2^16 |
| Spheres.TruncatedAppend | Headers/Mesh.h:63 | truncating two index runs one after the other is truncating their concatenation |
| Spheres.TruncatedIsIdentity | Headers/Mesh.h:63 | indices below 2^16 are stored unchanged |
| Spheres.GridVertices | Sources/Sphere.cpp:23-105 | (precision + 1)^2 vertices, vertex k being grid point (k mod (precision + 1), k div (precision + 1)), row by row |
| Spheres.GridRow | Sources/Sphere.cpp:25-104 | one row of the vertex loop appends the precision + 1 points of that row |
| Spheres.GridVertexAt | Sources/Sphere.cpp:23-47 | grid point (x, y) sits at index y * (precision + 1) + x |
| Spheres.Int32Of | Sources/Sphere.cpp:62 | the int32_t loop counter starts at precision, which is negative when precision is 2^31 or more |
| Spheres.EvenRowIndices | Sources/Sphere.cpp:54-58 | an even row pushes, for x from 0 to precision, the lower then the upper grid index |
| Spheres.OddRowIndices | Sources/Sphere.cpp:62-66 | an odd row pushes, for x from precision down to 0, the upper then the lower grid index; with precision >= 2^31 the int32_t counter starts negative and nothing is pushed |
| Spheres.StripRowAt | Sources/Sphere.cpp:50-69 | row y of the strip is the even-row pattern on even y and the odd-row pattern on odd y |
| Spheres.StripIndices | Sources/Sphere.cpp:49-70 | the strip loop pushes StripRows(precision, precision), each index kept as uint16_t |
| Spheres.StripRowIndices | Sources/Sphere.cpp:52-69 | one strip row, chosen by the oddRow flag that alternates with y |
| Spheres.EvenRowPair | Sources/Sphere.cpp:56-57 | pair k of an even row is (lower + k, upper + k) |
| Spheres.OddRowPair | Sources/Sphere.cpp:64-65 | pair k of an odd row is (upper + precision - k, lower + precision - k) |
| Spheres.StripRowOrder | Sources/Sphere.cpp:50-69 | every strip row zig-zags between grid rows y and y + 1, left to right on even rows and right to left on odd rows |
| Spheres.StripTurnsInPlace | Sources/Sphere.cpp:50-69 | each row starts at the column where the previous one ended, so the strip turns without a jump |
| Spheres.StripLength | Sources/Sphere.cpp:50-69 | n strip rows hold 2n(precision + 1) indices |
| Spheres.StripIndexCount | Sources/Sphere.cpp:49-70 | the whole strip holds 2 * precision * (precision + 1) indices |
| Spheres.EvenRowBelow | Sources/Sphere.cpp:56-57 | an even row's indices stay below any bound above its last lower index |
| Spheres.OddRowBelow | Sources/Sphere.cpp:64-65 | an odd row's indices stay below any bound above its last lower index |
| Spheres.StripRowInRange | Sources/Sphere.cpp:50-69 | every index of a strip row names a grid vertex |
| Spheres.StripIndicesInRange | Sources/Sphere.cpp:49-70 | every index of the strip names one of the (precision + 1)^2 vertices |
| Spheres.ListQuad | Sources/Sphere.cpp:115-127 | one cell pushes three indices unless it is in the top stack, and three more unless it is in the bottom stack |
| Spheres.ListRowLength | Sources/Sphere.cpp:113-128 | a stack of n cells pushes 6n indices, minus 3n in the top stack and 3n in the bottom stack |
| Spheres.ListRowIndices | Sources/Sphere.cpp:110-128 | one stack of the list loop pushes ListRowFrom over its cells, kept as uint16_t |
| Spheres.ListQuadIndices | Sources/Sphere.cpp:115-127 | one cell pushes ListQuad with k2 = k1 + precision + 1 |
| Spheres.ListIndices | Sources/Sphere.cpp:107-129 | the list loop pushes ListRows(precision, precision), each kept as uint16_t |
| Spheres.ListQuadInCell | Sources/Sphere.cpp:110-127 | every index of cell (i, j) is one of its four corners, and an inner cell's two triangles share the diagonal k1 + 1, k2 |
| Spheres.ListRowBelow | Sources/Sphere.cpp:113-128 | a stack's indices stay below any bound past its last k2 + 1 |
| Spheres.ListIndicesInRange | Sources/Sphere.cpp:107-129 | every index of the list names one of the (precision + 1)^2 vertices |
| Spheres.ListLength | Sources/Sphere.cpp:108-129 | n stacks push 6 * precision * n - 3 * precision indices, 3 * precision fewer when the bottom stack is among them |
| Spheres.ListIndexCount | Sources/Sphere.cpp:107-129 | the whole list holds 6 * precision * (precision - 1) indices: two triangles per cell, one in each pole stack |
| Spheres.BuildSphere | Sources/Sphere.cpp:13-135 | the mesh gets the (precision + 1)^2 grid vertices, its indices gain the strip or list indices as uint16_t, and fresh vertex and index buffers hold their bytes |
| Spheres.ListFits | Sources/Sphere.cpp:107-129 | when the vertex count fits 16 bits every list index is stored unchanged |
| Spheres.SceneSphereFits | Sources/Scene.cpp:75 | the scene's precision-64 sphere has 4225 vertices, within 16-bit indices, and 24192 list indices |
| UniformDescriptions.SourceOf | Headers/UniformDescription.h:119-146 | image-like descriptor types read the image info, the four plain buffer types the buffer info and the two texel-buffer types the buffer view, each iff |
| UniformDescriptions.LayoutBindings | Headers/UniformDescription.h:52-67 | binding i has index i, description i's type and stage flags, and one descriptor |
| UniformDescriptions.InfoIndex | Headers/UniformDescription.h:102-127 | the info read for a frame and binding lies inside the info list |
| UniformDescriptions.BlockInside | Headers/UniformDescription.h:102-110 | frame f's block of infos, starting at f * (count / frames), lies inside the list |
| UniformDescriptions.OffscreenInfosDisjoint | Headers/UniformDescription.h:110-127 | with isOffscreen set, no two (frame, binding) pairs read the same info |
| UniformDescriptions.OnscreenInfosShared | Headers/UniformDescription.h:110-127 | without isOffscreen every frame reads the first block: binding d reads info d in every frame |
| UniformDescriptions.FrameWrites | Headers/UniformDescription.h:105-149 | the writes of one frame: write d targets the frame's set, binding d, description d's type and the info InfoIndex selects; the entries past the descriptions are value-initialised |
| UniformDescriptions.DescriptorWrites | Headers/UniformDescription.h:95-152 | one list of writes per frame, each as FrameWrites states |
| UniformDescriptions.UniformDescription.constructor | Headers/UniformDescription.h:43-153 | the layout bindings of LayoutBindings, one layout and one allocated set per frame, and every binding of every set written from its info |
| SceneNames.DigitChar | Sources/Scene.cpp:1921 | a single decimal digit becomes a character between '0' and '9' |
| SceneNames.DecimalString | Sources/Scene.cpp:1921 | std::to_string of a non-negative index is non-empty, made only of decimal digits, and starts with '0' exactly when the number is 0 |
| SceneNames.DecimalRoundTrip | Sources/Scene.cpp:1921 | reading the decimal string back gives the number: to_string loses nothing |
| SceneNames.DecimalStringInjective | Sources/Scene.cpp:1921 | distinct indices give distinct decimal strings |
| SceneNames.NameAt | Sources/Scene.cpp:1914-1921 | every candidate name starts with the requested name |
| SceneNames.NameAtInjective | Sources/Scene.cpp:1917-1921 | the candidates name, name1, name2, ... are pairwise distinct |
| SceneNames.CandidatesCount | Sources/Scene.cpp:1917-1921 | the first k candidates are k different names |
| SceneNames.DistinctEntriesBound | Sources/Scene.cpp:1917 | the name list holds no more distinct names than it has entries |
| SceneNames.TakenCandidatesBound | Sources/Scene.cpp:1917-1922 | if the first k candidates are all in use, the list has at least k entries, so the search loop terminates |
| SceneNames.DefinitiveName | Sources/Scene.cpp:1912-1926 | the name chosen is the first candidate not in use: it is not in the list, every earlier candidate is, it is the requested name when that is free, and the index never exceeds the list length |
| SceneNames.IndexOf | Sources/Scene.cpp:443 | std::find: the first position holding x, or the length when x is absent |
| SceneNames.Erase | Sources/Scene.cpp:447-448 | vector::erase of one position: one entry shorter, entries before it unchanged, entries after it shifted down by one |
| SceneNames.EraseKeepsDistinct | Sources/Scene.cpp:447-448 | erasing from a list of distinct entries keeps it distinct, removes the erased entry and keeps every other one |
| SceneNames.Without | Sources/Scene.cpp:441-450 | find-then-erase shortens the list by one when x is present and leaves it unchanged otherwise |
| SceneNames.WithoutAt | Sources/Scene.cpp:446-448 | the names list loses the entry at the removed object's position, so it stays as long as the object list |
| SceneNames.WithoutUndoesAppend | Sources/Scene.cpp:436-450 | removing an object just appended, which was absent before, gives the previous list back |
| SceneNames.WithoutAtUndoesAppend | Sources/Scene.cpp:441-450 | removing that object also gives the previous names list back |
| SceneNames.WithoutKeepsOthers | Sources/Scene.cpp:471-496 | find-then-erase removes exactly one occurrence of x and keeps the count of every other element |

## Left out

- Floating-point math. This covers cascade splits and light frustums
  (`Sources/Shadow.cpp`), camera and object transforms, light direction updates and
  the sphere's sin/cos vertex positions. These values are parameters: the sphere's
  positions are given, and `Scene::Prepare`'s view transform is a given function.
- Scenes.Scene.Prepare: models the staging of mesh materials and the light block.
  It leaves out the view-projection and cascade matrices and the spot-shadow buffer
  updates of `Sources/Scene.cpp:160-232`, which are glm float math.
- Scenes.Scene.Prepare: requires at most 4 lights and at most 25 meshes. Beyond
  those, the source writes past the 4-entry `UBOLights` array or past the
  100-element per-mesh buffer, and the model does not define what such a write does.
- RenderHandles.RenderHandle.PrepareTexture: requires non-empty pixels to hold at
  least width * height * 4 bytes. The source copies that many bytes without checking.
- UniformDescriptions.UniformDescription.constructor: requires at most
  |infos| / pendingFrames descriptions. The source's write array has that length but
  is indexed by binding number, so more descriptions would write past it.
- Every `vk*` call is left out: the driver's results are parameters. The Vulkan
  objects that only configure the pipeline are not modelled. These are the render
  passes, framebuffers, pipelines, pipeline layouts, shader modules and the depth
  image (`Scene::CreateRenderPasses*`, `CreateFrameBuffers*`,
  `CreateGraphicsPipelines` beyond the stride, `CreatePipelineLayout*` beyond the
  uniform descriptions, `CreateDepthBuffer`, `CreateImagesForObjects`,
  `CreateShaderModule`). `Scene::Shutdown` only destroys what those calls made.
- `Scene::Setup` as a whole is left out. It chains the creations above and builds a
  fixed demo scene: a sphere, two imported models, one directional light and a
  skybox. It does this through operations the model has (`AddObject`, `AddLight`,
  the `Sphere`, `Mesh` and `Skybox` constructors, `PrepareTexture`,
  `PrepareSkybox`), but the fixed sequence itself is not modelled.
- GPU execution and the meaning of fences and semaphores. Only the CPU-side slot
  protocol and the fence states the CPU sets and waits on are modelled.
- `RenderHandle::Shutdown`, `RenderHandle::PrepareShadow` and
  `RenderHandle::RetrieveQueueFamilyProperties` are left out. They only release
  handles, create one sampler, or query the driver. The queried queue families are a
  parameter.
- Window, input, the ImGui editor and application bootstrap. The UI draw is a single
  event in the frame trace.
- The Assimp importer and the stb image decoder. Their outputs (`ImportedScene`,
  `DecodedImage`) are given values.
- The vertex-attribute layout via `offsetof`, which depends on C++ struct layout.
  `sizeof(VertexData)` and `sizeof(MeshData)` are constants.
- Meshes.Mesh.constructor and Spheres.BuildSphere: the bytes of one `VertexData` are
  a parameter of 48 bytes (the mesh's `vertexLayout`). The compiler's struct layout,
  float encoding and padding are not modelled.
- Buffers.Buffer.UpdateChunks: a chunk copy that runs past the mapped memory is
  undefined behaviour in C++. The model keeps the bytes that land inside the memory,
  drops the rest and reports the overrun. It does not model what the bytes past the
  end overwrite. StageChunks, UploadSkybox and PrepareSkybox inherit this.
- Spheres.BuildSphere: for the strip it requires p + 1 < 2^32. At p = UINT32_MAX the
  source's unsigned `y <= precision` and `x <= precision` loops never end. For the
  list it requires (p + 1)^2 <= 2^31, beyond which the source's `int` index
  arithmetic overflows, which is undefined behaviour.
- Scenes.Scene.AddMesh: the material's `Texture` object is a parameter, because the
  model's material keeps only the texture paths. The result of `PrepareTexture` is
  ignored, as in the source.
- Scenes.Scene.UpdateMeshBuffer: requires at least two pending frames. The source
  sizes its info list to 9 * pendingFrames (Sources/Scene.cpp:1770) but writes entries
  0 to 17 unconditionally (Sources/Scene.cpp:1885-1904), so fewer frames write past
  the list, which is undefined behaviour.
- Scenes.Scene.AddMesh: requires at least two pending frames, for the same reason,
  through UpdateMeshBuffer.
- Scenes.NewMeshDescription: requires at least two pending frames, for the same reason.
- Scenes.Scene.CreateMeshDescriptions: requires at least two pending frames. The mesh
  loop writes entries 0 to 17 of a 9 * pendingFrames list
  (Sources/Scene.cpp:1426-1445).
- Scenes.Scene.CreateFixedDescriptions: requires at least two pending frames. The
  cascade set writes entries 0 to 5 of a 3 * pendingFrames list
  (Sources/Scene.cpp:1577-1582).
- Devices.Device.RetrieveMaxAntialiasingLevel: when no device was picked, the source
  reads the unset `m_PhysicalDeviceProperties`. The model takes that unset value as a
  parameter.
- Objects.Light.constructor: `static_cast<OBJECT_TYPE>` is read with the C++20
  modular conversion. Older standards leave out-of-range values implementation-defined.
  The Object type of a Mesh is never set by the source and is not modelled.
- RenderHandles.CreateImages: the source's failure return after a failed memory
  allocation cannot happen, because `Device::AllocateMemory` always reports success.
  The model therefore has no failure branch.
- Spheres.SceneSphereFits: states the index-width bound for the scene's sphere
  (p = 64) as arithmetic on the counts. The sphere itself is not built there.
- `RenderCommand::m_IsSetup`, `RenderHandle::m_PendingFrames` and
  `Scene::m_SpotLightCount` are not initialised by their constructors. The model
  starts them at false, 0 and 0.
- `DeleteMesh` erases mesh *i* and description *i + 2* together, so meshes and
  descriptions stay aligned (Sources/Scene.cpp:471-482).
- `Buffer::Destroy` releases its handles without clearing them, so a second call
  releases them again (Headers/Buffer.h:67-73).

## Findings

| source | as written | input that shows it | evidently intended | confidence | as-written member | corrected member |
|---|---|---|---|---|---|---|
| Sources/Scene.cpp:855 | the staging block `m_MeshesData` is allocated `meshesCount * SHADOWMAP_CASCADE_COUNT` bytes | 3 meshes, stride 256: a 12-byte block, while `Prepare` writes slots up to byte 2916 | a block as large as the per-mesh buffer it is uploaded to, 100 * stride bytes | not executed | SceneLayout.StagingAsWrittenOverflows, SceneLayout.StagingCounterexample | SceneLayout.StagingFits |
| Sources/Device.cpp:362 | the sample counts are the numeric minimum of the colour and depth masks | colour {1,2,4,8} (0x0F), depth {1,4,16} (0x15): 8 samples are chosen, which the depth attachment does not support | the bitwise AND, so the level is supported by both attachments | not executed | Devices.AntialiasingAsWrittenExceedsDepth | Devices.MaxAntialiasingSupported |
| Sources/Tools/LoaderFbx.cpp:107 | the triangle test reads the index count of the mesh's first face for every face | faces [[0,1],[0,1,2]]: the triangle is dropped | test each face's own index count | not executed | LoaderFbx.FirstFaceGateDropsTriangles | LoaderFbx.TriangleSlot |
| Sources/Tools/LoaderFbx.cpp:110-112 | face indices are appended without the vertex count of the earlier meshes | two meshes of one triangle over three vertices each: the indices are 0,1,2,0,1,2 | add the earlier meshes' vertex count, giving 0,1,2,3,4,5 | not executed | LoaderFbx.IndicesMissEarlierMeshes | LoaderFbx.IndicesFollowEarlierMeshes |
