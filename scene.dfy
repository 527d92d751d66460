// Sources/Scene.cpp and Headers/Scene.h: the Scene class. It keeps the named objects,
// the meshes and lights, one UniformDescription per mesh after the offscreen and
// cascade ones, the per-mesh staging block and the per-frame uniform data, and records
// each frame's commands. The Vulkan objects it creates (render passes, images,
// framebuffers, shader modules, pipelines) are handles it is given.
module Scenes {
  import opened Common
  import opened Objects
  import opened Buffers
  import opened Meshes
  import opened DrawEvents
  import opened Initializers
  import opened UniformDescriptions
  import opened Skyboxes
  import opened SceneLayout
  import opened SceneFrames
  import opened SceneNames
  import Devices
  import Textures
  import RenderCommands
  import RenderHandles

  // ---------------------------------------------------------- per-mesh data

  /** One MeshData slot of the per-mesh buffer, as far as it is modelled: the material and
      m_CascadeShadowIndex. None stands for a slot nothing has written. */
  datatype MeshSlot = MeshSlot(material: MaterialData, cascadeShadowIndex: nat)

  /** The staging block after Prepare has filled the slots of meshes with these materials
      over `previous`: slot i below 4 * |materials| belongs to mesh i / 4 and cascade
      i % 4, and every later slot keeps what it held. */
  function Staged(previous: seq<Option<MeshSlot>>, materials: seq<MaterialData>): (r: seq<Option<MeshSlot>>)
    requires |materials| * CascadeCount <= |previous|
    ensures |r| == |previous|
  {
    seq(|previous|, i requires 0 <= i < |previous| =>
      if i < |materials| * CascadeCount then Some(MeshSlot(materials[i / CascadeCount], i % CascadeCount)) else previous[i])
  }

  /** The slot of mesh m and cascade c holds mesh m's material and the index c; the slots
      past the meshes are untouched. */
  lemma StagedSlots(previous: seq<Option<MeshSlot>>, materials: seq<MaterialData>, mesh: nat, cascade: nat)
    requires |materials| * CascadeCount <= |previous| && mesh < |materials| && cascade < CascadeCount
    ensures SlotIndex(mesh, cascade) < |previous|
    ensures Staged(previous, materials)[SlotIndex(mesh, cascade)] == Some(MeshSlot(materials[mesh], cascade))
    ensures forall i :: |materials| * CascadeCount <= i < |previous| ==> Staged(previous, materials)[i] == previous[i]
  {
    SlotIndexInverse(mesh, cascade);
    MulMonotone(mesh + 1, |materials|, CascadeCount);
  }

  /** Slot i lies in mesh n's block exactly when it is one of its four cascade slots. */
  lemma SlotOfIndex(i: nat, n: nat)
    ensures i < (n + 1) * CascadeCount <==> i < n * CascadeCount || n * CascadeCount <= i < n * CascadeCount + CascadeCount
    ensures n * CascadeCount <= i < n * CascadeCount + CascadeCount ==>
              i / CascadeCount == n && i % CascadeCount == i - n * CascadeCount
  {
    if n * CascadeCount <= i < n * CascadeCount + CascadeCount {
      QuotientRemainder(n, CascadeCount, i - n * CascadeCount);
    }
  }

  /** The material data of each mesh, in order. */
  function MaterialsOf(meshes: seq<Mesh>): (r: seq<MaterialData>)
    reads meshes
    ensures |r| == |meshes|
    ensures forall m :: 0 <= m < |meshes| ==> r[m] == meshes[m].material.data
  {
    if |meshes| == 0 then [] else MaterialsOf(meshes[..|meshes| - 1]) + [meshes[|meshes| - 1].material.data]
  }

  // ---------------------------------------------------------------- lights

  /** The length of UBOLights::m_lights. */
  const LightsCapacity: nat := 4

  /** UBOLights: four light entries and the count. */
  datatype LightsBlock = LightsBlock(lights: seq<LightData>, count: nat)

  const ZeroVector: Vec4 := Vec4(0.0, 0.0, 0.0, 0.0)
  const ZeroLight: LightData := LightData(ZeroVector, ZeroVector, ZeroVector, 0.0, 0.0, 0.0, 0.0, 0)

  /** A value-initialised UBOLights. */
  const EmptyLights: LightsBlock := LightsBlock(seq(LightsCapacity, _ => ZeroLight), 0)

  /** A light's entry in view space: the position through the inverse view matrix, the
      direction's xyz through its upper 3x3 with w = 1. The two glm products are
      parameters. */
  function InView(data: LightData, pointToView: Vec4 -> Vec4, directionToView: Vec3 -> Vec3): LightData
  {
    var d := directionToView(Vec3(data.direction.x, data.direction.y, data.direction.z));
    data.(position := pointToView(data.position), direction := Vec4(d.x, d.y, d.z, 1.0))
  }

  /** The lights block Prepare uploads for these lights. */
  function LightsUpload(datas: seq<LightData>, pointToView: Vec4 -> Vec4, directionToView: Vec3 -> Vec3): (r: LightsBlock)
    requires |datas| <= LightsCapacity
    ensures r.count == |datas| && |r.lights| == LightsCapacity
    ensures forall i :: 0 <= i < |datas| ==>
              var entry, light := r.lights[i], datas[i];
              entry.color == light.color && entry.radius == light.radius && entry.angle == light.angle &&
              entry.intensity == light.intensity && entry.attenuation == light.attenuation &&
              entry.lightType == light.lightType &&
              entry.position == pointToView(light.position) && entry.direction.w == 1.0
    ensures forall i :: |datas| <= i < LightsCapacity ==> r.lights[i] == ZeroLight
  {
    LightsBlock(seq(LightsCapacity, i requires 0 <= i < LightsCapacity =>
                      if i < |datas| then InView(datas[i], pointToView, directionToView) else ZeroLight),
                |datas|)
  }

  /** The data of each light, in order. */
  function LightDatas(lights: seq<Light>): (r: seq<LightData>)
    reads lights
    ensures |r| == |lights|
    ensures forall i :: 0 <= i < |lights| ==> r[i] == lights[i].data
  {
    if |lights| == 0 then [] else LightDatas(lights[..|lights| - 1]) + [lights[|lights| - 1].data]
  }

  // ------------------------------------------------------------ descriptors

  /** The buffers and images the descriptor sets point at: two of each per-frame buffer
      (the view/projection, per-mesh, lights, cascade and spot-shadow buffers), the
      skybox face and the two shadow maps, and the swapchain image views. */
  datatype SceneResources = SceneResources(
    vpBuffers: seq<Handle>,
    perMeshBuffers: seq<Handle>,
    lightBuffers: seq<Handle>,
    cascadeBuffers: seq<Handle>,
    spotBuffers: seq<Handle>,
    skyboxImage: Handle,
    cascadeImage: Handle,
    spotImage: Handle,
    swapchainViews: seq<Handle>)

  /** Two of each per-frame buffer, as the scene creates them, and two swapchain views. */
  predicate ResourcesCover(r: SceneResources)
  {
    |r.vpBuffers| == 2 && |r.perMeshBuffers| == 2 && |r.lightBuffers| == 2 &&
    |r.cascadeBuffers| == 2 && |r.spotBuffers| == 2 && |r.swapchainViews| >= 2
  }

  /** The bindings of a mesh's set: view and projection, per-mesh data (dynamic), mesh
      texture, skybox, lights, cascade shadow map, cascade shadow data, spot shadow map,
      spot shadow data. */
  const MeshDescriptions: seq<Description> := [
    Description(UniformBuffer, VertexStage),
    Description(UniformBufferDynamic, VertexFragmentStage),
    Description(CombinedImageSampler, FragmentStage),
    Description(CombinedImageSampler, FragmentStage),
    Description(UniformBuffer, FragmentStage),
    Description(CombinedImageSampler, FragmentStage),
    Description(UniformBuffer, VertexFragmentStage),
    Description(CombinedImageSampler, FragmentStage),
    Description(UniformBuffer, VertexStage)]

  /** What binding `binding` of a mesh's set for frame `frame` reads: the frame's own
      buffers and the shared images for the first two frames, nothing for later ones. */
  function MeshInfo(r: SceneResources, texture: Handle, frame: nat, binding: nat): Handle
    requires ResourcesCover(r) && binding < |MeshDescriptions|
  {
    if frame < 2 then
      [r.vpBuffers[frame], r.perMeshBuffers[frame], texture, r.skyboxImage, r.lightBuffers[frame],
       r.cascadeImage, r.cascadeBuffers[frame], r.spotImage, r.spotBuffers[frame]][binding]
    else NullHandle
  }

  /** The info list UpdateMeshBuffer fills: 9 entries per pending frame, the first two
      blocks set, the rest value-initialised. */
  function MeshInfos(r: SceneResources, texture: Handle, pendingFrames: nat): (infos: seq<Handle>)
    requires ResourcesCover(r)
    ensures |infos| == |MeshDescriptions| * pendingFrames
  {
    seq(|MeshDescriptions| * pendingFrames, i requires 0 <= i < |MeshDescriptions| * pendingFrames =>
      MeshInfo(r, texture, i / |MeshDescriptions|, i % |MeshDescriptions|))
  }

  /** The UniformDescription constructor reads binding d of frame f from entry 9 f + d,
      which is what the scene put there for that frame and binding. */
  lemma MeshInfosLayout(r: SceneResources, texture: Handle, pendingFrames: nat, frame: nat, binding: nat)
    requires ResourcesCover(r) && 1 <= pendingFrames && frame < pendingFrames && binding < |MeshDescriptions|
    ensures |MeshDescriptions| <= |MeshInfos(r, texture, pendingFrames)| / pendingFrames
    ensures InfoIndex(frame, binding, |MeshInfos(r, texture, pendingFrames)|, pendingFrames, true) == frame * |MeshDescriptions| + binding
    ensures MeshInfos(r, texture, pendingFrames)[frame * |MeshDescriptions| + binding] == MeshInfo(r, texture, frame, binding)
  {
    var n := |MeshDescriptions|;
    QuotientRemainder(n, pendingFrames, 0);
    assert n * pendingFrames == pendingFrames * n;
    MulMonotone(frame + 1, pendingFrames, n);
    QuotientRemainder(frame, n, binding);
  }

  /** A mesh's uniform description as UpdateMeshBuffer builds it: the nine bindings with
      their types and stages, one set per frame, and binding d of frame f's set written
      from MeshInfo for f and d. */
  ghost predicate MeshDescriptionWritten(ud: UniformDescription, r: SceneResources, texture: Handle,
                                         pendingFrames: nat, sets: seq<Handle>)
    reads ud
    requires ResourcesCover(r)
  {
    |ud.layoutBindings| == |MeshDescriptions| &&
    (forall i :: 0 <= i < |MeshDescriptions| ==>
       ud.layoutBindings[i] == LayoutBinding(i, MeshDescriptions[i].kind, StageFlags(MeshDescriptions[i].stage), 1)) &&
    ud.descriptors == sets && |sets| == pendingFrames && |ud.updates| == pendingFrames &&
    forall f, d :: 0 <= f < pendingFrames && 0 <= d < |MeshDescriptions| ==>
      |ud.updates[f]| == |MeshDescriptions| &&
      Targets(ud.updates[f][d], sets[f], d, MeshDescriptions[d].kind, MeshInfo(r, texture, f, d))
  }

  /** The per-mesh description of UpdateMeshBuffer and of CreatePipelineLayoutObjects. The
      info list is written up to entry 17, so there must be at least two pending frames.
      The layout and sets the driver returns are parameters. */
  method NewMeshDescription(r: SceneResources, texture: Handle, pendingFrames: nat,
                            createdLayout: Handle, allocatedSets: seq<Handle>)
    returns (ud: UniformDescription)
    requires ResourcesCover(r) && 2 <= pendingFrames && |allocatedSets| == pendingFrames
    ensures fresh(ud) && MeshDescriptionWritten(ud, r, texture, pendingFrames, allocatedSets)
  {
    var infos := MeshInfos(r, texture, pendingFrames);
    MeshInfosLayout(r, texture, pendingFrames, 0, 0);
    ud := new UniformDescription(MeshDescriptions, infos, pendingFrames, true, createdLayout, allocatedSets);
    forall f, d | 0 <= f < pendingFrames && 0 <= d < |MeshDescriptions|
      ensures Targets(ud.updates[f][d], allocatedSets[f], d, MeshDescriptions[d].kind, MeshInfo(r, texture, f, d))
    {
      MeshInfosLayout(r, texture, pendingFrames, f, d);
    }
  }

  /** The bindings of the cascade shadow set: the cascade data, the per-mesh data
      (dynamic) and the spot-shadow data, all for the vertex stage. */
  const CascadeDescriptions: seq<Description> := [
    Description(UniformBuffer, VertexStage),
    Description(UniformBufferDynamic, VertexStage),
    Description(UniformBuffer, VertexStage)]

  function CascadeInfo(r: SceneResources, frame: nat, binding: nat): Handle
    requires ResourcesCover(r) && binding < |CascadeDescriptions|
  {
    if frame < 2 then [r.cascadeBuffers[frame], r.perMeshBuffers[frame], r.spotBuffers[frame]][binding]
    else NullHandle
  }

  /** The info list of CreatePipelineLayoutShadowCascade: three entries per pending
      frame, the first two blocks set. */
  function CascadeInfos(r: SceneResources, pendingFrames: nat): (infos: seq<Handle>)
    requires ResourcesCover(r)
    ensures |infos| == |CascadeDescriptions| * pendingFrames
  {
    seq(|CascadeDescriptions| * pendingFrames, i requires 0 <= i < |CascadeDescriptions| * pendingFrames =>
      CascadeInfo(r, i / |CascadeDescriptions|, i % |CascadeDescriptions|))
  }

  lemma CascadeInfosLayout(r: SceneResources, pendingFrames: nat, frame: nat, binding: nat)
    requires ResourcesCover(r) && 1 <= pendingFrames && frame < pendingFrames && binding < |CascadeDescriptions|
    ensures |CascadeDescriptions| <= |CascadeInfos(r, pendingFrames)| / pendingFrames
    ensures InfoIndex(frame, binding, |CascadeInfos(r, pendingFrames)|, pendingFrames, true) == frame * |CascadeDescriptions| + binding
    ensures CascadeInfos(r, pendingFrames)[frame * |CascadeDescriptions| + binding] == CascadeInfo(r, frame, binding)
  {
    var n := |CascadeDescriptions|;
    QuotientRemainder(n, pendingFrames, 0);
    assert n * pendingFrames == pendingFrames * n;
    MulMonotone(frame + 1, pendingFrames, n);
    QuotientRemainder(frame, n, binding);
  }

  // ---------------------------------------------------------------- render

  /** Render can call the mesh's Render with 0 and with 1: the alpha converts to
      uint32_t, and whichever call draws has the buffers. */
  predicate MeshDrawable(mesh: Mesh)
    reads mesh
  {
    TruncatableToU32(mesh.material.data.albedo.w) &&
    (DrawGate(mesh.material.data.albedo.w, 0) ==> mesh.Loaded()) &&
    (DrawGate(mesh.material.data.albedo.w, 1) ==> mesh.Loaded())
  }

  predicate MeshesDrawable(meshes: seq<Mesh>)
    reads meshes
  {
    forall m :: 0 <= m < |meshes| ==> MeshDrawable(meshes[m])
  }

  /** The buffers the meshes' draws read. */
  function MeshBuffers(meshes: seq<Mesh>): set<Buffer?>
    reads meshes
  {
    (set m | m in meshes :: m.vertexBuffer) + (set m | m in meshes :: m.indexBuffer)
  }

  /** Every description has a set for the image. */
  predicate DescriptorsCover(uds: seq<UniformDescription>, image: nat)
    reads uds
  {
    forall i :: 0 <= i < |uds| ==> image < |uds[i].descriptors|
  }

  /** What Render reads of each mesh: its description's set for the image and its two
      draws. */
  function MeshFrames(meshes: seq<Mesh>, uds: seq<UniformDescription>, image: nat): (r: seq<MeshFrame>)
    reads meshes, uds, MeshBuffers(meshes)
    requires |uds| == |meshes| && MeshesDrawable(meshes) && DescriptorsCover(uds, image)
    ensures |r| == |meshes|
    ensures forall m :: 0 <= m < |meshes| ==>
              r[m] == MeshFrame(uds[m].descriptors[image], meshes[m].DrawCalls(0), meshes[m].DrawCalls(1))
    decreases |meshes|
  {
    if |meshes| == 0 then []
    else
      var last := |meshes| - 1;
      assert MeshBuffers(meshes[..last]) <= MeshBuffers(meshes);
      MeshFrames(meshes[..last], uds[..last], image) +
      [MeshFrame(uds[last].descriptors[image], meshes[last].DrawCalls(0), meshes[last].DrawCalls(1))]
  }

  // ----------------------------------------------------------------- scene

  class Scene {
    /** m_Objects and m_ObjectsNames: every mesh and light, and the names given to them. */
    var objects: seq<Object>
    var objectsNames: seq<string>
    var meshes: seq<Mesh>
    var lights: seq<Light>
    /** m_SpotLightCount (left uninitialised by the constructor; 0 here). */
    var spotLightCount: int
    var uniformDescriptions: seq<UniformDescription>
    /** The mesh each uniform description was built for; null for the first two. */
    ghost var descriptionOwners: seq<Mesh?>
    /** The buffers and images the descriptor sets point at. */
    var resources: SceneResources
    /** m_PerMeshBufferAlignment, for a device alignment of 2^alignmentLog. */
    var perMeshAlignment: nat
    ghost var alignmentLog: nat
    /** m_MeshesData, the staging block, one entry per slot. */
    var meshesData: array<Option<MeshSlot>>
    /** What m_PerMeshBuffers and m_LightBuffers hold, per frame. */
    var perMeshContents: seq<seq<Option<MeshSlot>>>
    var lightContents: seq<LightsBlock>
    /** The render passes, framebuffers, pipelines and layouts Render uses. */
    var targets: FrameTargets
    var skybox: Skybox?

    /** Objects and names go together, no two objects share a name, and every uniform
        description has its owner entry. */
    ghost predicate Valid()
      reads this
    {
      |objects| == |objectsNames| && Distinct(objectsNames) &&
      |descriptionOwners| == |uniformDescriptions|
    }

    /** Descriptions 0 and 1 are the offscreen and cascade ones, and description m + 2
        belongs to mesh m: what Render relies on. */
    ghost predicate DescriptionsAligned()
      reads this
    {
      |uniformDescriptions| == |meshes| + 2 && |descriptionOwners| == |uniformDescriptions| &&
      descriptionOwners[0] == null && descriptionOwners[1] == null &&
      forall m :: 0 <= m < |meshes| ==> descriptionOwners[m + 2] == meshes[m]
    }

    /** Scene(renderHandle): nothing yet. */
    constructor ()
      ensures Valid()
      ensures objects == [] && objectsNames == [] && meshes == [] && lights == [] && uniformDescriptions == []
      ensures spotLightCount == 0 && skybox == null
    {
      objects, objectsNames := [], [];
      meshes, lights := [], [];
      spotLightCount := 0;
      uniformDescriptions := [];
      descriptionOwners := [];
      resources := SceneResources([], [], [], [], [], NullHandle, NullHandle, NullHandle, []);
      perMeshAlignment := 0;
      alignmentLog := 0;
      meshesData := new Option<MeshSlot>[0];
      perMeshContents, lightContents := [], [];
      targets := FrameTargets(NullHandle, NullHandle, [], [], [], [], NullHandle, NullHandle, NullHandle);
      skybox := null;
    }

    // ------------------------------------------------------------ objects

    /** GetDefinitiveObjectName: the first free candidate for `name`, recorded as taken. */
    method GetDefinitiveObjectName(name: string) returns (defName: string)
      requires Distinct(objectsNames)
      modifies this`objectsNames
      ensures Distinct(objectsNames) && objectsNames == old(objectsNames) + [defName]
      ensures defName !in old(objectsNames)
      ensures exists k: nat :: defName == NameAt(name, k) && forall j :: 0 <= j < k ==> NameAt(name, j) in old(objectsNames)
      ensures name !in old(objectsNames) ==> defName == name
    {
      var nameIndex;
      defName, nameIndex := DefinitiveName(objectsNames, name);
      objectsNames := objectsNames + [defName];
    }

    /** AddObject: the object is renamed to its definitive name and appended. */
    method AddObject(obj: Object)
      requires Valid()
      modifies this`objects, this`objectsNames, obj
      ensures Valid()
      ensures objects == old(objects) + [obj] && objectsNames == old(objectsNames) + [obj.name]
      ensures obj.name !in old(objectsNames)
      ensures exists k: nat :: obj.name == NameAt(old(obj.name), k) &&
                forall j :: 0 <= j < k ==> NameAt(old(obj.name), j) in old(objectsNames)
      ensures old(obj.name) !in old(objectsNames) ==> obj.name == old(obj.name)
    {
      var defName := GetDefinitiveObjectName(obj.name);
      obj.SetName(defName);
      objects := objects + [obj];
    }

    /** RemoveObject: the first occurrence of the object and the name at the same index
        go; an object not in the list changes nothing. The name becomes free again. */
    method RemoveObject(obj: Object)
      requires Valid()
      modifies this`objects, this`objectsNames
      ensures Valid()
      ensures objects == Without(old(objects), obj)
      ensures objectsNames == WithoutAt(old(objects), old(objectsNames), obj)
      ensures obj in old(objects) ==> old(objectsNames)[IndexOf(old(objects), obj)] !in objectsNames
    {
      var index := IndexOf(objects, obj);
      if index < |objects| {
        EraseKeepsDistinct(objectsNames, index);
        objects := Erase(objects, index);
        objectsNames := Erase(objectsNames, index);
      }
    }

    // ------------------------------------------------------------- meshes

    /** UpdateMeshBuffer(device, newMeshIndex): one more uniform description, built for
        mesh newMeshIndex with its texture. The texture's view and the layout and sets the
        driver returns are parameters. */
    method UpdateMeshBuffer(newMeshIndex: nat, texture: Handle, pendingFrames: nat,
                            createdLayout: Handle, allocatedSets: seq<Handle>)
      requires newMeshIndex < |meshes| && ResourcesCover(resources)
      requires 2 <= pendingFrames && |allocatedSets| == pendingFrames
      modifies this`uniformDescriptions, this`descriptionOwners
      ensures |uniformDescriptions| == |old(uniformDescriptions)| + 1
      ensures uniformDescriptions[..|old(uniformDescriptions)|] == old(uniformDescriptions)
      ensures descriptionOwners == old(descriptionOwners) + [meshes[newMeshIndex]]
      ensures fresh(uniformDescriptions[|old(uniformDescriptions)|])
      ensures MeshDescriptionWritten(uniformDescriptions[|old(uniformDescriptions)|], resources, texture, pendingFrames, allocatedSets)
    {
      var ud := NewMeshDescription(resources, texture, pendingFrames, createdLayout, allocatedSets);
      uniformDescriptions := uniformDescriptions + [ud];
      descriptionOwners := descriptionOwners + [meshes[newMeshIndex]];
    }

    /** AddMesh: the mesh is added as an object and appended, the render handle uploads
        the material's texture (PrepareTexture, whose result is ignored), and the mesh is
        given its description, whose image binding reads the texture's view as it is after
        the upload. The material's texture object and what the driver returns are
        parameters; `staging` is the staging buffer the upload used, if any. */
    method AddMesh(mesh: Mesh, renderHandle: RenderHandles.RenderHandle, device: Devices.Device,
                   texture: Textures.Texture, allocation: RenderHandles.ImageAllocation, createdView: Handle,
                   createdSampler: Handle, stagingHandles: (Handle, Handle),
                   pendingFrames: nat, createdLayout: Handle, allocatedSets: seq<Handle>)
      returns (staging: Buffers.Buffer?)
      requires Valid() && DescriptionsAligned() && ResourcesCover(resources)
      requires renderHandle.singleCommand != null
      requires |device.memoryPropertiesFlags| <= Devices.MaxMemoryTypes
      requires |texture.pixels| == 0 || Wrap32(texture.width * texture.height * 4) <= |texture.pixels|
      requires 2 <= pendingFrames && |allocatedSets| == pendingFrames
      modifies this`objects, this`objectsNames, mesh.baseObject, this`meshes, this`uniformDescriptions, this`descriptionOwners
      modifies texture, renderHandle.singleCommand
      ensures Valid() && DescriptionsAligned()
      ensures meshes == old(meshes) + [mesh]
      ensures objects == old(objects) + [mesh.baseObject] && objectsNames == old(objectsNames) + [mesh.baseObject.name]
      ensures old(|texture.pixels|) > 0 ==>
                texture.image == allocation.image && texture.memory == allocation.memory &&
                texture.imageView == createdView && texture.sampler == createdSampler && texture.pixels == [] &&
                staging != null && fresh(staging) && staging.size == Wrap32(texture.width * texture.height * 4) &&
                staging.contents == old(texture.pixels)[..staging.size] &&
                renderHandle.singleCommand.recorded ==
                  old(renderHandle.singleCommand.recorded) +
                  RenderCommands.SingleSubmitCommands(renderHandle.singleCommand.commandBuffer,
                                                      renderHandle.singleCommand.queue.apiQueue, allocation.image,
                                                      staging.buffer, texture.width, texture.height, texture.mipmapLevels,
                                                      SubresourceRangeOf(AspectColor, texture.mipmapLevels, 0, 1, 0), true)
      ensures old(|texture.pixels|) == 0 ==>
                staging == null && unchanged(texture) && unchanged(renderHandle.singleCommand)
      ensures uniformDescriptions[..|old(uniformDescriptions)|] == old(uniformDescriptions)
      ensures fresh(uniformDescriptions[|meshes| + 1])
      ensures MeshDescriptionWritten(uniformDescriptions[|meshes| + 1], resources, texture.imageView, pendingFrames, allocatedSets)
    {
      AddObject(mesh.baseObject);
      meshes := meshes + [mesh];
      var _, uploaded := renderHandle.PrepareTexture(device, texture, allocation, createdView, createdSampler, stagingHandles);
      staging := uploaded;
      UpdateMeshBuffer(|meshes| - 1, texture.imageView, pendingFrames, createdLayout, allocatedSets);
    }

    /** DeleteMesh: a mesh in the list leaves it as an object, and the mesh and its own
        description (index + 2) are erased together; otherwise nothing changes. */
    method DeleteMesh(mesh: Mesh)
      requires Valid() && |meshes| + 2 <= |uniformDescriptions|
      modifies this`objects, this`objectsNames, this`meshes, this`uniformDescriptions, this`descriptionOwners
      ensures Valid()
      ensures meshes == Without(old(meshes), mesh)
      ensures mesh in old(meshes) ==>
                var index := IndexOf(old(meshes), mesh);
                && uniformDescriptions == Erase(old(uniformDescriptions), index + 2)
                && descriptionOwners == Erase(old(descriptionOwners), index + 2)
                && objects == Without(old(objects), mesh.baseObject)
                && objectsNames == WithoutAt(old(objects), old(objectsNames), mesh.baseObject)
      ensures mesh !in old(meshes) ==>
                uniformDescriptions == old(uniformDescriptions) && objects == old(objects) && objectsNames == old(objectsNames)
      ensures old(DescriptionsAligned()) ==> DescriptionsAligned()
    {
      var index := IndexOf(meshes, mesh);
      if index < |meshes| {
        RemoveObject(mesh.baseObject);
        meshes := Erase(meshes, index);
        uniformDescriptions := Erase(uniformDescriptions, index + 2);
        descriptionOwners := Erase(descriptionOwners, index + 2);
      }
    }

    // ------------------------------------------------------------- lights

    /** AddLight: the light is added as an object and appended; a spot light raises the
        spot-light count. */
    method AddLight(light: Light)
      requires Valid()
      modifies this`objects, this`objectsNames, light.baseObject, this`lights, this`spotLightCount
      ensures Valid()
      ensures lights == old(lights) + [light]
      ensures objects == old(objects) + [light.baseObject] && objectsNames == old(objectsNames) + [light.baseObject.name]
      ensures spotLightCount == old(spotLightCount) + (if light.LightType() == SpotLightTypeValue then 1 else 0)
    {
      AddObject(light.baseObject);
      lights := lights + [light];
      if light.LightType() == SpotLightTypeValue {
        spotLightCount := spotLightCount + 1;
      }
    }

    /** DeleteLight: a light in the list leaves it as an object and is erased; the
        spot-light count is not lowered. */
    method DeleteLight(light: Light)
      requires Valid()
      modifies this`objects, this`objectsNames, this`lights
      ensures Valid()
      ensures lights == Without(old(lights), light)
      ensures light in old(lights) ==>
                objects == Without(old(objects), light.baseObject) &&
                objectsNames == WithoutAt(old(objects), old(objectsNames), light.baseObject)
      ensures light !in old(lights) ==> objects == old(objects) && objectsNames == old(objectsNames)
      ensures spotLightCount == old(spotLightCount)
    {
      var index := IndexOf(lights, light);
      if index < |lights| {
        RemoveObject(light.baseObject);
        lights := Erase(lights, index);
      }
    }

    // ------------------------------------------------------------ buffers

    /** The uniform-buffer part of CreateGraphicsPipelines: the stride for the device's
        alignment 2^alignmentLog, the buffers (whose handles are given), the staging block
        (sized here to the 100 slots of the per-mesh buffer) and the per-frame contents,
        all unwritten. */
    method CreateUniformBuffers(alignmentLog: nat, created: SceneResources)
      requires ResourcesCover(created)
      modifies this`perMeshAlignment, this`alignmentLog, this`resources, this`meshesData,
               this`perMeshContents, this`lightContents
      ensures perMeshAlignment == Stride(alignmentLog) && this.alignmentLog == alignmentLog
      ensures alignmentLog <= 31 ==>
                perMeshAlignment % Pow2(alignmentLog) == 0 && MeshDataSize <= perMeshAlignment < MeshDataSize + Pow2(alignmentLog)
      ensures resources == created
      ensures fresh(meshesData) && meshesData.Length == PerMeshSlotCount
      ensures forall i :: 0 <= i < PerMeshSlotCount ==> meshesData[i] == None
      ensures perMeshContents == [meshesData[..], meshesData[..]] && lightContents == [EmptyLights, EmptyLights]
    {
      perMeshAlignment := Stride(alignmentLog);
      this.alignmentLog := alignmentLog;
      if alignmentLog <= 31 {
        StrideAligned(alignmentLog);
      }
      resources := created;
      meshesData := new Option<MeshSlot>[PerMeshSlotCount](_ => None);
      perMeshContents := [meshesData[..], meshesData[..]];
      lightContents := [EmptyLights, EmptyLights];
    }

    /** The fixed descriptions CreatePipelineLayoutOffscreen and
        CreatePipelineLayoutShadowCascade push before any mesh's: the offscreen input
        attachment, for two frames reading the two swapchain views, then the cascade
        set. The layouts and sets the driver returns are parameters. */
    method CreateFixedDescriptions(pendingFrames: nat, offscreenLayout: Handle, offscreenSets: seq<Handle>,
                                   cascadeLayout: Handle, cascadeSets: seq<Handle>)
      requires uniformDescriptions == [] && descriptionOwners == [] && ResourcesCover(resources)
      requires |offscreenSets| == 2 && 2 <= pendingFrames && |cascadeSets| == pendingFrames
      modifies this`uniformDescriptions, this`descriptionOwners
      ensures |uniformDescriptions| == 2 && descriptionOwners == [null, null]
      ensures fresh(uniformDescriptions[0]) && fresh(uniformDescriptions[1])
      ensures uniformDescriptions[0].descriptors == offscreenSets && |uniformDescriptions[0].updates| == 2
      ensures forall f :: 0 <= f < 2 ==>
                |uniformDescriptions[0].updates[f]| == 1 &&
                Targets(uniformDescriptions[0].updates[f][0], offscreenSets[f], 0, InputAttachment, resources.swapchainViews[f])
      ensures uniformDescriptions[1].descriptors == cascadeSets && |uniformDescriptions[1].updates| == pendingFrames
      ensures forall f, d :: 0 <= f < pendingFrames && 0 <= d < |CascadeDescriptions| ==>
                |uniformDescriptions[1].updates[f]| == |CascadeDescriptions| &&
                Targets(uniformDescriptions[1].updates[f][d], cascadeSets[f], d, CascadeDescriptions[d].kind, CascadeInfo(resources, f, d))
    {
      var views := resources.swapchainViews[..2];
      QuotientRemainder(1, 2, 0);
      var offscreen := new UniformDescription([Description(InputAttachment, FragmentStage)], views, 2, true,
                                              offscreenLayout, offscreenSets);
      forall f | 0 <= f < 2
        ensures InfoIndex(f, 0, |views|, 2, true) == f
      {
        QuotientRemainder(1, 2, 0);
      }
      var infos := CascadeInfos(resources, pendingFrames);
      CascadeInfosLayout(resources, pendingFrames, 0, 0);
      var cascade := new UniformDescription(CascadeDescriptions, infos, pendingFrames, true, cascadeLayout, cascadeSets);
      forall f, d | 0 <= f < pendingFrames && 0 <= d < |CascadeDescriptions|
        ensures Targets(cascade.updates[f][d], cascadeSets[f], d, CascadeDescriptions[d].kind, CascadeInfo(resources, f, d))
      {
        CascadeInfosLayout(resources, pendingFrames, f, d);
      }
      uniformDescriptions := [offscreen, cascade];
      descriptionOwners := [null, null];
    }

    /** The mesh loop of CreatePipelineLayoutObjects: one description per mesh already in
        the scene, in order, after the two fixed ones. */
    method CreateMeshDescriptions(textures: seq<Handle>, pendingFrames: nat, layouts: seq<Handle>, sets: seq<seq<Handle>>)
      requires |uniformDescriptions| == 2 && descriptionOwners == [null, null] && ResourcesCover(resources)
      requires |textures| == |meshes| && |layouts| == |meshes| && |sets| == |meshes|
      requires 2 <= pendingFrames && forall m :: 0 <= m < |sets| ==> |sets[m]| == pendingFrames
      modifies this`uniformDescriptions, this`descriptionOwners
      ensures DescriptionsAligned()
      ensures uniformDescriptions[..2] == old(uniformDescriptions)
      ensures forall m :: 0 <= m < |meshes| ==>
                fresh(uniformDescriptions[m + 2]) &&
                MeshDescriptionWritten(uniformDescriptions[m + 2], resources, textures[m], pendingFrames, sets[m])
    {
      var meshIndex := 0;
      while meshIndex < |meshes|
        invariant 0 <= meshIndex <= |meshes|
        invariant |uniformDescriptions| == meshIndex + 2 && |descriptionOwners| == meshIndex + 2
        invariant uniformDescriptions[..2] == old(uniformDescriptions)
        invariant descriptionOwners[0] == null && descriptionOwners[1] == null
        invariant forall m :: 0 <= m < meshIndex ==> descriptionOwners[m + 2] == meshes[m]
        invariant forall i :: 2 <= i < meshIndex + 2 ==> fresh(uniformDescriptions[i])
        invariant forall m :: 0 <= m < meshIndex ==>
                    MeshDescriptionWritten(uniformDescriptions[m + 2], resources, textures[m], pendingFrames, sets[m])
      {
        var ud := NewMeshDescription(resources, textures[meshIndex], pendingFrames, layouts[meshIndex], sets[meshIndex]);
        ghost var previous := uniformDescriptions;
        uniformDescriptions := uniformDescriptions + [ud];
        descriptionOwners := descriptionOwners + [meshes[meshIndex]];
        forall m | 0 <= m < meshIndex
          ensures MeshDescriptionWritten(uniformDescriptions[m + 2], resources, textures[m], pendingFrames, sets[m])
        {
          assert uniformDescriptions[m + 2] == previous[m + 2];
        }
        meshIndex := meshIndex + 1;
      }
    }

    // ------------------------------------------------------------ prepare

    /** The cascade loop of Prepare for one mesh: slots base .. base + 3 get the mesh's
        material and cascade indices 0 .. 3. */
    method StageMesh(base: nat, material: MaterialData)
      requires base + CascadeCount <= meshesData.Length
      modifies meshesData
      ensures forall i :: 0 <= i < meshesData.Length ==>
                meshesData[i] == if base <= i < base + CascadeCount then Some(MeshSlot(material, i - base)) else old(meshesData[i])
    {
      for cascadeIndex := 0 to CascadeCount
        invariant forall i :: 0 <= i < meshesData.Length ==>
                    meshesData[i] == if base <= i < base + cascadeIndex then Some(MeshSlot(material, i - base)) else old(meshesData[i])
      {
        meshesData[base + cascadeIndex] := Some(MeshSlot(material, cascadeIndex));
      }
    }

    /** The lights loop of Prepare. */
    method FillLights(pointToView: Vec4 -> Vec4, directionToView: Vec3 -> Vec3) returns (block: LightsBlock)
      requires |lights| <= LightsCapacity
      ensures block == LightsUpload(LightDatas(lights), pointToView, directionToView)
    {
      block := EmptyLights.(count := |lights|);
      for lightIndex := 0 to |lights|
        invariant |block.lights| == LightsCapacity && block.count == |lights|
        invariant forall i :: 0 <= i < lightIndex ==> block.lights[i] == InView(lights[i].data, pointToView, directionToView)
        invariant forall i :: lightIndex <= i < LightsCapacity ==> block.lights[i] == ZeroLight
      {
        var entry := lights[lightIndex].data;
        entry := entry.(position := pointToView(entry.position));
        var direction := directionToView(Vec3(entry.direction.x, entry.direction.y, entry.direction.z));
        entry := entry.(direction := Vec4(direction.x, direction.y, direction.z, 1.0));
        block := block.(lights := block.lights[lightIndex := entry]);
      }
      var expected := LightsUpload(LightDatas(lights), pointToView, directionToView);
      assert block.lights == expected.lights;
    }

    /** The mesh loop of Prepare: mesh m's material goes into slots 4m to 4m+3. */
    method StageMeshes()
      requires |meshes| * CascadeCount <= meshesData.Length
      modifies meshesData
      ensures meshesData[..] == Staged(old(meshesData[..]), old(MaterialsOf(meshes)))
    {
      ghost var materials := MaterialsOf(meshes);
      var meshIndex := 0;
      while meshIndex < |meshes|
        invariant 0 <= meshIndex <= |meshes|
        invariant forall i :: 0 <= i < meshesData.Length ==>
                    meshesData[i] == if i < meshIndex * CascadeCount
                                     then Some(MeshSlot(materials[i / CascadeCount], i % CascadeCount))
                                     else old(meshesData[i])
      {
        MulMonotone(meshIndex + 1, |meshes|, CascadeCount);
        StageMesh(meshIndex * CascadeCount, meshes[meshIndex].material.data);
        forall i | 0 <= i < meshesData.Length
          ensures meshesData[i] == if i < (meshIndex + 1) * CascadeCount
                                   then Some(MeshSlot(materials[i / CascadeCount], i % CascadeCount))
                                   else old(meshesData[i])
        {
          SlotOfIndex(i, meshIndex);
        }
        meshIndex := meshIndex + 1;
      }
      forall i | 0 <= i < meshesData.Length
        ensures meshesData[..][i] == Staged(old(meshesData[..]), materials)[i]
      {
      }
    }

    /** Prepare(device) for frame currentFrame, without the camera and shadow updates:
        every mesh's material goes into its four slots of the staging block, the block is
        uploaded to the frame's per-mesh buffer, and the lights block is filled and
        uploaded to the frame's lights buffer. The block holds 100 slots (25 meshes) and
        the lights block 4 entries. The glm products with the inverse view matrix are
        parameters. */
    method Prepare(currentFrame: nat, pointToView: Vec4 -> Vec4, directionToView: Vec3 -> Vec3)
      requires meshesData.Length == PerMeshSlotCount && |meshes| * CascadeCount <= PerMeshSlotCount
      requires |lights| <= LightsCapacity
      requires currentFrame < |perMeshContents| && currentFrame < |lightContents|
      modifies meshesData, this`perMeshContents, this`lightContents
      ensures meshesData[..] == Staged(old(meshesData[..]), old(MaterialsOf(meshes)))
      ensures perMeshContents == old(perMeshContents)[currentFrame := meshesData[..]]
      ensures lightContents == old(lightContents)[currentFrame := old(LightsUpload(LightDatas(lights), pointToView, directionToView))]
    {
      StageMeshes();
      perMeshContents := perMeshContents[currentFrame := meshesData[..]];
      assert unchanged(lights);
      var block := FillLights(pointToView, directionToView);
      lightContents := lightContents[currentFrame := block];
    }

    // ------------------------------------------------------------- render

    /** The skybox and its buffers. */
    function SkyboxParts(): set<object?>
      reads this, skybox
    {
      if skybox == null then {} else {skybox, skybox.vertexBuffer, skybox.indexBuffer}
    }

    /** What Render needs: the descriptions aligned with at least one mesh (the skybox
        binds description 2), a set per description for the image, the targets Render
        indexes, drawable meshes, a skybox, and the stride of CreateUniformBuffers. */
    ghost predicate Renderable(image: nat)
      reads this, uniformDescriptions, meshes, SkyboxParts()
    {
      DescriptionsAligned() && 1 <= |meshes| &&
      DescriptorsCover(uniformDescriptions, image) &&
      |targets.spotFramebuffers| >= SpotShadowCount && |targets.cascadeFramebuffers| >= CascadeCount &&
      image < |targets.objectsFramebuffers| && |targets.pipelines| >= 6 &&
      MeshesDrawable(meshes) &&
      skybox != null && skybox.Valid() &&
      perMeshAlignment == Stride(alignmentLog)
    }

    /** What one Render reads from the scene: the cascade set (description 1), the set
        the skybox is drawn with (description 2), and for every mesh the set of its own
        description and its two draws. */
    function FrameOf(image: nat): (f: Frame)
      reads this, uniformDescriptions, meshes, MeshBuffers(meshes), SkyboxParts()
      requires Renderable(image)
      ensures SceneFrames.Covers(f) && DrawsOnly(f)
      ensures f.targets == targets && f.image == image && f.stride == perMeshAlignment
      ensures f.cascadeSet == uniformDescriptions[1].descriptors[image]
      ensures f.skyboxSet == uniformDescriptions[2].descriptors[image]
      ensures |f.meshes| == |meshes|
      ensures forall m :: 0 <= m < |meshes| ==>
                descriptionOwners[m + 2] == meshes[m] &&
                f.meshes[m] == MeshFrame(uniformDescriptions[m + 2].descriptors[image], meshes[m].DrawCalls(0), meshes[m].DrawCalls(1))
    {
      var frames := MeshFrames(meshes, uniformDescriptions[2..], image);
      Frame(targets, image, uniformDescriptions[1].descriptors[image], uniformDescriptions[2].descriptors[image],
            perMeshAlignment, frames, skybox.DrawCalls())
    }

    /** Render(ui) for image `image`: records the frame. Passes open and close in turn
        with every draw inside one; the passes use one spot framebuffer per mesh, the four
        cascade framebuffers in order and then the image's framebuffer; and every dynamic
        offset is a multiple of the device alignment. */
    method Render(image: nat) returns (events: seq<DrawEvent>)
      requires Renderable(image)
      ensures events == FrameTrace(FrameOf(image))
      ensures Run(events, false) == Some(false)
      ensures var spot := targets.spotFramebuffers[0];
              Begun(events) == seq(|meshes|, _ => spot) +
                               targets.cascadeFramebuffers[..CascadeCount] + [targets.objectsFramebuffers[image]]
      ensures alignmentLog <= 31 ==> DynamicOffsetsAligned(events, Pow2(alignmentLog))
    {
      var frame := FrameOf(image);
      events := RecordFrame(frame);
      assert events == FrameTrace(frame);
      assert frame == FrameOf(image);
      FramePassesBalanced(frame);
      FramebufferOrder(frame);
      if alignmentLog <= 31 {
        StrideAligned(alignmentLog);
        FrameOffsetsAligned(frame, Pow2(alignmentLog));
      }
    }
  }
}
