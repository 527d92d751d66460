// Sources/Mesh.cpp and Headers/Material.h: a mesh built from an imported model file
// (vertex zip, vertex and index buffers, material choice) and the draw it records,
// gated on the material's albedo alpha. Vertex floats are copied, never computed on.
module Meshes {
  import opened Common
  import opened Objects
  import opened LoaderFbx
  import opened Buffers
  import opened SkyboxTables
  import opened DrawEvents

  /** sizeof(VertexData): vec3 + vec2 + vec3 + vec4 floats. */
  const VertexDataSize: nat := 48
  /** sizeof(uint16_t), the index type. */
  const IndexSize: nat := 2

  // ---------------------------------------------------------------- material

  /** MaterialData: albedo, roughness, metallic, reflectance. */
  datatype MaterialData = MaterialData(albedo: Vec4, roughness: real, metallic: real, reflectance: real)

  /** MaterialData(): white, opaque albedo, roughness 0.5, metallic 0, reflectance 0.5. */
  const DefaultMaterialData: MaterialData := MaterialData(Vec4(1.0, 1.0, 1.0, 1.0), 0.5, 0.0, 0.5)

  /** A Material: its data and the paths its colour and normal textures are read from
      (None for a default-constructed Texture). Decoding the files is not modelled here. */
  datatype Material = Material(data: MaterialData, texturePath: Option<string>, normalTexturePath: Option<string>)

  /** The three Material constructors. */
  function DefaultMaterial(): Material { Material(DefaultMaterialData, None, None) }
  function TextureMaterial(texturePath: string): Material { Material(DefaultMaterialData, Some(texturePath), None) }
  function NormalMappedMaterial(texturePath: string, normalPath: string): Material
  {
    Material(DefaultMaterialData, Some(texturePath), Some(normalPath))
  }

  /** The material the Mesh constructor picks once the file has been read: with both
      texture lists non-empty, the first of each; with only diffuse textures, the first
      one; else the default. When the file could not be loaded, the model path itself is
      taken as the texture. */
  function ChooseMaterial(path: string, loaded: bool, diffuse: seq<string>, normals: seq<string>): (r: Material)
    ensures r.data == DefaultMaterialData
  {
    if !loaded then TextureMaterial(path)
    else if |diffuse| > 0 && |normals| > 0 then NormalMappedMaterial(diffuse[0], normals[0])
    else if |diffuse| > 0 then TextureMaterial(diffuse[0])
    else DefaultMaterial()
  }

  /** Which textures a chosen material has, and where they come from. */
  lemma MaterialChoice(path: string, loaded: bool, diffuse: seq<string>, normals: seq<string>)
    ensures var r := ChooseMaterial(path, loaded, diffuse, normals);
      && (r.texturePath.Some? <==> !loaded || |diffuse| > 0)
      && (r.normalTexturePath.Some? <==> loaded && |diffuse| > 0 && |normals| > 0)
      && (!loaded ==> r.texturePath == Some(path))
      && (loaded && |diffuse| > 0 ==> r.texturePath == Some(diffuse[0]))
      && (r.normalTexturePath.Some? ==> r.normalTexturePath == Some(normals[0]))
      && r.data.albedo.w == 1.0
  {
  }

  // ---------------------------------------------------------------- vertices

  /** The constructor's vertex loop: vertex i takes the i-th position, texture coordinate,
      normal and colour. The other three arrays are read at every position index. */
  method ZipVertices(positions: seq<Vec3>, texCoords: seq<Vec2>, normals: seq<Vec3>, colors: seq<Option<Vec4>>)
    returns (vertices: seq<VertexData>)
    requires |texCoords| >= |positions| && |normals| >= |positions| && |colors| >= |positions|
    ensures |vertices| == |positions|
    ensures forall i :: 0 <= i < |positions| ==>
              vertices[i] == VertexData(positions[i], texCoords[i], normals[i], colors[i])
  {
    vertices := [];
    var idx := 0;
    while idx < |positions|
      invariant 0 <= idx <= |positions| && |vertices| == idx
      invariant forall i :: 0 <= i < idx ==> vertices[i] == VertexData(positions[i], texCoords[i], normals[i], colors[i])
    {
      vertices := vertices + [VertexData(positions[idx], texCoords[idx], normals[idx], colors[idx])];
      idx := idx + 1;
    }
  }

  /** Zipping the four arrays Load produced gives back the vertices Load split up. */
  lemma ZipUndoesUnzip(positions: seq<Vec3>, texCoords: seq<Vec2>, normals: seq<Vec3>, colors: seq<Option<Vec4>>,
                       vertices: seq<VertexData>, zipped: seq<VertexData>)
    requires Unzips(positions, texCoords, normals, colors, vertices)
    requires |zipped| == |positions|
    requires forall i :: 0 <= i < |positions| ==> zipped[i] == VertexData(positions[i], texCoords[i], normals[i], colors[i])
    ensures zipped == vertices
  {
  }

  // ---------------------------------------------------------------- buffers

  /** The object representation of a VertexData: the bytes one vertex occupies. It is the
      C++ compiler's struct layout, so the model takes it as a parameter of this size. */
  ghost predicate LayoutSized(layout: VertexData -> seq<byte>)
  {
    forall v :: |layout(v)| == VertexDataSize
  }

  /** The bytes of a vertex vector: each vertex's representation, end to end. */
  function VertexVectorBytes(layout: VertexData -> seq<byte>, vertices: seq<VertexData>): (r: seq<byte>)
    requires LayoutSized(layout)
    ensures |r| == VertexDataSize * |vertices|
  {
    if |vertices| == 0 then [] else VertexVectorBytes(layout, vertices[..|vertices| - 1]) + layout(vertices[|vertices| - 1])
  }

  /** Vertex i occupies bytes [48 i, 48 (i + 1)) of the vertex bytes. */
  lemma {:induction false} VertexVectorBytesAt(layout: VertexData -> seq<byte>, vertices: seq<VertexData>, i: nat)
    requires LayoutSized(layout) && i < |vertices|
    ensures VertexVectorBytes(layout, vertices)[VertexDataSize * i..VertexDataSize * (i + 1)] == layout(vertices[i])
  {
    var init := vertices[..|vertices| - 1];
    var r := VertexVectorBytes(layout, vertices);
    assert r == VertexVectorBytes(layout, init) + layout(vertices[|vertices| - 1]);
    if i < |vertices| - 1 {
      VertexVectorBytesAt(layout, init, i);
      assert init[i] == vertices[i];
      assert r[VertexDataSize * i..VertexDataSize * (i + 1)] == VertexVectorBytes(layout, init)[VertexDataSize * i..VertexDataSize * (i + 1)];
    }
  }

  /** A vertex buffer of uint32_t(|vertices|) VertexData elements, filled from the vertices. */
  method NewVertexBuffer(vertices: seq<VertexData>, layout: VertexData -> seq<byte>, handles: (Handle, Handle))
    returns (buffer: Buffer)
    requires LayoutSized(layout)
    ensures fresh(buffer) && buffer.Valid()
    ensures buffer.size == VertexDataSize * Wrap32(|vertices|)
    ensures buffer.contents == VertexVectorBytes(layout, vertices)[..buffer.size]
    ensures buffer.buffer == handles.0 && buffer.memory == handles.1
  {
    buffer := new Buffer.Static(Vertex, VertexDataSize, Wrap32(|vertices|), handles.0, handles.1);
    MulMonotone(Wrap32(|vertices|), |vertices|, VertexDataSize);
    buffer.UpdateData(VertexVectorBytes(layout, vertices));
  }

  /** An index buffer of uint32_t(|indices|) uint16_t elements, filled from the indices. */
  method NewIndexBuffer(indices: seq<nat>, handles: (Handle, Handle)) returns (buffer: Buffer)
    requires forall i :: 0 <= i < |indices| ==> indices[i] < U16Modulus
    ensures fresh(buffer) && buffer.Valid()
    ensures buffer.size == IndexSize * Wrap32(|indices|)
    ensures buffer.contents == IndexBytes(indices)[..buffer.size]
    ensures buffer.buffer == handles.0 && buffer.memory == handles.1
  {
    buffer := new Buffer.Static(Index, IndexSize, Wrap32(|indices|), handles.0, handles.1);
    buffer.UpdateData(IndexBytes(indices));
  }

  // ---------------------------------------------------------------- draw gate

  /** static_cast<uint32_t> of a float: truncation toward zero, defined only when the
      truncated value fits in uint32_t. */
  predicate TruncatableToU32(x: real)
  {
    -1.0 < x < U32Modulus as real
  }

  function TruncateToU32(x: real): (r: nat)
    requires TruncatableToU32(x)
    ensures r < U32Modulus
    ensures x >= 0.0 ==> r as real <= x < r as real + 1.0
    ensures x < 1.0 ==> r == 0
  {
    if x < 0.0 then 0 else x.Floor
  }

  /** Mesh::Render draws when the truncated albedo alpha equals its isOpaque argument. */
  predicate DrawGate(alpha: real, isOpaque: nat)
    requires TruncatableToU32(alpha)
  {
    TruncateToU32(alpha) == isOpaque
  }

  /** With the default alpha 1 a mesh draws only in the opaque calls (argument 1). */
  lemma DefaultAlphaDrawsWhenOpaque(isOpaque: nat)
    ensures DrawGate(DefaultMaterialData.albedo.w, isOpaque) <==> isOpaque == 1
  {
    assert TruncateToU32(1.0) == 1;
  }

  /** Any alpha below 1, however close, truncates to 0: such a mesh draws only in the
      transparent calls (argument 0). */
  lemma TranslucentDrawsWhenTransparent(alpha: real, isOpaque: nat)
    requires 0.0 <= alpha < 1.0
    ensures DrawGate(alpha, isOpaque) <==> isOpaque == 0
  {
  }

  /** A mesh draws in at most one of the calls with argument 0 and 1, and an alpha of 2 or
      more draws in neither. */
  lemma GateSelectsOneCall(alpha: real)
    requires TruncatableToU32(alpha)
    ensures !(DrawGate(alpha, 0) && DrawGate(alpha, 1))
    ensures alpha >= 2.0 ==> !DrawGate(alpha, 0) && !DrawGate(alpha, 1)
  {
  }

  // ---------------------------------------------------------------- the class

  class Mesh {
    const baseObject: Object
    /** m_Path: the model file. */
    const path: string
    var isOpaque: bool
    var material: Material
    /** m_Indices, uint16_t values. */
    var indices: seq<nat>
    /** The vertices written to the vertex buffer. */
    ghost var vertices: seq<VertexData>
    /** The byte representation of one VertexData (the C++ struct layout). */
    const vertexLayout: VertexData -> seq<byte>
    /** m_VertexBuffer and m_IndexBuffer; null for a default-constructed Buffer, whose
        handles are left uninitialised. */
    var vertexBuffer: Buffer?
    var indexBuffer: Buffer?

    /** Both buffers exist. */
    predicate Loaded()
      reads this
    {
      vertexBuffer != null && indexBuffer != null
    }

    /** The buffers exist together, are distinct, and are sized to the vertex and index
        counts; the index buffer holds the uint16_t indices. */
    ghost predicate Valid()
      reads this, vertexBuffer, indexBuffer
    {
      LayoutSized(vertexLayout) &&
      (vertexBuffer == null <==> indexBuffer == null) &&
      (forall i :: 0 <= i < |indices| ==> indices[i] < U16Modulus) &&
      (Loaded() ==>
        vertexBuffer != indexBuffer &&
        vertexBuffer.Valid() && indexBuffer.Valid() &&
        vertexBuffer.size == VertexDataSize * Wrap32(|vertices|) &&
        vertexBuffer.contents == VertexVectorBytes(vertexLayout, vertices)[..vertexBuffer.size] &&
        indexBuffer.size == IndexSize * Wrap32(|indices|) &&
        indexBuffer.contents == IndexBytes(indices)[..indexBuffer.size])
    }

    /** Mesh(device, path, name). An empty path loads nothing. Otherwise the importer's
        output (a parameter; None when it could not read the file) is flattened by
        LoaderFbx::Load, the vertices are zipped, both buffers are created and filled, and
        the material is chosen. The handles the driver returns are parameters. */
    constructor (path: string, name: string, imported: Option<ImportedScene>,
                 layout: VertexData -> seq<byte>,
                 vertexHandles: (Handle, Handle), indexHandles: (Handle, Handle))
      requires imported.Some? ==> WellFormed(imported.value)
      requires LayoutSized(layout)
      ensures Valid() && isOpaque && vertexLayout == layout
      ensures fresh(baseObject) && baseObject.name == name && this.path == path
      ensures path == "" ==>
                material == DefaultMaterial() && indices == [] && vertices == [] && !Loaded()
      ensures path != "" && imported.None? ==>
                material == ChooseMaterial(path, false, [], []) && indices == [] && vertices == [] && !Loaded()
      ensures path != "" && imported.Some? ==>
                var scene := imported.value;
                && vertices == AllVertices(scene, |scene.meshes|)
                && indices == SceneIndices(scene, |scene.meshes|)
                && material == ChooseMaterial(path, true, DiffuseTextures(scene, path, |scene.meshes|),
                                              NormalTextures(scene, path, |scene.meshes|))
                && Loaded() && fresh(vertexBuffer) && fresh(indexBuffer)
                && vertexBuffer.buffer == vertexHandles.0 && vertexBuffer.memory == vertexHandles.1
                && indexBuffer.buffer == indexHandles.0 && indexBuffer.memory == indexHandles.1
    {
      baseObject := new Object(name);
      vertexLayout := layout;
      this.path := path;
      isOpaque := true;
      material := DefaultMaterial();
      indices := [];
      vertices := [];
      vertexBuffer := null;
      indexBuffer := null;
      if path != "" {
        var ok, positions, texCoords, normals, colors, loadedIndices, diffuse, normalTextures := Load(imported, path);
        if ok {
          var zipped := ZipVertices(positions, texCoords, normals, colors);
          ZipUndoesUnzip(positions, texCoords, normals, colors, AllVertices(imported.value, |imported.value.meshes|), zipped);
          var vb := NewVertexBuffer(zipped, layout, vertexHandles);
          var ib := NewIndexBuffer(loadedIndices, indexHandles);
          vertices := zipped;
          indices := loadedIndices;
          vertexBuffer, indexBuffer := vb, ib;
          material := ChooseMaterial(path, true, diffuse, normalTextures);
        } else {
          material := ChooseMaterial(path, false, [], []);
        }
      }
    }

    /** The commands Render records for one call: when the gate opens, bind the vertex and
        index buffers and draw uint32_t(|m_Indices|) indices; else nothing. */
    function DrawCalls(isOpaque: nat): (r: seq<DrawEvent>)
      reads this, vertexBuffer, indexBuffer
      requires TruncatableToU32(material.data.albedo.w)
      requires DrawGate(material.data.albedo.w, isOpaque) ==> Loaded()
    {
      if DrawGate(material.data.albedo.w, isOpaque) then
        [BindVertexBuffer(vertexBuffer.buffer), BindIndexBuffer(indexBuffer.buffer), DrawIndexed(Wrap32(|indices|))]
      else []
    }

    /** Mesh::Render(commandBuffer, isOpaque). The cast of the alpha must be defined, and
        a mesh that draws must have its buffers. */
    method Render(isOpaque: nat) returns (events: seq<DrawEvent>)
      requires TruncatableToU32(material.data.albedo.w)
      requires DrawGate(material.data.albedo.w, isOpaque) ==> Loaded()
      ensures events == DrawCalls(isOpaque)
    {
      if TruncateToU32(material.data.albedo.w) == isOpaque {
        events := [BindVertexBuffer(vertexBuffer.buffer), BindIndexBuffer(indexBuffer.buffer), DrawIndexed(Wrap32(|indices|))];
      } else {
        events := [];
      }
    }

    /** SetMaterial. */
    method SetMaterial(newMaterial: Material)
      modifies this`material
      ensures material == newMaterial
    {
      material := newMaterial;
    }
  }

  /** When the gate opens, the draw covers every index the index buffer holds: the count
      recorded is the number of uint16_t values its bytes decode to, and (below 2^32
      indices) that is the mesh's whole index list. */
  lemma DrawCoversIndexBuffer(mesh: Mesh, isOpaque: nat)
    requires mesh.Valid() && TruncatableToU32(mesh.material.data.albedo.w)
    requires DrawGate(mesh.material.data.albedo.w, isOpaque) && mesh.Loaded()
    ensures |mesh.DrawCalls(isOpaque)| == 3
    ensures mesh.DrawCalls(isOpaque)[2] == DrawIndexed(|DecodeIndices(mesh.indexBuffer.contents)|)
    ensures |mesh.indices| < U32Modulus ==> DecodeIndices(mesh.indexBuffer.contents) == mesh.indices
  {
    var ib := mesh.indexBuffer;
    var bytes := IndexBytes(mesh.indices);
    assert |ib.contents| == 2 * Wrap32(|mesh.indices|);
    if |mesh.indices| < U32Modulus {
      assert ib.contents == bytes;
      IndexBytesRoundTrip(mesh.indices);
    }
  }

  lemma DrawCallsStayInPass(mesh: Mesh, isOpaque: nat)
    requires TruncatableToU32(mesh.material.data.albedo.w)
    requires DrawGate(mesh.material.data.albedo.w, isOpaque) ==> mesh.Loaded()
    ensures BuffersAndDraws(mesh.DrawCalls(isOpaque))
  {
  }
}
