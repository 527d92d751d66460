// Sources/Tools/LoaderFbx.cpp: flattening an imported scene into the parallel vertex
// arrays, the uint16_t index list and the texture paths a Mesh is built from. The
// importer itself is not modelled: its output is the ImportedScene value handed in.
// Float values are copied verbatim, so they are modelled as reals.
module LoaderFbx {
  import opened Common

  const Zero2: Vec2 := Vec2(0.0, 0.0)
  const Zero3: Vec3 := Vec3(0.0, 0.0, 0.0)
  const White: Vec4 := Vec4(1.0, 1.0, 1.0, 1.0)

  // ------------------------------------------------------------ importer output

  /** An aiMesh as far as Load reads it: an absent channel is None. */
  datatype ImportedMesh = ImportedMesh(
    materialIndex: nat,
    positions: seq<Vec3>,
    normals: Option<seq<Vec3>>,
    texCoords: Option<seq<Vec2>>,
    colors: Option<seq<Vec4>>,
    faces: seq<seq<nat>>)

  /** An aiMaterial: what AI_MATKEY_COLOR_DIFFUSE and the first diffuse and normal
      textures yield, None where the query does not succeed. */
  datatype ImportedMaterial = ImportedMaterial(
    diffuseColor: Option<Vec4>,
    diffuseTexture: Option<string>,
    normalTexture: Option<string>)

  /** An aiScene: its meshes and its material table, in which None is a null entry. */
  datatype ImportedScene = ImportedScene(meshes: seq<ImportedMesh>, materials: seq<Option<ImportedMaterial>>)

  predicate Channel<T>(channel: Option<seq<T>>, count: nat)
  {
    channel.None? || |channel.value| == count
  }

  /** What the importer guarantees of a mesh: its material index is in the table and every
      present channel has one entry per vertex. */
  predicate WellFormedMesh(mesh: ImportedMesh, materialCount: nat)
  {
    mesh.materialIndex < materialCount &&
    Channel(mesh.normals, |mesh.positions|) &&
    Channel(mesh.texCoords, |mesh.positions|) &&
    Channel(mesh.colors, |mesh.positions|)
  }

  predicate WellFormed(scene: ImportedScene)
  {
    forall m :: 0 <= m < |scene.meshes| ==> WellFormedMesh(scene.meshes[m], |scene.materials|)
  }

  /** mtl: the material entry of the mesh (the idxMtl >= 0 guard always holds). */
  function MaterialOf(scene: ImportedScene, m: nat): Option<ImportedMaterial>
    requires WellFormed(scene) && m < |scene.meshes|
  {
    scene.materials[scene.meshes[m].materialIndex]
  }

  // ------------------------------------------------------------ vertices

  /** VertexData (Headers/VertexData.h): position, texture coordinate, normal and colour.
      Load emits one entry of each of its four output arrays per vertex, and the Mesh
      constructor zips them back into this struct. A None colour is a glm::vec4 that Load
      leaves without a value. */
  datatype VertexData = VertexData(position: Vec3, texCoord: Vec2, normal: Vec3, color: Option<Vec4>)

  /** The entries Load appends for vertex v of a mesh whose material entry is `material`. */
  function VertexOf(mesh: ImportedMesh, material: Option<ImportedMaterial>, v: nat): VertexData
    requires WellFormedMesh(mesh, mesh.materialIndex + 1) && v < |mesh.positions|
  {
    VertexData(
      mesh.positions[v],
      if mesh.texCoords.Some? then mesh.texCoords.value[v] else Zero2,
      if mesh.normals.Some? then mesh.normals.value[v] else Zero3,
      if mesh.colors.Some? then Some(mesh.colors.value[v])
      else if material.Some? then material.value.diffuseColor
      else Some(White))
  }

  /** A missing normal or texture coordinate becomes zero; the colour is the vertex colour,
      else the material's diffuse colour, else white when the material entry is null. It is
      left without a value exactly when there are no vertex colours and the material has no
      diffuse colour. */
  lemma VertexDefaults(mesh: ImportedMesh, material: Option<ImportedMaterial>, v: nat)
    requires WellFormedMesh(mesh, mesh.materialIndex + 1) && v < |mesh.positions|
    ensures mesh.normals.None? ==> VertexOf(mesh, material, v).normal == Zero3
    ensures mesh.texCoords.None? ==> VertexOf(mesh, material, v).texCoord == Zero2
    ensures mesh.colors.None? && material.None? ==> VertexOf(mesh, material, v).color == Some(White)
    ensures VertexOf(mesh, material, v).color.None? <==>
              mesh.colors.None? && material.Some? && material.value.diffuseColor.None?
    ensures VertexOf(mesh, material, v).position == mesh.positions[v]
  {
  }

  function MeshVertices(scene: ImportedScene, m: nat): (r: seq<VertexData>)
    requires WellFormed(scene) && m < |scene.meshes|
    ensures |r| == |scene.meshes[m].positions|
  {
    var mesh := scene.meshes[m];
    assert WellFormedMesh(mesh, |scene.materials|);
    seq(|mesh.positions|, v requires 0 <= v < |mesh.positions| => VertexOf(mesh, MaterialOf(scene, m), v))
  }

  /** Number of vertices of the first n meshes. */
  function VertexCount(scene: ImportedScene, n: nat): nat
    requires n <= |scene.meshes|
  {
    if n == 0 then 0 else VertexCount(scene, n - 1) + |scene.meshes[n - 1].positions|
  }

  /** The vertices of the first n meshes, end to end. */
  function AllVertices(scene: ImportedScene, n: nat): (r: seq<VertexData>)
    requires WellFormed(scene) && n <= |scene.meshes|
    ensures |r| == VertexCount(scene, n)
  {
    if n == 0 then [] else AllVertices(scene, n - 1) + MeshVertices(scene, n - 1)
  }

  /** Four arrays of equal length that hold the fields of `vertices`, entry by entry. */
  predicate Unzips(positions: seq<Vec3>, texCoords: seq<Vec2>, normals: seq<Vec3>, colors: seq<Option<Vec4>>,
                   vertices: seq<VertexData>)
  {
    |positions| == |vertices| && |texCoords| == |vertices| && |normals| == |vertices| && |colors| == |vertices| &&
    forall i :: 0 <= i < |vertices| ==> vertices[i] == VertexData(positions[i], texCoords[i], normals[i], colors[i])
  }

  // ------------------------------------------------------------ indices

  /** The faces loop as written (lines 104-114): every face is gated on the index count of
      the mesh's first face, and its first three indices are appended unchanged. Reading
      three indices from every face presumes each has three when the first one does. */
  function MeshIndicesAsWritten(faces: seq<seq<nat>>, n: nat): seq<nat>
    requires n <= |faces|
    requires |faces| > 0 && |faces[0]| == 3 ==> forall i :: 0 <= i < |faces| ==> |faces[i]| >= 3
  {
    if n == 0 then []
    else
      MeshIndicesAsWritten(faces, n - 1) +
      (if |faces[0]| == 3 then [Wrap16(faces[n - 1][0]), Wrap16(faces[n - 1][1]), Wrap16(faces[n - 1][2])] else [])
  }

  predicate FirstFaceGateReadable(scene: ImportedScene)
  {
    forall m :: 0 <= m < |scene.meshes| ==>
      var faces := scene.meshes[m].faces;
      |faces| > 0 && |faces[0]| == 3 ==> forall i :: 0 <= i < |faces| ==> |faces[i]| >= 3
  }

  /** The index list Load builds as written, over the first n meshes. */
  function SceneIndicesAsWritten(scene: ImportedScene, n: nat): seq<nat>
    requires n <= |scene.meshes| && FirstFaceGateReadable(scene)
  {
    if n == 0 then []
    else SceneIndicesAsWritten(scene, n - 1) + MeshIndicesAsWritten(scene.meshes[n - 1].faces, |scene.meshes[n - 1].faces|)
  }

  /** Number of triangles (faces of exactly three indices) among the first n faces. */
  function TriangleCount(faces: seq<seq<nat>>, n: nat): nat
    requires n <= |faces|
  {
    if n == 0 then 0 else TriangleCount(faces, n - 1) + (if |faces[n - 1]| == 3 then 1 else 0)
  }

  /** The corrected faces loop: each face is gated on its own index count, and its indices
      are offset by `base`, the number of vertices emitted for earlier meshes; the values are
      stored as uint16_t. */
  function TriangleIndices(faces: seq<seq<nat>>, base: nat, n: nat): (r: seq<nat>)
    requires n <= |faces|
    ensures |r| == 3 * TriangleCount(faces, n)
    ensures forall k :: 0 <= k < |r| ==> r[k] < U16Modulus
  {
    if n == 0 then []
    else
      var f := faces[n - 1];
      TriangleIndices(faces, base, n - 1) +
      (if |f| == 3 then [Wrap16(base + f[0]), Wrap16(base + f[1]), Wrap16(base + f[2])] else [])
  }

  /** Number of triangles of the first n meshes. */
  function SceneTriangleCount(scene: ImportedScene, n: nat): nat
    requires n <= |scene.meshes|
  {
    if n == 0 then 0
    else SceneTriangleCount(scene, n - 1) + TriangleCount(scene.meshes[n - 1].faces, |scene.meshes[n - 1].faces|)
  }

  /** The corrected index list of the first n meshes. */
  function SceneIndices(scene: ImportedScene, n: nat): (r: seq<nat>)
    requires n <= |scene.meshes|
    ensures |r| == 3 * SceneTriangleCount(scene, n)
    ensures forall k :: 0 <= k < |r| ==> r[k] < U16Modulus
  {
    if n == 0 then []
    else
      var faces := scene.meshes[n - 1].faces;
      SceneIndices(scene, n - 1) + TriangleIndices(faces, VertexCount(scene, n - 1), |faces|)
  }

  // ------------------------------------------------------------ texture paths

  /** std::string::find_last_of for one character. */
  function LastIndexOf(s: string, c: char): (r: Option<nat>)
    ensures r.Some? ==> r.value < |s| && s[r.value] == c && forall k :: r.value < k < |s| ==> s[k] != c
    ensures r.None? ==> forall k :: 0 <= k < |s| ==> s[k] != c
  {
    if |s| == 0 then None
    else if s[|s| - 1] == c then Some(|s| - 1)
    else LastIndexOf(s[..|s| - 1], c)
  }

  /** The folder of the model path: everything before its last '/', followed by a '/'
      unless it already ends in one; empty when that part is empty. */
  function FolderPrefix(path: string): string
  {
    var folder := match LastIndexOf(path, '/') case None => "" case Some(pos) => path[..pos];
    if |folder| > 0 && folder[|folder| - 1] != '/' then folder + "/" else folder
  }

  /** The file name of a texture path: what follows its last '/', or its last '\' when it
      has no '/'; the whole path when it has neither. */
  function BaseName(texture: string): string
  {
    var pos := if LastIndexOf(texture, '/').Some? then LastIndexOf(texture, '/') else LastIndexOf(texture, '\\');
    match pos case None => texture case Some(p) => texture[p + 1..]
  }

  function DiffusePath(path: string, texture: string): string
  {
    FolderPrefix(path) + BaseName(texture)
  }

  /** The normal map keeps the raw texture path: no file-name stripping. */
  function NormalPath(path: string, texture: string): string
  {
    FolderPrefix(path) + texture
  }

  /** The folder is a prefix of the model path that is empty or ends in '/'; it is empty
      exactly when the path has no '/' or its last '/' is its first character; otherwise it
      reaches at least up to the last '/'. */
  lemma FolderPrefixShape(path: string)
    ensures FolderPrefix(path) <= path
    ensures FolderPrefix(path) == [] || FolderPrefix(path)[|FolderPrefix(path)| - 1] == '/'
    ensures FolderPrefix(path) == [] <==> LastIndexOf(path, '/') in {None, Some(0)}
    ensures LastIndexOf(path, '/').Some? ==> |FolderPrefix(path)| >= LastIndexOf(path, '/').value
  {
    match LastIndexOf(path, '/')
    case None =>
    case Some(pos) =>
      if pos > 0 && path[pos - 1] != '/' {
        assert path[..pos] + "/" == path[..pos + 1];
      }
  }

  /** The file name is a suffix of the texture path that holds no '/', and no '\' either
      when the path has no '/'. */
  lemma BaseNameShape(texture: string)
    ensures |BaseName(texture)| <= |texture| && texture[|texture| - |BaseName(texture)|..] == BaseName(texture)
    ensures forall k :: 0 <= k < |BaseName(texture)| ==> BaseName(texture)[k] != '/'
    ensures LastIndexOf(texture, '/').None? ==> forall k :: 0 <= k < |BaseName(texture)| ==> BaseName(texture)[k] != '\\'
  {
    var slash := LastIndexOf(texture, '/');
    if slash.None? {
      var back := LastIndexOf(texture, '\\');
      if back.Some? {
        var b := BaseName(texture);
        assert b == texture[back.value + 1..];
        forall k | 0 <= k < |b|
          ensures b[k] != '\\'
        {
          assert b[k] == texture[back.value + 1 + k];
        }
      }
    } else {
      var b := BaseName(texture);
      forall k | 0 <= k < |b|
        ensures b[k] != '/'
      {
        assert b[k] == texture[slash.value + 1 + k];
      }
    }
  }

  /** Texture paths Load collects from the material entry of one mesh. */
  function DiffuseTexturesOf(material: Option<ImportedMaterial>, path: string): seq<string>
  {
    if material.Some? && material.value.diffuseTexture.Some? then [DiffusePath(path, material.value.diffuseTexture.value)] else []
  }

  function NormalTexturesOf(material: Option<ImportedMaterial>, path: string): seq<string>
  {
    if material.Some? && material.value.normalTexture.Some? then [NormalPath(path, material.value.normalTexture.value)] else []
  }

  function DiffuseTextures(scene: ImportedScene, path: string, n: nat): seq<string>
    requires WellFormed(scene) && n <= |scene.meshes|
  {
    if n == 0 then [] else DiffuseTextures(scene, path, n - 1) + DiffuseTexturesOf(MaterialOf(scene, n - 1), path)
  }

  function NormalTextures(scene: ImportedScene, path: string, n: nat): seq<string>
    requires WellFormed(scene) && n <= |scene.meshes|
  {
    if n == 0 then [] else NormalTextures(scene, path, n - 1) + NormalTexturesOf(MaterialOf(scene, n - 1), path)
  }

  // ------------------------------------------------------------ Load

  /** The vertex loop for one mesh. */
  method LoadVertices(mesh: ImportedMesh, material: Option<ImportedMaterial>)
    returns (positions: seq<Vec3>, texCoords: seq<Vec2>, normals: seq<Vec3>, colors: seq<Option<Vec4>>)
    requires WellFormedMesh(mesh, mesh.materialIndex + 1)
    ensures Unzips(positions, texCoords, normals, colors,
                   seq(|mesh.positions|, v requires 0 <= v < |mesh.positions| => VertexOf(mesh, material, v)))
  {
    positions, texCoords, normals, colors := [], [], [], [];
    var idxVert := 0;
    while idxVert < |mesh.positions|
      invariant idxVert <= |mesh.positions|
      invariant Unzips(positions, texCoords, normals, colors,
                       seq(idxVert, v requires 0 <= v < idxVert => VertexOf(mesh, material, v)))
    {
      positions := positions + [mesh.positions[idxVert]];
      var normal := if mesh.normals.Some? then mesh.normals.value[idxVert] else Zero3;
      normals := normals + [normal];
      var texCoord := if mesh.texCoords.Some? then mesh.texCoords.value[idxVert] else Zero2;
      texCoords := texCoords + [texCoord];
      var color: Option<Vec4>;
      if mesh.colors.Some? {
        color := Some(mesh.colors.value[idxVert]);
      } else if material.Some? {
        color := material.value.diffuseColor;
      } else {
        color := Some(White);
      }
      colors := colors + [color];
      idxVert := idxVert + 1;
    }
  }

  /** The faces loop for one mesh, corrected: each face is gated on its own index count and
      offset by the vertices already emitted. */
  method LoadFaces(faces: seq<seq<nat>>, base: nat) returns (indices: seq<nat>)
    ensures indices == TriangleIndices(faces, base, |faces|)
  {
    indices := [];
    var idxFace := 0;
    while idxFace < |faces|
      invariant idxFace <= |faces|
      invariant indices == TriangleIndices(faces, base, idxFace)
    {
      var numIndices := |faces[idxFace]|;
      if numIndices == 3 {
        indices := indices + [Wrap16(base + faces[idxFace][0])];
        indices := indices + [Wrap16(base + faces[idxFace][1])];
        indices := indices + [Wrap16(base + faces[idxFace][2])];
      }
      idxFace := idxFace + 1;
    }
  }

  /** The body of Load's mesh loop: mesh m's vertices, its triangles offset by `base`, and
      the texture paths of its material entry. */
  method LoadMesh(scene: ImportedScene, m: nat, base: nat, path: string)
    returns (positions: seq<Vec3>, texCoords: seq<Vec2>, normals: seq<Vec3>, colors: seq<Option<Vec4>>,
             indices: seq<nat>, diffuseTextures: seq<string>, normalTextures: seq<string>)
    requires WellFormed(scene) && m < |scene.meshes|
    ensures Unzips(positions, texCoords, normals, colors, MeshVertices(scene, m))
    ensures indices == TriangleIndices(scene.meshes[m].faces, base, |scene.meshes[m].faces|)
    ensures diffuseTextures == DiffuseTexturesOf(MaterialOf(scene, m), path)
    ensures normalTextures == NormalTexturesOf(MaterialOf(scene, m), path)
  {
    var mesh := scene.meshes[m];
    assert WellFormedMesh(mesh, |scene.materials|);
    var mtl := scene.materials[mesh.materialIndex];
    positions, texCoords, normals, colors := LoadVertices(mesh, mtl);
    indices := LoadFaces(mesh.faces, base);
    diffuseTextures, normalTextures := [], [];
    if mtl.Some? {
      if mtl.value.diffuseTexture.Some? {
        diffuseTextures := diffuseTextures + [DiffusePath(path, mtl.value.diffuseTexture.value)];
      }
      if mtl.value.normalTexture.Some? {
        normalTextures := normalTextures + [NormalPath(path, mtl.value.normalTexture.value)];
      }
    }
  }

  lemma UnzipsAppend(positions: seq<Vec3>, texCoords: seq<Vec2>, normals: seq<Vec3>, colors: seq<Option<Vec4>>, vertices: seq<VertexData>,
                     positions': seq<Vec3>, texCoords': seq<Vec2>, normals': seq<Vec3>, colors': seq<Option<Vec4>>, vertices': seq<VertexData>)
    requires Unzips(positions, texCoords, normals, colors, vertices)
    requires Unzips(positions', texCoords', normals', colors', vertices')
    ensures Unzips(positions + positions', texCoords + texCoords', normals + normals', colors + colors', vertices + vertices')
  {
    var all := vertices + vertices';
    forall i | 0 <= i < |all|
      ensures all[i] == VertexData((positions + positions')[i], (texCoords + texCoords')[i], (normals + normals')[i], (colors + colors')[i])
    {
      if i >= |vertices| {
        var j := i - |vertices|;
        assert all[i] == vertices'[j];
      }
    }
  }

  /** LoaderFbx::Load, with the corrected faces loop. It fails exactly when the importer
      yields no scene; otherwise the four vertex arrays unzip the vertices of every mesh in
      order, and the index and texture lists are those of every mesh in order. The outputs
      start empty, as at the only call site. */
  method Load(scene: Option<ImportedScene>, path: string)
    returns (ok: bool, positions: seq<Vec3>, texCoords: seq<Vec2>, normals: seq<Vec3>, colors: seq<Option<Vec4>>,
             indices: seq<nat>, diffuseTextures: seq<string>, normalTextures: seq<string>)
    requires scene.Some? ==> WellFormed(scene.value)
    ensures ok <==> scene.Some?
    ensures !ok ==> positions == [] && texCoords == [] && normals == [] && colors == [] &&
                    indices == [] && diffuseTextures == [] && normalTextures == []
    ensures ok ==> Unzips(positions, texCoords, normals, colors, AllVertices(scene.value, |scene.value.meshes|))
    ensures ok ==> indices == SceneIndices(scene.value, |scene.value.meshes|)
    ensures ok ==> diffuseTextures == DiffuseTextures(scene.value, path, |scene.value.meshes|)
    ensures ok ==> normalTextures == NormalTextures(scene.value, path, |scene.value.meshes|)
  {
    positions, texCoords, normals, colors := [], [], [], [];
    indices, diffuseTextures, normalTextures := [], [], [];
    ok := scene.Some?;
    if !ok {
      return;
    }
    var s := scene.value;
    var idxMesh := 0;
    while idxMesh < |s.meshes|
      invariant idxMesh <= |s.meshes|
      invariant Unzips(positions, texCoords, normals, colors, AllVertices(s, idxMesh))
      invariant indices == SceneIndices(s, idxMesh)
      invariant diffuseTextures == DiffuseTextures(s, path, idxMesh)
      invariant normalTextures == NormalTextures(s, path, idxMesh)
    {
      var p, t, n, c, meshIndices, diffuse, normal := LoadMesh(s, idxMesh, |positions|, path);
      UnzipsAppend(positions, texCoords, normals, colors, AllVertices(s, idxMesh), p, t, n, c, MeshVertices(s, idxMesh));
      positions, texCoords, normals, colors := positions + p, texCoords + t, normals + n, colors + c;
      indices := indices + meshIndices;
      diffuseTextures, normalTextures := diffuseTextures + diffuse, normalTextures + normal;
      idxMesh := idxMesh + 1;
    }
  }

  // ------------------------------------------------------------ properties

  lemma {:induction false} TriangleIndicesPrefix(faces: seq<seq<nat>>, base: nat, a: nat, b: nat)
    requires a <= b <= |faces|
    ensures TriangleIndices(faces, base, a) <= TriangleIndices(faces, base, b)
  {
    if a < b {
      TriangleIndicesPrefix(faces, base, a, b - 1);
    }
  }

  /** Corrected: triangle i of a mesh occupies the three slots after the triangles before it,
      and holds its own three indices shifted by the mesh's base. */
  lemma {:induction false} TriangleSlot(faces: seq<seq<nat>>, base: nat, n: nat, i: nat)
    requires i < n <= |faces| && |faces[i]| == 3
    ensures 3 * TriangleCount(faces, i) + 2 < |TriangleIndices(faces, base, n)|
    ensures forall c :: 0 <= c < 3 ==>
              TriangleIndices(faces, base, n)[3 * TriangleCount(faces, i) + c] == Wrap16(base + faces[i][c])
  {
    if i == n - 1 {
      assert TriangleCount(faces, n) == TriangleCount(faces, i) + 1;
    } else {
      TriangleSlot(faces, base, n - 1, i);
      TriangleCountMonotone(faces, i + 1, n - 1);
      TriangleIndicesPrefix(faces, base, n - 1, n);
    }
  }

  lemma {:induction false} TriangleCountMonotone(faces: seq<seq<nat>>, a: nat, b: nat)
    requires a <= b <= |faces|
    ensures TriangleCount(faces, a) <= TriangleCount(faces, b)
  {
    if a < b {
      TriangleCountMonotone(faces, a, b - 1);
    }
  }

  /** Every triangle index of a mesh whose faces address its own vertices falls in
      [base, base + vertexCount). */
  lemma {:induction false} TriangleIndicesInRange(faces: seq<seq<nat>>, base: nat, vertexCount: nat, n: nat)
    requires n <= |faces| && base + vertexCount <= U16Modulus
    requires forall i, c :: 0 <= i < |faces| && 0 <= c < |faces[i]| ==> faces[i][c] < vertexCount
    ensures forall k :: 0 <= k < |TriangleIndices(faces, base, n)| ==>
              base <= TriangleIndices(faces, base, n)[k] < base + vertexCount
  {
    if n > 0 {
      TriangleIndicesInRange(faces, base, vertexCount, n - 1);
    }
  }

  lemma {:induction false} SceneIndicesPrefix(scene: ImportedScene, a: nat, b: nat)
    requires a <= b <= |scene.meshes|
    ensures SceneIndices(scene, a) <= SceneIndices(scene, b)
  {
    if a < b {
      SceneIndicesPrefix(scene, a, b - 1);
    }
  }

  /** Vertex v of mesh m sits VertexCount(scene, m) + v into the vertices of the first n
      meshes, for every n past m. */
  lemma {:induction false} AllVerticesAt(scene: ImportedScene, n: nat, m: nat, v: nat)
    requires WellFormed(scene) && m < n <= |scene.meshes| && v < |scene.meshes[m].positions|
    ensures VertexCount(scene, m) + v < |AllVertices(scene, n)|
    ensures AllVertices(scene, n)[VertexCount(scene, m) + v] == MeshVertices(scene, m)[v]
  {
    var before, part := AllVertices(scene, n - 1), MeshVertices(scene, n - 1);
    assert AllVertices(scene, n) == before + part;
    if n == m + 1 {
      assert (before + part)[|before| + v] == part[v];
    } else {
      AllVerticesAt(scene, n - 1, m, v);
      assert (before + part)[VertexCount(scene, m) + v] == before[VertexCount(scene, m) + v];
    }
  }

  /** Corner c of triangle i of mesh m, among the triangles of the first m+1 meshes. */
  lemma SceneSlot(scene: ImportedScene, m: nat, i: nat, c: nat)
    requires m < |scene.meshes| && i < |scene.meshes[m].faces| && |scene.meshes[m].faces[i]| == 3 && c < 3
    ensures var k := 3 * SceneTriangleCount(scene, m) + 3 * TriangleCount(scene.meshes[m].faces, i) + c;
            k < |SceneIndices(scene, m + 1)| &&
            SceneIndices(scene, m + 1)[k] == Wrap16(VertexCount(scene, m) + scene.meshes[m].faces[i][c])
  {
    var faces := scene.meshes[m].faces;
    var own := TriangleIndices(faces, VertexCount(scene, m), |faces|);
    TriangleSlot(faces, VertexCount(scene, m), |faces|, i);
    PrefixIndex(SceneIndices(scene, m), own, SceneIndices(scene, m + 1), 3 * TriangleCount(faces, i) + c);
  }

  /** Entry v of the second part of a prefix sits |before| + v into the whole. */
  lemma PrefixIndex<T>(before: seq<T>, part: seq<T>, whole: seq<T>, v: nat)
    requires before + part <= whole && v < |part|
    ensures |before| + v < |whole| && whole[|before| + v] == part[v]
  {
    assert (before + part)[|before| + v] == part[v];
  }

  /** Corrected: with at most 65536 vertices in all, corner c of triangle i of mesh m is
      stored at a slot whose index names, in the concatenated vertex arrays, exactly the
      vertex of mesh m that the face names. */
  lemma IndicesAddressOwnVertices(scene: ImportedScene, m: nat, i: nat, c: nat)
    requires WellFormed(scene) && m < |scene.meshes|
    requires VertexCount(scene, |scene.meshes|) <= U16Modulus
    requires i < |scene.meshes[m].faces| && |scene.meshes[m].faces[i]| == 3 && c < 3
    requires scene.meshes[m].faces[i][c] < |scene.meshes[m].positions|
    ensures var k := 3 * SceneTriangleCount(scene, m) + 3 * TriangleCount(scene.meshes[m].faces, i) + c;
            var all := AllVertices(scene, |scene.meshes|);
            k < |SceneIndices(scene, |scene.meshes|)| &&
            SceneIndices(scene, |scene.meshes|)[k] < |all| &&
            all[SceneIndices(scene, |scene.meshes|)[k]] == VertexOf(scene.meshes[m], MaterialOf(scene, m), scene.meshes[m].faces[i][c])
  {
    var local := scene.meshes[m].faces[i][c];
    SceneSlot(scene, m, i, c);
    SceneIndicesPrefix(scene, m + 1, |scene.meshes|);
    AllVerticesAt(scene, |scene.meshes|, m, local);
  }

  lemma {:induction false} VertexCountMonotone(scene: ImportedScene, a: nat, b: nat)
    requires a <= b <= |scene.meshes|
    ensures VertexCount(scene, a) <= VertexCount(scene, b)
  {
    if a < b {
      VertexCountMonotone(scene, a, b - 1);
    }
  }

  /** As written, a mesh whose first face is a line loses every triangle that follows. */
  lemma FirstFaceGateDropsTriangles()
    ensures MeshIndicesAsWritten([[0, 1], [0, 1, 2]], 2) == []
    ensures TriangleIndices([[0, 1], [0, 1, 2]], 0, 2) == [0, 1, 2]
  {
  }

  /** Two meshes of one triangle over three vertices each. */
  function TwoTriangles(): (scene: ImportedScene)
    ensures |scene.meshes| == 2 && FirstFaceGateReadable(scene) && WellFormed(scene)
    ensures scene.meshes[0].faces == scene.meshes[1].faces == [[0, 1, 2]]
    ensures |scene.meshes[0].positions| == 3
  {
    var triangle := ImportedMesh(0, [Zero3, Zero3, Zero3], None, None, None, [[0, 1, 2]]);
    ImportedScene([triangle, triangle], [None])
  }

  /** As written, the second mesh's triangle names the first mesh's vertices. */
  lemma IndicesMissEarlierMeshes()
    ensures SceneIndicesAsWritten(TwoTriangles(), 2) == [0, 1, 2, 0, 1, 2]
  {
    assert SceneIndicesAsWritten(TwoTriangles(), 1) == [0, 1, 2];
    assert MeshIndicesAsWritten([[0, 1, 2]], 1) == [0, 1, 2];
  }

  /** Corrected, the second mesh's triangle names its own vertices 3, 4 and 5. */
  lemma IndicesFollowEarlierMeshes()
    ensures SceneIndices(TwoTriangles(), 2) == [0, 1, 2, 3, 4, 5]
  {
    var scene := TwoTriangles();
    var triangle := scene.meshes[0].faces;
    assert TriangleIndices(triangle, 0, 1) == [0, 1, 2];
    assert SceneIndices(scene, 1) == [0, 1, 2];
    assert VertexCount(scene, 1) == 3;
    assert TriangleIndices(triangle, 3, 1) == [3, 4, 5];
    assert SceneIndices(scene, 2) == SceneIndices(scene, 1) + TriangleIndices(triangle, 3, 1);
  }
}
