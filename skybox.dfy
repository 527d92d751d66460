// Sources/Skybox.cpp: the six face textures of the sky cube, their total byte
// size, the cube's vertex and index buffers and the draw that renders it.
module Skyboxes {
  import opened Common
  import opened Textures
  import opened Buffers
  import opened SkyboxTables
  import opened DrawEvents

  /** The face names, in the order the cube-map layers expect them. */
  const FaceNames: seq<string> := ["right", "left", "up", "down", "back", "front"]

  /** The file a face is read from: folder, face name, extension. */
  function FacePath(folderPath: string, extension: string, face: nat): (r: string)
    requires face < |FaceNames|
    ensures |r| == |folderPath| + |FaceNames[face]| + |extension|
    ensures r[..|folderPath|] == folderPath && r[|r| - |extension|..] == extension
  {
    folderPath + FaceNames[face] + extension
  }

  /** Bytes of one RGBA8 face. */
  function FaceBytes(image: DecodedImage): nat
  {
    image.width * image.height * 4
  }

  /** What the texture constructor needs of a decoded face: a non-empty size and at least
      width*height*4 bytes. */
  predicate Decodable(image: DecodedImage)
  {
    Max(image.width, image.height) >= 1 && Wrap32(FaceBytes(image)) <= |image.data|
  }

  /** The pixels the texture keeps of a decoded face: width*height*4 bytes, a uint32_t count. */
  function FacePixels(image: DecodedImage): (r: seq<byte>)
    requires Decodable(image)
    ensures |r| == Wrap32(FaceBytes(image))
  {
    image.data[..Wrap32(FaceBytes(image))]
  }

  /** The exact sum of the face sizes. */
  function FaceBytesSum(images: seq<DecodedImage>): nat
  {
    if |images| == 0 then 0 else FaceBytesSum(images[..|images| - 1]) + FaceBytes(images[|images| - 1])
  }

  /** The decoder's output for the six face files, in face order. */
  function FaceImages(folderPath: string, extension: string, load: string -> DecodedImage): (r: seq<DecodedImage>)
    ensures |r| == FaceCount
    ensures forall face :: 0 <= face < FaceCount ==> r[face] == load(FacePath(folderPath, extension, face))
  {
    seq(FaceCount, face requires 0 <= face < FaceCount => load(FacePath(folderPath, extension, face)))
  }

  /** A face texture holds what was decoded from its file. */
  predicate FaceLoaded(texture: Texture, path: string, image: DecodedImage)
    reads texture
  {
    Decodable(image) &&
    texture.path == path && texture.width == image.width && texture.height == image.height &&
    texture.pixels == FacePixels(image)
  }

  /** Six distinct face textures. */
  predicate DistinctFaces(textures: seq<Texture>)
  {
    |textures| == FaceCount && forall i, j :: 0 <= i < j < |textures| ==> textures[i] != textures[j]
  }

  /** The first n faces are loaded, from their own files, as distinct textures. */
  ghost predicate LoadedPrefix(faces: seq<Texture>, folderPath: string, extension: string, images: seq<DecodedImage>, n: nat)
    requires n <= |images| && n <= FaceCount
    reads faces
  {
    |faces| == n &&
    (forall face :: 0 <= face < n ==> FaceLoaded(faces[face], FacePath(folderPath, extension, face), images[face])) &&
    (forall i, j :: 0 <= i < j < n ==> faces[i] != faces[j])
  }

  /** The loop of the Skybox constructor: one texture per face, in face order, with the
      uint32_t running sum of their sizes. */
  method LoadFaces(folderPath: string, extension: string, load: string -> DecodedImage)
    returns (faces: seq<Texture>, total: nat)
    requires forall face :: 0 <= face < FaceCount ==> Decodable(load(FacePath(folderPath, extension, face)))
    ensures DistinctFaces(faces)
    ensures forall face :: 0 <= face < FaceCount ==>
              FaceLoaded(faces[face], FacePath(folderPath, extension, face), FaceImages(folderPath, extension, load)[face])
    ensures total == Wrap32(FaceBytesSum(FaceImages(folderPath, extension, load)))
    ensures forall face :: 0 <= face < FaceCount ==> fresh(faces[face])
  {
    var images := FaceImages(folderPath, extension, load);
    faces := [];
    total := 0;
    var textureIndex := 0;
    while textureIndex < FaceCount
      invariant 0 <= textureIndex <= FaceCount
      invariant LoadedPrefix(faces, folderPath, extension, images, textureIndex)
      invariant total == Wrap32(FaceBytesSum(images[..textureIndex]))
      invariant forall face :: 0 <= face < textureIndex ==> fresh(faces[face])
    {
      var next;
      next, total := LoadNext(folderPath, extension, images, faces, total, textureIndex);
      faces := next;
      textureIndex := textureIndex + 1;
    }
    assert images[..textureIndex] == images;
  }

  /** One iteration of that loop: face n is loaded and its size added, in uint32_t. */
  method LoadNext(folderPath: string, extension: string, images: seq<DecodedImage>, faces: seq<Texture>, total: nat, n: nat)
    returns (next: seq<Texture>, nextTotal: nat)
    requires n < FaceCount && |images| == FaceCount && Decodable(images[n])
    requires LoadedPrefix(faces, folderPath, extension, images, n)
    requires total == Wrap32(FaceBytesSum(images[..n]))
    ensures LoadedPrefix(next, folderPath, extension, images, n + 1)
    ensures nextTotal == Wrap32(FaceBytesSum(images[..n + 1]))
    ensures next[..n] == faces && fresh(next[n])
  {
    var texture, faceSize := LoadFace(FacePath(folderPath, extension, n), images[n]);
    assert forall i :: 0 <= i < n ==> faces[i] != texture;
    next := faces + [texture];
    SumStep(images, n, total, faceSize);
    nextTotal := Wrap32(total + faceSize);
  }

  lemma SumStep(images: seq<DecodedImage>, i: nat, total: nat, faceSize: nat)
    requires i < |images|
    requires total == Wrap32(FaceBytesSum(images[..i])) && faceSize == Wrap32(FaceBytes(images[i]))
    ensures Wrap32(total + faceSize) == Wrap32(FaceBytesSum(images[..i + 1]))
  {
    assert images[..i + 1][..i] == images[..i];
    Wrap32Sum(FaceBytesSum(images[..i]), FaceBytes(images[i]));
  }

  /** Texture(folderPath + face + extension, 4) for one face, and its size in bytes
      (width * height * 4, in uint32_t). */
  method LoadFace(path: string, image: DecodedImage) returns (texture: Texture, faceSize: nat)
    requires Decodable(image)
    ensures fresh(texture) && FaceLoaded(texture, path, image)
    ensures faceSize == Wrap32(FaceBytes(image))
  {
    texture := new Texture(path, 4, image);
    faceSize := Wrap32(texture.width * texture.height * 4);
  }

  /** The skybox's vertex buffer (8 vec3) and index buffer (36 uint16_t), filled with the
      cube tables. */
  method CubeBuffers(vertexHandles: (Handle, Handle), indexHandles: (Handle, Handle)) returns (vertices: Buffer, indices: Buffer)
    ensures fresh(vertices) && fresh(indices)
    ensures vertices.size == 12 * |CubeVertices| && vertices.contents == CubeVertexBytes()
    ensures indices.size == 2 * |CubeIndices| && indices.contents == CubeIndexBytes()
    ensures vertices.buffer == vertexHandles.0 && vertices.memory == vertexHandles.1
    ensures indices.buffer == indexHandles.0 && indices.memory == indexHandles.1
  {
    var vertexBytes, indexBytes := CubeVertexBytes(), CubeIndexBytes();
    vertices := new Buffer.Static(Vertex, 12, 8, vertexHandles.0, vertexHandles.1);
    vertices.UpdateData(vertexBytes);
    indices := new Buffer.Static(Index, 2, 36, indexHandles.0, indexHandles.1);
    indices.UpdateData(indexBytes);
    assert vertexBytes[..96] == vertexBytes && indexBytes[..72] == indexBytes;
  }

  class Skybox {
    var textures: seq<Texture>
    /** m_Size: the uint32_t sum of the face sizes in bytes. */
    var size: nat
    var vertexBuffer: Buffer
    var indexBuffer: Buffer

    /** The faces are distinct objects, and the cube buffers hold the tables. */
    predicate Valid()
      reads this, vertexBuffer, indexBuffer
    {
      DistinctFaces(textures) &&
      vertexBuffer != indexBuffer &&
      vertexBuffer.size == 12 * |CubeVertices| && indexBuffer.size == 2 * |CubeIndices| &&
      vertexBuffer.contents == CubeVertexBytes() && indexBuffer.contents == CubeIndexBytes()
    }

    /** Skybox(device, folderPath, extension): loads the six faces in face order, sums their
        sizes, and fills an 8-vertex buffer and a 36-index buffer. The decoder and the
        handles the driver returns are parameters. */
    constructor (folderPath: string, extension: string, load: string -> DecodedImage,
                 vertexHandles: (Handle, Handle), indexHandles: (Handle, Handle))
      requires forall face :: 0 <= face < FaceCount ==> Decodable(load(FacePath(folderPath, extension, face)))
      ensures Valid()
      ensures forall face :: 0 <= face < FaceCount ==>
                FaceLoaded(textures[face], FacePath(folderPath, extension, face), FaceImages(folderPath, extension, load)[face])
      ensures size == Wrap32(FaceBytesSum(FaceImages(folderPath, extension, load)))
      ensures fresh(vertexBuffer) && fresh(indexBuffer)
      ensures forall face :: 0 <= face < FaceCount ==> fresh(textures[face])
      ensures vertexBuffer.buffer == vertexHandles.0 && vertexBuffer.memory == vertexHandles.1
      ensures indexBuffer.buffer == indexHandles.0 && indexBuffer.memory == indexHandles.1
    {
      var faces, total := LoadFaces(folderPath, extension, load);
      var vertices, indices := CubeBuffers(vertexHandles, indexHandles);
      textures, size := faces, total;
      vertexBuffer, indexBuffer := vertices, indices;
    }

    /** What Render records: bind the cube's vertex and index buffers and draw 36 indices. */
    function DrawCalls(): seq<DrawEvent>
      reads this, vertexBuffer, indexBuffer
    {
      [BindVertexBuffer(vertexBuffer.buffer), BindIndexBuffer(indexBuffer.buffer), DrawIndexed(36)]
    }

    /** Skybox::Render: binds the cube's buffers and draws every index of the table. */
    method Render() returns (events: seq<DrawEvent>)
      requires Valid()
      ensures events == DrawCalls()
      ensures events[2].indexCount == |DecodeIndices(indexBuffer.contents)| == |CubeIndices|
    {
      CubeBytesRoundTrip();
      events := [BindVertexBuffer(vertexBuffer.buffer), BindIndexBuffer(indexBuffer.buffer), DrawIndexed(36)];
    }

    /** Skybox::FreeTextures: every face drops its pixels; nothing else changes. */
    method FreeTextures()
      requires DistinctFaces(textures)
      modifies textures
      ensures forall face :: 0 <= face < FaceCount ==> textures[face].pixels == []
      ensures forall face :: 0 <= face < FaceCount ==>
                textures[face].image == old(textures[face].image) && textures[face].imageView == old(textures[face].imageView) &&
                textures[face].memory == old(textures[face].memory) && textures[face].sampler == old(textures[face].sampler)
    {
      var textureIndex := 0;
      while textureIndex < FaceCount
        invariant 0 <= textureIndex <= FaceCount
        invariant forall face :: 0 <= face < textureIndex ==> textures[face].pixels == []
        invariant forall face :: 0 <= face < FaceCount ==>
                    textures[face].image == old(textures[face].image) && textures[face].imageView == old(textures[face].imageView) &&
                    textures[face].memory == old(textures[face].memory) && textures[face].sampler == old(textures[face].sampler)
      {
        textures[textureIndex].FreeTexture();
        textureIndex := textureIndex + 1;
      }
    }
  }
}
