/** importModel (main.cpp:42-73): turns the meshes of a scene the model
    loader has read into the CPU-side meshes the renderer is given. Each
    sub-mesh's positions, normals and first texture-coordinate channel are
    copied vertex by vertex, and its faces are flattened into one index list
    in which every index is stored plus one. The renderer draws with a
    vertex offset of -1, which undoes that shift. */
module Import {
  import opened Common
  import opened Geometry
  import opened Commands

  /** aiFace: the vertex indices (unsigned int) of one primitive. */
  datatype AiFace = AiFace(indices: seq<int>)

  /** aiMesh, as far as importModel reads it: the name, mNumVertices
      positions, normals and entries of texture-coordinate channel 0
      (aiVector3D, of which x and y are used), and the faces. */
  datatype AiMesh = AiMesh(
    name: string,
    vertices: seq<Vec3>,
    normals: seq<Vec3>,
    texCoords: seq<Vec3>,
    faces: seq<AiFace>)

  /** aiScene: its mMeshes. */
  datatype AiScene = AiScene(meshes: seq<AiMesh>)

  /** Every face has the three indices importModel reads, each an unsigned
      int. aiProcess_Triangulate makes polygons triangles; a point or line
      face would be read past its end. */
  predicate Triangulated(faces: seq<AiFace>)
  {
    forall j :: 0 <= j < |faces| ==>
      |faces[j].indices| >= 3 && forall k :: 0 <= k < 3 ==> 0 <= faces[j].indices[k] < U32_MODULUS
  }

  /** What importModel demands of a mesh: a normal and a texture coordinate
      for every vertex, and triangle faces. */
  predicate ReadableMesh(m: AiMesh)
  {
    && |m.normals| >= |m.vertices|
    && |m.texCoords| >= |m.vertices|
    && Triangulated(m.faces)
  }

  /** The indices of an aiMesh as Assimp guarantees them: mNumVertices is
      an unsigned int and every face index names one of the vertices. */
  predicate IndicesInRange(m: AiMesh)
  {
    && |m.vertices| <= U32_MAX
    && forall j :: 0 <= j < |m.faces| ==>
         forall k :: 0 <= k < 3 <= |m.faces[j].indices| ==> m.faces[j].indices[k] < |m.vertices|
  }

  /** The three entries one face contributes (main.cpp:64-66): each index
      plus one, in uint32_t arithmetic. */
  function FaceIndices(f: AiFace): seq<int>
    requires |f.indices| >= 3
  {
    [ToU32(f.indices[0] + 1), ToU32(f.indices[1] + 1), ToU32(f.indices[2] + 1)]
  }

  /** The flattened index list of a sequence of faces, face by face. */
  function FlattenIndices(faces: seq<AiFace>): (r: seq<int>)
    requires Triangulated(faces)
    ensures |r| == 3 * |faces|
  {
    if faces == [] then []
    else FlattenIndices(faces[..|faces| - 1]) + FaceIndices(faces[|faces| - 1])
  }

  /** Entry 3j+k of the flattened list is face j's k-th index plus one. */
  lemma {:induction false} FlattenIndicesAt(faces: seq<AiFace>, p: int)
    requires Triangulated(faces)
    requires 0 <= p < 3 * |faces|
    ensures FlattenIndices(faces)[p] == ToU32(faces[p / 3].indices[p % 3] + 1)
  {
    var n := |faces| - 1;
    if p < 3 * n {
      FlattenIndicesAt(faces[..n], p);
      assert faces[..n][p / 3] == faces[p / 3];
    } else {
      assert p / 3 == n;
    }
  }

  /** glm::vec2(t.x, t.y) for every texture coordinate of the first n. */
  function TexCoords2(texCoords: seq<Vec3>, n: nat): (r: seq<Vec2>)
    requires n <= |texCoords|
  {
    seq(n, j requires 0 <= j < n => Vec2(texCoords[j].x, texCoords[j].y))
  }

  /** The CPU mesh importModel builds from sub-mesh i (main.cpp:68). */
  function ImportedMesh(i: int, m: AiMesh): CpuMesh
    requires ReadableMesh(m)
  {
    CpuMesh(i, m.name, m.vertices, FlattenIndices(m.faces),
            TexCoords2(m.texCoords, |m.vertices|), m.normals[..|m.vertices|])
  }

  /** The mesh built from sub-mesh i has id i, one position, normal and
      texture coordinate per source vertex copied from that vertex, and
      three indices per face, entry 3j+k being face j's k-th index plus
      one. */
  lemma ImportedMeshShape(i: int, m: AiMesh)
    requires ReadableMesh(m)
    ensures ImportedMesh(i, m).id == i
    ensures |ImportedMesh(i, m).vertices| == |ImportedMesh(i, m).normals|
         == |ImportedMesh(i, m).texCoords| == |m.vertices|
    ensures forall j :: 0 <= j < |m.vertices| ==>
      && ImportedMesh(i, m).vertices[j] == m.vertices[j]
      && ImportedMesh(i, m).normals[j] == m.normals[j]
      && ImportedMesh(i, m).texCoords[j] == Vec2(m.texCoords[j].x, m.texCoords[j].y)
    ensures |ImportedMesh(i, m).indices| == 3 * |m.faces|
    ensures forall p :: 0 <= p < 3 * |m.faces| ==>
      ImportedMesh(i, m).indices[p] == ToU32(m.faces[p / 3].indices[p % 3] + 1)
  {
    forall p | 0 <= p < 3 * |m.faces|
      ensures ImportedMesh(i, m).indices[p] == ToU32(m.faces[p / 3].indices[p % 3] + 1)
    {
      FlattenIndicesAt(m.faces, p);
    }
  }

  /** The renderer draws every mesh with vertexOffset -1
      (VulkanRenderer.cpp:1057), so index entry e fetches vertex
      e + DRAW_VERTEX_OFFSET. For every entry of an imported mesh that is
      exactly the vertex the face names, and it lies inside the vertex
      buffer: the +1 of importModel and the -1 of the draw cancel. */
  lemma ImportedIndexFetchesFaceVertex(i: int, m: AiMesh, p: int)
    requires ReadableMesh(m) && IndicesInRange(m)
    requires 0 <= p < |ImportedMesh(i, m).indices|
    ensures ImportedMesh(i, m).indices[p] + DRAW_VERTEX_OFFSET == m.faces[p / 3].indices[p % 3]
    ensures 0 <= ImportedMesh(i, m).indices[p] + DRAW_VERTEX_OFFSET < |ImportedMesh(i, m).vertices|
  {
    FlattenIndicesAt(m.faces, p);
  }

  /** main.cpp:51-60: the position, normal and texture-coordinate vectors,
      preallocated to mNumVertices entries and filled by index. */
  method CopyAttributes(m: AiMesh) returns (vertices: seq<Vec3>, normals: seq<Vec3>, texCoords: seq<Vec2>)
    requires ReadableMesh(m)
    ensures vertices == m.vertices
    ensures normals == m.normals[..|m.vertices|]
    ensures texCoords == TexCoords2(m.texCoords, |m.vertices|)
  {
    var n := |m.vertices|;
    var positionSlots := new Vec3[n](_ => ZERO3);
    var normalSlots := new Vec3[n](_ => ZERO3);
    var texCoordSlots := new Vec2[n](_ => Vec2(0.0, 0.0));
    for j := 0 to n
      invariant forall k :: 0 <= k < j ==> positionSlots[k] == m.vertices[k]
      invariant forall k :: 0 <= k < j ==> normalSlots[k] == m.normals[k]
      invariant forall k :: 0 <= k < j ==> texCoordSlots[k] == Vec2(m.texCoords[k].x, m.texCoords[k].y)
    {
      positionSlots[j] := m.vertices[j];
      normalSlots[j] := m.normals[j];
      texCoordSlots[j] := Vec2(m.texCoords[j].x, m.texCoords[j].y);
    }
    vertices, normals, texCoords := positionSlots[..], normalSlots[..], texCoordSlots[..];
  }

  /** main.cpp:54, 61-67: the index vector, preallocated to 3 * mNumFaces
      entries; face j fills entries 3j, 3j+1 and 3j+2. */
  method FlattenFaces(faces: seq<AiFace>) returns (indices: seq<int>)
    requires Triangulated(faces)
    ensures indices == FlattenIndices(faces)
  {
    var slots := new int[3 * |faces|](_ => 0);
    for j := 0 to |faces|
      invariant forall p :: 0 <= p < 3 * j ==> slots[p] == ToU32(faces[p / 3].indices[p % 3] + 1)
    {
      var face := faces[j];
      slots[j * 3] := ToU32(face.indices[0] + 1);
      slots[j * 3 + 1] := ToU32(face.indices[1] + 1);
      slots[j * 3 + 2] := ToU32(face.indices[2] + 1);
      forall p | 3 * j <= p < 3 * (j + 1)
        ensures p / 3 == j && p % 3 == p - 3 * j
      {
      }
    }
    indices := slots[..];
    forall p | 0 <= p < 3 * |faces| ensures indices[p] == FlattenIndices(faces)[p] {
      FlattenIndicesAt(faces, p);
    }
  }

  /** The body of importModel's outer loop (main.cpp:50-69) for sub-mesh
      i. */
  method ImportMesh(i: int, m: AiMesh) returns (mesh: CpuMesh)
    requires ReadableMesh(m)
    ensures mesh == ImportedMesh(i, m)
  {
    var vertices, normals, texCoords := CopyAttributes(m);
    var indices := FlattenFaces(m.faces);
    mesh := CpuMesh(i, m.name, vertices, indices, texCoords, normals);
  }

  /** A default-constructed CPU mesh, the placeholder std::vector<Mesh>
      model(n) holds until slot i is assigned. */
  const DEFAULT_MESH: CpuMesh := CpuMesh(0, "", [], [], [], [])

  /** importModel (main.cpp:42-73) on the scene the loader returned: one
      CPU mesh per sub-mesh, mesh i built from sub-mesh i. */
  method ImportModel(scene: AiScene) returns (model: seq<CpuMesh>)
    requires forall i :: 0 <= i < |scene.meshes| ==> ReadableMesh(scene.meshes[i])
    ensures |model| == |scene.meshes|
    ensures forall i :: 0 <= i < |model| ==> model[i] == ImportedMesh(i, scene.meshes[i])
  {
    var slots := new CpuMesh[|scene.meshes|](_ => DEFAULT_MESH);
    for i := 0 to |scene.meshes|
      invariant forall k :: 0 <= k < i ==> slots[k] == ImportedMesh(k, scene.meshes[k])
    {
      var mesh := ImportMesh(i, scene.meshes[i]);
      slots[i] := mesh;
    }
    model := slots[..];
  }
}
