/** A mesh as the renderer holds it on the GPU (VkMesh.h, VkMesh.cpp): the
    vertex and index counts, one vertex buffer and one index buffer each with
    its device memory, the index of the texture's sampler descriptor and the
    model transform. Only the transform can change after construction. */
module VkMeshes {
  import opened Common
  import opened Geometry
  import opened Gpu

  /** One vertex as uploaded to the vertex buffer: position, colour, normal
      and texture coordinate (VkMesh.h:10-16). */
  datatype Vertex = Vertex(pos: Vec3, color: Vec3, normal: Vec3, uv: Vec2)

  /** sizeof(Vertex): three glm::vec3 of 12 bytes and one glm::vec2 of 8. */
  const VERTEX_SIZE: nat := 3 * 12 + 8
  /** sizeof(uint32_t): indices are uploaded as 32-bit values. */
  const INDEX_SIZE: nat := 4

  /** The vertex input attributes the graphics pipeline declares for a
      Vertex: location 0 reads pos, 1 reads color, 2 reads uv. No location
      reads normal. */
  datatype Attribute = Pos | Color | Normal | Uv

  const PIPELINE_ATTRIBUTES: seq<Attribute> := [Pos, Color, Uv]

  /** The byte offset of an attribute inside a Vertex (offsetof). */
  function AttributeOffset(a: Attribute): (r: nat)
    ensures a == Pos ==> r == 0
    ensures a == Color ==> r == 12
    ensures a == Normal ==> r == 24
    ensures a == Uv ==> r == 36
    ensures r + (if a == Uv then 8 else 12) <= VERTEX_SIZE
  {
    match a
    case Pos => 0
    case Color => 12
    case Normal => 24
    case Uv => 36
  }

  /** The pipeline's attributes lie inside a Vertex, do not overlap, are at
      locations 0 to 2, and leave the normal unread. */
  lemma PipelineAttributes()
    ensures |PIPELINE_ATTRIBUTES| == 3
    ensures Normal !in PIPELINE_ATTRIBUTES
    ensures forall i, j :: 0 <= i < j < |PIPELINE_ATTRIBUTES| ==>
      AttributeOffset(PIPELINE_ATTRIBUTES[i]) + 12 <= AttributeOffset(PIPELINE_ATTRIBUTES[j])
  {
  }

  /** A snapshot of a VkMesh's fields, used wherever the renderer reasons
      about its meshes as values. */
  datatype MeshState = MeshState(
    vertexCount: int,
    vertexBuffer: Handle,
    vertexBufferMemory: Handle,
    indexCount: int,
    indexBuffer: Handle,
    indexBufferMemory: Handle,
    textureIndex: int,
    transform: Mat4)
  {
    /** The four device objects the mesh owns. */
    function Handles(): set<Handle>
    {
      {vertexBuffer, vertexBufferMemory, indexBuffer, indexBufferMemory}
    }

    /** The order in which destroyDataBuffers hands them back. */
    function ReleaseOrder(): seq<Handle>
    {
      [indexBuffer, indexBufferMemory, vertexBuffer, vertexBufferMemory]
    }

    /** The four handles are real and pairwise distinct. */
    predicate OwnsDistinctHandles()
    {
      && vertexBuffer != NULL_HANDLE && vertexBufferMemory != NULL_HANDLE
      && indexBuffer != NULL_HANDLE && indexBufferMemory != NULL_HANDLE
      && vertexBuffer != vertexBufferMemory && vertexBuffer != indexBuffer
      && vertexBuffer != indexBufferMemory && vertexBufferMemory != indexBuffer
      && vertexBufferMemory != indexBufferMemory && indexBuffer != indexBufferMemory
    }
  }

  /** The staged upload both private buffer helpers perform
      (VkMesh.cpp:74-101 and 103-130): a host-visible staging buffer of
      `size` bytes, a device-local buffer of the same size that receives the
      copy, and the staging pair destroyed and freed before returning. The
      mapping, the memcpy and the copy command are not modelled. */
  method UploadBuffer(device: Device, size: nat)
    returns (buffer: Handle, memory: Handle, ghost staging: seq<Handle>)
    requires device.Valid()
    modifies device
    ensures device.Valid()
    ensures buffer != NULL_HANDLE && memory != NULL_HANDLE && buffer != memory
    ensures |staging| == 2 && buffer !in staging && memory !in staging
    ensures forall h :: h in staging ==> h !in old(device.issued)
    ensures buffer !in old(device.issued) && memory !in old(device.issued)
    ensures device.issued == old(device.issued) + {buffer, memory} + {staging[0], staging[1]}
    ensures device.live == old(device.live) + {buffer, memory}
    ensures device.releases == old(device.releases) + staging
    ensures buffer in device.sizeOf && device.sizeOf[buffer] == size
    ensures forall h :: h in old(device.sizeOf) ==> h in device.sizeOf && device.sizeOf[h] == old(device.sizeOf)[h]
  {
    var stagingBuffer, stagingMemory := device.CreateBuffer(size);
    buffer, memory := device.CreateBuffer(size);
    device.Release(stagingBuffer);
    device.Release(stagingMemory);
    staging := [stagingBuffer, stagingMemory];
  }

  class VkMesh {
    const vertexCount: int
    const vertexBuffer: Handle
    const vertexBufferMemory: Handle
    const indexCount: int
    const indexBuffer: Handle
    const indexBufferMemory: Handle
    const textureIndex: int
    /** The logical device the buffers were created on; null for a mesh
        built by the default constructor. */
    const device: Device?
    var transformMat: Mat4

    /** The vertices and indices the buffers were filled from. */
    ghost const vertexData: seq<Vertex>
    ghost const indexData: seq<int>
    /** The staging buffers and memories the constructor created and
        released again. */
    ghost const staging: seq<Handle>

    /** The four device objects the mesh owns. */
    function Handles(): set<Handle>
    {
      {vertexBuffer, vertexBufferMemory, indexBuffer, indexBufferMemory}
    }

    function State(): (s: MeshState)
      reads this
      ensures s.Handles() == Handles()
    {
      MeshState(vertexCount, vertexBuffer, vertexBufferMemory, indexCount,
                indexBuffer, indexBufferMemory, textureIndex, transformMat)
    }

    /** VkMesh::VkMesh() (VkMesh.cpp:3-13): zero counts, null handles, no
        device. The texture index and the transform are left uninitialised,
        so the model promises nothing about them. */
    constructor ()
      ensures vertexCount == 0 && indexCount == 0
      ensures vertexBuffer == NULL_HANDLE && vertexBufferMemory == NULL_HANDLE
      ensures indexBuffer == NULL_HANDLE && indexBufferMemory == NULL_HANDLE
      ensures device == null
      ensures vertexData == [] && indexData == [] && staging == []
    {
      indexCount := 0;
      vertexCount := 0;
      vertexBuffer := NULL_HANDLE;
      vertexBufferMemory := NULL_HANDLE;
      indexBuffer := NULL_HANDLE;
      indexBufferMemory := NULL_HANDLE;
      device := null;
      vertexData := [];
      indexData := [];
      staging := [];
    }

    /** VkMesh::VkMesh(physicalDevice, logicalDevice, ..., vertices, indices,
        textureIndex) (VkMesh.cpp:15-25): records the counts and the texture
        index, then uploads the vertices (44 bytes each) and the indices (4
        bytes each) through a staging buffer. Afterwards the mesh owns four
        new live handles and both staging pairs have been released. */
    constructor Create(device: Device, vertices: seq<Vertex>, indices: seq<int>, textureIndex: int)
      requires device.Valid()
      modifies device
      ensures device.Valid() && this.device == device
      ensures vertexCount == |vertices| && indexCount == |indices|
      ensures this.textureIndex == textureIndex
      ensures vertexData == vertices && indexData == indices
      ensures State().OwnsDistinctHandles()
      ensures State().Handles() !! old(device.issued)
      ensures device.live == old(device.live) + State().Handles()
      ensures |staging| == 4 && device.releases == old(device.releases) + staging
      ensures forall h :: h in staging ==> h !in old(device.issued) && h !in device.live
      ensures device.issued == old(device.issued) + State().Handles() + {staging[0], staging[1], staging[2], staging[3]}
      ensures vertexBuffer in device.sizeOf && device.sizeOf[vertexBuffer] == VERTEX_SIZE * |vertices|
      ensures indexBuffer in device.sizeOf && device.sizeOf[indexBuffer] == INDEX_SIZE * |indices|
      ensures forall h :: h in old(device.sizeOf) ==> h in device.sizeOf && device.sizeOf[h] == old(device.sizeOf)[h]
    {
      var vb, vm, vStage := UploadBuffer(device, VERTEX_SIZE * |vertices|);
      var ib, im, iStage := UploadBuffer(device, INDEX_SIZE * |indices|);
      indexCount := |indices|;
      vertexCount := |vertices|;
      this.device := device;
      this.textureIndex := textureIndex;
      vertexBuffer, vertexBufferMemory := vb, vm;
      indexBuffer, indexBufferMemory := ib, im;
      vertexData := vertices;
      indexData := indices;
      staging := vStage + iStage;
      new;
      assert State().Handles() == {vb, vm, ib, im};
    }

    /** getTransformMat (VkMesh.cpp:64-67). */
    function GetTransformMat(): Mat4
      reads this
    {
      transformMat
    }

    /** setTransformMat (VkMesh.cpp:69-72): the transform is the only field
        that changes, and the getter then returns exactly the value set. */
    method SetTransformMat(transform: Mat4)
      modifies this`transformMat
      ensures GetTransformMat() == transform
      ensures State() == old(State()).(transform := transform)
    {
      transformMat := transform;
    }

    /** destroyDataBuffers (VkMesh.cpp:55-62): destroys the index buffer,
        frees its memory, then the same for the vertex buffer. The handles
        are not reset, so a second call releases the same four again. */
    method DestroyDataBuffers()
      requires device != null && device.Valid()
      requires Handles() <= device.issued
      modifies device
      ensures device.Valid()
      ensures device.releases == old(device.releases) + State().ReleaseOrder()
      ensures device.live == old(device.live) - Handles()
      ensures device.issued == old(device.issued) && device.sizeOf == old(device.sizeOf)
    {
      DestroyBuffersOf(device, State());
    }
  }

  /** destroyDataBuffers on a copy of a mesh: a copy holds the same four
      handles, so it destroys the same objects as the original would. */
  method DestroyBuffersOf(device: Device, m: MeshState)
    requires device.Valid()
    requires m.Handles() <= device.issued
    modifies device
    ensures device.Valid()
    ensures device.releases == old(device.releases) + m.ReleaseOrder()
    ensures device.live == old(device.live) - m.Handles()
    ensures device.issued == old(device.issued) && device.sizeOf == old(device.sizeOf)
  {
    device.Release(m.indexBuffer);
    device.Release(m.indexBufferMemory);
    device.Release(m.vertexBuffer);
    device.Release(m.vertexBufferMemory);
  }

  /** destroyDataBuffers hands back exactly the four handles the mesh owns,
      each of them once when the four are distinct. */
  lemma ReleaseOrderCoversHandles(s: MeshState)
    requires s.OwnsDistinctHandles()
    ensures |s.ReleaseOrder()| == 4
    ensures forall h :: h in s.ReleaseOrder() <==> h in s.Handles()
    ensures forall i, j :: 0 <= i < j < 4 ==> s.ReleaseOrder()[i] != s.ReleaseOrder()[j]
  {
  }
}
