/** The older GPU mesh record (Mesh.cpp): the same counts and owned buffers
    as VkMesh, without a texture index or a transform. Mesh.h as shipped
    declares a different, older class; the fields below are the ones
    Mesh.cpp assigns. Mesh.h's own Vertex holds only a position and a
    colour (24 bytes); Mesh.cpp is compiled against VkMesh.h's Vertex, so
    the vertex buffer here is sized with VERTEX_SIZE (44 bytes). */
module Meshes {
  import opened Common
  import opened Gpu
  import opened VkMeshes

  class Mesh {
    const vertexCount: int
    const vertexBuffer: Handle
    const vertexBufferMemory: Handle
    const indexCount: int
    const indexBuffer: Handle
    const indexBufferMemory: Handle
    const device: Device?

    /** The staging buffers and memories the constructor created and
        released again. */
    ghost const staging: seq<Handle>

    /** The four device objects the mesh owns. */
    function Handles(): set<Handle>
    {
      {vertexBuffer, vertexBufferMemory, indexBuffer, indexBufferMemory}
    }

    /** Mesh::Mesh() (Mesh.cpp:3-13): zero counts, null handles, no device. */
    constructor ()
      ensures vertexCount == 0 && indexCount == 0
      ensures vertexBuffer == NULL_HANDLE && vertexBufferMemory == NULL_HANDLE
      ensures indexBuffer == NULL_HANDLE && indexBufferMemory == NULL_HANDLE
      ensures device == null && staging == []
    {
      indexCount := 0;
      vertexCount := 0;
      vertexBuffer := NULL_HANDLE;
      vertexBufferMemory := NULL_HANDLE;
      indexBuffer := NULL_HANDLE;
      indexBufferMemory := NULL_HANDLE;
      device := null;
      staging := [];
    }

    /** Mesh::Mesh(physicalDevice, logicalDevice, ..., vertices, indices)
        (Mesh.cpp:15-24): records the counts, then uploads the vertices and
        the indices through staging buffers that are released before the
        constructor returns (Mesh.cpp:57-84, 86-113). */
    constructor Create(device: Device, vertices: seq<Vertex>, indices: seq<int>)
      requires device.Valid()
      modifies device
      ensures device.Valid() && this.device == device
      ensures vertexCount == |vertices| && indexCount == |indices|
      ensures vertexBuffer != NULL_HANDLE && vertexBufferMemory != NULL_HANDLE
      ensures indexBuffer != NULL_HANDLE && indexBufferMemory != NULL_HANDLE
      ensures vertexBuffer != vertexBufferMemory && indexBuffer != indexBufferMemory
      ensures Handles() !! old(device.issued)
      ensures device.live == old(device.live) + Handles()
      ensures |staging| == 4 && device.releases == old(device.releases) + staging
      ensures forall h :: h in staging ==> h !in old(device.issued) && h !in device.live
      ensures vertexBuffer in device.sizeOf && device.sizeOf[vertexBuffer] == VERTEX_SIZE * |vertices|
      ensures indexBuffer in device.sizeOf && device.sizeOf[indexBuffer] == INDEX_SIZE * |indices|
    {
      var vb, vm, vStage := UploadBuffer(device, VERTEX_SIZE * |vertices|);
      var ib, im, iStage := UploadBuffer(device, INDEX_SIZE * |indices|);
      indexCount := |indices|;
      vertexCount := |vertices|;
      this.device := device;
      vertexBuffer, vertexBufferMemory := vb, vm;
      indexBuffer, indexBufferMemory := ib, im;
      staging := vStage + iStage;
    }

    /** destroyDataBuffers (Mesh.cpp:48-55): the index buffer and its memory,
        then the vertex buffer and its memory. */
    method DestroyDataBuffers()
      requires device != null && device.Valid()
      requires Handles() <= device.issued
      modifies device
      ensures device.Valid()
      ensures device.releases == old(device.releases) + [indexBuffer, indexBufferMemory, vertexBuffer, vertexBufferMemory]
      ensures device.live == old(device.live) - Handles()
      ensures device.issued == old(device.issued) && device.sizeOf == old(device.sizeOf)
    {
      device.Release(indexBuffer);
      device.Release(indexBufferMemory);
      device.Release(vertexBuffer);
      device.Release(vertexBufferMemory);
    }
  }
}
