/** Geometric values. Floating point is not modelled: vector components are
    reals that are only copied, and matrices are only stored, copied and
    compared for equality. */
module Geometry {

  /** glm::vec2 */
  datatype Vec2 = Vec2(x: real, y: real)

  /** glm::vec3 */
  datatype Vec3 = Vec3(x: real, y: real, z: real)

  /** The value-initialised glm::vec3 of `Vertex vertex = {};`. */
  const ZERO3: Vec3 := Vec3(0.0, 0.0, 0.0)

  /** glm::mat4: sixteen cells, column-major. */
  datatype Mat4 = Mat4(cells: seq<real>)

  /** glm::identity<glm::mat4>(): ones on the diagonal (cells 0, 5, 10, 15). */
  function Identity(): (m: Mat4)
    ensures |m.cells| == 16
    ensures forall c :: 0 <= c < 4 ==> m.cells[5 * c] == 1.0
    ensures forall i :: 0 <= i < 16 ==> m.cells[i] == if i % 5 == 0 then 1.0 else 0.0
  {
    Mat4(seq(16, i => if i % 5 == 0 then 1.0 else 0.0))
  }

  /** The CPU-side mesh the renderer is handed (main.cpp:68 builds one per
      imported sub-mesh; the renderer reads `id`, `getVertices()`,
      `getIndices()` and `getTexCoords()`). */
  datatype CpuMesh = CpuMesh(
    id: int,
    name: string,
    vertices: seq<Vec3>,
    indices: seq<int>,
    texCoords: seq<Vec2>,
    normals: seq<Vec3>)
}
