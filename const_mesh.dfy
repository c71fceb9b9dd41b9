// The hand-written circle and pentagon meshes (src/const_mesh.rs): constant
// vertex tables and triangle-list index tables.
module ConstMesh {
  import opened RenderTypes

  function V(x: real, y: real, z: real, u: real, v: real): VertexTex
  {
    VertexTex(Vec3(x, y, z), (u, v))
  }

  /** CIRCLE_VERTICES: the centre A, then B..I around the unit circle. */
  const CIRCLE_VERTICES: seq<VertexTex> := [
    V(0.0, 0.0, 0.0, 0.5, 1.0 - 0.5),            // A
    V(0.0, 1.0, 0.0, 0.5, 1.0 - 1.0),            // B
    V(-0.7071, 0.7071, 0.0, 0.1465, 1.0 - 0.8535),  // C
    V(-1.0, 0.0, 0.0, 0.0, 1.0 - 0.5),           // D
    V(-0.7071, -0.7071, 0.0, 0.1465, 1.0 - 0.1465), // E
    V(0.0, -1.0, 0.0, 0.5, 1.0 - 0.0),           // F
    V(0.7071, -0.7071, 0.0, 0.8535, 1.0 - 0.1465),  // G
    V(1.0, 0.0, 0.0, 1.0, 1.0 - 0.5),            // H
    V(0.7071, 0.7071, 0.0, 0.8535, 1.0 - 0.8535)    // I
  ]

  const CIRCLE_INDICES: seq<int> := [
    0, 1, 2, 0, 2, 3, 0, 3, 4, 0, 4, 5, 0, 5, 6, 0, 6, 7, 0, 7, 8, 0, 8, 1
  ]

  /** PENTAGON_VERTICES: A..E. */
  const PENTAGON_VERTICES: seq<VertexTex> := [
    V(-0.0868241, 0.49240386, 0.0, 0.4131759, 1.0 - 0.99240386),     // A
    V(-0.49513406, 0.06958647, 0.0, 0.0048659444, 1.0 - 0.56958646), // B
    V(-0.21918549, -0.44939706, 0.0, 0.28081453, 1.0 - 0.050602943), // C
    V(0.35966998, -0.3473291, 0.0, 0.85967, 1.0 - 0.15267089),       // D
    V(0.44147372, 0.2347359, 0.0, 0.9414737, 1.0 - 0.7347359)        // E
  ]

  const PENTAGON_INDICES: seq<int> := [0, 1, 4, 1, 2, 4, 2, 3, 4]

  /** A u16 index table for a triangle-list draw over `numVertices` vertices. */
  predicate IsTriangleList(indices: seq<int>, numVertices: nat)
  {
    && |indices| % 3 == 0
    && (forall i :: 0 <= i < |indices| ==> 0 <= indices[i] < numVertices)
    && numVertices <= 0x1_0000
  }

  /** The t-th triangle of a triangle list. */
  function Triangle(indices: seq<int>, t: nat): (int, int, int)
    requires 3 * t + 2 < |indices|
  {
    (indices[3 * t], indices[3 * t + 1], indices[3 * t + 2])
  }

  /** Every vertex lies in the z = 0 plane. */
  predicate Flat(vertices: seq<VertexTex>)
  {
    forall i :: 0 <= i < |vertices| ==> vertices[i].position.z == 0.0
  }

  lemma CircleIsTriangleList()
    ensures |CIRCLE_VERTICES| == 9 && |CIRCLE_INDICES| == 24
    ensures IsTriangleList(CIRCLE_INDICES, |CIRCLE_VERTICES|)
  {
  }

  lemma PentagonIsTriangleList()
    ensures |PENTAGON_VERTICES| == 5 && |PENTAGON_INDICES| == 9
    ensures IsTriangleList(PENTAGON_INDICES, |PENTAGON_VERTICES|)
  {
  }

  /**
   * The circle is the fan about the centre 0: triangle t is (0, t + 1, t + 2)
   * for t < 7, and the last one, (0, 8, 1), closes the fan.
   */
  lemma CircleIsClosedFan()
    ensures forall t :: 0 <= t < 8 ==>
      Triangle(CIRCLE_INDICES, t) == (0, t + 1, if t < 7 then t + 2 else 1)
  {
  }

  /** Every pentagon triangle has E (vertex 4) as a corner: a fan about E. */
  lemma PentagonIsFanAboutE()
    ensures forall t :: 0 <= t < 3 ==>
      var (a, b, c) := Triangle(PENTAGON_INDICES, t); c == 4 && a == t && b == t + 1
  {
  }

  lemma MeshesAreFlat()
    ensures Flat(CIRCLE_VERTICES) && Flat(PENTAGON_VERTICES)
  {
  }
}
