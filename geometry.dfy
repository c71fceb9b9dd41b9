// A vertex buffer and an index buffer with their element counts, and the
// UV-sphere used by the PBR effect (src/geometry.rs).
module Geometry {
  import opened RenderTypes

  /** `as u32` keeps the low 32 bits. */
  const U32_MODULUS: nat := 0x1_0000_0000

  /** The largest u16 plus one: indices are u16. */
  const U16_MODULUS: nat := 0x1_0000

  /**
   * A geometry: the contents uploaded into its vertex and index buffers, and the
   * counts it records. It is never changed after it is built.
   */
  datatype Geometry<V> = Geometry(vertexBuffer: seq<V>, indexBuffer: seq<int>, numVertices: nat, numIndices: nat)

  /** Geometry::new: uploads both slices and records their lengths as u32. */
  function New<V>(vertices: seq<V>, indices: seq<int>): (g: Geometry<V>)
    ensures g.vertexBuffer == vertices && g.indexBuffer == indices
    ensures g.numVertices < U32_MODULUS && g.numIndices < U32_MODULUS
    ensures |vertices| < U32_MODULUS ==> g.numVertices == |vertices|
    ensures |indices| < U32_MODULUS ==> g.numIndices == |indices|
  {
    Geometry(vertices, indices, |vertices| % U32_MODULUS, |indices| % U32_MODULUS)
  }

  /** Every index names a vertex of the buffer and fits in a u16. */
  predicate IndicesInRange<V>(g: Geometry<V>)
  {
    forall i :: 0 <= i < |g.indexBuffer| ==> 0 <= g.indexBuffer[i] < |g.vertexBuffer| && g.indexBuffer[i] < U16_MODULUS
  }

  // ---------------------------------------------------------------------------
  // The UV sphere

  const XS: nat := 64
  const YS: nat := 64

  /** Vertices per grid row, and the sphere's vertex and index counts. */
  const ROW: nat := XS + 1
  const SPHERE_VERTEX_COUNT: nat := (XS + 1) * (YS + 1)
  const STRIP_ROW: nat := 2 * (XS + 1)
  const SPHERE_INDEX_COUNT: nat := YS * STRIP_ROW

  /** std::f32::consts::PI, as the f32 value it denotes. */
  const PI: real := 3.1415927410125732421875

  /** `(n as f32) / (d as f32)`, exactly. */
  function Fraction(n: nat, d: nat): real
    requires d > 0
  {
    n as real / d as real
  }

  /**
   * The position of grid point (x, y) for given cosine and sine functions; the
   * trigonometry itself is not modelled.
   */
  function SpherePosition(cos: real -> real, sin: real -> real, x: nat, y: nat): Vec3<real>
  {
    var xs := Fraction(x, XS);
    var ys := Fraction(y, YS);
    Vec3(cos(xs * 2.0 * PI) * sin(ys * PI), cos(ys * PI), sin(xs * 2.0 * PI) * sin(ys * PI))
  }

  /**
   * The k-th index (0 <= k < 2 * (XS + 1)) that row y of the strip emits. Even
   * rows walk x upwards, emitting (y, x) then (y + 1, x); odd rows walk x
   * downwards, emitting (y + 1, x) then (y, x).
   */
  function StripIndex(y: nat, k: nat): (i: nat)
    requires y < YS && k < STRIP_ROW
  {
    var p := k / 2;
    if y % 2 == 0 then
      (if k % 2 == 0 then y * ROW + p else (y + 1) * ROW + p)
    else
      var x := XS - p;
      (if k % 2 == 0 then (y + 1) * ROW + x else y * ROW + x)
  }

  /** Grid point (x, y) of the sphere: normal equal to position, texture coordinate (x/64, y/64). */
  function SphereVertex(cos: real -> real, sin: real -> real, x: nat, y: nat): VertexTexNormal
  {
    var p := SpherePosition(cos, sin, x, y);
    VertexTexNormal(p, (Fraction(x, XS), Fraction(y, YS)), p)
  }

  /** v is grid point (x, y) of the sphere. */
  predicate IsSphereVertex(v: VertexTexNormal, cos: real -> real, sin: real -> real, x: nat, y: nat)
  {
    v == SphereVertex(cos, sin, x, y)
  }

  /** Position y * 65 + x of the row-major grid holds grid point (x, y). */
  lemma GridCoordinates(y: nat, x: nat)
    requires x < ROW
    ensures (y * ROW + x) % ROW == x && (y * ROW + x) / ROW == y
  {
  }

  /** The (XS + 1) x (YS + 1) vertex grid, row-major: grid point (x, y) sits at position y * 65 + x. */
  ghost predicate SphereGrid(vertices: seq<VertexTexNormal>, cos: real -> real, sin: real -> real)
  {
    && |vertices| == SPHERE_VERTEX_COUNT
    && forall y, x {:trigger IsSphereVertex(vertices[y * ROW + x], cos, sin, x, y)} ::
         0 <= y <= YS && 0 <= x <= XS ==> IsSphereVertex(vertices[y * ROW + x], cos, sin, x, y)
  }

  /** The strip's 64 rows of 130 indices, row y holding StripIndex(y, 0), ..., StripIndex(y, 129). */
  ghost predicate SphereStrip(indices: seq<int>)
  {
    && |indices| == SPHERE_INDEX_COUNT
    && forall y, k :: 0 <= y < YS && 0 <= k < STRIP_ROW ==> indices[y * STRIP_ROW + k] == StripIndex(y, k)
  }

  /** The first n vertices are the grid points in row-major order. */
  ghost predicate GridPrefix(vertices: seq<VertexTexNormal>, cos: real -> real, sin: real -> real)
  {
    forall i :: 0 <= i < |vertices| ==> IsSphereVertex(vertices[i], cos, sin, i % ROW, i / ROW)
  }

  /** Appending grid point (x, y) at position y * 65 + x extends the row-major prefix. */
  lemma GridPrefixExtend(vertices: seq<VertexTexNormal>, v: VertexTexNormal, cos: real -> real, sin: real -> real,
                         y: nat, x: nat)
    requires GridPrefix(vertices, cos, sin)
    requires x < ROW && |vertices| == y * ROW + x && IsSphereVertex(v, cos, sin, x, y)
    ensures GridPrefix(vertices + [v], cos, sin)
  {
    GridCoordinates(y, x);
  }

  /** The first loop nest of create_sphere_pbr: the (XS + 1) x (YS + 1) vertex grid, row-major. */
  method SphereVertices(cos: real -> real, sin: real -> real) returns (vertices: seq<VertexTexNormal>)
    ensures SphereGrid(vertices, cos, sin)
  {
    vertices := [];
    for y := 0 to YS + 1
      invariant |vertices| == y * ROW
      invariant GridPrefix(vertices, cos, sin)
    {
      for x := 0 to XS + 1
        invariant |vertices| == y * ROW + x
        invariant GridPrefix(vertices, cos, sin)
      {
        var xs := Fraction(x, XS);
        var ys := Fraction(y, YS);
        var p := SpherePosition(cos, sin, x, y);
        GridPrefixExtend(vertices, VertexTexNormal(p, (xs, ys), p), cos, sin, y, x);
        vertices := vertices + [VertexTexNormal(p, (xs, ys), p)];
      }
    }
    forall y, x {:trigger IsSphereVertex(vertices[y * ROW + x], cos, sin, x, y)} | 0 <= y <= YS && 0 <= x <= XS
      ensures IsSphereVertex(vertices[y * ROW + x], cos, sin, x, y)
    {
      GridCoordinates(y, x);
    }
  }

  /** The second loop nest of create_sphere_pbr: the strip indices, row by row. */
  method SphereStripIndices() returns (indices: seq<int>)
    ensures |indices| == SPHERE_INDEX_COUNT
    ensures forall y, k :: 0 <= y < YS && 0 <= k < STRIP_ROW ==> indices[y * STRIP_ROW + k] == StripIndex(y, k)
  {
    indices := [];
    for y := 0 to YS
      invariant |indices| == y * STRIP_ROW
      invariant forall yy, k :: 0 <= yy < y && 0 <= k < STRIP_ROW ==> indices[yy * STRIP_ROW + k] == StripIndex(yy, k)
    {
      if y % 2 == 0 {
        for x := 0 to XS + 1
          invariant |indices| == y * STRIP_ROW + 2 * x
          invariant forall yy, k :: 0 <= yy < y && 0 <= k < STRIP_ROW ==> indices[yy * STRIP_ROW + k] == StripIndex(yy, k)
          invariant forall k :: 0 <= k < 2 * x ==> indices[y * STRIP_ROW + k] == StripIndex(y, k)
        {
          indices := indices + [y * ROW + x];
          indices := indices + [(y + 1) * ROW + x];
        }
      } else {
        for x := XS + 1 downto 0
          invariant |indices| == y * STRIP_ROW + 2 * (XS + 1 - x)
          invariant forall yy, k :: 0 <= yy < y && 0 <= k < STRIP_ROW ==> indices[yy * STRIP_ROW + k] == StripIndex(yy, k)
          invariant forall k :: 0 <= k < 2 * (XS + 1 - x) ==> indices[y * STRIP_ROW + k] == StripIndex(y, k)
        {
          indices := indices + [(y + 1) * ROW + x];
          indices := indices + [y * ROW + x];
        }
      }
    }
  }

  /**
   * Geometry::create_sphere_pbr. The vertex grid is stored row-major, grid point
   * (x, y) at y * 65 + x; the index buffer is a boustrophedon triangle strip
   * whose every index names a vertex.
   */
  method CreateSpherePbr(cos: real -> real, sin: real -> real) returns (g: Geometry<VertexTexNormal>)
    ensures |g.vertexBuffer| == SPHERE_VERTEX_COUNT == g.numVertices == 4225
    ensures SphereGrid(g.vertexBuffer, cos, sin)
    ensures |g.indexBuffer| == SPHERE_INDEX_COUNT == g.numIndices == 8320
    ensures SphereStrip(g.indexBuffer)
    ensures IndicesInRange(g)
  {
    var vertices := SphereVertices(cos, sin);
    var indices := SphereStripIndices();
    g := New(vertices, indices);
    assert g.vertexBuffer == vertices && g.indexBuffer == indices;
    SphereIndicesInRange(g);
  }

  /** Every index of row y lies in rows y and y + 1 of the grid: [y * 65, (y + 2) * 65). */
  lemma StripIndexInRows(y: nat, k: nat)
    requires y < YS && k < STRIP_ROW
    ensures y * ROW <= StripIndex(y, k) < (y + 2) * ROW
  {
  }

  /** Hence every index is below the vertex count 4225, which is below the u16 limit. */
  lemma StripIndexInRange(y: nat, k: nat)
    requires y < YS && k < STRIP_ROW
    ensures StripIndex(y, k) < SPHERE_VERTEX_COUNT < U16_MODULUS
  {
    StripIndexInRows(y, k);
  }

  /**
   * Row order: an even row emits (y * 65 + x, (y + 1) * 65 + x) as its x-th pair,
   * x ascending; an odd row emits ((y + 1) * 65 + x, y * 65 + x) as its
   * (64 - x)-th pair, so x descends.
   */
  lemma StripRowOrder(y: nat, x: nat)
    requires y < YS && x <= XS
    ensures y % 2 == 0 ==> StripIndex(y, 2 * x) == y * ROW + x && StripIndex(y, 2 * x + 1) == (y + 1) * ROW + x
    ensures y % 2 == 1 ==> StripIndex(y, 2 * (XS - x)) == (y + 1) * ROW + x
                           && StripIndex(y, 2 * (XS - x) + 1) == y * ROW + x
  {
  }

  /**
   * The strip stays connected across rows: the grid vertex where the scan turns,
   * (y + 1, 64) after an even row and (y + 1, 0) after an odd one, is among the
   * last two indices of row y and the first two of row y + 1.
   */
  lemma StripRowsJoin(y: nat)
    requires y + 1 < YS
    ensures y % 2 == 0 ==> StripIndex(y, STRIP_ROW - 1) == StripIndex(y + 1, 1) == (y + 1) * ROW + XS
    ensures y % 2 == 1 ==> StripIndex(y, STRIP_ROW - 2) == StripIndex(y + 1, 0) == (y + 1) * ROW
  {
  }

  /** The sphere geometry's indices all name vertices of its buffer. */
  lemma SphereIndicesInRange(g: Geometry<VertexTexNormal>)
    requires |g.vertexBuffer| == SPHERE_VERTEX_COUNT && SphereStrip(g.indexBuffer)
    ensures IndicesInRange(g)
  {
    forall i | 0 <= i < |g.indexBuffer|
      ensures 0 <= g.indexBuffer[i] < |g.vertexBuffer| && g.indexBuffer[i] < U16_MODULUS
    {
      var y, k := i / STRIP_ROW, i % STRIP_ROW;
      assert i == y * STRIP_ROW + k;
      StripIndexInRange(y, k);
    }
  }
}
