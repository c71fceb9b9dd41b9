// Vector and matrix records, the uniform/vertex record layouts and their byte
// images (src/render_types.rs).
//
// Two numeric views are used. Exact arithmetic (the clip-space remap) is done
// over `real`. Values that are written into GPU buffers are f32 bit patterns
// (`F32`), so that a record's byte image is a concrete, invertible function.
module RenderTypes {

  /** One byte of a GPU buffer. */
  type Byte = x: int | 0 <= x < 0x100

  /** An f32 value, represented by its IEEE-754 single-precision bit pattern. */
  type F32 = x: int | 0 <= x < 0x1_0000_0000

  const F32_ZERO: F32 := 0x0000_0000   // 0.0f32
  const F32_ONE: F32 := 0x3F80_0000    // 1.0f32
  const F32_SIGN: F32 := 0x8000_0000   // the sign bit

  /** The size in bytes of an f32. */
  const F32_SIZE: nat := 4

  datatype Vec3<T> = Vec3(x: T, y: T, z: T)
  datatype Vec4<T> = Vec4(x: T, y: T, z: T, w: T)

  /** A 4x4 matrix stored column-major, as cgmath's Matrix4 is: c0..c3 are the columns. */
  datatype Mat4<T> = Mat4(c0: Vec4<T>, c1: Vec4<T>, c2: Vec4<T>, c3: Vec4<T>)

  function Identity<T>(zero: T, one: T): (m: Mat4<T>)
    ensures m.c0 == Vec4(one, zero, zero, zero) && m.c1 == Vec4(zero, one, zero, zero)
    ensures m.c2 == Vec4(zero, zero, one, zero) && m.c3 == Vec4(zero, zero, zero, one)
  {
    Mat4(Vec4(one, zero, zero, zero), Vec4(zero, one, zero, zero),
         Vec4(zero, zero, one, zero), Vec4(zero, zero, zero, one))
  }

  // ---------------------------------------------------------------------------
  // Exact matrix arithmetic over the reals

  function Scale(k: real, v: Vec4<real>): Vec4<real>
  {
    Vec4(k * v.x, k * v.y, k * v.z, k * v.w)
  }

  function Add(a: Vec4<real>, b: Vec4<real>): Vec4<real>
  {
    Vec4(a.x + b.x, a.y + b.y, a.z + b.z, a.w + b.w)
  }

  /** m * v for a column-major m: the combination of the columns weighted by v. */
  function MulVec(m: Mat4<real>, v: Vec4<real>): Vec4<real>
  {
    Add(Add(Scale(v.x, m.c0), Scale(v.y, m.c1)), Add(Scale(v.z, m.c2), Scale(v.w, m.c3)))
  }

  /** a * b: column j of the product is a applied to column j of b. */
  function MatMul(a: Mat4<real>, b: Mat4<real>): Mat4<real>
  {
    Mat4(MulVec(a, b.c0), MulVec(a, b.c1), MulVec(a, b.c2), MulVec(a, b.c3))
  }

  /**
   * OPENGL_TO_WGPU_MATRIX. cgmath's Matrix4::new takes its sixteen arguments
   * column by column, so the third column is (0, 0, 0.5, 0) and the fourth
   * (0, 0, 0.5, 1).
   */
  const OPENGL_TO_WGPU_MATRIX: Mat4<real> :=
    Mat4(Vec4(1.0, 0.0, 0.0, 0.0),
         Vec4(0.0, 1.0, 0.0, 0.0),
         Vec4(0.0, 0.0, 0.5, 0.0),
         Vec4(0.0, 0.0, 0.5, 1.0))

  /** The remap keeps x, y and w and replaces z by (z + w) / 2. */
  lemma RemapAction(v: Vec4<real>)
    ensures MulVec(OPENGL_TO_WGPU_MATRIX, v) == Vec4(v.x, v.y, 0.5 * v.z + 0.5 * v.w, v.w)
  {
  }

  /**
   * With w = 1 the remap sends the OpenGL depth range [-1, 1] onto wgpu's [0, 1]:
   * the ends go to the ends, order is kept, and x, y, w are untouched.
   */
  lemma RemapDepthRange(x: real, y: real, z: real)
    requires -1.0 <= z <= 1.0
    ensures var r := MulVec(OPENGL_TO_WGPU_MATRIX, Vec4(x, y, z, 1.0));
      && r.x == x && r.y == y && r.w == 1.0
      && 0.0 <= r.z <= 1.0
      && (z == -1.0 ==> r.z == 0.0) && (z == 1.0 ==> r.z == 1.0)
  {
    RemapAction(Vec4(x, y, z, 1.0));
  }

  /** The remap is strictly monotone in depth, so it keeps the depth order of points. */
  lemma RemapKeepsDepthOrder(p: Vec4<real>, q: Vec4<real>)
    requires p.w == 1.0 && q.w == 1.0 && p.z < q.z
    ensures MulVec(OPENGL_TO_WGPU_MATRIX, p).z < MulVec(OPENGL_TO_WGPU_MATRIX, q).z
  {
    RemapAction(p);
    RemapAction(q);
  }

  /**
   * Left-multiplying any matrix by the remap only rewrites its third row:
   * rows x, y, w are kept and row z becomes the mean of rows z and w.
   */
  lemma RemapRows(m: Mat4<real>)
    ensures var r := MatMul(OPENGL_TO_WGPU_MATRIX, m);
      && r.c0 == Vec4(m.c0.x, m.c0.y, 0.5 * m.c0.z + 0.5 * m.c0.w, m.c0.w)
      && r.c1 == Vec4(m.c1.x, m.c1.y, 0.5 * m.c1.z + 0.5 * m.c1.w, m.c1.w)
      && r.c2 == Vec4(m.c2.x, m.c2.y, 0.5 * m.c2.z + 0.5 * m.c2.w, m.c2.w)
      && r.c3 == Vec4(m.c3.x, m.c3.y, 0.5 * m.c3.z + 0.5 * m.c3.w, m.c3.w)
  {
    RemapAction(m.c0);
    RemapAction(m.c1);
    RemapAction(m.c2);
    RemapAction(m.c3);
  }

  // ---------------------------------------------------------------------------
  // Byte images (bytemuck::cast_slice on a little-endian target)

  /** The four little-endian bytes of an f32 bit pattern. */
  function F32Bytes(f: F32): (r: seq<Byte>)
    ensures |r| == F32_SIZE
  {
    [f % 0x100, (f / 0x100) % 0x100, (f / 0x1_0000) % 0x100, f / 0x100_0000]
  }

  function F32FromBytes(b: seq<Byte>): F32
    requires |b| == F32_SIZE
  {
    var b0, b1, b2, b3: int := b[0], b[1], b[2], b[3];
    b0 + 0x100 * b1 + 0x1_0000 * b2 + 0x100_0000 * b3
  }

  /** Division by 256 undoes the shift by one byte and keeps the low byte apart. */
  lemma ShiftByte(lo: int, hi: int)
    requires 0 <= lo < 0x100
    ensures (lo + 0x100 * hi) % 0x100 == lo && (lo + 0x100 * hi) / 0x100 == hi
  {
  }

  lemma F32RoundTrip(f: F32)
    ensures F32FromBytes(F32Bytes(f)) == f
  {
    var q1 := f / 0x100;
    var q2 := q1 / 0x100;
    assert f / 0x1_0000 == q2;
    assert f / 0x100_0000 == q2 / 0x100;
    assert f == f % 0x100 + 0x100 * q1;
    assert q1 == q1 % 0x100 + 0x100 * q2;
    assert q2 == q2 % 0x100 + 0x100 * (q2 / 0x100);
  }

  lemma F32BytesRoundTrip(b: seq<Byte>)
    requires |b| == F32_SIZE
    ensures F32Bytes(F32FromBytes(b)) == b
  {
    var b0, b1, b2, b3: int := b[0], b[1], b[2], b[3];
    var f := F32FromBytes(b);
    ShiftByte(b0, b1 + 0x100 * b2 + 0x1_0000 * b3);
    ShiftByte(b1, b2 + 0x100 * b3);
    ShiftByte(b2, b3);
    assert f / 0x100 == b1 + 0x100 * b2 + 0x1_0000 * b3;
    assert f / 0x1_0000 == (f / 0x100) / 0x100;
    assert f / 0x100_0000 == (f / 0x1_0000) / 0x100;
  }

  /** The byte image of a sequence of f32 words, word after word. */
  function WordsBytes(ws: seq<F32>): (r: seq<Byte>)
    ensures |r| == F32_SIZE * |ws|
  {
    if ws == [] then [] else F32Bytes(ws[0]) + WordsBytes(ws[1..])
  }

  function BytesWords(bs: seq<Byte>): (r: seq<F32>)
    requires |bs| % F32_SIZE == 0
    ensures F32_SIZE * |r| == |bs|
  {
    if bs == [] then [] else [F32FromBytes(bs[..F32_SIZE])] + BytesWords(bs[F32_SIZE..])
  }

  lemma {:induction false} WordsRoundTrip(ws: seq<F32>)
    ensures BytesWords(WordsBytes(ws)) == ws
  {
    if ws != [] {
      var bs := WordsBytes(ws);
      assert bs[..F32_SIZE] == F32Bytes(ws[0]);
      assert bs[F32_SIZE..] == WordsBytes(ws[1..]);
      F32RoundTrip(ws[0]);
      WordsRoundTrip(ws[1..]);
    }
  }

  lemma {:induction false} BytesRoundTrip(bs: seq<Byte>)
    requires |bs| % F32_SIZE == 0
    ensures WordsBytes(BytesWords(bs)) == bs
  {
    if bs != [] {
      var ws := BytesWords(bs);
      assert ws[1..] == BytesWords(bs[F32_SIZE..]);
      F32BytesRoundTrip(bs[..F32_SIZE]);
      BytesRoundTrip(bs[F32_SIZE..]);
      assert bs == bs[..F32_SIZE] + bs[F32_SIZE..];
    }
  }

  /** Equal byte images come from equal words. */
  lemma WordsBytesInjective(a: seq<F32>, b: seq<F32>)
    requires WordsBytes(a) == WordsBytes(b)
    ensures a == b
  {
    WordsRoundTrip(a);
    WordsRoundTrip(b);
  }

  function Vec4Words(v: Vec4<F32>): (r: seq<F32>)
    ensures |r| == 4
  {
    [v.x, v.y, v.z, v.w]
  }

  /** The sixteen words of a matrix in memory order: column after column. */
  function Mat4Words(m: Mat4<F32>): (r: seq<F32>)
    ensures |r| == 16
  {
    Vec4Words(m.c0) + Vec4Words(m.c1) + Vec4Words(m.c2) + Vec4Words(m.c3)
  }

  function Vec4FromWords(ws: seq<F32>): Vec4<F32>
    requires |ws| == 4
  {
    Vec4(ws[0], ws[1], ws[2], ws[3])
  }

  function Mat4FromWords(ws: seq<F32>): Mat4<F32>
    requires |ws| == 16
  {
    Mat4(Vec4FromWords(ws[0..4]), Vec4FromWords(ws[4..8]),
         Vec4FromWords(ws[8..12]), Vec4FromWords(ws[12..16]))
  }

  lemma Mat4WordsRoundTrip(m: Mat4<F32>)
    ensures Mat4FromWords(Mat4Words(m)) == m
  {
    var ws := Mat4Words(m);
    assert ws[0..4] == Vec4Words(m.c0);
    assert ws[4..8] == Vec4Words(m.c1);
    assert ws[8..12] == Vec4Words(m.c2);
    assert ws[12..16] == Vec4Words(m.c3);
  }

  // ---------------------------------------------------------------------------
  // MvpUniforms

  /**
   * The per-frame camera and model record. It is repr(C): view_position
   * (4 f32), then view_proj (16 f32), then model (16 f32), with no padding.
   */
  datatype MvpUniforms = MvpUniforms(viewPosition: Vec4<F32>, viewProj: Mat4<F32>, model: Mat4<F32>)

  /** The number of f32 words in MvpUniforms. */
  const MVP_WORDS: nat := 4 + 16 + 16

  /** size_of::<MvpUniforms>(), which is also size_of_val of any MvpUniforms. */
  const MVP_SIZE: nat := F32_SIZE * MVP_WORDS

  function MvpWords(u: MvpUniforms): (r: seq<F32>)
    ensures |r| == MVP_WORDS
    ensures r[0..4] == Vec4Words(u.viewPosition)
    ensures r[4..20] == Mat4Words(u.viewProj) && r[20..36] == Mat4Words(u.model)
  {
    Vec4Words(u.viewPosition) + Mat4Words(u.viewProj) + Mat4Words(u.model)
  }

  function MvpFromWords(ws: seq<F32>): MvpUniforms
    requires |ws| == MVP_WORDS
  {
    MvpUniforms(Vec4FromWords(ws[0..4]), Mat4FromWords(ws[4..20]), Mat4FromWords(ws[20..36]))
  }

  /** The bytes that bytemuck::cast_slice(&[u]) yields. */
  function MvpBytes(u: MvpUniforms): (r: seq<Byte>)
    ensures |r| == MVP_SIZE
  {
    WordsBytes(MvpWords(u))
  }

  /** Reads an MvpUniforms back from its byte image. */
  function MvpFromBytes(b: seq<Byte>): MvpUniforms
    requires |b| == MVP_SIZE
  {
    MvpFromWords(BytesWords(b))
  }

  /** Reading back the bytes of a record gives the record. */
  lemma MvpRoundTrip(u: MvpUniforms)
    ensures MvpFromBytes(MvpBytes(u)) == u
  {
    WordsRoundTrip(MvpWords(u));
    Mat4WordsRoundTrip(u.viewProj);
    Mat4WordsRoundTrip(u.model);
  }

  /** Two records with the same bytes are the same record. */
  lemma MvpBytesInjective(u: MvpUniforms, v: MvpUniforms)
    requires MvpBytes(u) == MvpBytes(v)
    ensures u == v
  {
    MvpRoundTrip(u);
    MvpRoundTrip(v);
  }

  /** MvpUniforms::new: a zero view position and identity view_proj and model. */
  function NewMvp(): (u: MvpUniforms)
    ensures u.viewPosition == Vec4(F32_ZERO, F32_ZERO, F32_ZERO, F32_ZERO)
    ensures u.viewProj == Identity(F32_ZERO, F32_ONE) && u.model == Identity(F32_ZERO, F32_ONE)
  {
    MvpUniforms(Vec4(F32_ZERO, F32_ZERO, F32_ZERO, F32_ZERO),
                Identity(F32_ZERO, F32_ONE), Identity(F32_ZERO, F32_ONE))
  }

  /** Point3::to_homogeneous: the point with w = 1. */
  function ToHomogeneous(p: Vec3<F32>): (v: Vec4<F32>)
    ensures v.x == p.x && v.y == p.y && v.z == p.z && v.w == F32_ONE
  {
    Vec4(p.x, p.y, p.z, F32_ONE)
  }

  /**
   * update_view_proj. The camera's eye (as f32) and the f32 matrix that
   * Camera::build_view_projection_matrix computes are given; `model` is kept.
   */
  function UpdateViewProj(u: MvpUniforms, eye: Vec3<F32>, viewProj: Mat4<F32>): (r: MvpUniforms)
    ensures r.viewPosition == ToHomogeneous(eye) && r.viewProj == viewProj
    ensures r.model == u.model
  {
    u.(viewPosition := ToHomogeneous(eye), viewProj := viewProj)
  }

  /** update_model: overwrites `model` only. */
  function UpdateModel(u: MvpUniforms, model: Mat4<F32>): (r: MvpUniforms)
    ensures r.model == model
    ensures r.viewPosition == u.viewPosition && r.viewProj == u.viewProj
  {
    u.(model := model)
  }

  /** f32 negation flips the sign bit. */
  function F32Neg(f: F32): (r: F32)
    ensures r % F32_SIGN == f % F32_SIGN
    ensures r < F32_SIGN <==> f >= F32_SIGN
  {
    if f < F32_SIGN then f + F32_SIGN else f - F32_SIGN
  }

  /**
   * The rotation about the Z axis that update_model_rotation builds from
   * cos(angle) and sin(angle). Its arguments are column-major, so the first
   * column is (cos, -sin, 0, 0) and the second (sin, cos, 0, 0).
   */
  function RotationZ(cosA: F32, sinA: F32): (m: Mat4<F32>)
    ensures m.c0 == Vec4(cosA, F32Neg(sinA), F32_ZERO, F32_ZERO)
    ensures m.c1 == Vec4(sinA, cosA, F32_ZERO, F32_ZERO)
    ensures m.c2 == Identity(F32_ZERO, F32_ONE).c2 && m.c3 == Identity(F32_ZERO, F32_ONE).c3
  {
    Mat4(Vec4(cosA, F32Neg(sinA), F32_ZERO, F32_ZERO),
         Vec4(sinA, cosA, F32_ZERO, F32_ZERO),
         Vec4(F32_ZERO, F32_ZERO, F32_ONE, F32_ZERO),
         Vec4(F32_ZERO, F32_ZERO, F32_ZERO, F32_ONE))
  }

  /** update_model_rotation, given the f32 values of cos(angle) and sin(angle). */
  function UpdateModelRotation(u: MvpUniforms, cosA: F32, sinA: F32): (r: MvpUniforms)
    ensures r.model == RotationZ(cosA, sinA)
    ensures r.viewPosition == u.viewPosition && r.viewProj == u.viewProj
  {
    UpdateModel(u, RotationZ(cosA, sinA))
  }

  // ---------------------------------------------------------------------------
  // The other buffer records

  /** PbrFragmentUniforms: albedo (4 f32), four light positions, four light colours. */
  datatype PbrFragmentUniforms = PbrFragmentUniforms(
    albedo: Vec4<F32>, lightPositions: seq<Vec4<F32>>, lightColors: seq<Vec4<F32>>)

  /** size_of::<PbrFragmentUniforms>() = (4 + 4 * 4 + 4 * 4) f32. */
  const PBR_FS_SIZE: nat := F32_SIZE * (4 + 4 * 4 + 4 * 4)

  /** TransformRaw { model: Matrix4<f32> }, over exact reals. */
  datatype TransformRaw = TransformRaw(model: Mat4<real>)

  /** MaterialInfoRaw { info: (metallic, roughness, ao, padding) }, over exact reals. */
  datatype MaterialInfoRaw = MaterialInfoRaw(info: Vec4<real>)

  const TRANSFORM_RAW_SIZE: nat := F32_SIZE * 16
  const MATERIAL_INFO_RAW_SIZE: nat := F32_SIZE * 4

  /** The words of a list of vectors, one after the other. */
  function Vec4sWords(vs: seq<Vec4<F32>>): (r: seq<F32>)
    ensures |r| == 4 * |vs|
    ensures forall i :: 0 <= i < |vs| ==> r[4 * i..4 * i + 4] == Vec4Words(vs[i])
  {
    if vs == [] then []
    else
      var rest := Vec4sWords(vs[1..]);
      var r := Vec4Words(vs[0]) + rest;
      assert forall i :: 1 <= i < |vs| ==> r[4 * i..4 * i + 4] == rest[4 * (i - 1)..4 * (i - 1) + 4];
      r
  }

  /** The bytes of a PbrFragmentUniforms: albedo, then the light positions, then the light colours. */
  function PbrFsBytes(p: PbrFragmentUniforms): (r: seq<Byte>)
    requires |p.lightPositions| == 4 && |p.lightColors| == 4
    ensures |r| == PBR_FS_SIZE
  {
    WordsBytes(Vec4Words(p.albedo) + Vec4sWords(p.lightPositions) + Vec4sWords(p.lightColors))
  }

  /** A real vector and matrix stored as f32, given the rounding to f32. */
  function Vec4Round(v: Vec4<real>, toF32: real -> F32): Vec4<F32>
  {
    Vec4(toF32(v.x), toF32(v.y), toF32(v.z), toF32(v.w))
  }

  function Mat4Round(m: Mat4<real>, toF32: real -> F32): Mat4<F32>
  {
    Mat4(Vec4Round(m.c0, toF32), Vec4Round(m.c1, toF32), Vec4Round(m.c2, toF32), Vec4Round(m.c3, toF32))
  }

  /** bytemuck::cast_slice of a TransformRaw slice: 64 bytes per record, in order. */
  function TransformsBytes(ts: seq<TransformRaw>, toF32: real -> F32): (r: seq<Byte>)
    ensures |r| == |ts| * TRANSFORM_RAW_SIZE
  {
    if ts == [] then []
    else WordsBytes(Mat4Words(Mat4Round(ts[0].model, toF32))) + TransformsBytes(ts[1..], toF32)
  }

  /** bytemuck::cast_slice of a MaterialInfoRaw slice: 16 bytes per record, in order. */
  function MaterialInfosBytes(ms: seq<MaterialInfoRaw>, toF32: real -> F32): (r: seq<Byte>)
    ensures |r| == |ms| * MATERIAL_INFO_RAW_SIZE
  {
    if ms == [] then []
    else WordsBytes(Vec4Words(Vec4Round(ms[0].info, toF32))) + MaterialInfosBytes(ms[1..], toF32)
  }

  // ---------------------------------------------------------------------------
  // Vertex records and their buffer descriptors

  datatype VertexPlain = VertexPlain(position: Vec3<real>)
  datatype VertexTex = VertexTex(position: Vec3<real>, texCoords: (real, real))
  datatype VertexTexNormal = VertexTexNormal(position: Vec3<real>, texCoord: (real, real), normal: Vec3<real>)

  const VERTEX_PLAIN_SIZE: nat := F32_SIZE * 3
  const VERTEX_TEX_SIZE: nat := F32_SIZE * (3 + 2)
  const VERTEX_TEX_NORMAL_SIZE: nat := F32_SIZE * (3 + 2 + 3)

  datatype VertexFormat = Float2 | Float3

  function FormatSize(f: VertexFormat): nat
  {
    match f
    case Float2 => 2 * F32_SIZE
    case Float3 => 3 * F32_SIZE
  }

  datatype VertexAttribute = VertexAttribute(offset: nat, format: VertexFormat, shaderLocation: nat)
  datatype InputStepMode = StepVertex
  datatype VertexBufferDesc = VertexBufferDesc(stride: nat, stepMode: InputStepMode, attributes: seq<VertexAttribute>)

  /**
   * vertex_attr_array![0 => f0, 1 => f1, ...] starting at `location` and byte
   * `offset`: each attribute sits right after the previous one.
   */
  function AttrArray(formats: seq<VertexFormat>, location: nat, offset: nat): (r: seq<VertexAttribute>)
    ensures |r| == |formats|
    ensures forall i :: 0 <= i < |r| ==> r[i].format == formats[i] && r[i].shaderLocation == location + i
    ensures |r| > 0 ==> r[0].offset == offset
    ensures forall i :: 0 <= i < |r| - 1 ==> r[i + 1].offset == r[i].offset + FormatSize(r[i].format)
    decreases |formats|
  {
    if formats == [] then []
    else [VertexAttribute(offset, formats[0], location)]
         + AttrArray(formats[1..], location + 1, offset + FormatSize(formats[0]))
  }

  /** The bytes an attribute list spans from offset 0: the end of its last attribute. */
  function AttributesEnd(attrs: seq<VertexAttribute>): nat
  {
    if attrs == [] then 0 else attrs[|attrs| - 1].offset + FormatSize(attrs[|attrs| - 1].format)
  }

  /** VertexPlain::desc. Its stride is size_of::<VertexTex>(), not its own size. */
  function VertexPlainDesc(): (d: VertexBufferDesc)
    ensures d.stride == VERTEX_TEX_SIZE && d.stride != VERTEX_PLAIN_SIZE
    ensures |d.attributes| == 1 && d.attributes[0] == VertexAttribute(0, Float3, 0)
    ensures AttributesEnd(d.attributes) == VERTEX_PLAIN_SIZE < d.stride
  {
    VertexBufferDesc(VERTEX_TEX_SIZE, StepVertex, AttrArray([Float3], 0, 0))
  }

  /** VertexTex::desc: position at 0 (Float3), tex_coords at 12 (Float2), tiling the record. */
  function VertexTexDesc(): (d: VertexBufferDesc)
    ensures d.stride == VERTEX_TEX_SIZE
    ensures d.attributes == [VertexAttribute(0, Float3, 0), VertexAttribute(12, Float2, 1)]
    ensures AttributesEnd(d.attributes) == d.stride
  {
    VertexBufferDesc(VERTEX_TEX_SIZE, StepVertex, AttrArray([Float3, Float2], 0, 0))
  }

  /** VertexTexNormal::desc: 0 => Float3, 1 => Float2, 2 => Float3, tiling the 32-byte record. */
  function VertexTexNormalDesc(): (d: VertexBufferDesc)
    ensures d.stride == VERTEX_TEX_NORMAL_SIZE
    ensures d.attributes == [VertexAttribute(0, Float3, 0), VertexAttribute(12, Float2, 1),
                             VertexAttribute(20, Float3, 2)]
    ensures AttributesEnd(d.attributes) == d.stride
  {
    VertexBufferDesc(VERTEX_TEX_NORMAL_SIZE, StepVertex, AttrArray([Float3, Float2, Float3], 0, 0))
  }
}
