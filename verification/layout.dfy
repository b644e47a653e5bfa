/**
 * The data the demo uploads once at start-up: the `Vertex` struct and its
 * vertex-input layout, the full-screen triangle, and the uniform block the
 * fragment shader receives every frame.
 */
module Layout {

  /** Size in bytes of one 32-bit float. */
  const FloatSize: nat := 4

  /** Byte offset of float field number `i` of a sequentially laid-out struct of floats. */
  function FieldOffset(i: nat): (offset: nat)
  {
    FloatSize * i
  }

  /** Byte size of a sequentially laid-out struct of `floats` floats (no padding between floats). */
  function StructSize(floats: nat): (bytes: nat)
  {
    FloatSize * floats
  }

  /** One vertex: clip-space position `(x, y, z)` then texture coordinate `(u, v)`. */
  datatype Vertex = Vertex(x: real, y: real, z: real, u: real, v: real)

  /** `Vertex` has five float fields, in declaration order x, y, z, u, v. */
  const VertexFloats: nat := 5
  const PositionField: nat := 0
  const TexCoordField: nat := 3

  /** The per-frame uniform block of the fragment shader: four floats. */
  datatype Uniforms = Uniforms(time: real, padding: real, resolutionX: real, resolutionY: real)

  const UniformFloats: nat := 4

  /** The uniform block as the shader reads it: its float fields in declaration order. */
  function UniformFields(u: Uniforms): (fields: seq<real>)
  {
    [u.time, u.padding, u.resolutionX, u.resolutionY]
  }

  /** Byte size of a uniform block laid out sequentially. */
  function UniformBlockBytes(u: Uniforms): (bytes: nat)
  {
    StructSize(|UniformFields(u)|)
  }

  datatype ElementFormat = Vector2 | Vector3

  function FormatFloats(f: ElementFormat): (n: nat)
  {
    match f
    case Vector2 => 2
    case Vector3 => 3
  }

  function FormatSize(f: ElementFormat): (bytes: nat)
  {
    FloatSize * FormatFloats(f)
  }

  datatype VertexInputRate = PerVertex | PerInstance

  datatype VertexBinding = VertexBinding(binding: nat, inputRate: VertexInputRate, stride: nat)

  datatype VertexAttribute = VertexAttribute(binding: nat, location: nat, format: ElementFormat, offset: nat)

  /** The single vertex binding of the pipeline. */
  function MainVertexBinding(): (b: VertexBinding)
  {
    VertexBinding(0, PerVertex, 4 * 5)
  }

  /** Position at location 0 and texture coordinate at location 1. */
  function MainVertexAttributes(): (attrs: seq<VertexAttribute>)
  {
    [ VertexAttribute(0, 0, Vector3, 0),
      VertexAttribute(0, 1, Vector2, 4 * 3) ]
  }

  /** Byte size of the vertex buffer, and of the data copied into it. */
  const VertexBufferSize: nat := 4 * 5 * 3

  /** Attribute `a` is read from binding `b` and lies inside one stride of it. */
  predicate AttributeWithin(a: VertexAttribute, b: VertexBinding)
  {
    a.binding == b.binding && a.offset + FormatSize(a.format) <= b.stride
  }

  /** The byte ranges two attributes read do not overlap. */
  predicate AttributesDisjoint(a: VertexAttribute, a': VertexAttribute)
  {
    a.offset + FormatSize(a.format) <= a'.offset || a'.offset + FormatSize(a'.format) <= a.offset
  }

  /**
   * The declared vertex layout describes the `Vertex` struct exactly: the
   * stride is the struct's size, the position attribute reads fields x, y, z,
   * the texture-coordinate attribute reads fields u, v, the two do not
   * overlap and together leave no gap.
   */
  lemma VertexLayoutMatchesStruct()
    ensures MainVertexBinding().stride == StructSize(VertexFloats) == 20
    ensures forall a <- MainVertexAttributes() :: AttributeWithin(a, MainVertexBinding())
    ensures |MainVertexAttributes()| == 2
    ensures AttributesDisjoint(MainVertexAttributes()[0], MainVertexAttributes()[1])
    ensures MainVertexAttributes()[0].location != MainVertexAttributes()[1].location
    ensures MainVertexAttributes()[0].offset == FieldOffset(PositionField)
    ensures FormatFloats(MainVertexAttributes()[0].format) == TexCoordField - PositionField
    ensures MainVertexAttributes()[1].offset == FieldOffset(TexCoordField)
    ensures FormatFloats(MainVertexAttributes()[1].format) == VertexFloats - TexCoordField
    ensures FormatSize(MainVertexAttributes()[0].format) + FormatSize(MainVertexAttributes()[1].format)
            == MainVertexBinding().stride
  {
  }

  /** The oversized triangle whose clipped silhouette is the whole viewport. */
  function FullScreenTriangle(): (tri: seq<Vertex>)
  {
    [ Vertex(-1.0, -1.0, 0.0, 0.0, 1.0),
      Vertex(3.0, -1.0, 0.0, 1.0, 1.0),
      Vertex(-1.0, 3.0, 0.0, 0.0, 0.0) ]
  }

  /** The vertex buffer holds exactly the triangle's three vertices at the declared stride. */
  lemma VertexBufferFitsTriangle()
    ensures VertexBufferSize == |FullScreenTriangle()| * MainVertexBinding().stride == 60
  {
  }

  /** Twice the signed area of the triangle (a, b, p); positive when p is left of the edge a to b. */
  function Edge(a: Vertex, b: Vertex, px: real, py: real): (e: real)
  {
    (b.x - a.x) * (py - a.y) - (b.y - a.y) * (px - a.x)
  }

  /** The point (px, py) lies in the closed triangle `tri`, whichever its winding. */
  predicate InTriangle(tri: seq<Vertex>, px: real, py: real)
    requires |tri| == 3
  {
    var e0 := Edge(tri[0], tri[1], px, py);
    var e1 := Edge(tri[1], tri[2], px, py);
    var e2 := Edge(tri[2], tri[0], px, py);
    (e0 >= 0.0 && e1 >= 0.0 && e2 >= 0.0) || (e0 <= 0.0 && e1 <= 0.0 && e2 <= 0.0)
  }

  /** The clip-space square that the viewport maps onto the window. */
  predicate InClipSquare(px: real, py: real)
  {
    -1.0 <= px <= 1.0 && -1.0 <= py <= 1.0
  }

  /**
   * Every point of the clip square [-1, 1]^2 is inside the triangle, so after
   * clipping the one triangle covers the whole viewport; it lies at depth 0.
   */
  lemma FullScreenTriangleCoversClipSquare()
    ensures forall px, py :: InClipSquare(px, py) ==> InTriangle(FullScreenTriangle(), px, py)
    ensures forall w <- FullScreenTriangle() :: w.z == 0.0
  {
  }

  /**
   * The texture coordinates are one affine function of the position:
   * u = (x + 1) / 4 and v = (3 - y) / 4, so interpolation over the
   * triangle gives the same affine map at every covered pixel.
   */
  lemma TexCoordsAffineInPosition()
    ensures forall w <- FullScreenTriangle() :: w.u == (w.x + 1.0) / 4.0 && w.v == (3.0 - w.y) / 4.0
  {
  }

  /**
   * Every uniform block is four floats, 16 bytes: time at offset 0, padding
   * at offset 4, and the resolution at offsets 8 and 12.
   */
  lemma UniformBlockSize(u: Uniforms)
    ensures |UniformFields(u)| == UniformFloats
    ensures UniformBlockBytes(u) == 16
    ensures UniformFields(u)[0] == u.time && UniformFields(u)[1] == u.padding
    ensures UniformFields(u)[2..] == [u.resolutionX, u.resolutionY]
  {
  }

  /** How the vertices of a draw are grouped into primitives. */
  datatype PrimitiveType = PointList | LineList | TriangleList

  /** Vertices consumed by each primitive of a list topology. */
  function VerticesPerPrimitive(pt: PrimitiveType): (n: nat)
  {
    match pt
    case PointList => 1
    case LineList => 2
    case TriangleList => 3
  }
}
