/** `Circle` and `SemiCircle`: a centre, radius and colour, the uniform
    property blob the compute kernel reads, and the zero-filled vertex array
    the kernel fills with a triangle strip. A semicircle is a circle with a
    start angle; the two form one tagged variant. */
module Geometry {
  import opened Wrappers
  import opened WgpuVector
  import Colors
  import Calc

  /** Float32Array.BYTES_PER_ELEMENT */
  const BytesPerElement: int := 4
  /** Bytes per vertex: two floats (x, y). */
  const VertexArrayStride: int := 2 * BytesPerElement
  const NumDivisions: int := 128
  const PointsPerDivision: int := 2
  const ElementsPerPoint: int := 2
  /** Invocations per compute workgroup, the override the compute pipelines use. */
  const WorkGroupSize: int := 16

  /** A GPU buffer or bind group, created by code outside this model. */
  type Handle = nat

  datatype Kind = Full | Semi(angle: real)

  datatype Primitive = Primitive(
    kind: Kind,
    center: seq<real>,   // the lanes of a 2-component wgpu-math vector
    radius: real,
    color: Colors.Color,
    props: seq<real>,
    numDivisions: int,
    vertices: seq<real>,
    propsBuffer: Option<Handle>,
    verticesBuffer: Option<Handle>,
    computeBindGroup: Option<Handle>)

  /** `new Circle(centerX, centerY, radius, color)`. */
  function NewCircle(centerX: real, centerY: real, radius: real, color: Colors.Color): (c: Primitive)
    ensures c.kind == Full
    ensures c.center == [centerX, centerY] && c.radius == radius && c.color == color
    ensures c.props == [centerX, centerY, radius]
    ensures c.numDivisions == 128
    ensures |c.vertices| == 512 && forall k :: 0 <= k < |c.vertices| ==> c.vertices[k] == 0.0
    ensures c.propsBuffer.None? && c.verticesBuffer.None? && c.computeBindGroup.None?
  {
    var center := LaneLayout(2, Some([centerX, centerY]));
    Primitive(Full, center, radius, color, center + [radius], NumDivisions,
      seq(ElementsPerPoint * PointsPerDivision * NumDivisions, _ => 0.0), None, None, None)
  }

  /** `new SemiCircle(centerX, centerY, radius, color, angle)`: the circle
      built by the super constructor, tagged with its angle, whose props
      gain the angle. */
  function NewSemiCircle(centerX: real, centerY: real, radius: real, color: Colors.Color, angle: real): (s: Primitive)
    ensures s.kind == Semi(angle)
    ensures s.props == [centerX, centerY, radius, angle]
    ensures s.(kind := Full, props := [centerX, centerY, radius]) == NewCircle(centerX, centerY, radius, color)
  {
    var c := NewCircle(centerX, centerY, radius, color);
    c.(kind := Semi(angle), props := c.center + [c.radius, angle])
  }

  /** Byte length of a float array. */
  function ByteLength(floats: seq<real>): (n: int)
    ensures n == BytesPerElement * |floats|
  {
    |floats| * BytesPerElement
  }

  /** Buffer and dispatch sizes for every primitive: the props blob fits one
      16-byte uniform slot (12 bytes for a circle, 16 for a semicircle), the
      vertex buffer needs no padding at 2048 bytes, those bytes hold 256
      vertices, and 128 divisions take 8 workgroups of 16. */
  lemma {:induction false} PrimitiveSizes(cx: real, cy: real, r: real, color: Colors.Color, angle: real)
    ensures var c := NewCircle(cx, cy, r, color);
      && ByteLength(c.props) == 12
      && Calc.RoundUp(16.0, ByteLength(c.props) as real) == Success(16)
      && ByteLength(c.vertices) == 2048
      && Calc.RoundUp(16.0, ByteLength(c.vertices) as real) == Success(2048)
      && ByteLength(c.vertices) / VertexArrayStride == 256
      && c.numDivisions / WorkGroupSize == 8
    ensures var s := NewSemiCircle(cx, cy, r, color, angle);
      && ByteLength(s.props) == 16
      && Calc.RoundUp(16.0, ByteLength(s.props) as real) == Success(16)
      && ByteLength(s.vertices) == 2048
      && Calc.RoundUp(16.0, ByteLength(s.vertices) as real) == Success(2048)
  {
    Calc.BufferSizes();
  }
}
