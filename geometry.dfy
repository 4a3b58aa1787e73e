/**
 * The vertex layout and the two quad generators of `draw_quad` and
 * `draw_rotated_quad` (src/renderer.rs). `f32` values are modelled as
 * `real`; the rotation's cosine and sine, which the source obtains from
 * the float intrinsics, are parameters.
 */
module Geometry {

  /** Rust's `u8`. */
  newtype u8 = x: int | 0 <= x < 256

  /** `ColorAttribute`: (red, green, blue, alpha). */
  datatype Color = Color(r: u8, g: u8, b: u8, a: u8)

  /** `PositionAttribute`: (x, y, z), z being the draw-order hint. */
  datatype Position = Position(x: real, y: real, z: real)

  /** `TexCoordAttribute`: (u, v). */
  datatype TexCoord = TexCoord(u: real, v: real)

  datatype Vertex = Vertex(position: Position, texcoord: TexCoord, color: Color)

  /** `TexQuad`: exactly six vertices, two triangles. */
  type TexQuad = q: seq<Vertex> | |q| == 6
    witness [ZeroVertex, ZeroVertex, ZeroVertex, ZeroVertex, ZeroVertex, ZeroVertex]

  const ZeroVertex := Vertex(Position(0.0, 0.0, 0.0), TexCoord(0.0, 0.0), Color(0, 0, 0, 0))

  /** Bytes per vertex: the stride given to `VertexAttribPointer`. */
  const VERTEX_STRIDE: nat := 24

  /** `mem::size_of::<TexQuad>()`. */
  const QUAD_BYTES: nat := 6 * VERTEX_STRIDE

  /** The source's `(f32, f32, f32, f32)` rectangles: (left, top, right, bottom). */
  datatype Rect = Rect(x0: real, y0: real, x1: real, y1: real)

  datatype Corner = TopLeft | TopRight | BottomRight | BottomLeft

  /** The point of `r` at corner `c`. */
  function CornerOf(r: Rect, c: Corner): (real, real)
  {
    match c
    case TopLeft => (r.x0, r.y0)
    case TopRight => (r.x1, r.y0)
    case BottomRight => (r.x1, r.y1)
    case BottomLeft => (r.x0, r.y1)
  }

  /** The corner each of the six vertices stands for: triangles TL-TR-BR and TL-BR-BL. */
  const Winding: seq<Corner> := [TopLeft, TopRight, BottomRight, TopLeft, BottomRight, BottomLeft]

  /** The vertex array pushed by `draw_quad`. */
  function AxisAlignedQuad(coords: Rect, texcoords: Rect, color: Color, z: real): (q: TexQuad)
    ensures forall i :: 0 <= i < 6 ==>
      var (x, y) := CornerOf(coords, Winding[i]);
      var (u, v) := CornerOf(texcoords, Winding[i]);
      q[i] == Vertex(Position(x, y, z), TexCoord(u, v), color)
  {
    var Rect(x0, y0, x1, y1) := coords;
    var Rect(tx0, ty0, tx1, ty1) := texcoords;
    [ Vertex(Position(x0, y0, z), TexCoord(tx0, ty0), color),
      Vertex(Position(x1, y0, z), TexCoord(tx1, ty0), color),
      Vertex(Position(x1, y1, z), TexCoord(tx1, ty1), color),
      Vertex(Position(x0, y0, z), TexCoord(tx0, ty0), color),
      Vertex(Position(x1, y1, z), TexCoord(tx1, ty1), color),
      Vertex(Position(x0, y1, z), TexCoord(tx0, ty1), color) ]
  }

  /** The quad's centre, `((x0 + x1) * 0.5, (y0 + y1) * 0.5)`. */
  function Center(r: Rect): (real, real)
  {
    ((r.x0 + r.x1) * 0.5, (r.y0 + r.y1) * 0.5)
  }

  /** Corner `c` of `coords` rotated about the centre by the angle whose cosine and sine are given. */
  function RotatedCorner(coords: Rect, c: Corner, cos: real, sin: real): (real, real)
  {
    var (cx, cy) := Center(coords);
    var (x, y) := CornerOf(coords, c);
    var (rx, ry) := (x - cx, y - cy);
    (cx + (rx * cos - ry * sin), cy + (rx * sin + ry * cos))
  }

  /** The vertex array pushed by `draw_rotated_quad`. */
  function RotatedQuad(coords: Rect, texcoords: Rect, c: Color, z: real, cos: real, sin: real): (q: TexQuad)
    ensures q[3] == q[0] && q[4] == q[2]
    ensures forall i :: 0 <= i < 6 ==>
      var (x, y) := RotatedCorner(coords, Winding[i], cos, sin);
      var (u, v) := CornerOf(texcoords, Winding[i]);
      q[i] == Vertex(Position(x, y, z), TexCoord(u, v), c)
  {
    var (x00, y00) := RotatedCorner(coords, TopLeft, cos, sin);
    var (x10, y10) := RotatedCorner(coords, TopRight, cos, sin);
    var (x11, y11) := RotatedCorner(coords, BottomRight, cos, sin);
    var (x01, y01) := RotatedCorner(coords, BottomLeft, cos, sin);
    var Rect(tx0, ty0, tx1, ty1) := texcoords;
    [ Vertex(Position(x00, y00, z), TexCoord(tx0, ty0), c),
      Vertex(Position(x10, y10, z), TexCoord(tx1, ty0), c),
      Vertex(Position(x11, y11, z), TexCoord(tx1, ty1), c),
      Vertex(Position(x00, y00, z), TexCoord(tx0, ty0), c),
      Vertex(Position(x11, y11, z), TexCoord(tx1, ty1), c),
      Vertex(Position(x01, y01, z), TexCoord(tx0, ty1), c) ]
  }

  /** Every vertex of `q` has depth `z` and colour `c`. */
  predicate UniformDepthAndColor(q: TexQuad, z: real, c: Color)
  {
    forall i :: 0 <= i < 6 ==> q[i].position.z == z && q[i].color == c
  }

  /** Both generators give all six vertices the same depth hint and tint. */
  lemma QuadsHaveUniformDepthAndColor(coords: Rect, texcoords: Rect, c: Color, z: real, cos: real, sin: real)
    ensures UniformDepthAndColor(AxisAlignedQuad(coords, texcoords, c, z), z, c)
    ensures UniformDepthAndColor(RotatedQuad(coords, texcoords, c, z, cos, sin), z, c)
  {
  }

  /** A rotation by angle zero (cosine 1, sine 0) gives the axis-aligned quad. */
  lemma RotationByZeroIsAxisAligned(coords: Rect, texcoords: Rect, c: Color, z: real)
    ensures RotatedQuad(coords, texcoords, c, z, 1.0, 0.0) == AxisAlignedQuad(coords, texcoords, c, z)
  {
    var r := RotatedQuad(coords, texcoords, c, z, 1.0, 0.0);
    var a := AxisAlignedQuad(coords, texcoords, c, z);
    forall i | 0 <= i < 6 ensures r[i] == a[i] {
      var (cx, cy) := Center(coords);
      var (x, y) := CornerOf(coords, Winding[i]);
      assert RotatedCorner(coords, Winding[i], 1.0, 0.0) == (cx + (x - cx), cy + (y - cy));
    }
  }

  /** Rotation is about the centre: the four rotated corners still average to it. */
  lemma RotationKeepsCentroid(coords: Rect, cos: real, sin: real)
    ensures
      var (ax, ay) := RotatedCorner(coords, TopLeft, cos, sin);
      var (bx, b_y) := RotatedCorner(coords, TopRight, cos, sin);
      var (cx, cy) := RotatedCorner(coords, BottomRight, cos, sin);
      var (dx, dy) := RotatedCorner(coords, BottomLeft, cos, sin);
      ((ax + bx + cx + dx) / 4.0, (ay + b_y + cy + dy) / 4.0) == Center(coords)
  {
    var (mx, my) := Center(coords);
    var hx, hy := (coords.x1 - coords.x0) * 0.5, (coords.y1 - coords.y0) * 0.5;
    assert coords.x0 - mx == -hx && coords.x1 - mx == hx;
    assert coords.y0 - my == -hy && coords.y1 - my == hy;
    // Relative to the centre, the offsets of opposite corners cancel.
    var (ax, ay) := RotatedCorner(coords, TopLeft, cos, sin);
    var (bx, b_y) := RotatedCorner(coords, TopRight, cos, sin);
    var (cx, cy) := RotatedCorner(coords, BottomRight, cos, sin);
    var (dx, dy) := RotatedCorner(coords, BottomLeft, cos, sin);
    assert ax == mx + ((-hx) * cos - (-hy) * sin) && ay == my + ((-hx) * sin + (-hy) * cos);
    assert bx == mx + (hx * cos - (-hy) * sin) && b_y == my + (hx * sin + (-hy) * cos);
    assert cx == mx + (hx * cos - hy * sin) && cy == my + (hx * sin + hy * cos);
    assert dx == mx + ((-hx) * cos - hy * sin) && dy == my + ((-hx) * sin + hy * cos);
  }

  /** With cos² + sin² = 1 the rotated quad keeps the side lengths of the original. */
  lemma RotationKeepsSideLengths(coords: Rect, cos: real, sin: real)
    requires cos * cos + sin * sin == 1.0
    ensures
      var (ax, ay) := RotatedCorner(coords, TopLeft, cos, sin);
      var (bx, b_y) := RotatedCorner(coords, TopRight, cos, sin);
      var (dx, dy) := RotatedCorner(coords, BottomLeft, cos, sin);
      && (bx - ax) * (bx - ax) + (b_y - ay) * (b_y - ay) == (coords.x1 - coords.x0) * (coords.x1 - coords.x0)
      && (dx - ax) * (dx - ax) + (dy - ay) * (dy - ay) == (coords.y1 - coords.y0) * (coords.y1 - coords.y0)
  {
    var w, h := coords.x1 - coords.x0, coords.y1 - coords.y0;
    var (ax, ay) := RotatedCorner(coords, TopLeft, cos, sin);
    var (bx, b_y) := RotatedCorner(coords, TopRight, cos, sin);
    var (dx, dy) := RotatedCorner(coords, BottomLeft, cos, sin);
    // The top edge is the vector (w, 0) rotated, the left edge (0, h) rotated.
    assert bx - ax == w * cos && b_y - ay == w * sin;
    assert dx - ax == -(h * sin) && dy - ay == h * cos;
    calc {
      (w * cos) * (w * cos) + (w * sin) * (w * sin);
      w * w * (cos * cos + sin * sin);
      w * w;
    }
    calc {
      (-(h * sin)) * (-(h * sin)) + (h * cos) * (h * cos);
      h * h * (cos * cos + sin * sin);
      h * h;
    }
  }
}
