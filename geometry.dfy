/**
 * The pure geometry of the movement controller (`AGNavigation`): the box corners of
 * a game object, its mid-height silhouette, the heading angle and the rotation of
 * a point around the object's centre. Vectors are over `real`, so the arithmetic
 * is exact where JavaScript's doubles round; the trigonometry is a parameter.
 */
module Geometry {

  datatype Vec3 = Vec3(x: real, y: real, z: real) {
    function Plus(v: Vec3): Vec3 { Vec3(x + v.x, y + v.y, z + v.z) }
    function Minus(v: Vec3): Vec3 { Vec3(x - v.x, y - v.y, z - v.z) }
    /** Component-wise product, three.js `multiply`. */
    function Times(v: Vec3): Vec3 { Vec3(x * v.x, y * v.y, z * v.z) }
    /** three.js `multiplyScalar`. */
    function Scale(k: real): Vec3 { Vec3(k * x, k * y, k * z) }
  }

  function Midpoint(a: Vec3, b: Vec3): Vec3 {
    Vec3((a.x + b.x) / 2.0, (a.y + b.y) / 2.0, (a.z + b.z) / 2.0)
  }

  /** `Math.cos` and `Math.sin` of an angle given in degrees. */
  datatype Trig = Trig(cosDeg: int -> real, sinDeg: int -> real)

  /** `extractPlanePoint(obj, sx, sy, sz)`: the box point at offsets `sx`, `sy`, `sz`
      (each +1 or -1) from the centre. The y offset uses the box's x extent. */
  function ExtractPlanePoint(position: Vec3, size: Vec3, sx: real, sy: real, sz: real): Vec3 {
    Vec3(position.x + size.x / 2.0 * sx, position.y + size.x / 2.0 * sy, position.z + size.z / 2.0 * sz)
  }

  /** Opposite box points lie symmetric about the centre; between them lie the
      box's x extent in x, again its x extent in y (where the z-up box would use
      its y extent), and its z extent in z. */
  lemma PlanePointsAroundCentre(position: Vec3, size: Vec3, sx: real, sy: real, sz: real)
    ensures Midpoint(ExtractPlanePoint(position, size, sx, sy, sz), ExtractPlanePoint(position, size, -sx, -sy, -sz))
      == position
    ensures ExtractPlanePoint(position, size, sx, sy, sz).Minus(ExtractPlanePoint(position, size, -sx, -sy, -sz))
      == Vec3(size.x * sx, size.x * sy, size.z * sz)
  {
  }

  /** `top - (top - bottom) * 0.5`, the point half-way down from `top`. */
  function MidHeight(top: Vec3, bottom: Vec3): Vec3 {
    top.Minus(top.Minus(bottom).Scale(0.5))
  }

  /** One of the four mid-height corners p1..p4, before rotation. */
  function Corner(position: Vec3, size: Vec3, sx: real, sz: real): Vec3 {
    MidHeight(ExtractPlanePoint(position, size, sx, 1.0, sz), ExtractPlanePoint(position, size, sx, -1.0, sz))
  }

  /** The top and bottom points of a corner lie `size.x` apart vertically (not
      `size.y`); the mid-height corner sits at the centre's height, with x and z
      at the box's corner. */
  lemma CornerAtMidHeight(position: Vec3, size: Vec3, sx: real, sz: real)
    ensures ExtractPlanePoint(position, size, sx, 1.0, sz).y - ExtractPlanePoint(position, size, sx, -1.0, sz).y == size.x
    ensures Corner(position, size, sx, sz)
      == Vec3(position.x + size.x / 2.0 * sx, position.y, position.z + size.z / 2.0 * sz)
  {
  }

  /** JavaScript's `%` on integers: the remainder takes the sign of the dividend. */
  function JsRem(a: int, b: int): (r: int)
    requires b > 0
    ensures -b < r < b
    ensures a >= 0 ==> r == a % b
    ensures a < 0 ==> r <= 0 && r == -((-a) % b)
  {
    if a >= 0 then a % b else -((-a) % b)
  }

  /**
   * `getAngle`: `(180 + d) % 360` for the rounded heading `d` in degrees. For a
   * heading in [-180, 180], which is what `Math.round` of `atan2` in degrees gives,
   * the angle lies in [0, 360): `180 + d`, with 180 wrapping to 0.
   */
  function GetAngle(heading: int): (angle: int)
    ensures -360 < angle < 360 && (angle - 180 - heading) % 360 == 0
    ensures -180 <= heading <= 180 ==> 0 <= angle < 360
    ensures -180 <= heading < 180 ==> angle == 180 + heading
    ensures heading == 180 ==> angle == 0
  {
    JsRem(180 + heading, 360)
  }

  /** `rotateAroundPoint`: turns `point` by `angle` degrees around the vertical axis
      through `center`; the height is kept. */
  function RotateAroundPoint(center: Vec3, point: Vec3, angle: int, trig: Trig): (r: Vec3)
    ensures r.y == point.y
    ensures point == center ==> r == center
  {
    var c, s := trig.cosDeg(angle), trig.sinDeg(angle);
    Vec3(c * (point.x - center.x) + s * (point.z - center.z) + center.x,
         point.y,
         c * (point.z - center.z) - s * (point.x - center.x) + center.z)
  }

  /** With `cos² + sin² = 1` the rotation keeps the horizontal distance to the centre. */
  lemma RotationKeepsRadius(center: Vec3, point: Vec3, angle: int, trig: Trig)
    requires trig.cosDeg(angle) * trig.cosDeg(angle) + trig.sinDeg(angle) * trig.sinDeg(angle) == 1.0
    ensures var r := RotateAroundPoint(center, point, angle, trig);
      (r.x - center.x) * (r.x - center.x) + (r.z - center.z) * (r.z - center.z)
      == (point.x - center.x) * (point.x - center.x) + (point.z - center.z) * (point.z - center.z)
  {
    var c, s := trig.cosDeg(angle), trig.sinDeg(angle);
    var dx, dz := point.x - center.x, point.z - center.z;
    var r := RotateAroundPoint(center, point, angle, trig);
    assert r.x - center.x == c * dx + s * dz;
    assert r.z - center.z == c * dz - s * dx;
    calc {
      (c * dx + s * dz) * (c * dx + s * dz) + (c * dz - s * dx) * (c * dz - s * dx);
      c * c * dx * dx + 2.0 * c * s * dx * dz + s * s * dz * dz
        + c * c * dz * dz - 2.0 * c * s * dx * dz + s * s * dx * dx;
      (c * c + s * s) * (dx * dx + dz * dz);
      dx * dx + dz * dz;
    }
  }

  /** The rotation around a centre is affine: it maps the midpoint of two points to
      the midpoint of their images. */
  lemma RotationKeepsMidpoint(center: Vec3, a: Vec3, b: Vec3, angle: int, trig: Trig)
    ensures RotateAroundPoint(center, Midpoint(a, b), angle, trig)
      == Midpoint(RotateAroundPoint(center, a, angle, trig), RotateAroundPoint(center, b, angle, trig))
  {
    var c, s := trig.cosDeg(angle), trig.sinDeg(angle);
    var m := Midpoint(a, b);
    var ra, rb, rm := RotateAroundPoint(center, a, angle, trig), RotateAroundPoint(center, b, angle, trig),
      RotateAroundPoint(center, m, angle, trig);
    assert m.x - center.x == ((a.x - center.x) + (b.x - center.x)) / 2.0;
    assert m.z - center.z == ((a.z - center.z) + (b.z - center.z)) / 2.0;
    assert rm.x == (ra.x + rb.x) / 2.0 by {
      assert c * (m.x - center.x) == (c * (a.x - center.x) + c * (b.x - center.x)) / 2.0;
      assert s * (m.z - center.z) == (s * (a.z - center.z) + s * (b.z - center.z)) / 2.0;
    }
    assert rm.z == (ra.z + rb.z) / 2.0 by {
      assert c * (m.z - center.z) == (c * (a.z - center.z) + c * (b.z - center.z)) / 2.0;
      assert s * (m.x - center.x) == (s * (a.x - center.x) + s * (b.x - center.x)) / 2.0;
    }
  }

  /** The silhouette p1..p4: the mid-height corners at (-x, -z), (+x, -z), (-x, +z),
      (+x, +z), each rotated by the heading angle around the object's centre. */
  datatype Quad = Quad(p1: Vec3, p2: Vec3, p3: Vec3, p4: Vec3)

  function Silhouette(position: Vec3, size: Vec3, angle: int, trig: Trig): Quad {
    Quad(RotateAroundPoint(position, Corner(position, size, -1.0, -1.0), angle, trig),
         RotateAroundPoint(position, Corner(position, size, 1.0, -1.0), angle, trig),
         RotateAroundPoint(position, Corner(position, size, -1.0, 1.0), angle, trig),
         RotateAroundPoint(position, Corner(position, size, 1.0, 1.0), angle, trig))
  }

  /** p2-p3 and p4-p1 are opposite corners, not sides: both segments pass through
      the object's centre, whatever the heading. */
  lemma SilhouetteDiagonals(position: Vec3, size: Vec3, angle: int, trig: Trig)
    ensures var q := Silhouette(position, size, angle, trig);
      Midpoint(q.p2, q.p3) == position && Midpoint(q.p4, q.p1) == position
  {
    var c1, c2 := Corner(position, size, -1.0, -1.0), Corner(position, size, 1.0, -1.0);
    var c3, c4 := Corner(position, size, -1.0, 1.0), Corner(position, size, 1.0, 1.0);
    CornerAtMidHeight(position, size, -1.0, -1.0);
    CornerAtMidHeight(position, size, 1.0, -1.0);
    CornerAtMidHeight(position, size, -1.0, 1.0);
    CornerAtMidHeight(position, size, 1.0, 1.0);
    assert Midpoint(c2, c3) == position;
    assert Midpoint(c4, c1) == position;
    RotationKeepsMidpoint(position, c2, c3, angle, trig);
    RotationKeepsMidpoint(position, c4, c1, angle, trig);
  }
}
