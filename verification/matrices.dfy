/**
 * The two matrices the renderer uploads: the per-object pivot rotation of
 * `CreateRotationMatrix` and the orthographic projection of
 * `UpdateProjectionMatrix`. Both are written into a C array `m[4][4]` and
 * uploaded with transpose = GL_FALSE, so the shader reads array row `m[c]`
 * as its column `c`.
 */
module Matrices {
  import opened Wrappers
  import opened Types

  /** The C array `m[4][4]`, one `Vec4` per array row. */
  datatype Mat4 = Mat4(m0: Vec4, m1: Vec4, m2: Vec4, m3: Vec4)

  /**
   * The product the shader computes, `M * v`, when the C array is uploaded
   * without transposition: array row `m[c]` is the shader's column `c`.
   */
  function Uploaded(a: Mat4, v: Vec4): Vec4
  {
    Vec4(a.m0.x * v.x + a.m1.x * v.y + a.m2.x * v.z + a.m3.x * v.w,
         a.m0.y * v.x + a.m1.y * v.y + a.m2.y * v.z + a.m3.y * v.w,
         a.m0.z * v.x + a.m1.z * v.y + a.m2.z * v.z + a.m3.z * v.w,
         a.m0.w * v.x + a.m1.w * v.y + a.m2.w * v.z + a.m3.w * v.w)
  }

  /** The product as the C array reads on paper, array row `m[r]` as row `r`. */
  function RowMajor(a: Mat4, v: Vec4): Vec4
  {
    Vec4(a.m0.x * v.x + a.m0.y * v.y + a.m0.z * v.z + a.m0.w * v.w,
         a.m1.x * v.x + a.m1.y * v.y + a.m1.z * v.z + a.m1.w * v.w,
         a.m2.x * v.x + a.m2.y * v.y + a.m2.z * v.z + a.m2.w * v.w,
         a.m3.x * v.x + a.m3.y * v.y + a.m3.z * v.z + a.m3.w * v.w)
  }

  /** A point of the 2D scene as a homogeneous vector. */
  function Point(p: Vec2): Vec4
  {
    Vec4(p.x, p.y, 0.0, 1.0)
  }

  const Pi: real := 3.1415926535

  /** The angle in radians the rotation matrix is built from. */
  function Radians(degrees: real): real
  {
    degrees * Pi / 180.0
  }

  /** The pivot: the rotation origin, given as a fraction of the bounds. */
  function Pivot(origin: Vec2, bounds: RectF): Vec2
  {
    Vec2(bounds.x + bounds.w * origin.x, bounds.y + bounds.h * origin.y)
  }

  /** `CreateRotationMatrix`: a rotation about the pivot with the translation in the last array column. */
  function RotationMatrix(angle: real, origin: Vec2, bounds: RectF, m: Maths): Mat4
  {
    var c, s := m.cos(Radians(angle)), m.sin(Radians(angle));
    var p := Pivot(origin, bounds);
    Mat4(Vec4(c, -s, 0.0, p.x - c * p.x + s * p.y),
         Vec4(s, c, 0.0, p.y - s * p.x - c * p.y),
         Vec4(0.0, 0.0, 1.0, 0.0),
         Vec4(0.0, 0.0, 0.0, 1.0))
  }

  /** Read as the C array is written, the rotation matrix leaves the pivot where it is. */
  lemma RowMajorFixesPivot(angle: real, origin: Vec2, bounds: RectF, m: Maths)
    ensures var p := Pivot(origin, bounds);
      RowMajor(RotationMatrix(angle, origin, bounds, m), Point(p)) == Point(p)
  {
  }

  /**
   * Read as the C array is written, the rotation matrix maps a point q to
   * the pivot plus the offset q - p turned by (cos, sin); when
   * cos^2 + sin^2 = 1 at the angle, the distance to the pivot is kept.
   */
  lemma RowMajorTurnsAboutPivot(angle: real, origin: Vec2, bounds: RectF, m: Maths, q: Vec2)
    ensures var p := Pivot(origin, bounds); var c, s := m.cos(Radians(angle)), m.sin(Radians(angle));
      var r := RowMajor(RotationMatrix(angle, origin, bounds, m), Point(q));
      r == Vec4(p.x + c * (q.x - p.x) - s * (q.y - p.y), p.y + s * (q.x - p.x) + c * (q.y - p.y), 0.0, 1.0) &&
      (c * c + s * s == 1.0 ==>
        (r.x - p.x) * (r.x - p.x) + (r.y - p.y) * (r.y - p.y) == (q.x - p.x) * (q.x - p.x) + (q.y - p.y) * (q.y - p.y))
  {
    var p := Pivot(origin, bounds);
    var c, s := m.cos(Radians(angle)), m.sin(Radians(angle));
    var r := RowMajor(RotationMatrix(angle, origin, bounds, m), Point(q));
    var dx, dy := q.x - p.x, q.y - p.y;
    assert r.x == p.x + c * dx - s * dy;
    assert r.y == p.y + s * dx + c * dy;
    RotationKeepsLength(c, s, dx, dy);
  }

  lemma RotationKeepsLength(c: real, s: real, dx: real, dy: real)
    ensures (c * dx - s * dy) * (c * dx - s * dy) + (s * dx + c * dy) * (s * dx + c * dy)
         == (c * c + s * s) * (dx * dx + dy * dy)
  {
  }

  /** At angle zero (cos 0 = 1, sin 0 = 0) both readings are the identity, so the layout does not matter. */
  lemma ZeroRotationIsIdentity(origin: Vec2, bounds: RectF, m: Maths, v: Vec4)
    requires m.cos(0.0) == 1.0 && m.sin(0.0) == 0.0
    ensures Uploaded(RotationMatrix(0.0, origin, bounds, m), v) == v
    ensures RowMajor(RotationMatrix(0.0, origin, bounds, m), v) == v
  {
    assert Radians(0.0) == 0.0;
  }

  /**
   * As uploaded, the translation lands in the shader's bottom row: for a
   * quarter turn (cos = 0, sin = 1) about the pivot (1, 0) the pivot itself
   * comes out with w = 2 instead of staying put.
   */
  lemma UploadedRotationMovesPivot(m: Maths)
    requires m.cos(Radians(90.0)) == 0.0 && m.sin(Radians(90.0)) == 1.0
    ensures var a := RotationMatrix(90.0, Vec2(0.0, 0.0), RectF(1.0, 0.0, 0.0, 0.0), m);
      Pivot(Vec2(0.0, 0.0), RectF(1.0, 0.0, 0.0, 0.0)) == Vec2(1.0, 0.0) &&
      Uploaded(a, Point(Vec2(1.0, 0.0))) == Vec4(0.0, -1.0, 0.0, 2.0) &&
      RowMajor(a, Point(Vec2(1.0, 0.0))) == Point(Vec2(1.0, 0.0))
  {
    var a := RotationMatrix(90.0, Vec2(0.0, 0.0), RectF(1.0, 0.0, 0.0, 0.0), m);
    assert Pivot(Vec2(0.0, 0.0), RectF(1.0, 0.0, 0.0, 0.0)) == Vec2(1.0, 0.0);
    assert a == Mat4(Vec4(0.0, -1.0, 0.0, 1.0), Vec4(1.0, 0.0, 0.0, -1.0),
                     Vec4(0.0, 0.0, 1.0, 0.0), Vec4(0.0, 0.0, 0.0, 1.0));
  }

  /** The array with rows and columns swapped. */
  function Transpose(a: Mat4): Mat4
  {
    Mat4(Vec4(a.m0.x, a.m1.x, a.m2.x, a.m3.x),
         Vec4(a.m0.y, a.m1.y, a.m2.y, a.m3.y),
         Vec4(a.m0.z, a.m1.z, a.m2.z, a.m3.z),
         Vec4(a.m0.w, a.m1.w, a.m2.w, a.m3.w))
  }

  /** Uploading the transposed array makes the shader compute the product as the array reads on paper. */
  lemma UploadedTransposeIsRowMajor(a: Mat4, v: Vec4)
    ensures Uploaded(Transpose(a), v) == RowMajor(a, v)
  {
  }

  /**
   * The rotation laid out the way `UpdateProjectionMatrix` lays out its
   * matrix, translation in array row `m[3]`, so that the untransposed upload
   * hands the shader the intended rotation about the pivot.
   */
  function UploadRotationMatrix(angle: real, origin: Vec2, bounds: RectF, m: Maths): Mat4
  {
    Transpose(RotationMatrix(angle, origin, bounds, m))
  }

  /**
   * As uploaded, the corrected matrix keeps the pivot fixed and turns every
   * other point about it by (cos, sin), keeping its distance to the pivot
   * when cos^2 + sin^2 = 1.
   */
  lemma UploadedRotationTurnsAboutPivot(angle: real, origin: Vec2, bounds: RectF, m: Maths, q: Vec2)
    ensures var p := Pivot(origin, bounds);
      Uploaded(UploadRotationMatrix(angle, origin, bounds, m), Point(p)) == Point(p)
    ensures var p := Pivot(origin, bounds); var c, s := m.cos(Radians(angle)), m.sin(Radians(angle));
      var r := Uploaded(UploadRotationMatrix(angle, origin, bounds, m), Point(q));
      r == Vec4(p.x + c * (q.x - p.x) - s * (q.y - p.y), p.y + s * (q.x - p.x) + c * (q.y - p.y), 0.0, 1.0) &&
      (c * c + s * s == 1.0 ==>
        (r.x - p.x) * (r.x - p.x) + (r.y - p.y) * (r.y - p.y) == (q.x - p.x) * (q.x - p.x) + (q.y - p.y) * (q.y - p.y))
  {
    var a := RotationMatrix(angle, origin, bounds, m);
    var p := Pivot(origin, bounds);
    UploadedTransposeIsRowMajor(a, Point(p));
    UploadedTransposeIsRowMajor(a, Point(q));
    RowMajorFixesPivot(angle, origin, bounds, m);
    RowMajorTurnsAboutPivot(angle, origin, bounds, m, q);
  }

  /**
   * `UpdateProjectionMatrix`: left 0, right = width, top 0, bottom = height,
   * translation in array row `m[3]`. A zero width or height divides by zero
   * (the source then holds infinities); the model has no matrix for it.
   */
  function Projection(width: int, height: int): (r: Option<Mat4>)
    ensures r.Some? <==> width != 0 && height != 0
  {
    if width == 0 || height == 0 then None
    else
      var R, B := width as real, height as real;
      var L, T := 0.0, 0.0;
      Some(Mat4(Vec4(2.0 / (R - L), 0.0, 0.0, 0.0),
                Vec4(0.0, 2.0 / (T - B), 0.0, 0.0),
                Vec4(0.0, 0.0, -1.0, 0.0),
                Vec4(-(R + L) / (R - L), -(T + B) / (T - B), 0.0, 1.0)))
  }

  /**
   * As uploaded, the projection maps screen pixels to normalised device
   * coordinates with the origin at the top left and y growing downwards:
   * (x, y) goes to (2x/w - 1, 1 - 2y/h), so (0, 0) is (-1, 1) and (w, h) is (1, -1).
   */
  lemma ProjectionMapsScreenToDevice(width: int, height: int, p: Vec2)
    requires width != 0 && height != 0
    ensures var w, h := width as real, height as real;
      Uploaded(Projection(width, height).value, Point(p)) ==
        Vec4(2.0 * p.x / w - 1.0, 1.0 - 2.0 * p.y / h, 0.0, 1.0)
    ensures Uploaded(Projection(width, height).value, Point(Vec2(0.0, 0.0))) == Vec4(-1.0, 1.0, 0.0, 1.0)
    ensures Uploaded(Projection(width, height).value, Point(Vec2(width as real, height as real))) == Vec4(1.0, -1.0, 0.0, 1.0)
  {
    var w, h := width as real, height as real;
    assert -(h + 0.0) / (0.0 - h) == 1.0;
    assert 2.0 / (0.0 - h) * p.y == -(2.0 * p.y / h);
    assert 2.0 / w * p.x == 2.0 * p.x / w;
    assert 2.0 * w / w == 2.0 && 2.0 * h / h == 2.0;
  }
}
