/**
 * Geometry generation: the six vertices of a quad or a glyph, the point path
 * of a line (straight, or a Catmull-Rom curve sampled twenty times per
 * interval), the quads laid along that path, and the triangle count and
 * bounds that `DuckerNative_AddLine` stores.
 */
module Geometry {
  import opened Types

  /** One vertex of the shared vertex buffer: position, texture coordinate, quad-local coordinate. */
  datatype Vertex = Vertex(pos: Vec2, texUv: Vec2, geomUv: Vec2)

  predicate IsUnitCorner(c: Vec2)
  {
    (c.x == 0.0 || c.x == 1.0) && (c.y == 0.0 || c.y == 1.0)
  }

  /** The corner order shared by quads and glyphs: two triangles, (0,0) (0,1) (1,0) and (1,0) (0,1) (1,1). */
  const QuadCorners: seq<Vec2> :=
    [Vec2(0.0, 0.0), Vec2(0.0, 1.0), Vec2(1.0, 0.0), Vec2(1.0, 0.0), Vec2(0.0, 1.0), Vec2(1.0, 1.0)]

  /** The glyph's corner order: the same first triangle, then (1,0) (1,1) (0,1). */
  const GlyphCorners: seq<Vec2> :=
    [Vec2(0.0, 0.0), Vec2(0.0, 1.0), Vec2(1.0, 0.0), Vec2(1.0, 0.0), Vec2(1.0, 1.0), Vec2(0.0, 1.0)]

  /** Both corner orders use only corners of the unit square and cover all four of them. */
  lemma CornerOrdersCoverSquare()
    ensures forall i :: 0 <= i < 6 ==> IsUnitCorner(QuadCorners[i]) && IsUnitCorner(GlyphCorners[i])
    ensures forall c :: IsUnitCorner(c) ==> c in QuadCorners && c in GlyphCorners
  {
    forall c | IsUnitCorner(c)
      ensures c in QuadCorners && c in GlyphCorners
    {
      if c.x == 0.0 && c.y == 0.0 {
        assert c == QuadCorners[0] == GlyphCorners[0];
      } else if c.x == 0.0 {
        assert c == QuadCorners[1] == GlyphCorners[1];
      } else if c.y == 0.0 {
        assert c == QuadCorners[2] == GlyphCorners[2];
      } else {
        assert c == QuadCorners[5] == GlyphCorners[4];
      }
    }
  }

  /**
   * A rectangle, rounded rectangle or circle: the corners of `bounds`, with
   * `uvRect` read as (u1, v1, u2, v2) rather than as a size.
   */
  function QuadVertices(bounds: RectF, uv: RectF): (vs: seq<Vertex>)
    ensures |vs| == 6
  {
    var x1, y1 := bounds.x, bounds.y;
    var x2, y2 := bounds.x + bounds.w, bounds.y + bounds.h;
    [Vertex(Vec2(x1, y1), Vec2(uv.x, uv.y), Vec2(0.0, 0.0)),
     Vertex(Vec2(x1, y2), Vec2(uv.x, uv.h), Vec2(0.0, 1.0)),
     Vertex(Vec2(x2, y1), Vec2(uv.w, uv.y), Vec2(1.0, 0.0)),
     Vertex(Vec2(x2, y1), Vec2(uv.w, uv.y), Vec2(1.0, 0.0)),
     Vertex(Vec2(x1, y2), Vec2(uv.x, uv.h), Vec2(0.0, 1.0)),
     Vertex(Vec2(x2, y2), Vec2(uv.w, uv.h), Vec2(1.0, 1.0))]
  }

  /**
   * Vertex i of a quad sits at quad-local corner i of the shared order,
   * placed at that corner of `bounds`, with the matching corner of the
   * (u1, v1, u2, v2) texture rectangle.
   */
  lemma QuadVerticesCorners(bounds: RectF, uv: RectF)
    ensures var vs := QuadVertices(bounds, uv);
      forall i :: 0 <= i < 6 ==>
        vs[i].geomUv == QuadCorners[i] &&
        vs[i].pos == Vec2(bounds.x + vs[i].geomUv.x * bounds.w, bounds.y + vs[i].geomUv.y * bounds.h) &&
        vs[i].texUv == Vec2(if vs[i].geomUv.x == 0.0 then uv.x else uv.w,
                            if vs[i].geomUv.y == 0.0 then uv.y else uv.h)
  {
    var vs := QuadVertices(bounds, uv);
    assert forall i :: 0 <= i < 6 ==> vs[i].geomUv == QuadCorners[i];
  }

  /** The four rotated corners a glyph keeps in its "v0".."v3" uniforms. */
  predicate GlyphReady(o: RenderObject)
  {
    "v0" in o.uniforms && HasFloats(o.uniforms["v0"], 2) &&
    "v1" in o.uniforms && HasFloats(o.uniforms["v1"], 2) &&
    "v2" in o.uniforms && HasFloats(o.uniforms["v2"], 2) &&
    "v3" in o.uniforms && HasFloats(o.uniforms["v3"], 2)
  }

  /** The glyph corner for a quad-local corner: v0 top-left, v1 top-right, v2 bottom-right, v3 bottom-left. */
  function GlyphCorner(o: RenderObject, c: Vec2): Vec2
    requires GlyphReady(o)
  {
    if c.y == 0.0 then (if c.x == 0.0 then AsVec2(o.uniforms["v0"]) else AsVec2(o.uniforms["v1"]))
    else (if c.x == 0.0 then AsVec2(o.uniforms["v3"]) else AsVec2(o.uniforms["v2"]))
  }

  /**
   * A glyph: its four stored corners (rotation already applied), in the
   * quad's corner order, with texture coordinates from `uvRect`.
   */
  function GlyphVertices(o: RenderObject): (vs: seq<Vertex>)
    requires GlyphReady(o)
    ensures |vs| == 6
  {
    var v0, v1 := AsVec2(o.uniforms["v0"]), AsVec2(o.uniforms["v1"]);
    var v2, v3 := AsVec2(o.uniforms["v2"]), AsVec2(o.uniforms["v3"]);
    var uv := o.uvRect;
    [Vertex(v0, Vec2(uv.x, uv.y), Vec2(0.0, 0.0)),
     Vertex(v3, Vec2(uv.x, uv.h), Vec2(0.0, 1.0)),
     Vertex(v1, Vec2(uv.w, uv.y), Vec2(1.0, 0.0)),
     Vertex(v1, Vec2(uv.w, uv.y), Vec2(1.0, 0.0)),
     Vertex(v2, Vec2(uv.w, uv.h), Vec2(1.0, 1.0)),
     Vertex(v3, Vec2(uv.x, uv.h), Vec2(0.0, 1.0))]
  }

  /**
   * Vertex i of a glyph sits at corner i of the glyph order, at the stored
   * corner for it, with the matching corner of the texture rectangle.
   */
  lemma GlyphVerticesCorners(o: RenderObject)
    requires GlyphReady(o)
    ensures var vs := GlyphVertices(o);
      forall i :: 0 <= i < 6 ==>
        vs[i].geomUv == GlyphCorners[i] &&
        vs[i].pos == GlyphCorner(o, vs[i].geomUv) &&
        vs[i].texUv == Vec2(if vs[i].geomUv.x == 0.0 then o.uvRect.x else o.uvRect.w,
                            if vs[i].geomUv.y == 0.0 then o.uvRect.y else o.uvRect.h)
  {
    var vs := GlyphVertices(o);
    assert forall i :: 0 <= i < 6 ==> vs[i].geomUv == GlyphCorners[i];
  }

  // ---------------------------------------------------------------------
  // Line paths
  // ---------------------------------------------------------------------

  /** `all_points`: the start, every control point in order, the end. */
  function LinePoints(o: RenderObject): seq<Vec2>
  {
    [o.start] + o.controlPoints + [o.end]
  }

  const MidpointThreshold: real := 0.000001

  /** Length of the start-to-end chord, as the source computes it. */
  function ChordLength(o: RenderObject, m: Maths): real
  {
    var dx, dy := o.end.x - o.start.x, o.end.y - o.start.y;
    m.sqrt(dx * dx + dy * dy)
  }

  /**
   * The points a curved line interpolates. A curve without control points
   * whose chord is longer than 1e-6 gets a synthesised middle point, pushed
   * off the chord by a quarter of its length along the left normal.
   */
  function CurveKnots(o: RenderObject, m: Maths): (ps: seq<Vec2>)
    ensures |ps| >= 2 && ps[0] == o.start && ps[|ps| - 1] == o.end
    ensures |ps| == if o.controlPoints == [] && ChordLength(o, m) > MidpointThreshold then 3
                    else |o.controlPoints| + 2
  {
    if o.controlPoints == [] && ChordLength(o, m) > MidpointThreshold then
      var len := ChordLength(o, m);
      var dx, dy := o.end.x - o.start.x, o.end.y - o.start.y;
      var perp := Vec2(-dy / len, dx / len);
      var mid := Vec2((o.start.x + o.end.x) / 2.0 + perp.x * (len / 4.0),
                      (o.start.y + o.end.y) / 2.0 + perp.y * (len / 4.0));
      [o.start, mid, o.end]
    else
      LinePoints(o)
  }

  /** The synthesised point sits on the chord's perpendicular bisector, (-dy/4, dx/4) from the midpoint. */
  lemma SynthesisedMidpoint(o: RenderObject, m: Maths)
    requires o.controlPoints == [] && ChordLength(o, m) > MidpointThreshold
    ensures CurveKnots(o, m)[1] ==
      Vec2((o.start.x + o.end.x) / 2.0 - (o.end.y - o.start.y) / 4.0,
           (o.start.y + o.end.y) / 2.0 + (o.end.x - o.start.x) / 4.0)
  {
    var len := ChordLength(o, m);
    var dx, dy := o.end.x - o.start.x, o.end.y - o.start.y;
    assert (-dy / len) * (len / 4.0) == -dy / 4.0;
    assert (dx / len) * (len / 4.0) == dx / 4.0;
  }

  /** With an exact square root, a curve whose ends coincide gets no synthesised point. */
  lemma CoincidentEndsKeepTwoKnots(o: RenderObject, m: Maths)
    requires SqrtSound(m) && o.controlPoints == [] && o.start == o.end
    ensures CurveKnots(o, m) == [o.start, o.end]
  {
    var r := m.sqrt(0.0);
    assert r * r == 0.0 && r >= 0.0;
    assert ChordLength(o, m) == r;
  }

  /** Samples the curve takes on each interval between two knots. */
  const SamplesPerInterval: nat := 20

  /** The uniform Catmull-Rom spline through p1 and p2, with neighbours p0 and p3, at parameter t. */
  function CatmullRom(p0: Vec2, p1: Vec2, p2: Vec2, p3: Vec2, t: real): Vec2
  {
    var t2 := t * t;
    var t3 := t2 * t;
    Vec2(0.5 * ((-t3 + 2.0 * t2 - t) * p0.x + (3.0 * t3 - 5.0 * t2 + 2.0) * p1.x
              + (-3.0 * t3 + 4.0 * t2 + t) * p2.x + (t3 - t2) * p3.x),
         0.5 * ((-t3 + 2.0 * t2 - t) * p0.y + (3.0 * t3 - 5.0 * t2 + 2.0) * p1.y
              + (-3.0 * t3 + 4.0 * t2 + t) * p2.y + (t3 - t2) * p3.y))
  }

  /** The spline interpolates: it passes through p1 at t = 0 and through p2 at t = 1. */
  lemma CatmullRomInterpolates(p0: Vec2, p1: Vec2, p2: Vec2, p3: Vec2)
    ensures CatmullRom(p0, p1, p2, p3, 0.0) == p1
    ensures CatmullRom(p0, p1, p2, p3, 1.0) == p2
  {
  }

  /** Sample `k` (0..19) of interval `i`: t = k/19, the neighbours clamped at both ends. */
  function Sample(knots: seq<Vec2>, i: nat, k: nat): Vec2
    requires i + 1 < |knots| && k < SamplesPerInterval
  {
    var p0 := knots[if i > 0 then i - 1 else 0];
    var p3 := knots[if i + 1 < |knots| - 1 then i + 2 else |knots| - 1];
    CatmullRom(p0, knots[i], knots[i + 1], p3, k as real / (SamplesPerInterval - 1) as real)
  }

  /** The first sample of an interval is its left knot and the last is its right knot. */
  lemma SampleEnds(knots: seq<Vec2>, i: nat)
    requires i + 1 < |knots|
    ensures Sample(knots, i, 0) == knots[i]
    ensures Sample(knots, i, SamplesPerInterval - 1) == knots[i + 1]
  {
    var p0 := knots[if i > 0 then i - 1 else 0];
    var p3 := knots[if i + 1 < |knots| - 1 then i + 2 else |knots| - 1];
    assert (SamplesPerInterval - 1) as real / (SamplesPerInterval - 1) as real == 1.0;
    CatmullRomInterpolates(p0, knots[i], knots[i + 1], p3);
  }

  /** The twenty samples of interval `i`. */
  function IntervalSamples(knots: seq<Vec2>, i: nat): seq<Vec2>
    requires i + 1 < |knots|
  {
    seq(SamplesPerInterval, k requires 0 <= k < SamplesPerInterval => Sample(knots, i, k))
  }

  /** The samples of intervals 0 .. n-1, in order. */
  function SamplesUpTo(knots: seq<Vec2>, n: nat): (r: seq<Vec2>)
    requires n < |knots|
    ensures |r| == SamplesPerInterval * n
  {
    if n == 0 then [] else SamplesUpTo(knots, n - 1) + IntervalSamples(knots, n - 1)
  }

  /** Sample `k` of interval `i` sits at position 20 i + k of the tessellation. */
  lemma {:induction false} SamplesUpToAt(knots: seq<Vec2>, n: nat, i: nat, k: nat)
    requires n < |knots| && i < n && k < SamplesPerInterval
    ensures SamplesUpTo(knots, n)[SamplesPerInterval * i + k] == Sample(knots, i, k)
  {
    if i < n - 1 {
      SamplesUpToAt(knots, n - 1, i, k);
    }
  }

  /** `approx_points` before its last entry is overwritten: every interval sampled. */
  function CurveSamples(knots: seq<Vec2>): (r: seq<Vec2>)
    requires |knots| >= 2
    ensures |r| == SamplesPerInterval * (|knots| - 1)
  {
    SamplesUpTo(knots, |knots| - 1)
  }

  /** The points a line is drawn through. */
  function PathPoints(o: RenderObject, m: Maths): (ps: seq<Vec2>)
    ensures |ps| >= 2
  {
    if o.lineMode == Straight then LinePoints(o)
    else
      var s := CurveSamples(CurveKnots(o, m));
      s[..|s| - 1] + [o.end]
  }

  /** A straight path is the points as given; a curved one has twenty points per interval; both end at `end`. */
  lemma PathPointsShape(o: RenderObject, m: Maths)
    ensures var ps := PathPoints(o, m);
      ps[|ps| - 1] == o.end &&
      (o.lineMode == Straight ==> ps == LinePoints(o)) &&
      (o.lineMode == Curved ==> |ps| == SamplesPerInterval * (|CurveKnots(o, m)| - 1))
  {
  }

  /** Overwriting the last sample with `end` changes nothing: the last sample already is `end`. */
  lemma LastSampleIsEnd(o: RenderObject, m: Maths)
    requires o.lineMode == Curved
    ensures PathPoints(o, m) == CurveSamples(CurveKnots(o, m))
  {
    var knots := CurveKnots(o, m);
    var n := |knots| - 1;
    SamplesUpToAt(knots, n, n - 1, SamplesPerInterval - 1);
    SampleEnds(knots, n - 1);
  }

  /** Where two intervals meet, the curve repeats the shared knot: sample 19 of one is sample 0 of the next. */
  lemma CurveRepeatsKnots(knots: seq<Vec2>, i: nat)
    requires i + 2 < |knots|
    ensures CurveSamples(knots)[SamplesPerInterval * i + SamplesPerInterval - 1] == knots[i + 1]
    ensures CurveSamples(knots)[SamplesPerInterval * (i + 1)] == knots[i + 1]
  {
    SamplesUpToAt(knots, |knots| - 1, i, SamplesPerInterval - 1);
    SamplesUpToAt(knots, |knots| - 1, i + 1, 0);
    SampleEnds(knots, i);
    SampleEnds(knots, i + 1);
  }

  /** `triCount`: two triangles per segment of the path. */
  function LineTriCount(o: RenderObject, m: Maths): (n: int)
    ensures n >= 2
  {
    2 * (|PathPoints(o, m)| - 1)
  }

  /**
   * A straight line has two triangles per control point plus two; a curved
   * one two per sample of each interval, less two.
   */
  lemma LineTriCountByMode(o: RenderObject, m: Maths)
    ensures o.lineMode == Straight ==> LineTriCount(o, m) == 2 * (|o.controlPoints| + 1)
    ensures o.lineMode == Curved ==> LineTriCount(o, m) == 2 * (SamplesPerInterval * (|CurveKnots(o, m)| - 1) - 1)
  {
    PathPointsShape(o, m);
  }

  // ---------------------------------------------------------------------
  // Line quads
  // ---------------------------------------------------------------------

  /** Segments shorter than this emit no quad. */
  const MinSegmentLength: real := 0.001

  function SegmentLength(p1: Vec2, p2: Vec2, m: Maths): real
  {
    var dx, dy := p2.x - p1.x, p2.y - p1.y;
    m.sqrt(dx * dx + dy * dy)
  }

  predicate Degenerate(p1: Vec2, p2: Vec2, m: Maths)
  {
    SegmentLength(p1, p2, m) < MinSegmentLength
  }

  /** Half the line width along the segment's left normal. */
  function SegmentOffset(p1: Vec2, p2: Vec2, width: real, m: Maths): Vec2
    requires !Degenerate(p1, p2, m)
  {
    var len := SegmentLength(p1, p2, m);
    var dir := Vec2((p2.x - p1.x) / len, (p2.y - p1.y) / len);
    Vec2(-dir.y * width / 2.0, dir.x * width / 2.0)
  }

  /** The quad of one segment: none for a degenerate segment, otherwise two triangles. */
  function SegmentVertices(p1: Vec2, p2: Vec2, width: real, m: Maths): (vs: seq<Vertex>)
    ensures Degenerate(p1, p2, m) <==> vs == []
    ensures !Degenerate(p1, p2, m) ==> |vs| == 6
  {
    if Degenerate(p1, p2, m) then []
    else
      var perp := SegmentOffset(p1, p2, width, m);
      var v0 := Vec2(p1.x + perp.x, p1.y + perp.y);
      var v1 := Vec2(p1.x - perp.x, p1.y - perp.y);
      var v2 := Vec2(p2.x - perp.x, p2.y - perp.y);
      var v3 := Vec2(p2.x + perp.x, p2.y + perp.y);
      [
        Vertex(v0, Vec2(0.0, 0.0), Vec2(0.0, 1.0)),
        Vertex(v1, Vec2(0.0, 1.0), Vec2(0.0, 0.0)),
        Vertex(v3, Vec2(1.0, 0.0), Vec2(1.0, 1.0)),
        Vertex(v1, Vec2(0.0, 1.0), Vec2(0.0, 0.0)),
        Vertex(v2, Vec2(1.0, 1.0), Vec2(1.0, 0.0)),
        Vertex(v3, Vec2(1.0, 0.0), Vec2(1.0, 1.0))]
  }

  /**
   * The segment quad is a rectangle around the segment: its offset is
   * perpendicular to the segment, the long sides are the segment shifted by
   * plus and minus that offset, and (with an exact square root) the offset is
   * half the line width long.
   */
  lemma SegmentQuadIsRectangle(p1: Vec2, p2: Vec2, width: real, m: Maths)
    requires !Degenerate(p1, p2, m)
    ensures var perp := SegmentOffset(p1, p2, width, m);
      perp.x * (p2.x - p1.x) + perp.y * (p2.y - p1.y) == 0.0 &&
      (SqrtSound(m) ==> perp.x * perp.x + perp.y * perp.y == width * width / 4.0)
    ensures var vs := SegmentVertices(p1, p2, width, m); var perp := SegmentOffset(p1, p2, width, m);
      vs[0].pos == Vec2(p1.x + perp.x, p1.y + perp.y) && vs[1].pos == Vec2(p1.x - perp.x, p1.y - perp.y) &&
      vs[4].pos == Vec2(p2.x - perp.x, p2.y - perp.y) && vs[2].pos == Vec2(p2.x + perp.x, p2.y + perp.y)
  {
    var len := SegmentLength(p1, p2, m);
    var dx, dy := p2.x - p1.x, p2.y - p1.y;
    var perp := SegmentOffset(p1, p2, width, m);
    assert perp.x == -(dy / len) * width / 2.0 && perp.y == (dx / len) * width / 2.0;
    assert perp.x * dx + perp.y * dy == (width / (2.0 * len)) * (dx * dy - dy * dx);
    if SqrtSound(m) {
      assert len * len == dx * dx + dy * dy;
      assert perp.x * perp.x + perp.y * perp.y == (width * width / (4.0 * len * len)) * (dx * dx + dy * dy);
    }
  }

  /** The quads of segments 0 .. n-1 of a path, in order. */
  function PathVerticesUpTo(ps: seq<Vec2>, n: nat, width: real, m: Maths): (vs: seq<Vertex>)
    requires n < |ps|
    ensures |vs| <= 6 * n
    ensures |vs| % 6 == 0
  {
    if n == 0 then []
    else PathVerticesUpTo(ps, n - 1, width, m) + SegmentVertices(ps[n - 1], ps[n], width, m)
  }

  /** Number of segments among the first n that emit a quad. */
  function DrawnSegments(ps: seq<Vec2>, n: nat, m: Maths): nat
    requires n < |ps|
  {
    if n == 0 then 0
    else DrawnSegments(ps, n - 1, m) + (if Degenerate(ps[n - 1], ps[n], m) then 0 else 1)
  }

  /** Every drawn segment contributes exactly six vertices. */
  lemma {:induction false} PathVerticesCount(ps: seq<Vec2>, n: nat, width: real, m: Maths)
    requires n < |ps|
    ensures |PathVerticesUpTo(ps, n, width, m)| == 6 * DrawnSegments(ps, n, m)
  {
    if n > 0 {
      PathVerticesCount(ps, n - 1, width, m);
    }
  }

  /** A degenerate segment among the first n leaves fewer than n quads. */
  lemma {:induction false} DegenerateSegmentDropsQuad(ps: seq<Vec2>, n: nat, j: nat, m: Maths)
    requires n < |ps| && j < n && Degenerate(ps[j], ps[j + 1], m)
    ensures DrawnSegments(ps, n, m) < n
  {
    if j < n - 1 {
      DegenerateSegmentDropsQuad(ps, n - 1, j, m);
    } else {
      DrawnSegmentsAtMost(ps, n - 1, m);
    }
  }

  lemma {:induction false} DrawnSegmentsAtMost(ps: seq<Vec2>, n: nat, m: Maths)
    requires n < |ps|
    ensures DrawnSegments(ps, n, m) <= n
  {
    if n > 0 {
      DrawnSegmentsAtMost(ps, n - 1, m);
    }
  }

  /** No segment among the first n is degenerate: all n emit a quad. */
  lemma {:induction false} NoDegenerateSegments(ps: seq<Vec2>, n: nat, m: Maths)
    requires n < |ps|
    requires forall j :: 0 <= j < n ==> !Degenerate(ps[j], ps[j + 1], m)
    ensures DrawnSegments(ps, n, m) == n
  {
    if n > 0 {
      NoDegenerateSegments(ps, n - 1, m);
    }
  }

  /** The vertices of a line object: quads along its path. */
  function LineVertices(o: RenderObject, m: Maths): seq<Vertex>
  {
    var ps := PathPoints(o, m);
    PathVerticesUpTo(ps, |ps| - 1, o.lineWidth, m)
  }

  /** A line never has more than three vertices per triangle of its path. */
  lemma LineVerticesAtMost(o: RenderObject, m: Maths)
    ensures |LineVertices(o, m)| <= 3 * LineTriCount(o, m)
  {
    var ps := PathPoints(o, m);
    PathVerticesCount(ps, |ps| - 1, o.lineWidth, m);
    DrawnSegmentsAtMost(ps, |ps| - 1, m);
  }

  /** A line draws exactly `triCount * 3` vertices when none of its segments is degenerate. */
  lemma LineVerticesMatchTriCount(o: RenderObject, m: Maths)
    requires var ps := PathPoints(o, m); forall j :: 0 <= j < |ps| - 1 ==> !Degenerate(ps[j], ps[j + 1], m)
    ensures |LineVertices(o, m)| == 3 * LineTriCount(o, m)
  {
    var ps := PathPoints(o, m);
    NoDegenerateSegments(ps, |ps| - 1, m);
    PathVerticesCount(ps, |ps| - 1, o.lineWidth, m);
  }

  /**
   * Every curved line with at least two intervals repeats a knot, so its
   * path holds a zero-length segment that emits nothing, yet `triCount` still
   * counts it: the line has fewer than `triCount * 3` vertices.
   */
  lemma CurvedLineHasPhantomSegment(o: RenderObject, m: Maths)
    requires SqrtSound(m) && o.lineMode == Curved && |CurveKnots(o, m)| >= 3
    ensures |LineVertices(o, m)| < 3 * LineTriCount(o, m)
  {
    var knots := CurveKnots(o, m);
    var ps := PathPoints(o, m);
    LastSampleIsEnd(o, m);
    assert ps == CurveSamples(knots);
    var n := |ps| - 1;
    assert n >= 2 * SamplesPerInterval - 1;
    var j := SamplesPerInterval - 1;
    CurveRepeatsKnots(knots, 0);
    assert ps[j] == knots[1] && ps[j + 1] == knots[1];
    PointSegmentDegenerate(knots[1], m);
    DegenerateSegmentDropsQuad(ps, n, j, m);
    PathVerticesCount(ps, n, o.lineWidth, m);
    assert |LineVertices(o, m)| == 6 * DrawnSegments(ps, n, m);
  }

  /** With an exact square root, a zero-length segment is degenerate. */
  lemma PointSegmentDegenerate(p: Vec2, m: Maths)
    requires SqrtSound(m)
    ensures Degenerate(p, p, m)
  {
    var r := m.sqrt(0.0);
    assert r * r == 0.0 && r >= 0.0;
    assert SegmentLength(p, p, m) == r;
  }

  // ---------------------------------------------------------------------
  // Line bounds
  // ---------------------------------------------------------------------

  /** The running extremes `minX`, `maxX`, `minY`, `maxY` of `DuckerNative_AddLine`. */
  datatype Extent = Extent(minX: real, maxX: real, minY: real, maxY: real)

  function Min(a: real, b: real): real { if b < a then b else a }
  function Max(a: real, b: real): real { if a < b then b else a }

  function Widen(e: Extent, p: Vec2): Extent
  {
    Extent(Min(e.minX, p.x), Max(e.maxX, p.x), Min(e.minY, p.y), Max(e.maxY, p.y))
  }

  predicate Encloses(e: Extent, p: Vec2)
  {
    e.minX <= p.x <= e.maxX && e.minY <= p.y <= e.maxY
  }

  /** The extent after widening `e` by every point of `ps`, in order. */
  function WidenAll(e: Extent, ps: seq<Vec2>): Extent
  {
    if ps == [] then e else Widen(WidenAll(e, ps[..|ps| - 1]), ps[|ps| - 1])
  }

  /**
   * The running extremes enclose every point seen and the starting extent,
   * and each of the four extremes is either the starting value or the
   * coordinate of some point.
   */
  lemma {:induction false} WidenAllTight(e: Extent, ps: seq<Vec2>)
    ensures var r := WidenAll(e, ps); forall i :: 0 <= i < |ps| ==> Encloses(r, ps[i])
    ensures var r := WidenAll(e, ps); r.minX <= e.minX && e.maxX <= r.maxX && r.minY <= e.minY && e.maxY <= r.maxY
    ensures var r := WidenAll(e, ps); r.minX == e.minX || exists i :: 0 <= i < |ps| && ps[i].x == r.minX
    ensures var r := WidenAll(e, ps); r.maxX == e.maxX || exists i :: 0 <= i < |ps| && ps[i].x == r.maxX
    ensures var r := WidenAll(e, ps); r.minY == e.minY || exists i :: 0 <= i < |ps| && ps[i].y == r.minY
    ensures var r := WidenAll(e, ps); r.maxY == e.maxY || exists i :: 0 <= i < |ps| && ps[i].y == r.maxY
  {
    if ps != [] {
      var front := ps[..|ps| - 1];
      WidenAllTight(e, front);
      assert forall i :: 0 <= i < |front| ==> front[i] == ps[i];
    }
  }

  /** The points whose extremes give a line's bounds: every path point, or every sample before the overwrite. */
  function ExtentPoints(o: RenderObject, m: Maths): seq<Vec2>
  {
    if o.lineMode == Straight then LinePoints(o) else CurveSamples(CurveKnots(o, m))
  }

  /** The tight box around the extent points, grown by half the line width on every side. */
  function LineBounds(o: RenderObject, m: Maths): RectF
  {
    var e := WidenAll(Extent(o.start.x, o.start.x, o.start.y, o.start.y), ExtentPoints(o, m));
    var w := o.lineWidth;
    RectF(e.minX - w / 2.0, e.minY - w / 2.0, e.maxX - e.minX + w, e.maxY - e.minY + w)
  }

  /**
   * Every point of the drawn path lies in the bounds shrunk by half the
   * width, and each of the four shrunk edges is touched by a path point.
   */
  lemma LineBoundsTight(o: RenderObject, m: Maths)
    ensures var b := LineBounds(o, m); var w := o.lineWidth;
      forall i :: 0 <= i < |PathPoints(o, m)| ==>
        b.x + w / 2.0 <= PathPoints(o, m)[i].x <= b.x + b.w - w / 2.0 &&
        b.y + w / 2.0 <= PathPoints(o, m)[i].y <= b.y + b.h - w / 2.0
    ensures var b := LineBounds(o, m); var w := o.lineWidth; var ps := PathPoints(o, m);
      (exists i :: 0 <= i < |ps| && ps[i].x == b.x + w / 2.0) &&
      (exists i :: 0 <= i < |ps| && ps[i].x == b.x + b.w - w / 2.0) &&
      (exists i :: 0 <= i < |ps| && ps[i].y == b.y + w / 2.0) &&
      (exists i :: 0 <= i < |ps| && ps[i].y == b.y + b.h - w / 2.0)
  {
    var ps := PathPoints(o, m);
    if o.lineMode == Curved {
      LastSampleIsEnd(o, m);
      var knots := CurveKnots(o, m);
      SamplesUpToAt(knots, |knots| - 1, 0, 0);
      SampleEnds(knots, 0);
    }
    assert ps == ExtentPoints(o, m);
    assert ps[0] == o.start;
    WidenAllTight(Extent(o.start.x, o.start.x, o.start.y, o.start.y), ps);
  }

  /** The straight line from (0,0) to (10,0), two units wide, has bounds (-1, -1, 12, 2). */
  lemma StraightLineBoundsExample(o: RenderObject, m: Maths)
    requires o.lineMode == Straight && o.start == Vec2(0.0, 0.0) && o.end == Vec2(10.0, 0.0)
    requires o.controlPoints == [] && o.lineWidth == 2.0
    ensures LineBounds(o, m) == RectF(-1.0, -1.0, 12.0, 2.0)
    ensures LineTriCount(o, m) == 2
  {
    var e0 := Extent(0.0, 0.0, 0.0, 0.0);
    assert ExtentPoints(o, m) == [Vec2(0.0, 0.0), Vec2(10.0, 0.0)];
    assert WidenAll(e0, [Vec2(0.0, 0.0)]) == e0;
    assert WidenAll(e0, [Vec2(0.0, 0.0), Vec2(10.0, 0.0)]) == Extent(0.0, 10.0, 0.0, 0.0);
  }

  /**
   * The measuring pass of `DuckerNative_AddLine`: builds the straight path
   * or samples the curve interval by interval, keeping the running extremes,
   * then derives the triangle count and the bounds.
   */
  method MeasureLine(o: RenderObject, m: Maths) returns (triCount: int, bounds: RectF)
    ensures triCount == LineTriCount(o, m)
    ensures bounds == LineBounds(o, m)
  {
    var e0 := Extent(o.start.x, o.start.x, o.start.y, o.start.y);
    var e: Extent;
    var approx: seq<Vec2>;
    if o.lineMode == Straight {
      approx := LinePoints(o);
      e := WidenEach(e0, approx);
    } else {
      approx, e := SampleCurve(CurveKnots(o, m), e0);
      approx := approx[..|approx| - 1] + [o.end];
    }
    triCount := 2 * (|approx| - 1);
    var w := o.lineWidth;
    bounds := RectF(e.minX - w / 2.0, e.minY - w / 2.0, e.maxX - e.minX + w, e.maxY - e.minY + w);
  }

  /** The min/max loop over a point list. */
  method WidenEach(e0: Extent, ps: seq<Vec2>) returns (e: Extent)
    ensures e == WidenAll(e0, ps)
  {
    e := e0;
    var j := 0;
    while j < |ps|
      invariant 0 <= j <= |ps|
      invariant e == WidenAll(e0, ps[..j])
    {
      assert ps[..j + 1][..j] == ps[..j];
      e := Widen(e, ps[j]);
      j := j + 1;
    }
    assert ps[..j] == ps;
  }

  /** The nested sampling loop: twenty samples per interval, each widening the running extremes. */
  method SampleCurve(knots: seq<Vec2>, e0: Extent) returns (samples: seq<Vec2>, e: Extent)
    requires |knots| >= 2
    ensures samples == CurveSamples(knots)
    ensures e == WidenAll(e0, samples)
  {
    samples, e := [], e0;
    var i := 0;
    while i < |knots| - 1
      invariant 0 <= i <= |knots| - 1
      invariant samples == SamplesUpTo(knots, i)
      invariant e == WidenAll(e0, samples)
    {
      samples, e := SampleInterval(knots, i, e0, samples, e);
      i := i + 1;
    }
  }

  /** The inner loop: appends the twenty samples of interval `i`. */
  method SampleInterval(knots: seq<Vec2>, i: nat, ghost e0: Extent, before: seq<Vec2>, eBefore: Extent)
    returns (samples: seq<Vec2>, e: Extent)
    requires i + 1 < |knots| && eBefore == WidenAll(e0, before)
    ensures samples == before + IntervalSamples(knots, i)
    ensures e == WidenAll(e0, samples)
  {
    ghost var iv := IntervalSamples(knots, i);
    samples, e := before, eBefore;
    var k := 0;
    while k < SamplesPerInterval
      invariant 0 <= k <= SamplesPerInterval
      invariant samples == before + iv[..k]
      invariant e == WidenAll(e0, samples)
    {
      var p := Sample(knots, i, k);
      WidenAllSnoc(e0, samples, p);
      assert iv[..k + 1] == iv[..k] + [p];
      samples := samples + [p];
      e := Widen(e, p);
      k := k + 1;
    }
    assert iv[..SamplesPerInterval] == iv;
  }

  lemma WidenAllSnoc(e0: Extent, ps: seq<Vec2>, p: Vec2)
    ensures WidenAll(e0, ps + [p]) == Widen(WidenAll(e0, ps), p)
  {
    assert (ps + [p])[..|ps|] == ps;
  }
}
