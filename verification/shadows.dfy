/**
 * Elevation shadows of `DuckerNative_Render`: the Material Design 3 preset
 * table filled in by `DuckerNative_Initialize`, the shadow copy made of each
 * elevated rectangle, rounded rectangle or circle for every layer of its
 * preset, the grouping of those copies by blur radius in an ordered map, and
 * the separable Gaussian kernel of `ApplyGaussianBlurAndComposite`.
 */
module Shadows {
  import opened Types

  /** One layer of a shadow preset: umbra, penumbra or ambient. */
  datatype ShadowLayer = ShadowLayer(opacity: real, yOffset: real, blurRadius: real, spread: real)

  /** The presets for elevations 0 to 5 (0 casts nothing). */
  function DefaultPresets(): (p: map<int, seq<ShadowLayer>>)
    ensures p.Keys == {0, 1, 2, 3, 4, 5}
    ensures p[0] == []
    ensures forall e :: 1 <= e <= 5 ==> |p[e]| == 3
  {
    map[0 := [],
        1 := [ShadowLayer(0.20, 2.0, 1.0, -1.0), ShadowLayer(0.14, 1.0, 1.0, 0.0), ShadowLayer(0.12, 1.0, 3.0, 0.0)],
        2 := [ShadowLayer(0.20, 3.0, 1.0, -2.0), ShadowLayer(0.14, 2.0, 2.0, 0.0), ShadowLayer(0.12, 1.0, 5.0, 0.0)],
        3 := [ShadowLayer(0.20, 3.0, 3.0, -2.0), ShadowLayer(0.14, 3.0, 4.0, 0.0), ShadowLayer(0.12, 1.0, 8.0, 0.0)],
        4 := [ShadowLayer(0.20, 2.0, 4.0, -1.0), ShadowLayer(0.14, 4.0, 5.0, 0.0), ShadowLayer(0.12, 1.0, 10.0, 0.0)],
        5 := [ShadowLayer(0.20, 3.0, 5.0, -1.0), ShadowLayer(0.14, 5.0, 8.0, 0.0), ShadowLayer(0.12, 1.0, 14.0, 0.0)]]
  }

  /**
   * The table follows the Material scheme: every level has an umbra (opacity
   * 0.20, shrunk by a non-positive spread), a penumbra (0.14) and an ambient
   * layer (0.12); every blur radius is positive; and from one level to the
   * next the penumbra drops further and the ambient layer spreads wider.
   */
  lemma PresetsFollowElevation()
    ensures var p := DefaultPresets();
      (forall e :: 1 <= e <= 5 ==>
        p[e][0].opacity == 0.20 && p[e][0].spread <= 0.0 &&
        p[e][1].opacity == 0.14 && p[e][2].opacity == 0.12 &&
        forall l :: 0 <= l < 3 ==> p[e][l].blurRadius > 0.0) &&
      (forall e :: 1 <= e < 5 ==>
        p[e][1].yOffset < p[e + 1][1].yOffset && p[e][2].blurRadius < p[e + 1][2].blurRadius)
  {
    var p: map<int, seq<ShadowLayer>> := DefaultPresets();
    forall e: int | 1 <= e <= 5
      ensures p[e][0].opacity == 0.20 && p[e][0].spread <= 0.0 &&
        p[e][1].opacity == 0.14 && p[e][2].opacity == 0.12 &&
        forall l :: 0 <= l < 3 ==> p[e][l].blurRadius > 0.0
    {
      assert e == 1 || e == 2 || e == 3 || e == 4 || e == 5;
    }
    forall e: int | 1 <= e < 5
      ensures p[e][1].yOffset < p[e + 1][1].yOffset && p[e][2].blurRadius < p[e + 1][2].blurRadius
    {
      assert e == 1 || e == 2 || e == 3 || e == 4;
    }
  }

  // ---------------------------------------------------------------------
  // The shadow copy of one object
  // ---------------------------------------------------------------------

  /** The object is elevated, visible, of a shape kind, and its elevation has a preset. */
  predicate CastsShadow(o: RenderObject, presets: map<int, seq<ShadowLayer>>)
  {
    o.elevation > 0 && o.visible && (o.kind == RoundedRect || o.kind == Circle || o.kind == Rect) &&
    o.elevation in presets
  }

  /**
   * The shape uniforms the shadow copy widens are present and start with
   * floats: the source copies them out of the payload without a check.
   */
  predicate ShapeReady(o: RenderObject)
  {
    (o.kind == RoundedRect ==>
      "shapeSize" in o.uniforms && HasFloats(o.uniforms["shapeSize"], 2) &&
      "cornerRadius" in o.uniforms && HasFloats(o.uniforms["cornerRadius"], 1)) &&
    (o.kind == Circle ==> "shapeRadius" in o.uniforms && HasFloats(o.uniforms["shapeRadius"], 1))
  }

  /** The payload with `d` added to its float lane `i`, every other byte kept. */
  function AddToLane(u: UniformValue, i: nat, d: real): (r: UniformValue)
    requires HasFloats(u, i + 1)
    ensures r.kind == u.kind && |r.data| == |u.data| && HasFloats(r, i + 1)
    ensures r.data[i] == FloatLane(u.data[i].f + d)
    ensures forall j :: 0 <= j < |u.data| && j != i ==> r.data[j] == u.data[j]
  {
    u.(data := u.data[i := FloatLane(u.data[i].f + d)])
  }

  /**
   * The copy drawn into the shadow buffer for one layer, as the render loop
   * builds it: black at the layer's opacity, moved down by the offset and
   * grown by the spread on every side, with its shape uniforms grown to
   * match, no texture, the built-in program and the whole screen as
   * scissor. The border field is cleared, but the `borderWidth` uniform the
   * object was built with stays, and the upload applies it last (see
   * `Upload.AsWrittenShadowKeepsBorder`).
   */
  function ShadowCloneAsWritten(o: RenderObject, layer: ShadowLayer, screenWidth: int, screenHeight: int): RenderObject
    requires ShapeReady(o)
  {
    var s := layer.spread;
    var b := RectF(o.bounds.x - s, o.bounds.y + layer.yOffset - s, o.bounds.w + 2.0 * s, o.bounds.h + 2.0 * s);
    var u0 := o.uniforms["quadSize" := Vec2Uniform(Vec2(b.w, b.h))];
    var u :=
      if o.kind == RoundedRect then
        u0["shapeSize" := AddToLane(AddToLane(o.uniforms["shapeSize"], 0, 2.0 * s), 1, 2.0 * s)]
          ["cornerRadius" := AddToLane(o.uniforms["cornerRadius"], 0, s)]
      else if o.kind == Circle then
        u0["shapeRadius" := AddToLane(o.uniforms["shapeRadius"], 0, s)]
      else u0;
    o.(color := Vec4(0.0, 0.0, 0.0, layer.opacity), bounds := b, uniforms := u,
       textureId := 0, borderWidth := 0.0, shaderId := 0,
       scissorRect := RectF(0.0, 0.0, screenWidth as real, screenHeight as real))
  }

  /**
   * The copy the shadow pass is meant to draw: the one above with its
   * `borderWidth` uniform zeroed as well, so that no border ring is drawn
   * into the shadow buffer.
   */
  function ShadowClone(o: RenderObject, layer: ShadowLayer, screenWidth: int, screenHeight: int): RenderObject
    requires ShapeReady(o)
  {
    var c := ShadowCloneAsWritten(o, layer, screenWidth, screenHeight);
    c.(uniforms := c.uniforms["borderWidth" := FloatUniform(0.0)])
  }

  /**
   * The copy keeps the object's centre horizontally and sits `yOffset` below
   * it, is `2 * spread` wider and taller, is black at the layer's opacity,
   * is drawn by its kind's built-in program without texture or border over
   * the whole screen, and keeps kind, depth, visibility, elevation and
   * rotation.
   */
  lemma ShadowCloneGeometry(o: RenderObject, layer: ShadowLayer, w: int, h: int)
    requires ShapeReady(o)
    ensures var c := ShadowClone(o, layer, w, h);
      c.bounds.x + c.bounds.w / 2.0 == o.bounds.x + o.bounds.w / 2.0 &&
      c.bounds.y + c.bounds.h / 2.0 == o.bounds.y + o.bounds.h / 2.0 + layer.yOffset &&
      c.bounds.w - o.bounds.w == 2.0 * layer.spread && c.bounds.h - o.bounds.h == 2.0 * layer.spread &&
      c.color == Vec4(0.0, 0.0, 0.0, layer.opacity) &&
      EffectiveShader(c) == TypeOrdinal(o.kind) + 1 && c.textureId == 0 && c.borderWidth == 0.0 &&
      c.scissorRect == RectF(0.0, 0.0, w as real, h as real) &&
      c.kind == o.kind && c.zIndex == o.zIndex && c.visible == o.visible && c.elevation == o.elevation &&
      c.rotation == o.rotation && c.rotationOrigin == o.rotationOrigin
  {
  }

  /**
   * The copy's uniforms: `quadSize` is its own size; a rounded rectangle's
   * shape grows by twice the spread and its corner radius by the spread; a
   * circle's radius grows by the spread; `borderWidth` is 0 like the field;
   * no other uniform changes and none is removed. The copy can itself be
   * copied again. The copy the render loop makes differs from it in the
   * `borderWidth` uniform alone, which there keeps the object's value.
   */
  lemma ShadowCloneUniforms(o: RenderObject, layer: ShadowLayer, w: int, h: int)
    requires ShapeReady(o)
    ensures var c := ShadowClone(o, layer, w, h); var a := ShadowCloneAsWritten(o, layer, w, h);
      a.uniforms.Keys == o.uniforms.Keys + {"quadSize"} &&
      ("borderWidth" in o.uniforms ==> a.uniforms["borderWidth"] == o.uniforms["borderWidth"]) &&
      c.uniforms.Keys == a.uniforms.Keys + {"borderWidth"} &&
      (forall k :: k in a.uniforms && k != "borderWidth" ==> c.uniforms[k] == a.uniforms[k]) &&
      c.(uniforms := a.uniforms) == a
    ensures var c := ShadowClone(o, layer, w, h); var s := layer.spread;
      c.uniforms.Keys == o.uniforms.Keys + {"quadSize", "borderWidth"} &&
      c.uniforms["quadSize"] == Vec2Uniform(Vec2(c.bounds.w, c.bounds.h)) &&
      c.uniforms["borderWidth"] == FloatUniform(c.borderWidth) &&
      (o.kind == RoundedRect ==>
        HasFloats(c.uniforms["shapeSize"], 2) && HasFloats(c.uniforms["cornerRadius"], 1) &&
        AsVec2(c.uniforms["shapeSize"]) ==
          Vec2(AsVec2(o.uniforms["shapeSize"]).x + 2.0 * s, AsVec2(o.uniforms["shapeSize"]).y + 2.0 * s) &&
        c.uniforms["cornerRadius"].data[0].f == o.uniforms["cornerRadius"].data[0].f + s) &&
      (o.kind == Circle ==>
        HasFloats(c.uniforms["shapeRadius"], 1) &&
        c.uniforms["shapeRadius"].data[0].f == o.uniforms["shapeRadius"].data[0].f + s) &&
      (forall k :: k in o.uniforms && k !in {"quadSize", "shapeSize", "cornerRadius", "shapeRadius", "borderWidth"} ==>
        c.uniforms[k] == o.uniforms[k]) &&
      ShapeReady(c)
  {
    assert "quadSize" != "shapeSize" && "quadSize" != "cornerRadius" && "quadSize" != "shapeRadius";
    assert "shapeSize" != "cornerRadius";
    assert "borderWidth" != "shapeSize" && "borderWidth" != "cornerRadius" && "borderWidth" != "shapeRadius";
    assert "borderWidth" != "quadSize";
  }

  // ---------------------------------------------------------------------
  // Blur groups
  // ---------------------------------------------------------------------

  /** A shadow copy and the blur radius of the layer it was made for. */
  datatype Shadow = Shadow(radius: real, obj: RenderObject)

  /** The copies for one object, one per layer, in layer order. */
  function LayerShadows(o: RenderObject, layers: seq<ShadowLayer>, w: int, h: int): (r: seq<Shadow>)
    requires ShapeReady(o)
    ensures |r| == |layers|
  {
    if layers == [] then []
    else
      var l := layers[|layers| - 1];
      LayerShadows(o, layers[..|layers| - 1], w, h) + [Shadow(l.blurRadius, ShadowClone(o, l, w, h))]
  }

  /** The kinds that cast shadows. */
  predicate ShapeKind(k: ObjectType)
  {
    k == Rect || k == RoundedRect || k == Circle
  }

  lemma {:induction false} LayerShadowsKeepKind(o: RenderObject, layers: seq<ShadowLayer>, w: int, h: int)
    requires ShapeReady(o)
    ensures forall j :: 0 <= j < |layers| ==> LayerShadows(o, layers, w, h)[j].obj.kind == o.kind
  {
    if layers != [] {
      LayerShadowsKeepKind(o, layers[..|layers| - 1], w, h);
    }
  }

  /** Every copy the walk makes is a rectangle, rounded rectangle or circle. */
  lemma {:induction false} ShadowsAreShapes(objs: seq<RenderObject>, presets: map<int, seq<ShadowLayer>>, w: int, h: int, n: nat)
    requires n <= |objs| && CastersReady(objs, presets)
    ensures forall j :: 0 <= j < |ShadowsUpTo(objs, presets, w, h, n)| ==>
      ShapeKind(ShadowsUpTo(objs, presets, w, h, n)[j].obj.kind)
  {
    if n > 0 {
      ShadowsAreShapes(objs, presets, w, h, n - 1);
      var o := objs[n - 1];
      var before := ShadowsUpTo(objs, presets, w, h, n - 1);
      var mine := ObjectShadows(o, presets, w, h);
      if CastsShadow(o, presets) {
        LayerShadowsKeepKind(o, presets[o.elevation], w, h);
      }
      var s := ShadowsUpTo(objs, presets, w, h, n);
      assert s == before + mine;
      forall j | 0 <= j < |s| ensures ShapeKind(s[j].obj.kind) {
        if j >= |before| {
          assert CastsShadow(o, presets) && mine == LayerShadows(o, presets[o.elevation], w, h);
          assert s[j] == mine[j - |before|];
          assert s[j].obj.kind == o.kind;
        } else {
          assert s[j] == before[j];
        }
      }
    }
  }

  /** A group holds only copies, so it holds only shapes when every copy is one. */
  lemma {:induction false} GroupOfShapes(shadows: seq<Shadow>, r: real)
    requires forall j :: 0 <= j < |shadows| ==> ShapeKind(shadows[j].obj.kind)
    ensures forall j :: 0 <= j < |WithRadius(shadows, r)| ==> ShapeKind(WithRadius(shadows, r)[j].kind)
  {
    if shadows != [] {
      var rest := shadows[..|shadows| - 1];
      forall j | 0 <= j < |rest| ensures ShapeKind(rest[j].obj.kind) {
        assert rest[j] == shadows[j];
      }
      GroupOfShapes(rest, r);
      var g := WithRadius(shadows, r);
      var g0 := WithRadius(rest, r);
      var last := shadows[|shadows| - 1];
      assert g == g0 + (if last.radius == r then [last.obj] else []);
      assert ShapeKind(last.obj.kind);
      forall j | 0 <= j < |g| ensures ShapeKind(g[j].kind) {
        if j < |g0| {
          assert g[j] == g0[j];
        } else {
          assert g[j] == last.obj;
        }
      }
    }
  }

  /** Every object that casts a shadow has its shape uniforms. */
  predicate CastersReady(objs: seq<RenderObject>, presets: map<int, seq<ShadowLayer>>)
  {
    forall i :: 0 <= i < |objs| && CastsShadow(objs[i], presets) ==> ShapeReady(objs[i])
  }

  /** The copies for one object: none unless it casts a shadow. */
  function ObjectShadows(o: RenderObject, presets: map<int, seq<ShadowLayer>>, w: int, h: int): seq<Shadow>
    requires CastsShadow(o, presets) ==> ShapeReady(o)
  {
    if CastsShadow(o, presets) then LayerShadows(o, presets[o.elevation], w, h) else []
  }

  /** The copies of the first n objects, in the order the render walk makes them. */
  function ShadowsUpTo(objs: seq<RenderObject>, presets: map<int, seq<ShadowLayer>>, w: int, h: int, n: nat): seq<Shadow>
    requires n <= |objs| && CastersReady(objs, presets)
  {
    if n == 0 then []
    else ShadowsUpTo(objs, presets, w, h, n - 1) + ObjectShadows(objs[n - 1], presets, w, h)
  }

  /** The blur radii that occur. */
  function Radii(shadows: seq<Shadow>): set<real>
  {
    set j | 0 <= j < |shadows| :: shadows[j].radius
  }

  /** The copies with blur radius r, in the order they were made. */
  function WithRadius(shadows: seq<Shadow>, r: real): seq<RenderObject>
  {
    if shadows == [] then []
    else
      var last := shadows[|shadows| - 1];
      WithRadius(shadows[..|shadows| - 1], r) + (if last.radius == r then [last.obj] else [])
  }

  /**
   * `blurGroups`, a `std::map` from blur radius to copies: one entry per
   * radius that occurs, holding that radius's copies in the order made.
   */
  predicate GroupedBy(groups: map<real, seq<RenderObject>>, shadows: seq<Shadow>)
  {
    groups.Keys == Radii(shadows) &&
    forall r :: r in groups ==> groups[r] == WithRadius(shadows, r)
  }

  /** `blurGroups[radius].push_back(copy)`: the entry is created empty when missing. */
  function AddToGroup(groups: map<real, seq<RenderObject>>, s: Shadow): (g: map<real, seq<RenderObject>>)
  {
    groups[s.radius := (if s.radius in groups then groups[s.radius] else []) + [s.obj]]
  }

  lemma {:induction false} NoCopiesWithAbsentRadius(shadows: seq<Shadow>, r: real)
    requires r !in Radii(shadows)
    ensures WithRadius(shadows, r) == []
  {
    if shadows != [] {
      var init := shadows[..|shadows| - 1];
      assert Radii(init) <= Radii(shadows) by {
        forall q | q in Radii(init) ensures q in Radii(shadows) {
          var j :| 0 <= j < |init| && init[j].radius == q;
          assert shadows[j].radius == q;
        }
      }
      assert shadows[|shadows| - 1].radius in Radii(shadows);
      NoCopiesWithAbsentRadius(init, r);
    }
  }

  /** Pushing a copy into its radius's entry keeps the map grouping every copy made so far. */
  lemma AddToGroupKeepsGrouping(groups: map<real, seq<RenderObject>>, shadows: seq<Shadow>, s: Shadow)
    requires GroupedBy(groups, shadows)
    ensures GroupedBy(AddToGroup(groups, s), shadows + [s])
  {
    var all := shadows + [s];
    assert all[..|all| - 1] == shadows;
    assert Radii(all) == Radii(shadows) + {s.radius} by {
      forall q | q in Radii(all) ensures q in Radii(shadows) + {s.radius} {
        var j :| 0 <= j < |all| && all[j].radius == q;
        if j < |shadows| {
          assert shadows[j].radius == q;
        }
      }
      forall q | q in Radii(shadows) ensures q in Radii(all) {
        var j :| 0 <= j < |shadows| && shadows[j].radius == q;
        assert all[j].radius == q;
      }
      assert all[|shadows|].radius == s.radius;
    }
    if s.radius !in groups {
      NoCopiesWithAbsentRadius(shadows, s.radius);
    }
  }

  /**
   * The shadow walk of `DuckerNative_Render`: every object that casts a
   * shadow contributes one copy per layer of its preset, each pushed into
   * the entry of its layer's blur radius.
   */
  method CollectShadows(objs: seq<RenderObject>, presets: map<int, seq<ShadowLayer>>, w: int, h: int)
    returns (groups: map<real, seq<RenderObject>>)
    requires CastersReady(objs, presets)
    ensures GroupedBy(groups, ShadowsUpTo(objs, presets, w, h, |objs|))
  {
    groups := map[];
    var i := 0;
    while i < |objs|
      invariant 0 <= i <= |objs|
      invariant GroupedBy(groups, ShadowsUpTo(objs, presets, w, h, i))
    {
      var obj := objs[i];
      if obj.elevation <= 0 || !obj.visible || (obj.kind != RoundedRect && obj.kind != Circle && obj.kind != Rect) {
        assert !CastsShadow(obj, presets);
        assert ShadowsUpTo(objs, presets, w, h, i + 1) == ShadowsUpTo(objs, presets, w, h, i) + [];
        assert ShadowsUpTo(objs, presets, w, h, i) + [] == ShadowsUpTo(objs, presets, w, h, i);
        i := i + 1;
        continue;
      }
      if obj.elevation !in presets {
        assert !CastsShadow(obj, presets);
        assert ShadowsUpTo(objs, presets, w, h, i + 1) == ShadowsUpTo(objs, presets, w, h, i) + [];
        assert ShadowsUpTo(objs, presets, w, h, i) + [] == ShadowsUpTo(objs, presets, w, h, i);
        i := i + 1;
        continue;
      }
      assert CastsShadow(obj, presets);
      groups := AddLayerShadows(groups, ShadowsUpTo(objs, presets, w, h, i), obj, presets[obj.elevation], w, h);
      assert ShadowsUpTo(objs, presets, w, h, i + 1) ==
        ShadowsUpTo(objs, presets, w, h, i) + LayerShadows(obj, presets[obj.elevation], w, h);
      i := i + 1;
    }
  }

  lemma LayerShadowsStep(made: seq<Shadow>, o: RenderObject, layers: seq<ShadowLayer>, j: nat, w: int, h: int)
    requires ShapeReady(o) && j < |layers|
    ensures made + LayerShadows(o, layers[..j + 1], w, h) ==
      made + LayerShadows(o, layers[..j], w, h) + [Shadow(layers[j].blurRadius, ShadowClone(o, layers[j], w, h))]
  {
    assert layers[..j + 1][..j] == layers[..j];
  }

  /** The copies of one object, layer by layer. */
  method AddLayerShadows(groups0: map<real, seq<RenderObject>>, ghost made: seq<Shadow>, o: RenderObject,
                         layers: seq<ShadowLayer>, w: int, h: int)
    returns (groups: map<real, seq<RenderObject>>)
    requires ShapeReady(o) && GroupedBy(groups0, made)
    ensures GroupedBy(groups, made + LayerShadows(o, layers, w, h))
  {
    groups := groups0;
    var j := 0;
    assert layers[..0] == [];
    assert made + LayerShadows(o, layers[..0], w, h) == made;
    while j < |layers|
      invariant 0 <= j <= |layers|
      invariant GroupedBy(groups, made + LayerShadows(o, layers[..j], w, h))
    {
      var layer := layers[j];
      var s := Shadow(layer.blurRadius, ShadowClone(o, layer, w, h));
      AddToGroupKeepsGrouping(groups, made + LayerShadows(o, layers[..j], w, h), s);
      groups := AddToGroup(groups, s);
      LayerShadowsStep(made, o, layers, j, w, h);
      j := j + 1;
    }
    assert layers[..j] == layers;
  }

  /**
   * A visible rounded rectangle at elevation 1 yields three copies in two
   * groups: umbra and penumbra share blur radius 1, the ambient layer has 3.
   */
  lemma ElevationOneMakesTwoGroups(o: RenderObject, w: int, h: int)
    requires o.kind == RoundedRect && o.visible && o.elevation == 1 && ShapeReady(o)
    ensures var p := DefaultPresets(); var shadows := ShadowsUpTo([o], p, w, h, 1);
      |shadows| == 3 && Radii(shadows) == {1.0, 3.0} &&
      WithRadius(shadows, 1.0) == [ShadowClone(o, p[1][0], w, h), ShadowClone(o, p[1][1], w, h)] &&
      WithRadius(shadows, 3.0) == [ShadowClone(o, p[1][2], w, h)]
  {
    var p := DefaultPresets();
    var layers := p[1];
    var c0, c1, c2 := ShadowClone(o, layers[0], w, h), ShadowClone(o, layers[1], w, h), ShadowClone(o, layers[2], w, h);
    assert layers[..2][..1] == [layers[0]];
    assert layers[..2] == [layers[0], layers[1]];
    assert LayerShadows(o, [layers[0]], w, h) == [Shadow(1.0, c0)];
    assert LayerShadows(o, layers[..2], w, h) == [Shadow(1.0, c0), Shadow(1.0, c1)];
    var shadows := [Shadow(1.0, c0), Shadow(1.0, c1), Shadow(3.0, c2)];
    assert ShadowsUpTo([o], p, w, h, 1) == shadows;
    assert shadows[..2] == [Shadow(1.0, c0), Shadow(1.0, c1)];
    assert shadows[..2][..1] == shadows[..1];
    assert WithRadius(shadows[..1], 1.0) == [c0] && WithRadius(shadows[..1], 3.0) == [] by {
      assert shadows[..1][..0] == [];
    }
    assert WithRadius(shadows[..2], 1.0) == [c0, c1] && WithRadius(shadows[..2], 3.0) == [];
    assert WithRadius(shadows, 1.0) == [c0, c1] && WithRadius(shadows, 3.0) == [c2];
    assert Radii(shadows) == {1.0, 3.0} by {
      assert shadows[0].radius == 1.0 && shadows[2].radius == 3.0;
    }
  }

  // ---------------------------------------------------------------------
  // Iteration order of the map
  // ---------------------------------------------------------------------

  predicate StrictlyAscending(s: seq<real>)
  {
    forall i, j :: 0 <= i < j < |s| ==> s[i] < s[j]
  }

  /** Some element of a non-empty set. */
  lemma Member(s: set<real>) returns (x: real)
    requires s != {}
    ensures x in s
  {
    if forall y :: y !in s {
      assert false;
    }
    x :| x in s;
  }

  lemma {:induction false} HasLeast(s: set<real>)
    requires s != {}
    ensures exists r :: r in s && forall q :: q in s ==> r <= q
    decreases |s|
  {
    var x := Member(s);
    if s != {x} {
      HasLeast(s - {x});
      var r :| r in s - {x} && forall q :: q in s - {x} ==> r <= q;
      if x < r {
        forall q | q in s ensures x <= q {
          if q != x {
            assert q in s - {x};
          }
        }
      } else {
        forall q | q in s ensures r <= q {
          if q != x {
            assert q in s - {x};
          }
        }
      }
    } else {
      assert forall q :: q in s ==> x <= q;
    }
  }

  /**
   * The order a `std::map` walk visits the blur radii in: every key once,
   * smallest first, so softer shadows are composited over sharper ones.
   */
  method AscendingRadii(groups: map<real, seq<RenderObject>>) returns (radii: seq<real>)
    ensures StrictlyAscending(radii)
    ensures forall r :: r in radii <==> r in groups
  {
    radii := [];
    var rest := groups.Keys;
    while rest != {}
      invariant rest <= groups.Keys
      invariant StrictlyAscending(radii)
      invariant forall r :: r in radii <==> r in groups && r !in rest
      invariant forall i, q :: 0 <= i < |radii| && q in rest ==> radii[i] < q
      decreases |rest|
    {
      HasLeast(rest);
      var r :| r in rest && forall q :: q in rest ==> r <= q;
      radii := radii + [r];
      rest := rest - {r};
    }
  }

  // ---------------------------------------------------------------------
  // The blur kernel
  // ---------------------------------------------------------------------

  /** `static_cast<int>` of a positive float: truncation, which is the floor. */
  function HalfKernel(blurRadius: real): (k: int)
    requires blurRadius > 0.0
    ensures 1 <= k <= 15
    ensures 1.0 <= blurRadius < 16.0 ==> k == blurRadius.Floor
    ensures blurRadius < 2.0 ==> k == 1
    ensures blurRadius >= 15.0 ==> k == 15
  {
    var sigma := blurRadius / 3.0;
    var t := (sigma * 3.0).Floor;
    if t > 15 then 15 else if t < 1 then 1 else t
  }

  const TwoPi: real := 2.0 * 3.1415926535

  /** The unnormalised weight of tap i: the normal density at i for sigma = radius / 3. */
  function RawWeight(blurRadius: real, m: Maths, i: nat): real
    requires blurRadius > 0.0
  {
    var sigma := blurRadius / 3.0;
    var x := i as real;
    var denominator := m.sqrt(TwoPi) * sigma;
    if denominator == 0.0 then 0.0 else m.exp(-x * x / (2.0 * sigma * sigma)) / denominator
  }

  /** Tap 0 counts once and every other tap twice, once on each side. */
  function Mirrored(weights: seq<real>, n: nat): real
    requires n <= |weights|
  {
    if n == 0 then 0.0
    else Mirrored(weights, n - 1) + (if n - 1 == 0 then weights[n - 1] else 2.0 * weights[n - 1])
  }

  /** The weights of taps 0 .. n-1 before normalisation. */
  function RawWeights(blurRadius: real, m: Maths, n: nat): seq<real>
    requires blurRadius > 0.0
  {
    seq(n, i requires 0 <= i => RawWeight(blurRadius, m, i))
  }

  lemma RawWeightsPositive(blurRadius: real, m: Maths, n: nat)
    requires blurRadius > 0.0 && ExpPositive(m) && SqrtSound(m)
    ensures forall k :: 0 <= k < n ==> RawWeights(blurRadius, m, n)[k] > 0.0
  {
    forall k | 0 <= k < n ensures RawWeights(blurRadius, m, n)[k] > 0.0 {
      RawWeightPositive(blurRadius, m, k);
    }
  }

  lemma RawWeightPositive(blurRadius: real, m: Maths, i: nat)
    requires blurRadius > 0.0 && ExpPositive(m) && SqrtSound(m)
    ensures RawWeight(blurRadius, m, i) > 0.0
  {
    var sigma := blurRadius / 3.0;
    var root := m.sqrt(TwoPi);
    assert root >= 0.0 && root * root == TwoPi;
    assert root > 0.0;
    var denominator := root * sigma;
    assert denominator > 0.0;
    var x := i as real;
    var e := m.exp(-x * x / (2.0 * sigma * sigma));
    assert e > 0.0;
    assert e / denominator > 0.0;
  }

  lemma {:induction false} MirroredPositive(ws: seq<real>, n: nat)
    requires 0 < n <= |ws| && forall i :: 0 <= i < |ws| ==> ws[i] > 0.0
    ensures Mirrored(ws, n) > 0.0
  {
    if n > 1 {
      MirroredPositive(ws, n - 1);
    }
  }

  lemma DivisionDistributes(a: real, b: real, c: real)
    requires c != 0.0
    ensures a / c + b / c == (a + b) / c
  {
  }

  lemma QuotientPositive(x: real, c: real)
    requires x > 0.0 && c > 0.0
    ensures x / c > 0.0 && x / c * c == x
  {
  }

  /** Dividing every weight by c divides the mirrored total by c. */
  lemma {:induction false} MirroredScaled(ws: seq<real>, vs: seq<real>, c: real, n: nat)
    requires c != 0.0 && |vs| == |ws| && n <= |ws|
    requires forall i :: 0 <= i < |ws| ==> vs[i] == ws[i] / c
    ensures Mirrored(vs, n) == Mirrored(ws, n) / c
  {
    if n > 0 {
      MirroredScaled(ws, vs, c, n - 1);
      var t := if n - 1 == 0 then ws[n - 1] else 2.0 * ws[n - 1];
      assert (if n - 1 == 0 then vs[n - 1] else 2.0 * vs[n - 1]) == t / c;
      DivisionDistributes(Mirrored(ws, n - 1), t, c);
    }
  }

  /** Every tap divided by the mirrored total (left as it is when the total is 0). */
  function Normalised(raw: seq<real>): (ws: seq<real>)
    ensures |ws| == |raw|
  {
    var total := Mirrored(raw, |raw|);
    if total == 0.0 then raw else seq(|raw|, k requires 0 <= k < |raw| => raw[k] / total)
  }

  /**
   * The kernel of `ApplyGaussianBlurAndComposite` for a positive radius:
   * `halfKernel + 1` taps, the normal density at each tap divided by the
   * mirrored total of the density taps.
   */
  method GaussianWeights(blurRadius: real, m: Maths) returns (weights: seq<real>)
    requires blurRadius > 0.0 && ExpPositive(m) && SqrtSound(m)
    ensures |weights| == HalfKernel(blurRadius) + 1
    ensures weights == Normalised(RawWeights(blurRadius, m, |weights|))
  {
    var n := HalfKernel(blurRadius) + 1;
    var a := new real[n];
    var sum := FillTaps(a, (i: nat) => RawWeight(blurRadius, m, i));
    ghost var raw := a[..];
    assert raw == RawWeights(blurRadius, m, n);
    RawWeightsPositive(blurRadius, m, n);
    MirroredPositive(raw, n);
    Normalise(a, sum);
    weights := a[..];
    assert weights == Normalised(raw);
  }

  /**
   * For positive taps the normalised kernel sums to 1 when mirrored, keeps
   * every tap positive and keeps each tap proportional to its raw weight.
   */
  lemma NormalisedKernel(raw: seq<real>)
    requires |raw| > 0 && forall k :: 0 <= k < |raw| ==> raw[k] > 0.0
    ensures var ws := Normalised(raw);
      Mirrored(ws, |ws|) == 1.0 &&
      forall k :: 0 <= k < |ws| ==> ws[k] > 0.0 && ws[k] * Mirrored(raw, |raw|) == raw[k]
  {
    var sum := Mirrored(raw, |raw|);
    var weights := Normalised(raw);
    MirroredPositive(raw, |raw|);
    MirroredScaled(raw, weights, sum, |raw|);
    QuotientPositive(sum, sum);
    forall k | 0 <= k < |raw| ensures weights[k] > 0.0 && weights[k] * sum == raw[k] {
      QuotientPositive(raw[k], sum);
    }
  }

  /** The kernel the blur uses sums to 1 over its mirrored taps, and every tap is positive. */
  lemma GaussianKernelNormalised(blurRadius: real, m: Maths, n: nat)
    requires blurRadius > 0.0 && ExpPositive(m) && SqrtSound(m) && n > 0
    ensures var ws := Normalised(RawWeights(blurRadius, m, n));
      Mirrored(ws, n) == 1.0 && forall k :: 0 <= k < n ==> ws[k] > 0.0
  {
    RawWeightsPositive(blurRadius, m, n);
    NormalisedKernel(RawWeights(blurRadius, m, n));
  }

  /** The first loop: each tap's weight, and their mirrored total. */
  method FillTaps(a: array<real>, density: nat -> real) returns (sum: real)
    modifies a
    ensures forall k :: 0 <= k < a.Length ==> a[k] == density(k)
    ensures sum == Mirrored(a[..], a.Length)
  {
    sum := 0.0;
    var i := 0;
    while i < a.Length
      invariant 0 <= i <= a.Length
      invariant forall k :: 0 <= k < i ==> a[k] == density(k)
      invariant sum == Mirrored(a[..], i)
    {
      var w := density(i);
      ghost var before := a[..];
      a[i] := w;
      assert a[..][..i] == before[..i];
      MirroredPrefix(a[..], before, i);
      sum := sum + (if i == 0 then w else 2.0 * w);
      i := i + 1;
    }
  }

  /** The mirrored total of the first n taps reads only those taps. */
  lemma {:induction false} MirroredPrefix(ws: seq<real>, vs: seq<real>, n: nat)
    requires n <= |ws| && n <= |vs| && ws[..n] == vs[..n]
    ensures Mirrored(ws, n) == Mirrored(vs, n)
  {
    if n > 0 {
      assert ws[..n - 1] == vs[..n - 1] by {
        assert ws[..n - 1] == ws[..n][..n - 1] && vs[..n - 1] == vs[..n][..n - 1];
      }
      assert ws[n - 1] == ws[..n][n - 1] && vs[n - 1] == vs[..n][n - 1];
      MirroredPrefix(ws, vs, n - 1);
    }
  }

  /** The second loop: every tap divided by the total. */
  method Normalise(a: array<real>, sum: real)
    requires sum != 0.0
    modifies a
    ensures forall k :: 0 <= k < a.Length ==> a[k] == old(a[k]) / sum
  {
    var j := 0;
    while j < a.Length
      invariant 0 <= j <= a.Length
      invariant forall k :: 0 <= k < j ==> a[k] == old(a[k]) / sum
      invariant forall k :: j <= k < a.Length ==> a[k] == old(a[k])
    {
      a[j] := a[j] / sum;
      j := j + 1;
    }
  }

  /** What one blur group is composited with. */
  datatype BlurPass =
    | Composite                                  // radius <= 0: the shadow buffer is copied as is
    | Separable(halfKernel: int, weights: seq<real>)  // horizontal then vertical Gaussian pass

  /**
   * The pass for a radius: a plain copy when the radius is not positive,
   * otherwise a separable blur with `HalfKernel` taps on each side and the
   * normalised density weights.
   */
  predicate BlurPlanned(blurRadius: real, m: Maths, pass: BlurPass)
  {
    (blurRadius <= 0.0 <==> pass.Composite?) &&
    (pass.Separable? ==>
      pass.halfKernel == HalfKernel(blurRadius) &&
      pass.weights == Normalised(RawWeights(blurRadius, m, pass.halfKernel + 1)))
  }

  /** `ApplyGaussianBlurAndComposite` without its GL calls: the pass it runs for a radius. */
  method PlanBlur(blurRadius: real, m: Maths) returns (pass: BlurPass)
    requires ExpPositive(m) && SqrtSound(m)
    ensures BlurPlanned(blurRadius, m, pass)
  {
    if blurRadius <= 0.0 {
      return Composite;
    }
    var weights := GaussianWeights(blurRadius, m);
    pass := Separable(HalfKernel(blurRadius), weights);
  }
}
