/**
 * The per-object uniform upload of `RenderObjects`: the values a shader
 * program holds for each uniform name when an object is drawn. The fixed
 * uniforms are set from the object's fields first; then every entry of the
 * object's own uniform map is set, so for a name in both the map wins.
 * Whether a program declares a name (the `loc != -1` test) is not part of
 * this model: a name is uploaded whether or not a shader reads it.
 */
module Upload {
  import opened Types
  import Shadows
  import Renderer

  /** The uniforms set from the object's fields, before its map. */
  function FieldUniforms(o: RenderObject): map<string, UniformValue>
  {
    var base := map["objectTexture" := IntUniform(0),
                    "useTexture" := IntUniform(if o.textureId != 0 then 1 else 0),
                    "objectColor" := Vec4Uniform(o.color),
                    "quadSize" := Vec2Uniform(Vec2(o.bounds.w, o.bounds.h)),
                    "borderWidth" := FloatUniform(o.borderWidth),
                    "borderColor" := Vec4Uniform(o.borderColor)];
    if o.kind == Line then base["lineWidth" := FloatUniform(o.lineWidth)] else base
  }

  /**
   * What the program holds after the object's uniforms are set: every name
   * set from a field or from the map; the map's value where it has one, the
   * field's value everywhere else.
   */
  function UploadedUniforms(o: RenderObject): map<string, UniformValue>
  {
    FieldUniforms(o) + o.uniforms
  }

  /**
   * While the border uniforms mirror the border fields, which every builder
   * and `SetObjectBorder` keep so, the map's copies agree with what the
   * fields would upload: the border drawn is the object's own.
   */
  lemma SyncedBorderUploadsFields(o: RenderObject)
    requires Renderer.BorderInSync(o)
    ensures UploadedUniforms(o)["borderWidth"] == FieldUniforms(o)["borderWidth"] == FloatUniform(o.borderWidth)
    ensures UploadedUniforms(o)["borderColor"] == FieldUniforms(o)["borderColor"] == Vec4Uniform(o.borderColor)
  {
  }

  /**
   * A new rounded rectangle uploads its own size as `quadSize`, its colour,
   * no texture flag unless it has a texture, and its border.
   */
  lemma RoundedRectUploads(bounds: RectF, shapeSize: Vec2, color: Vec4, cornerRadius: real, blur: real,
                           inset: bool, zIndex: int, textureId: nat, uvRect: RectF,
                           borderWidth: real, borderColor: Vec4)
    ensures var o := Renderer.RoundedRectObject(bounds, shapeSize, color, cornerRadius, blur, inset, zIndex,
                                                textureId, uvRect, borderWidth, borderColor);
      var u := UploadedUniforms(o);
      u["quadSize"] == Vec2Uniform(Vec2(bounds.w, bounds.h)) && u["objectColor"] == Vec4Uniform(color) &&
      u["useTexture"] == IntUniform(if textureId != 0 then 1 else 0) &&
      u["borderWidth"] == FloatUniform(borderWidth) && u["borderColor"] == Vec4Uniform(borderColor) &&
      u["shapeSize"] == Vec2Uniform(shapeSize) && u["cornerRadius"] == FloatUniform(cornerRadius) &&
      "lineWidth" !in u
  {
    var o := Renderer.RoundedRectObject(bounds, shapeSize, color, cornerRadius, blur, inset, zIndex,
                                        textureId, uvRect, borderWidth, borderColor);
    Renderer.RoundedRectObjectIsDrawable(bounds, shapeSize, color, cornerRadius, blur, inset, zIndex,
                                         textureId, uvRect, borderWidth, borderColor);
    assert "objectColor" !in o.uniforms && "useTexture" !in o.uniforms;
  }

  /** A new line uploads its width, its colour and no texture: it has no uniform map to override them. */
  lemma LineUploads(start: Vec2, end: Vec2, color: Vec4, width: real, mode: LineMode, controls: seq<Vec2>, zIndex: int)
    ensures var u := UploadedUniforms(Renderer.LineObject(start, end, color, width, mode, controls, zIndex));
      u["lineWidth"] == FloatUniform(width) && u["objectColor"] == Vec4Uniform(color) &&
      u["useTexture"] == IntUniform(0) && u["borderWidth"] == FloatUniform(0.0)
  {
  }

  /**
   * The shadow copy as the render loop builds it: its border field is 0,
   * but a bordered shape still uploads its border width and colour from its
   * map, so the shader's border branch draws a ring in the border colour
   * into the shadow buffer instead of the black, layer-opacity shape.
   */
  lemma AsWrittenShadowKeepsBorder(o: RenderObject, layer: Shadows.ShadowLayer, w: int, h: int)
    requires Shadows.ShapeReady(o) && Renderer.BorderInSync(o) && o.borderWidth > 0.0
    ensures var c := Shadows.ShadowCloneAsWritten(o, layer, w, h); var u := UploadedUniforms(c);
      c.borderWidth == 0.0 && u["borderWidth"] == FloatUniform(o.borderWidth) && u["borderWidth"].data[0].f > 0.0 &&
      u["borderColor"] == Vec4Uniform(o.borderColor)
  {
    var c := Shadows.ShadowCloneAsWritten(o, layer, w, h);
    assert "borderWidth" != "quadSize" && "borderWidth" != "shapeSize" && "borderWidth" != "cornerRadius";
    assert "borderWidth" != "shapeRadius";
    assert "borderColor" != "quadSize" && "borderColor" != "shapeSize" && "borderColor" != "cornerRadius";
    assert "borderColor" != "shapeRadius";
    assert c.uniforms["borderWidth"] == o.uniforms["borderWidth"];
    assert c.uniforms["borderColor"] == o.uniforms["borderColor"];
  }

  /**
   * A bordered rounded rectangle at elevation 1 casts a shadow under the
   * default presets. The umbra copy the render loop makes of it uploads the
   * object's border width, the corrected copy uploads 0, and the corrected
   * copy is the first one grouped under blur radius 1.
   */
  lemma ElevatedBorderedShadow(o: RenderObject, w: int, h: int)
    requires o.kind == RoundedRect && o.visible && o.elevation == 1
    requires Shadows.ShapeReady(o) && Renderer.BorderInSync(o) && o.borderWidth > 0.0
    ensures var p := Shadows.DefaultPresets(); var layer := p[1][0];
      Shadows.CastsShadow(o, p) && Shadows.CastersReady([o], p) &&
      UploadedUniforms(Shadows.ShadowCloneAsWritten(o, layer, w, h))["borderWidth"] == FloatUniform(o.borderWidth) &&
      UploadedUniforms(Shadows.ShadowClone(o, layer, w, h))["borderWidth"] == FloatUniform(0.0) &&
      var group := Shadows.WithRadius(Shadows.ShadowsUpTo([o], p, w, h, 1), 1.0);
      |group| == 2 && group[0] == Shadows.ShadowClone(o, layer, w, h)
  {
    var p := Shadows.DefaultPresets();
    var layer := p[1][0];
    AsWrittenShadowKeepsBorder(o, layer, w, h);
    ShadowHasNoBorder(o, layer, w, h);
    Shadows.ElevationOneMakesTwoGroups(o, w, h);
  }

  /**
   * The previous lemma's input occurs: a rounded rectangle built with border
   * width 1 and then raised to elevation 1.
   */
  lemma BorderedShadowOccurs(w: int, h: int)
    ensures var o := Renderer.RoundedRectObject(RectF(0.0, 0.0, 10.0, 10.0), Vec2(10.0, 10.0), Vec4(1.0, 1.0, 1.0, 1.0),
                                                2.0, 0.0, false, 0, 0, RectF(0.0, 0.0, 1.0, 1.0),
                                                1.0, Vec4(1.0, 0.0, 0.0, 1.0)).(elevation := 1);
      o.kind == RoundedRect && o.visible && o.elevation == 1 &&
      Shadows.ShapeReady(o) && Renderer.BorderInSync(o) && o.borderWidth == 1.0
  {
    Renderer.RoundedRectObjectIsDrawable(RectF(0.0, 0.0, 10.0, 10.0), Vec2(10.0, 10.0), Vec4(1.0, 1.0, 1.0, 1.0),
                                         2.0, 0.0, false, 0, 0, RectF(0.0, 0.0, 1.0, 1.0),
                                         1.0, Vec4(1.0, 0.0, 0.0, 1.0));
  }

  /**
   * The corrected shadow copy uploads a zero border width whatever the
   * object carried, so the shader draws the plain shape; its `quadSize` is
   * its own grown size; and unless the object's map overrides them, it is
   * drawn untextured in black at the layer's opacity.
   */
  lemma ShadowHasNoBorder(o: RenderObject, layer: Shadows.ShadowLayer, w: int, h: int)
    requires Shadows.ShapeReady(o)
    ensures var c := Shadows.ShadowClone(o, layer, w, h); var u := UploadedUniforms(c);
      u["borderWidth"] == FloatUniform(0.0) &&
      u["quadSize"] == Vec2Uniform(Vec2(c.bounds.w, c.bounds.h)) &&
      ("objectColor" !in o.uniforms ==> u["objectColor"] == Vec4Uniform(Vec4(0.0, 0.0, 0.0, layer.opacity))) &&
      ("useTexture" !in o.uniforms ==> u["useTexture"] == IntUniform(0))
  {
    var c := Shadows.ShadowClone(o, layer, w, h);
    Shadows.ShadowCloneUniforms(o, layer, w, h);
    Shadows.ShadowCloneGeometry(o, layer, w, h);
    assert "objectColor" !in o.uniforms ==> "objectColor" !in c.uniforms;
    assert "useTexture" !in o.uniforms ==> "useTexture" !in c.uniforms;
  }
}
