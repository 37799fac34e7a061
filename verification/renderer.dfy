/**
 * `RendererState` and the `DuckerNative_*` entry points that change it. The
 * global `state` pointer becomes an explicit object whose `live` flag is
 * `state != nullptr`; GL handles, fonts and textures are not part of it.
 * Shader programs are represented by the program handle the compiler gave
 * (0 for a failed compile), which is all the batching reads of them.
 */
module Renderer {
  import opened Wrappers
  import opened Types
  import opened ObjectStore
  import Geometry
  import Matrices
  import Clip
  import DrawOrder
  import Batching
  import Shadows

  // ---------------------------------------------------------------------
  // The objects the `Add*` entry points build
  // ---------------------------------------------------------------------

  /** The border uniforms mirror the border fields, as every builder and `SetObjectBorder` leave them. */
  predicate BorderInSync(o: RenderObject)
  {
    "borderWidth" in o.uniforms && o.uniforms["borderWidth"] == FloatUniform(o.borderWidth) &&
    "borderColor" in o.uniforms && o.uniforms["borderColor"] == Vec4Uniform(o.borderColor)
  }

  function WithBorder(u: map<string, UniformValue>, borderWidth: real, borderColor: Vec4): map<string, UniformValue>
  {
    u["borderWidth" := FloatUniform(borderWidth)]["borderColor" := Vec4Uniform(borderColor)]
  }

  /** `DuckerNative_AddRect` before the object is stored. */
  function RectObject(bounds: RectF, color: Vec4, zIndex: int, textureId: nat, uvRect: RectF,
                      borderWidth: real, borderColor: Vec4): RenderObject
  {
    DefaultObject(Rect).(bounds := bounds, color := color, zIndex := zIndex, textureId := textureId,
      uvRect := uvRect, borderWidth := borderWidth, borderColor := borderColor,
      rotation := 0.0, rotationOrigin := Vec2(0.5, 0.5),
      uniforms := WithBorder(map[], borderWidth, borderColor))
  }

  /** `DuckerNative_AddRoundedRect` before the object is stored. */
  function RoundedRectObject(bounds: RectF, shapeSize: Vec2, color: Vec4, cornerRadius: real, blur: real,
                             inset: bool, zIndex: int, textureId: nat, uvRect: RectF,
                             borderWidth: real, borderColor: Vec4): RenderObject
  {
    var u := map["quadSize" := Vec2Uniform(Vec2(bounds.w, bounds.h)), "shapeSize" := Vec2Uniform(shapeSize),
                 "cornerRadius" := FloatUniform(cornerRadius), "blur" := FloatUniform(blur),
                 "inset" := IntUniform(if inset then 1 else 0)];
    DefaultObject(RoundedRect).(bounds := bounds, color := color, zIndex := zIndex, textureId := textureId,
      uvRect := uvRect, borderWidth := borderWidth, borderColor := borderColor,
      rotation := 0.0, rotationOrigin := Vec2(0.5, 0.5),
      uniforms := WithBorder(u, borderWidth, borderColor))
  }

  /** `DuckerNative_AddCircle` before the object is stored; the texture rectangle keeps its default. */
  function CircleObject(bounds: RectF, color: Vec4, radius: real, blur: real, inset: bool, zIndex: int,
                        textureId: nat, borderWidth: real, borderColor: Vec4): RenderObject
  {
    var u := map["shapeRadius" := FloatUniform(radius), "blur" := FloatUniform(blur),
                 "inset" := IntUniform(if inset then 1 else 0)];
    DefaultObject(Circle).(bounds := bounds, color := color, zIndex := zIndex, textureId := textureId,
      borderWidth := borderWidth, borderColor := borderColor,
      rotation := 0.0, rotationOrigin := Vec2(0.5, 0.5),
      uniforms := WithBorder(u, borderWidth, borderColor))
  }

  /** `DuckerNative_AddLine` before its triangle count and bounds are measured. */
  function LineObject(start: Vec2, end: Vec2, color: Vec4, width: real, mode: LineMode,
                      controls: seq<Vec2>, zIndex: int): RenderObject
  {
    DefaultObject(Line).(start := start, end := end, lineWidth := width, lineMode := mode, color := color,
      zIndex := zIndex, textureId := 0, controlPoints := controls,
      rotation := 0.0, rotationOrigin := Vec2(0.5, 0.5))
  }

  /**
   * A new rectangle is visible, flat, drawn by built-in program 1, and
   * carries border uniforms that match its border fields.
   */
  lemma RectObjectIsDrawable(bounds: RectF, color: Vec4, zIndex: int, textureId: nat, uvRect: RectF,
                             borderWidth: real, borderColor: Vec4)
    ensures var o := RectObject(bounds, color, zIndex, textureId, uvRect, borderWidth, borderColor);
      o.kind == Rect && o.visible && o.elevation == 0 && EffectiveShader(o) == 1 &&
      BorderInSync(o) && o.uniforms.Keys == {"borderWidth", "borderColor"} &&
      Shadows.ShapeReady(o) && Batching.VerticesDefined(o)
  {
  }

  /**
   * A new rounded rectangle is drawn by built-in program 2; its `quadSize`
   * uniform is its own size, its shape and corner uniforms hold the values
   * given, its border uniforms match its border fields, and its shadow
   * copies can be made.
   */
  lemma RoundedRectObjectIsDrawable(bounds: RectF, shapeSize: Vec2, color: Vec4, cornerRadius: real, blur: real,
                                    inset: bool, zIndex: int, textureId: nat, uvRect: RectF,
                                    borderWidth: real, borderColor: Vec4)
    ensures var o := RoundedRectObject(bounds, shapeSize, color, cornerRadius, blur, inset, zIndex, textureId,
                                       uvRect, borderWidth, borderColor);
      o.kind == RoundedRect && o.visible && EffectiveShader(o) == 2 && BorderInSync(o) &&
      Shadows.ShapeReady(o) && AsVec2(o.uniforms["quadSize"]) == Vec2(o.bounds.w, o.bounds.h) &&
      AsVec2(o.uniforms["shapeSize"]) == shapeSize && o.uniforms["cornerRadius"].data[0].f == cornerRadius &&
      o.uniforms.Keys == {"quadSize", "shapeSize", "cornerRadius", "blur", "inset", "borderWidth", "borderColor"}
  {
  }

  /** A new circle is drawn by built-in program 3, holds its radius, and its shadow copies can be made. */
  lemma CircleObjectIsDrawable(bounds: RectF, color: Vec4, radius: real, blur: real, inset: bool, zIndex: int,
                               textureId: nat, borderWidth: real, borderColor: Vec4)
    ensures var o := CircleObject(bounds, color, radius, blur, inset, zIndex, textureId, borderWidth, borderColor);
      o.kind == Circle && o.visible && EffectiveShader(o) == 3 && BorderInSync(o) &&
      Shadows.ShapeReady(o) && o.uniforms["shapeRadius"].data[0].f == radius &&
      o.uniforms.Keys == {"shapeRadius", "blur", "inset", "borderWidth", "borderColor"}
  {
  }

  /** A new line has no texture and no uniforms, is drawn by the line program, and runs start, controls, end. */
  lemma LineObjectIsDrawable(start: Vec2, end: Vec2, color: Vec4, width: real, mode: LineMode,
                             controls: seq<Vec2>, zIndex: int)
    ensures var o := LineObject(start, end, color, width, mode, controls, zIndex);
      o.kind == Line && o.visible && EffectiveShader(o) == LineShaderId && o.textureId == 0 &&
      o.uniforms == map[] && Geometry.LinePoints(o) == [start] + controls + [end]
  {
  }

  // ---------------------------------------------------------------------
  // Uniform setters
  // ---------------------------------------------------------------------

  /** The number of 4-byte lanes `SetObjectUniform` copies for a type. */
  function LaneCount(kind: UniformType): nat
  {
    match kind
    case UniformFloat => 1
    case UniformVec2 => 2
    case UniformVec3 => 3
    case UniformVec4 => 4
    case UniformInt => 1
  }

  /** The payload `SetObjectUniform` stores: exactly as many bytes as the type is wide, copied from the caller. */
  function StoredUniform(kind: UniformType, data: seq<Lane>): (u: UniformValue)
    requires |data| >= LaneCount(kind)
    ensures u.kind == kind && u.data <= data
    ensures kind == UniformFloat || kind == UniformInt ==> ByteSize(u) == 4
    ensures kind == UniformVec2 ==> ByteSize(u) == 8
    ensures kind == UniformVec3 ==> ByteSize(u) == 12
    ensures kind == UniformVec4 ==> ByteSize(u) == 16
  {
    UniformValue(kind, data[..LaneCount(kind)])
  }

  /** `SetObjectCornerRadius` on one object: rounded rectangles only. */
  function WithCornerRadius(o: RenderObject, radius: real): RenderObject
  {
    if o.kind == RoundedRect then o.(uniforms := o.uniforms["cornerRadius" := FloatUniform(radius)]) else o
  }

  /** `SetObjectBorder` on one object: the fields and their uniforms together. */
  function WithBorderOf(o: RenderObject, borderWidth: real, borderColor: Vec4): RenderObject
  {
    o.(borderWidth := borderWidth, borderColor := borderColor,
       uniforms := WithBorder(o.uniforms, borderWidth, borderColor))
  }

  /**
   * The corner setter changes nothing but a rounded rectangle's corner
   * uniform; the border setter leaves the border uniforms in step with the
   * fields and keeps every other uniform.
   */
  lemma SettersKeepShape(o: RenderObject, radius: real, borderWidth: real, borderColor: Vec4)
    ensures o.kind != RoundedRect ==> WithCornerRadius(o, radius) == o
    ensures o.kind == RoundedRect ==>
      WithCornerRadius(o, radius).uniforms["cornerRadius"] == FloatUniform(radius) &&
      WithCornerRadius(o, radius).(uniforms := o.uniforms) == o
    ensures Shadows.ShapeReady(o) ==> Shadows.ShapeReady(WithCornerRadius(o, radius))
    ensures var b := WithBorderOf(o, borderWidth, borderColor);
      BorderInSync(b) && b.borderWidth == borderWidth && b.borderColor == borderColor &&
      (forall k :: k in o.uniforms && k != "borderWidth" && k != "borderColor" ==> b.uniforms[k] == o.uniforms[k])
  {
  }

  /** The object at `at`, changed by `f`; the list as it was when nothing was found. */
  function Patch(objects: seq<RenderObject>, at: Option<nat>, f: RenderObject -> RenderObject): (r: seq<RenderObject>)
    requires at.Some? ==> at.value < |objects|
    ensures |r| == |objects|
    ensures at.None? ==> r == objects
    ensures at.Some? ==> forall i :: 0 <= i < |objects| && i != at.value ==> r[i] == objects[i]
  {
    if at.None? then objects else objects[at.value := f(objects[at.value])]
  }

  // ---------------------------------------------------------------------
  // What `DuckerNative_Render` hands to the GL side
  // ---------------------------------------------------------------------

  /** One `RenderObjects` call: its list, the vertex buffer it uploads, and its runs and draws. */
  datatype Pass = Pass(objects: seq<RenderObject>, vertices: seq<Geometry.Vertex>,
                       runs: seq<Batching.Run>, draws: seq<Batching.Draw>)

  /** One blur group: its radius, the pass into the shadow buffer, and how it is composited. */
  datatype ShadowPass = ShadowPass(radius: real, pass: Pass, blur: Shadows.BlurPass)

  datatype Frame = Frame(shadows: seq<ShadowPass>, main: Pass)

  /** The pass `RenderObjects` makes of a list. */
  predicate PassFor(objs: seq<RenderObject>, shaders: map<nat, nat>, m: Maths, p: Pass)
  {
    p.objects == objs && Batching.AllVerticesDefined(objs) &&
    p.vertices == Batching.VertexBufferUpTo(objs, |objs|, m) &&
    Batching.BatchPlan(objs, shaders, p.runs, p.draws)
  }

  /** The shadow passes of a frame: one per blur radius that occurs, smallest radius first. */
  ghost predicate ShadowPassesFor(shadows: seq<Shadows.Shadow>, shaders: map<nat, nat>, m: Maths, passes: seq<ShadowPass>)
  {
    (forall t, u :: 0 <= t < u < |passes| ==> passes[t].radius < passes[u].radius) &&
    (forall r :: r in Shadows.Radii(shadows) <==> exists t :: 0 <= t < |passes| && passes[t].radius == r) &&
    (forall t :: 0 <= t < |passes| ==> ShadowPassFor(shadows, shaders, m, passes[t]))
  }

  /** One blur group's pass draws exactly the shadows of its radius, and its blur is the one planned for it. */
  ghost predicate ShadowPassFor(shadows: seq<Shadows.Shadow>, shaders: map<nat, nat>, m: Maths, sp: ShadowPass)
  {
    PassFor(Shadows.WithRadius(shadows, sp.radius), shaders, m, sp.pass) &&
    Shadows.BlurPlanned(sp.radius, m, sp.blur)
  }

  /** `RenderObjects` without its GL calls. */
  method RenderObjects(objs: seq<RenderObject>, shaders: map<nat, nat>, m: Maths) returns (p: Pass)
    requires Batching.AllVerticesDefined(objs)
    ensures PassFor(objs, shaders, m, p)
  {
    var vertices := Batching.BuildVertexBuffer(objs, m);
    var runs, draws := Batching.PlanBatches(objs, shaders);
    p := Pass(objs, vertices, runs, draws);
  }

  /** The frame `DuckerNative_Render` draws from a list already in draw order. */
  ghost predicate FrameFor(objs: seq<RenderObject>, shaders: map<nat, nat>, presets: map<int, seq<Shadows.ShadowLayer>>,
                           width: int, height: int, m: Maths, f: Frame)
  {
    PassFor(objs, shaders, m, f.main) && Shadows.CastersReady(objs, presets) &&
    ShadowPassesFor(Shadows.ShadowsUpTo(objs, presets, width, height, |objs|), shaders, m, f.shadows)
  }

  /**
   * The shadow half of `DuckerNative_Render`: the shadow copies grouped by
   * blur radius, and for each group, smallest radius first, its pass into
   * the shadow buffer and its blur.
   */
  method RenderShadows(objs: seq<RenderObject>, shaders: map<nat, nat>, presets: map<int, seq<Shadows.ShadowLayer>>,
                       width: int, height: int, m: Maths) returns (passes: seq<ShadowPass>)
    requires ExpPositive(m) && SqrtSound(m) && Shadows.CastersReady(objs, presets)
    ensures ShadowPassesFor(Shadows.ShadowsUpTo(objs, presets, width, height, |objs|), shaders, m, passes)
  {
    ghost var made := Shadows.ShadowsUpTo(objs, presets, width, height, |objs|);
    var groups := Shadows.CollectShadows(objs, presets, width, height);
    var radii := Shadows.AscendingRadii(groups);
    passes := RenderGroups(objs, presets, width, height, shaders, m, groups, radii);
    PassesInRadiusOrder(made, shaders, m, groups, radii, passes);
  }

  /** The blur groups in the order of `radii`, one pass each. */
  method RenderGroups(objs: seq<RenderObject>, presets: map<int, seq<Shadows.ShadowLayer>>, width: int, height: int,
                      shaders: map<nat, nat>, m: Maths, groups: map<real, seq<RenderObject>>, radii: seq<real>)
    returns (passes: seq<ShadowPass>)
    requires ExpPositive(m) && SqrtSound(m) && Shadows.CastersReady(objs, presets)
    requires Shadows.GroupedBy(groups, Shadows.ShadowsUpTo(objs, presets, width, height, |objs|))
    requires forall r :: r in radii ==> r in groups
    ensures |passes| == |radii| && forall t :: 0 <= t < |passes| ==> passes[t].radius == radii[t]
    ensures forall t :: 0 <= t < |passes| ==>
      ShadowPassFor(Shadows.ShadowsUpTo(objs, presets, width, height, |objs|), shaders, m, passes[t])
  {
    passes := [];
    var j := 0;
    while j < |radii|
      invariant 0 <= j <= |radii| && |passes| == j
      invariant forall t :: 0 <= t < j ==> passes[t].radius == radii[t]
      invariant forall t :: 0 <= t < j ==>
        ShadowPassFor(Shadows.ShadowsUpTo(objs, presets, width, height, |objs|), shaders, m, passes[t])
    {
      var sp := RenderGroup(objs, presets, width, height, shaders, m, groups, radii[j]);
      passes := passes + [sp];
      j := j + 1;
    }
  }

  /** One blur group: its copies drawn into the shadow buffer, then blurred onto the screen. */
  method RenderGroup(objs: seq<RenderObject>, presets: map<int, seq<Shadows.ShadowLayer>>, width: int, height: int,
                     shaders: map<nat, nat>, m: Maths, groups: map<real, seq<RenderObject>>, r: real)
    returns (sp: ShadowPass)
    requires ExpPositive(m) && SqrtSound(m) && Shadows.CastersReady(objs, presets)
    requires Shadows.GroupedBy(groups, Shadows.ShadowsUpTo(objs, presets, width, height, |objs|)) && r in groups
    ensures sp.radius == r && ShadowPassFor(Shadows.ShadowsUpTo(objs, presets, width, height, |objs|), shaders, m, sp)
  {
    GroupsDrawable(objs, presets, width, height, r);
    var p := RenderObjects(groups[r], shaders, m);
    var blur := Shadows.PlanBlur(r, m);
    sp := ShadowPass(r, p, blur);
  }

  /** One pass per group key, in ascending key order, each drawing its group: the shadow passes of the frame. */
  lemma PassesInRadiusOrder(made: seq<Shadows.Shadow>, shaders: map<nat, nat>, m: Maths,
                            groups: map<real, seq<RenderObject>>, radii: seq<real>, passes: seq<ShadowPass>)
    requires Shadows.GroupedBy(groups, made)
    requires Shadows.StrictlyAscending(radii) && (forall r :: r in radii <==> r in groups)
    requires |passes| == |radii| && (forall t :: 0 <= t < |passes| ==> passes[t].radius == radii[t])
    requires forall t :: 0 <= t < |passes| ==> ShadowPassFor(made, shaders, m, passes[t])
    ensures ShadowPassesFor(made, shaders, m, passes)
  {
    forall r | r in Shadows.Radii(made) ensures exists t :: 0 <= t < |passes| && passes[t].radius == r {
      var t :| 0 <= t < |radii| && radii[t] == r;
      assert passes[t].radius == r;
    }
  }

  /** The drawing half of `DuckerNative_Render`: the blur groups first, then the objects themselves. */
  method DrawFrame(objs: seq<RenderObject>, shaders: map<nat, nat>, presets: map<int, seq<Shadows.ShadowLayer>>,
                   width: int, height: int, m: Maths) returns (f: Frame)
    requires ExpPositive(m) && SqrtSound(m)
    requires Shadows.CastersReady(objs, presets) && Batching.AllVerticesDefined(objs)
    ensures FrameFor(objs, shaders, presets, width, height, m, f)
  {
    var passes := RenderShadows(objs, shaders, presets, width, height, m);
    var main := RenderObjects(objs, shaders, m);
    f := Frame(passes, main);
  }

  /**
   * The object store's invariant: the index agrees with the list both ways;
   * every id is positive, was handed out, and is below the counter.
   */
  ghost predicate StoreValid(objects: seq<RenderObject>, index: map<nat, nat>, next: nat, issued: set<nat>)
  {
    Indexed(objects, index) && IdsBelow(objects, next) && next > 0 &&
    Ids(objects) <= issued && (forall id :: id in issued ==> 0 < id < next)
  }

  /** Custom shader ids start at 100, and every id in the table is below the counter. */
  predicate ShadersValid(shaders: map<nat, nat>, next: nat)
  {
    100 <= next && forall id :: id in shaders ==> id < next
  }

  /**
   * Appending an object under the next id, and moving the counter on, keeps
   * the store's invariant; the new id was never handed out before.
   */
  lemma AddKeepsStoreValid(objects: seq<RenderObject>, index: map<nat, nat>, next: nat, issued: set<nat>, o: RenderObject)
    requires StoreValid(objects, index, next, issued) && o.id == next
    ensures StoreValid(objects + [o], index[next := |objects|], next + 1, issued + {next})
    ensures next !in issued
  {
    AddKeepsIndexed(objects, index, next, o);
    forall x | x in Ids(objects + [o]) ensures x in issued + {next} {
      var j :| 0 <= j < |objects| + 1 && (objects + [o])[j].id == x;
      if j < |objects| {
        assert x in Ids(objects);
      }
    }
  }

  /** Removing a present id keeps the store's invariant and takes exactly that id out. */
  lemma RemoveKeepsStoreValid(objects: seq<RenderObject>, index: map<nat, nat>, next: nat, issued: set<nat>, id: nat)
    requires StoreValid(objects, index, next, issued) && id in index
    ensures StoreValid(SwapRemove(objects, index[id]), SwapRemoveIndex(objects, index, id), next, issued)
    ensures Ids(SwapRemove(objects, index[id])) == Ids(objects) - {id}
  {
    RemoveKeepsIndexed(objects, index, id);
    IdsBelowSubset(objects, SwapRemove(objects, index[id]), next);
  }

  /** The store `Initialize` and a fresh state start from. */
  lemma EmptyStoreValid()
    ensures StoreValid([], map[], 1, {})
  {
  }

  /** The five built-in programs (rectangle, rounded rectangle, circle, text, line) under ids 1 to 5. */
  function BuiltinShaders(builtins: seq<nat>): (r: map<nat, nat>)
    requires |builtins| == 5
    ensures r.Keys == {1, 2, 3, 4, 5} && ShadersValid(r, 100)
    ensures forall id :: 1 <= id <= 5 ==> r[id] == builtins[id - 1]
  {
    map[1 := builtins[0], 2 := builtins[1], 3 := builtins[2], 4 := builtins[3], 5 := builtins[4]]
  }

  /** The scissor a new object gets: the innermost container's, or the whole screen. */
  function NewScissor(scissorStack: seq<RectF>, width: int, height: int): RectF
  {
    match Clip.CurrentScissor(scissorStack)
    case Some(s) => s
    case None => RectF(0.0, 0.0, width as real, height as real)
  }

  /**
   * An object added inside a container is clipped to that container's
   * scissor, which lies inside the scissor objects got before it was opened:
   * opening a container only ever shrinks the clip of new objects.
   */
  lemma NewScissorShrinksInContainer(scissorStack: seq<RectF>, containers: seq<Vec2>, bounds: RectF,
                                     width: int, height: int, p: Vec2)
    requires scissorStack != []
    requires var pushed := scissorStack + [Clip.ChildScissor(bounds, Clip.CurrentOffset(containers), Clip.CurrentScissor(scissorStack))];
      Clip.InRect(p, NewScissor(pushed, width, height))
    ensures Clip.InRect(p, NewScissor(scissorStack, width, height))
    ensures Clip.InRect(p, Clip.Shifted(bounds, Clip.CurrentOffset(containers)))
  {
    var parent := scissorStack[|scissorStack| - 1];
    Clip.ChildScissorIsIntersection(bounds, Clip.CurrentOffset(containers), Some(parent), p);
  }

  /** The permutation the sort makes keeps every per-object requirement. */
  lemma PermutationKeepsReadiness(a: seq<RenderObject>, b: seq<RenderObject>, presets: map<int, seq<Shadows.ShadowLayer>>)
    requires multiset(a) == multiset(b)
    requires Shadows.CastersReady(a, presets) && Batching.AllVerticesDefined(a)
    ensures Shadows.CastersReady(b, presets) && Batching.AllVerticesDefined(b)
  {
    forall i | 0 <= i < |b| ensures Batching.VerticesDefined(b[i]) && (Shadows.CastsShadow(b[i], presets) ==> Shadows.ShapeReady(b[i])) {
      assert b[i] in multiset(a);
      var p :| 0 <= p < |a| && a[p] == b[i];
    }
  }

  /** Every shadow group holds shapes only, so its vertices are defined. */
  lemma GroupsDrawable(objs: seq<RenderObject>, presets: map<int, seq<Shadows.ShadowLayer>>, w: int, h: int, r: real)
    requires Shadows.CastersReady(objs, presets)
    ensures Batching.AllVerticesDefined(Shadows.WithRadius(Shadows.ShadowsUpTo(objs, presets, w, h, |objs|), r))
  {
    Shadows.ShadowsAreShapes(objs, presets, w, h, |objs|);
    Shadows.GroupOfShapes(Shadows.ShadowsUpTo(objs, presets, w, h, |objs|), r);
  }

  // ---------------------------------------------------------------------
  // The renderer state
  // ---------------------------------------------------------------------

  class RendererState {
    /** `state != nullptr`. */
    var live: bool
    var screenWidth: int
    var screenHeight: int
    /** The projection matrix; none while a side of the screen is 0. */
    var projection: Option<Matrices.Mat4>
    var nextCustomShaderId: nat
    /** Shader id to program handle. */
    var shaders: map<nat, nat>
    var objects: seq<RenderObject>
    var objectIdToIndex: map<nat, nat>
    var nextObjectId: nat
    var needsSort: bool
    var scissorStack: seq<RectF>
    var containerStack: seq<Vec2>
    var shadowPresets: map<int, seq<Shadows.ShadowLayer>>
    /** Every object id handed out since `Initialize`. */
    ghost var issued: set<nat>

    /**
     * The index agrees with the list both ways; every id is positive, was
     * handed out, and is below the counter; the two container stacks are
     * equally deep; every shader id is below the custom-shader counter,
     * which starts at 100. Before `Initialize` and after `Shutdown` there
     * are no objects and no shaders.
     */
    ghost predicate Valid()
      reads this
    {
      StoreOk() && |scissorStack| == |containerStack| && ShadersValid(shaders, nextCustomShaderId) &&
      (!live ==> objects == [] && objectIdToIndex == map[] && shaders == map[])
    }

    ghost predicate StoreOk()
      reads this`objects, this`objectIdToIndex, this`nextObjectId, this`issued
    {
      StoreValid(objects, objectIdToIndex, nextObjectId, issued)
    }

    /** The fields set up by `Initialize` and `SetScreenSize`, and the shader table. */
    ghost function Setup(): (bool, int, int, Option<Matrices.Mat4>, nat, map<nat, nat>, map<int, seq<Shadows.ShadowLayer>>)
      reads this
    {
      (live, screenWidth, screenHeight, projection, nextCustomShaderId, shaders, shadowPresets)
    }

    /** The object store and its counter. */
    ghost function Store(): (seq<RenderObject>, map<nat, nat>, nat, set<nat>)
      reads this
    {
      (objects, objectIdToIndex, nextObjectId, issued)
    }

    ghost function Stacks(): (seq<RectF>, seq<Vec2>)
      reads this
    {
      (scissorStack, containerStack)
    }

    /** The state before `DuckerNative_Initialize`: the pointer is null. */
    constructor()
      ensures Valid() && !live && objects == [] && shaders == map[]
    {
      live := false;
      screenWidth, screenHeight := 0, 0;
      projection := None;
      nextCustomShaderId := 100;
      shaders := map[];
      objects, objectIdToIndex := [], map[];
      nextObjectId := 1;
      needsSort := false;
      scissorStack, containerStack := [], [];
      shadowPresets := map[];
      issued := {};
    }

    /**
     * `FindObject`: the position of a live object with this id. Found
     * exactly when the renderer is up and an object has this id.
     */
    function FindObject(id: nat): (r: Option<nat>)
      reads this
      requires Valid()
      ensures r.Some? <==> live && id in Ids(objects)
      ensures r.Some? ==> r.value < |objects| && objects[r.value].id == id
    {
      IndexedKeys(objects, objectIdToIndex);
      if live && id in objectIdToIndex then Some(objectIdToIndex[id]) else None
    }

    // -------------------------------------------------------------------
    // Lifetime
    // -------------------------------------------------------------------

    /**
     * The state `Initialize` leaves: up, sized, with the five built-in
     * programs under ids 1 to 5, custom ids from 100, the Material presets,
     * and no objects, containers or pending sort.
     */
    ghost predicate Initialized(width: int, height: int, builtins: seq<nat>)
      reads this
      requires |builtins| == 5
    {
      live && screenWidth == width && screenHeight == height &&
      projection == Matrices.Projection(width, height) &&
      shaders == BuiltinShaders(builtins) &&
      nextCustomShaderId == 100 && shadowPresets == Shadows.DefaultPresets() &&
      objects == [] && objectIdToIndex == map[] && nextObjectId == 1 && !needsSort &&
      scissorStack == [] && containerStack == []
    }

    /**
     * `DuckerNative_Initialize`: ignored when already up; otherwise a fresh
     * state with the five built-in programs under ids 1 to 5, the Material
     * presets, and the projection for the given size. `builtins` are the
     * handles the five compiles produced.
     */
    method Initialize(width: int, height: int, builtins: seq<nat>)
      requires Valid() && |builtins| == 5
      modifies this
      ensures Valid()
      ensures old(live) ==>
        Setup() == old(Setup()) && Store() == old(Store()) && Stacks() == old(Stacks()) &&
        needsSort == old(needsSort)
      ensures !old(live) ==> Initialized(width, height, builtins)
    {
      if live {
        return;
      }
      ResetStore();
      Configure(width, height, builtins);
    }

    /** Brings the state up with the built-in programs, the presets, and the screen size. */
    method Configure(width: int, height: int, builtins: seq<nat>)
      requires |builtins| == 5
      modifies this`live, this`shaders, this`nextCustomShaderId, this`shadowPresets,
        this`screenWidth, this`screenHeight, this`projection
      ensures live && shaders == BuiltinShaders(builtins) && nextCustomShaderId == 100 &&
        shadowPresets == Shadows.DefaultPresets() && screenWidth == width && screenHeight == height &&
        projection == Matrices.Projection(width, height)
    {
      live, shaders, nextCustomShaderId := true, BuiltinShaders(builtins), 100;
      shadowPresets := Shadows.DefaultPresets();
      // what SetScreenSize does once the state is up
      screenWidth, screenHeight, projection := width, height, Matrices.Projection(width, height);
    }

    /** Empties the store and both stacks and restarts the object ids at 1. */
    method ResetStore()
      requires Valid()
      modifies this`objects, this`objectIdToIndex, this`nextObjectId, this`issued, this`needsSort,
        this`scissorStack, this`containerStack
      ensures Valid() && objects == [] && objectIdToIndex == map[] && nextObjectId == 1 && issued == {} &&
        !needsSort && scissorStack == [] && containerStack == []
    {
      EmptyStoreValid();
      objects, objectIdToIndex, nextObjectId, issued, needsSort := [], map[], 1, {}, false;
      scissorStack, containerStack := [], [];
    }

    /**
     * `DuckerNative_Shutdown`: clears the objects, drops every program and
     * nulls the pointer. The source deletes the whole state; the counter kept
     * here is a modelling artefact that nothing observes, since the next
     * `Initialize` starts the store afresh with ids from 1.
     */
    method Shutdown()
      requires Valid()
      modifies this
      ensures Valid() && !live && objects == [] && shaders == map[]
      ensures nextObjectId == old(nextObjectId)
    {
      if !live {
        return;
      }
      Clear();
      shaders := map[];
      live := false;
    }

    /**
     * `DuckerNative_Clear`: drops every object and both container stacks.
     * The id counter is not reset, so ids handed out later are new.
     */
    method Clear()
      requires Valid()
      modifies this
      ensures Valid()
      ensures !old(live) ==> Setup() == old(Setup()) && Store() == old(Store()) && Stacks() == old(Stacks())
      ensures old(live) ==> objects == [] && objectIdToIndex == map[] && scissorStack == [] && containerStack == []
      ensures nextObjectId == old(nextObjectId) && issued == old(issued)
      ensures Setup() == old(Setup()) && needsSort == old(needsSort)
    {
      if !live {
        return;
      }
      objects, objectIdToIndex := [], map[];
      scissorStack, containerStack := [], [];
    }

    /** `DuckerNative_SetScreenSize`: the size and the projection derived from it. */
    method SetScreenSize(width: int, height: int)
      requires Valid()
      modifies this`screenWidth, this`screenHeight, this`projection
      ensures Valid()
      ensures old(live) ==>
        screenWidth == width && screenHeight == height && projection == Matrices.Projection(width, height)
      ensures !old(live) ==>
        screenWidth == old(screenWidth) && screenHeight == old(screenHeight) && projection == old(projection)
    {
      if !live {
        return;
      }
      screenWidth, screenHeight := width, height;
      projection := Matrices.Projection(width, height);
    }

    // -------------------------------------------------------------------
    // Adding and removing objects
    // -------------------------------------------------------------------

    /**
     * What `AddObjectInternal` did: nothing and id 0 when the renderer is
     * down; otherwise the object went to the end of the list under the next
     * id with the current scissor, the index points at it, the counter moved
     * on, and a sort is due.
     */
    twostate predicate Added(obj: RenderObject, id: nat)
      reads this
    {
      if !old(live) then
        id == 0 && Setup() == old(Setup()) && Store() == old(Store()) && Stacks() == old(Stacks()) &&
        needsSort == old(needsSort)
      else
        id == old(nextObjectId) && id !in old(issued) && nextObjectId == id + 1 && issued == old(issued) + {id} &&
        objects == old(objects) + [Stamped(obj, id, NewScissor(old(scissorStack), old(screenWidth), old(screenHeight)))] &&
        objectIdToIndex == old(objectIdToIndex)[id := |old(objects)|] &&
        needsSort && Setup() == old(Setup()) && Stacks() == old(Stacks())
    }

    /** `AddObjectInternal`. */
    method AddObjectInternal(obj: RenderObject) returns (id: nat)
      requires Valid()
      modifies this
      ensures Valid() && Added(obj, id)
    {
      if !live {
        return 0;
      }
      var scissor := NewScissor(scissorStack, screenWidth, screenHeight);
      id := nextObjectId;
      var o := Stamped(obj, id, scissor);
      AddKeepsStoreValid(objects, objectIdToIndex, nextObjectId, issued, o);
      objectIdToIndex := objectIdToIndex[id := |objects|];
      objects := objects + [o];
      nextObjectId := nextObjectId + 1;
      issued := issued + {id};
      needsSort := true;
    }

    /** `DuckerNative_AddRect`. */
    method AddRect(bounds: RectF, color: Vec4, zIndex: int, textureId: nat, uvRect: RectF,
                   borderWidth: real, borderColor: Vec4) returns (id: nat)
      requires Valid()
      modifies this
      ensures Valid() && Added(RectObject(bounds, color, zIndex, textureId, uvRect, borderWidth, borderColor), id)
    {
      id := AddObjectInternal(RectObject(bounds, color, zIndex, textureId, uvRect, borderWidth, borderColor));
    }

    /** `DuckerNative_AddRoundedRect`. */
    method AddRoundedRect(bounds: RectF, shapeSize: Vec2, color: Vec4, cornerRadius: real, blur: real,
                          inset: bool, zIndex: int, textureId: nat, uvRect: RectF,
                          borderWidth: real, borderColor: Vec4) returns (id: nat)
      requires Valid()
      modifies this
      ensures Valid() && Added(RoundedRectObject(bounds, shapeSize, color, cornerRadius, blur, inset, zIndex,
                                                 textureId, uvRect, borderWidth, borderColor), id)
    {
      id := AddObjectInternal(RoundedRectObject(bounds, shapeSize, color, cornerRadius, blur, inset, zIndex,
                                                textureId, uvRect, borderWidth, borderColor));
    }

    /** `DuckerNative_AddCircle`. */
    method AddCircle(bounds: RectF, color: Vec4, radius: real, blur: real, inset: bool, zIndex: int,
                     textureId: nat, borderWidth: real, borderColor: Vec4) returns (id: nat)
      requires Valid()
      modifies this
      ensures Valid() && Added(CircleObject(bounds, color, radius, blur, inset, zIndex, textureId,
                                            borderWidth, borderColor), id)
    {
      id := AddObjectInternal(CircleObject(bounds, color, radius, blur, inset, zIndex, textureId,
                                           borderWidth, borderColor));
    }

    /**
     * `DuckerNative_AddLine`: the line is stored with the triangle count and
     * bounds `Geometry.MeasureLine` computes for it.
     */
    method AddLine(start: Vec2, end: Vec2, color: Vec4, width: real, mode: LineMode,
                   controls: seq<Vec2>, zIndex: int, m: Maths) returns (id: nat)
      requires Valid()
      modifies this
      ensures Valid()
      ensures var o := LineObject(start, end, color, width, mode, controls, zIndex);
        Added(o.(triCount := Geometry.LineTriCount(o, m), bounds := Geometry.LineBounds(o, m)), id)
    {
      if !live {
        return 0;
      }
      var o := LineObject(start, end, color, width, mode, controls, zIndex);
      var triCount, bounds := Geometry.MeasureLine(o, m);
      id := AddObjectInternal(o.(triCount := triCount, bounds := bounds));
    }

    /**
     * `DuckerNative_RemoveObject`: an unknown id changes nothing; otherwise
     * the last object moves into the removed one's slot, its index entry
     * follows it, and the removed id leaves the index. `needsSort` is not
     * touched, so the moved object may now be out of draw order (see
     * `ObjectStore.RemovalCanBreakOrder`).
     */
    method RemoveObject(objectId: nat)
      requires Valid()
      modifies this
      ensures Valid()
      ensures old(FindObject(objectId)).None? ==>
        Store() == old(Store()) && Setup() == old(Setup()) && Stacks() == old(Stacks()) && needsSort == old(needsSort)
      ensures old(FindObject(objectId)).Some? ==>
        objects == SwapRemove(old(objects), old(objectIdToIndex[objectId])) &&
        objectIdToIndex == SwapRemoveIndex(old(objects), old(objectIdToIndex), objectId) &&
        Ids(objects) == old(Ids(objects)) - {objectId} &&
        nextObjectId == old(nextObjectId) && issued == old(issued) &&
        Setup() == old(Setup()) && Stacks() == old(Stacks()) && needsSort == old(needsSort)
    {
      if !live || objectId !in objectIdToIndex {
        return;
      }
      RemoveKeepsStoreValid(objects, objectIdToIndex, nextObjectId, issued, objectId);
      objects, objectIdToIndex := RemoveById(objects, objectIdToIndex, objectId);
    }

    // -------------------------------------------------------------------
    // Setters
    // -------------------------------------------------------------------

    /** Replaces the object at k by one with the same id. */
    method Replace(k: nat, o: RenderObject)
      requires Valid() && k < |objects| && o.id == objects[k].id
      modifies this`objects
      ensures Valid() && objects == old(objects)[k := o]
    {
      assert Ids(objects[k := o]) == Ids(objects) by {
        forall x | x in Ids(objects) ensures x in Ids(objects[k := o]) {
          var j :| 0 <= j < |objects| && objects[j].id == x;
          assert objects[k := o][j].id == x;
        }
      }
      objects := objects[k := o];
    }

    /** Everything but the objects and `needsSort` is as it was. */
    twostate predicate OnlyObjectsChanged()
      reads this
    {
      objectIdToIndex == old(objectIdToIndex) && nextObjectId == old(nextObjectId) && issued == old(issued) &&
      Setup() == old(Setup()) && Stacks() == old(Stacks())
    }

    /** `DuckerNative_SetObjectRotation`. */
    method SetObjectRotation(objectId: nat, rotation: real)
      requires Valid()
      modifies this
      ensures Valid() && OnlyObjectsChanged() && needsSort == old(needsSort)
      ensures objects == Patch(old(objects), old(FindObject(objectId)), (o: RenderObject) => o.(rotation := rotation))
    {
      var at := FindObject(objectId);
      if at.Some? {
        Replace(at.value, objects[at.value].(rotation := rotation));
      }
    }

    /** `DuckerNative_SetObjectRotationOrigin`. */
    method SetObjectRotationOrigin(objectId: nat, origin: Vec2)
      requires Valid()
      modifies this
      ensures Valid() && OnlyObjectsChanged() && needsSort == old(needsSort)
      ensures objects == Patch(old(objects), old(FindObject(objectId)), (o: RenderObject) => o.(rotationOrigin := origin))
    {
      var at := FindObject(objectId);
      if at.Some? {
        Replace(at.value, objects[at.value].(rotationOrigin := origin));
      }
    }

    /** `DuckerNative_SetObjectRotationAndOrigin`. */
    method SetObjectRotationAndOrigin(objectId: nat, rotation: real, origin: Vec2)
      requires Valid()
      modifies this
      ensures Valid() && OnlyObjectsChanged() && needsSort == old(needsSort)
      ensures objects == Patch(old(objects), old(FindObject(objectId)),
                               (o: RenderObject) => o.(rotation := rotation, rotationOrigin := origin))
    {
      var at := FindObject(objectId);
      if at.Some? {
        Replace(at.value, objects[at.value].(rotation := rotation, rotationOrigin := origin));
      }
    }

    /** `DuckerNative_SetObjectElevation`: a found object always raises `needsSort`. */
    method SetObjectElevation(objectId: nat, elevation: int)
      requires Valid()
      modifies this
      ensures Valid() && OnlyObjectsChanged()
      ensures objects == Patch(old(objects), old(FindObject(objectId)), (o: RenderObject) => o.(elevation := elevation))
      ensures needsSort == (old(needsSort) || old(FindObject(objectId)).Some?)
    {
      var at := FindObject(objectId);
      if at.Some? {
        Replace(at.value, objects[at.value].(elevation := elevation));
        needsSort := true;
      }
    }

    /** `DuckerNative_SetObjectCornerRadius`: only rounded rectangles take it. */
    method SetObjectCornerRadius(objectId: nat, radius: real)
      requires Valid()
      modifies this
      ensures Valid() && OnlyObjectsChanged() && needsSort == old(needsSort)
      ensures objects == Patch(old(objects), old(FindObject(objectId)), (o: RenderObject) => WithCornerRadius(o, radius))
    {
      var at := FindObject(objectId);
      if at.Some? {
        var obj := objects[at.value];
        if obj.kind != RoundedRect {
          return;
        }
        Replace(at.value, obj.(uniforms := obj.uniforms["cornerRadius" := FloatUniform(radius)]));
      }
    }

    /**
     * `DuckerNative_SetObjectShader`: `needsSort` is raised only when the
     * object's shader id actually changes.
     */
    method SetObjectShader(objectId: nat, shaderId: nat)
      requires Valid()
      modifies this
      ensures Valid() && OnlyObjectsChanged()
      ensures objects == Patch(old(objects), old(FindObject(objectId)), (o: RenderObject) => o.(shaderId := shaderId))
      ensures needsSort == (old(needsSort) ||
        (old(FindObject(objectId)).Some? && old(objects[FindObject(objectId).value].shaderId) != shaderId))
    {
      var at := FindObject(objectId);
      if at.Some? {
        var obj := objects[at.value];
        if obj.shaderId != shaderId {
          Replace(at.value, obj.(shaderId := shaderId));
          needsSort := true;
        }
      }
    }

    /**
     * `DuckerNative_SetObjectUniform`: the named uniform of a found object
     * becomes the first `LaneCount(kind)` lanes of `data`. The source reads
     * that many bytes from the caller's pointer, which must hold them.
     */
    method SetObjectUniform(objectId: nat, name: string, kind: UniformType, data: seq<Lane>)
      requires Valid() && |data| >= LaneCount(kind)
      modifies this
      ensures Valid() && OnlyObjectsChanged() && needsSort == old(needsSort)
      ensures objects == Patch(old(objects), old(FindObject(objectId)),
                               (o: RenderObject) => o.(uniforms := o.uniforms[name := StoredUniform(kind, data)]))
    {
      var at := FindObject(objectId);
      if at.Some? {
        var obj := objects[at.value];
        Replace(at.value, obj.(uniforms := obj.uniforms[name := StoredUniform(kind, data)]));
      }
    }

    /** `DuckerNative_SetObjectBorder`: the border fields and uniforms together. */
    method SetObjectBorder(objectId: nat, borderWidth: real, borderColor: Vec4)
      requires Valid()
      modifies this
      ensures Valid() && OnlyObjectsChanged() && needsSort == old(needsSort)
      ensures objects == Patch(old(objects), old(FindObject(objectId)), (o: RenderObject) => WithBorderOf(o, borderWidth, borderColor))
    {
      var at := FindObject(objectId);
      if at.Some? {
        Replace(at.value, WithBorderOf(objects[at.value], borderWidth, borderColor));
      }
    }

    // -------------------------------------------------------------------
    // Shaders
    // -------------------------------------------------------------------

    /**
     * `DuckerNative_CreateShader`, given the handle the compile produced:
     * 0 when the renderer is down or the compile failed; otherwise the next
     * custom id, which no program had before.
     */
    method CreateShader(program: nat) returns (id: nat)
      requires Valid()
      modifies this
      ensures Valid() && Store() == old(Store()) && Stacks() == old(Stacks()) && needsSort == old(needsSort)
      ensures !old(live) || program == 0 ==> id == 0 && Setup() == old(Setup())
      ensures old(live) && program != 0 ==>
        id == old(nextCustomShaderId) && id >= 100 && id !in old(shaders) &&
        nextCustomShaderId == id + 1 && shaders == old(shaders)[id := program] &&
        live && screenWidth == old(screenWidth) && screenHeight == old(screenHeight) &&
        projection == old(projection) && shadowPresets == old(shadowPresets)
    {
      if !live || program == 0 {
        return 0;
      }
      id := nextCustomShaderId;
      nextCustomShaderId := nextCustomShaderId + 1;
      shaders := shaders[id := program];
    }

    /** `DuckerNative_DeleteShader`: ids below 100 (the built-in programs) are never deleted. */
    method DeleteShader(shaderId: nat)
      requires Valid()
      modifies this
      ensures Valid() && Store() == old(Store()) && Stacks() == old(Stacks()) && needsSort == old(needsSort)
      ensures !old(live) || shaderId < 100 ==> Setup() == old(Setup())
      ensures old(live) && shaderId >= 100 ==>
        shaders == old(shaders) - {shaderId} && live && nextCustomShaderId == old(nextCustomShaderId) && screenWidth == old(screenWidth) &&
        screenHeight == old(screenHeight) && projection == old(projection) && shadowPresets == old(shadowPresets)
      ensures forall k :: k in old(shaders) && k < 100 ==> k in shaders && shaders[k] == old(shaders)[k]
    {
      if !live || shaderId < 100 {
        return;
      }
      shaders := shaders - {shaderId};
    }

    // -------------------------------------------------------------------
    // Containers
    // -------------------------------------------------------------------

    /**
     * `DuckerNative_BeginContainer`: pushes the container's screen-space
     * corner and its clip rectangle, the shifted bounds cut to the parent
     * clip (see `Clip.ChildScissorIsIntersection`).
     */
    method BeginContainer(bounds: RectF)
      requires Valid()
      modifies this
      ensures Valid() && Store() == old(Store()) && Setup() == old(Setup()) && needsSort == old(needsSort)
      ensures !old(live) ==> Stacks() == old(Stacks())
      ensures old(live) ==>
        var offset := Clip.CurrentOffset(old(containerStack));
        containerStack == old(containerStack) + [Clip.ChildOffset(bounds, offset)] &&
        scissorStack == old(scissorStack) + [Clip.ChildScissor(bounds, offset, Clip.CurrentScissor(old(scissorStack)))]
    {
      if !live {
        return;
      }
      var offset := Clip.CurrentOffset(containerStack);
      var newScissor := Clip.ChildScissor(bounds, offset, Clip.CurrentScissor(scissorStack));
      containerStack := containerStack + [Clip.ChildOffset(bounds, offset)];
      scissorStack := scissorStack + [newScissor];
    }

    /** `DuckerNative_EndContainer`: pops both stacks; nothing happens when they are empty. */
    method EndContainer()
      requires Valid()
      modifies this
      ensures Valid() && Store() == old(Store()) && Setup() == old(Setup()) && needsSort == old(needsSort)
      ensures !old(live) || old(containerStack) == [] ==> Stacks() == old(Stacks())
      ensures old(live) && old(containerStack) != [] ==>
        containerStack == old(containerStack)[..|old(containerStack)| - 1] &&
        scissorStack == old(scissorStack)[..|old(scissorStack)| - 1]
    {
      if !live || containerStack == [] {
        return;
      }
      containerStack := containerStack[..|containerStack| - 1];
      scissorStack := scissorStack[..|scissorStack| - 1];
    }

    // -------------------------------------------------------------------
    // Rendering
    // -------------------------------------------------------------------

    /**
     * `DuckerNative_Render` without its GL calls. Nothing happens when the
     * renderer is down or has no objects. Otherwise a pending sort puts the
     * objects in draw order and rebuilds the index, and the frame is drawn
     * from the sorted list (see `DrawFrame`). Objects must have the uniforms
     * the draw reads without checking: a glyph its corners, a shadow caster
     * its shape.
     */
    method Render(m: Maths) returns (frame: Option<Frame>)
      requires Valid() && ExpPositive(m) && SqrtSound(m)
      requires Shadows.CastersReady(objects, shadowPresets) && Batching.AllVerticesDefined(objects)
      modifies this
      ensures Valid() && Setup() == old(Setup()) && Stacks() == old(Stacks())
      ensures nextObjectId == old(nextObjectId) && issued == old(issued)
      ensures multiset(objects) == multiset(old(objects))
      ensures !old(live) || old(objects) == [] ==>
        frame.None? && Store() == old(Store()) && needsSort == old(needsSort)
      ensures !old(needsSort) ==> Store() == old(Store()) && !needsSort
      ensures old(live) && old(objects) != [] ==>
        !needsSort && (old(needsSort) ==> DrawOrder.AdjacentOrdered(objects)) &&
        frame.Some? && FrameFor(objects, shaders, shadowPresets, screenWidth, screenHeight, m, frame.value)
    {
      if !live || objects == [] {
        return None;
      }
      if needsSort {
        ghost var before := objects;
        SortObjects();
        PermutationKeepsReadiness(before, objects, shadowPresets);
      }
      var f := DrawFrame(objects, shaders, shadowPresets, screenWidth, screenHeight, m);
      frame := Some(f);
    }

    /** The sort and index rebuild of `DuckerNative_Render`. */
    method SortObjects()
      requires Valid()
      modifies this`objects, this`objectIdToIndex, this`needsSort
      ensures Valid() && !needsSort
      ensures multiset(objects) == multiset(old(objects)) && DrawOrder.AdjacentOrdered(objects)
    {
      var sorted := DrawOrder.SortByDrawOrder(objects);
      PermutationKeepsIds(objects, sorted, objectIdToIndex);
      var index := RebuildIndex(sorted, objectIdToIndex);
      RebuiltIsIndexed(objects, sorted, objectIdToIndex, index);
      IndexedKeys(objects, objectIdToIndex);
      IdsBelowSubset(objects, sorted, nextObjectId);
      objects, objectIdToIndex := sorted, index;
      needsSort := false;
    }

  }
}
