/**
 * The renderer's value types: points, rectangles, colours, the five object
 * kinds, typed uniform payloads and the drawable object record itself.
 * Floats are modelled as reals.
 */
module Types {

  datatype Vec2 = Vec2(x: real, y: real)
  datatype Vec4 = Vec4(x: real, y: real, z: real, w: real)
  datatype RectF = RectF(x: real, y: real, w: real, h: real)

  /** `Vec2::operator-` of the public header. */
  function Sub(a: Vec2, b: Vec2): (r: Vec2)
    ensures r.x + b.x == a.x && r.y + b.y == a.y
  {
    Vec2(a.x - b.x, a.y - b.y)
  }

  datatype ObjectType = Rect | RoundedRect | Circle | Glyph | Line

  /** The enumerator's underlying value, in declaration order. */
  function TypeOrdinal(t: ObjectType): nat
  {
    match t
    case Rect => 0
    case RoundedRect => 1
    case Circle => 2
    case Glyph => 3
    case Line => 4
  }

  datatype LineMode = Straight | Curved

  function LineModeOrdinal(m: LineMode): nat
  {
    match m
    case Straight => 0
    case Curved => 1
  }

  datatype UniformType = UniformFloat | UniformVec2 | UniformVec3 | UniformVec4 | UniformInt

  /**
   * One 4-byte slot of a uniform payload. `float` and `int` are both four
   * bytes wide, so a payload of n lanes occupies 4 * n bytes.
   */
  datatype Lane = FloatLane(f: real) | IntLane(n: int)

  datatype UniformValue = UniformValue(kind: UniformType, data: seq<Lane>)

  /** Number of bytes a payload occupies. */
  function ByteSize(u: UniformValue): nat
  {
    4 * |u.data|
  }

  function FloatUniform(f: real): UniformValue
  {
    UniformValue(UniformFloat, [FloatLane(f)])
  }

  function Vec2Uniform(v: Vec2): UniformValue
  {
    UniformValue(UniformVec2, [FloatLane(v.x), FloatLane(v.y)])
  }

  function Vec4Uniform(v: Vec4): UniformValue
  {
    UniformValue(UniformVec4, [FloatLane(v.x), FloatLane(v.y), FloatLane(v.z), FloatLane(v.w)])
  }

  function IntUniform(n: int): UniformValue
  {
    UniformValue(UniformInt, [IntLane(n)])
  }

  /** True when the payload starts with `k` float lanes. */
  predicate HasFloats(u: UniformValue, k: nat)
  {
    k <= |u.data| && forall i :: 0 <= i < k ==> u.data[i].FloatLane?
  }

  /** A vec2 read back from a payload that starts with two floats. */
  function AsVec2(u: UniformValue): Vec2
    requires HasFloats(u, 2)
  {
    Vec2(u.data[0].f, u.data[1].f)
  }

  /**
   * A drawable object. `start`, `end`, `controlPoints`, `lineWidth`,
   * `lineMode` and `triCount` are meaningful for lines only.
   */
  datatype RenderObject = RenderObject(
    id: nat,
    kind: ObjectType,
    visible: bool,
    zIndex: int,
    bounds: RectF,
    color: Vec4,
    textureId: nat,
    shaderId: nat,
    scissorRect: RectF,
    uvRect: RectF,
    borderWidth: real,
    borderColor: Vec4,
    uniforms: map<string, UniformValue>,
    elevation: int,
    rotation: real,
    rotationOrigin: Vec2,
    start: Vec2,
    end: Vec2,
    controlPoints: seq<Vec2>,
    lineWidth: real,
    lineMode: LineMode,
    triCount: int)

  /**
   * A default-constructed object of the given kind: the member initialisers
   * of the C++ record. Members the record leaves uninitialised (id, bounds,
   * scissor rectangle, line end points) are zero here; every constructor
   * overwrites them before they are read.
   */
  function DefaultObject(kind: ObjectType): RenderObject
  {
    RenderObject(
      0, kind, true, 0, RectF(0.0, 0.0, 0.0, 0.0), Vec4(1.0, 1.0, 1.0, 1.0),
      0, 0, RectF(0.0, 0.0, 0.0, 0.0), RectF(0.0, 0.0, 1.0, 1.0),
      0.0, Vec4(0.0, 0.0, 0.0, 0.0), map[], 0, 0.0, Vec2(0.5, 0.5),
      Vec2(0.0, 0.0), Vec2(0.0, 0.0), [], 1.0, Straight, 2)
  }

  /** Shader id of the built-in program for a kind: 1..5. */
  const LineShaderId: nat := 5

  /**
   * The shader an object is drawn with: its own shader if one was set,
   * otherwise the built-in program of its kind (the line program for lines).
   */
  function EffectiveShader(o: RenderObject): (s: nat)
    ensures o.shaderId != 0 ==> s == o.shaderId
    ensures o.shaderId == 0 ==> 1 <= s <= 5
    ensures o.shaderId == 0 && o.kind == Line ==> s == LineShaderId
  {
    if o.shaderId != 0 then o.shaderId
    else if o.kind == Line then LineShaderId
    else TypeOrdinal(o.kind) + 1
  }

  /**
   * The special case for lines is redundant: the line kind's ordinal plus one
   * is the line shader id, so every kind's default is its ordinal plus one.
   */
  lemma DefaultShaderIsOrdinalPlusOne(o: RenderObject)
    requires o.shaderId == 0
    ensures EffectiveShader(o) == TypeOrdinal(o.kind) + 1
  {
  }

  /**
   * The uncomputable float functions of the C runtime, passed in rather than
   * defined, and constrained only where a property needs it.
   */
  datatype Maths = Maths(sqrt: real -> real, exp: real -> real, cos: real -> real, sin: real -> real)

  ghost predicate SqrtSound(m: Maths)
  {
    forall x :: 0.0 <= x ==> 0.0 <= m.sqrt(x) && m.sqrt(x) * m.sqrt(x) == x
  }

  ghost predicate ExpPositive(m: Maths)
  {
    forall x :: 0.0 < m.exp(x)
  }
}
