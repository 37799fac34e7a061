/**
 * The batching pass of `RenderObjects`: one vertex buffer holding the
 * geometry of every visible object, then a walk that groups consecutive
 * objects sharing shader, texture, scissor (and, between lines, mode and
 * width) into runs and issues one draw per object at a running vertex
 * offset. GL calls are replaced by the `Run` and `Draw` records they would
 * issue.
 */
module Batching {
  import opened Types
  import opened Geometry

  /** The vertex count a draw call asks for: six per quad, three per stored triangle of a line. */
  function DrawCount(o: RenderObject): int
  {
    if o.kind == Line then o.triCount * 3 else 6
  }

  /** A visible glyph must carry its corner uniforms: the source reads them with `at`, which throws otherwise. */
  predicate VerticesDefined(o: RenderObject)
  {
    o.visible && o.kind == Glyph ==> GlyphReady(o)
  }

  predicate AllVerticesDefined(objs: seq<RenderObject>)
  {
    forall i :: 0 <= i < |objs| ==> VerticesDefined(objs[i])
  }

  /** The vertices an object contributes to the buffer. */
  function ObjectVertices(o: RenderObject, m: Maths): seq<Vertex>
    requires VerticesDefined(o)
  {
    if !o.visible then []
    else if o.kind == Glyph then GlyphVertices(o)
    else if o.kind == Line then LineVertices(o, m)
    else QuadVertices(o.bounds, o.uvRect)
  }

  /** Hidden objects add nothing, quads and glyphs six vertices, lines at most three per stored triangle. */
  lemma ObjectVertexCount(o: RenderObject, m: Maths)
    requires VerticesDefined(o)
    ensures !o.visible ==> ObjectVertices(o, m) == []
    ensures o.visible && o.kind != Line ==> |ObjectVertices(o, m)| == 6
    ensures o.visible && o.kind == Line ==> |ObjectVertices(o, m)| <= 3 * LineTriCount(o, m)
  {
    if o.visible && o.kind == Line {
      LineVerticesAtMost(o, m);
    }
  }

  /** Each object's vertices, in list order. */
  function Chunks(objs: seq<RenderObject>, m: Maths): seq<seq<Vertex>>
    requires AllVerticesDefined(objs)
  {
    seq(|objs|, i requires 0 <= i < |objs| => ObjectVertices(objs[i], m))
  }

  /** The first n chunks laid end to end. */
  function Flatten<T>(cs: seq<seq<T>>, n: nat): seq<T>
    requires n <= |cs|
  {
    if n == 0 then [] else Flatten(cs, n - 1) + cs[n - 1]
  }

  /** The buffer built from the first n objects: each one's vertices, appended in list order. */
  function VertexBufferUpTo(objs: seq<RenderObject>, n: nat, m: Maths): seq<Vertex>
    requires n <= |objs| && AllVerticesDefined(objs)
  {
    if n == 0 then [] else VertexBufferUpTo(objs, n - 1, m) + ObjectVertices(objs[n - 1], m)
  }

  /** The geometry loop of `RenderObjects`: every visible object's vertices, appended in list order. */
  method BuildVertexBuffer(objs: seq<RenderObject>, m: Maths) returns (vertices: seq<Vertex>)
    requires AllVerticesDefined(objs)
    ensures vertices == VertexBufferUpTo(objs, |objs|, m)
  {
    ghost var cs := Chunks(objs, m);
    vertices := [];
    var i := 0;
    while i < |objs|
      invariant 0 <= i <= |objs|
      invariant vertices == Flatten(cs, i)
    {
      var obj := objs[i];
      if obj.visible {
        var vs := ObjectVertices(obj, m);
        FlattenStep(cs, i, vs);
        vertices := vertices + vs;
      } else {
        FlattenSkip(cs, i);
      }
      i := i + 1;
    }
    BufferIsFlatten(objs, i, m);
  }

  /** An empty chunk n adds nothing. */
  lemma FlattenSkip<T>(cs: seq<seq<T>>, n: nat)
    requires n < |cs| && cs[n] == []
    ensures Flatten(cs, n + 1) == Flatten(cs, n)
  {
    assert Flatten(cs, n) + [] == Flatten(cs, n);
  }

  /** Appending chunk n to the first n chunks gives the first n + 1. */
  lemma FlattenStep<T>(cs: seq<seq<T>>, n: nat, c: seq<T>)
    requires n < |cs| && c == cs[n]
    ensures Flatten(cs, n) + c == Flatten(cs, n + 1)
  {
  }

  /** The buffer is the objects' chunks laid end to end. */
  lemma {:induction false} BufferIsFlatten(objs: seq<RenderObject>, n: nat, m: Maths)
    requires n <= |objs| && AllVerticesDefined(objs)
    ensures VertexBufferUpTo(objs, n, m) == Flatten(Chunks(objs, m), n)
  {
    if n > 0 {
      var i := n - 1;
      var cs := Chunks(objs, m);
      BufferIsFlatten(objs, i, m);
      FlattenStep(cs, i, cs[i]);
      assert cs[i] == ObjectVertices(objs[i], m);
    }
  }

  /** A later prefix of chunks extends every earlier one. */
  lemma {:induction false} FlattenPrefix<T>(cs: seq<seq<T>>, k: nat, n: nat)
    requires k <= n <= |cs|
    ensures Flatten(cs, k) <= Flatten(cs, n)
    decreases n - k
  {
    if k < n {
      FlattenPrefix(cs, k, n - 1);
    }
  }

  /** Chunk k sits in every longer flattening right after the first k chunks. */
  lemma {:induction false} FlattenChunkAt<T>(cs: seq<seq<T>>, k: nat, n: nat)
    requires k < n <= |cs|
    ensures |Flatten(cs, k)| + |cs[k]| <= |Flatten(cs, n)|
    ensures Flatten(cs, n)[|Flatten(cs, k)| .. |Flatten(cs, k)| + |cs[k]|] == cs[k]
    decreases n
  {
    var a := |Flatten(cs, k)|;
    if n == k + 1 {
      assert Flatten(cs, n) == Flatten(cs, k) + cs[k];
    } else {
      FlattenChunkAt(cs, k, n - 1);
      assert Flatten(cs, n) == Flatten(cs, n - 1) + cs[n - 1];
      assert Flatten(cs, n)[a .. a + |cs[k]|] == Flatten(cs, n - 1)[a .. a + |cs[k]|];
    }
  }

  /** A later buffer extends every earlier one. */
  lemma BufferPrefix(objs: seq<RenderObject>, k: nat, n: nat, m: Maths)
    requires k <= n <= |objs| && AllVerticesDefined(objs)
    ensures VertexBufferUpTo(objs, k, m) <= VertexBufferUpTo(objs, n, m)
  {
    FlattenPrefix(Chunks(objs, m), k, n);
    BufferIsFlatten(objs, k, m);
    BufferIsFlatten(objs, n, m);
  }

  // ---------------------------------------------------------------------
  // Runs and draws
  // ---------------------------------------------------------------------

  /** The object's program exists and compiled (a zero program id marks a failed compile). */
  predicate Resolves(o: RenderObject, shaders: map<nat, nat>)
  {
    EffectiveShader(o) in shaders && shaders[EffectiveShader(o)] != 0
  }

  /** Objects that get a draw call. */
  predicate Drawn(o: RenderObject, shaders: map<nat, nat>)
  {
    o.visible && Resolves(o, shaders)
  }

  /** `isSameBatch`: may `o` join the run opened by `first`? */
  predicate SameBatch(first: RenderObject, o: RenderObject)
  {
    o.visible && EffectiveShader(o) == EffectiveShader(first) &&
    o.textureId == first.textureId && o.scissorRect == first.scissorRect &&
    (o.kind == Line && first.kind == Line ==> o.lineMode == first.lineMode && o.lineWidth == first.lineWidth)
  }

  /** A run of objects `start .. end-1` drawn with one program and one scissor. */
  datatype Run = Run(start: nat, end: nat, program: nat)

  /** One `glDrawArrays(GL_TRIANGLES, first, count)` for object `index`. */
  datatype Draw = Draw(index: nat, first: int, count: int)

  /** The vertex offset reached before object n: the counts of all drawn objects before it. */
  function DrawnOffset(objs: seq<RenderObject>, shaders: map<nat, nat>, n: nat): int
    requires n <= |objs|
  {
    if n == 0 then 0
    else DrawnOffset(objs, shaders, n - 1) + (if Drawn(objs[n - 1], shaders) then DrawCount(objs[n - 1]) else 0)
  }

  predicate InRun(r: Run, k: nat) { r.start <= k < r.end }

  predicate Covered(runs: seq<Run>, k: nat)
  {
    exists r :: 0 <= r < |runs| && InRun(runs[r], k)
  }

  /** A run as `RenderObjects` opens it: at a drawn object, extended while `isSameBatch` holds. */
  predicate WellFormedRun(objs: seq<RenderObject>, shaders: map<nat, nat>, r: Run)
  {
    r.start < r.end <= |objs| &&
    Drawn(objs[r.start], shaders) && r.program == shaders[EffectiveShader(objs[r.start])] &&
    (forall k :: r.start <= k < r.end ==> SameBatch(objs[r.start], objs[k])) &&
    (r.end == |objs| || !SameBatch(objs[r.start], objs[r.end]))
  }

  /** Every draw is for a drawn object, at the offset reached before it, with its vertex count. */
  predicate DrawFor(objs: seq<RenderObject>, shaders: map<nat, nat>, d: Draw)
  {
    d.index < |objs| && Drawn(objs[d.index], shaders) &&
    d.first == DrawnOffset(objs, shaders, d.index) && d.count == DrawCount(objs[d.index])
  }

  predicate HasDraw(draws: seq<Draw>, k: nat)
  {
    exists d :: 0 <= d < |draws| && draws[d].index == k
  }

  /** The runs opened among the first i objects: well formed, in order, covering exactly the drawn ones. */
  predicate RunsUpTo(objs: seq<RenderObject>, shaders: map<nat, nat>, runs: seq<Run>, i: nat)
  {
    i <= |objs| &&
    (forall r :: 0 <= r < |runs| ==> WellFormedRun(objs, shaders, runs[r]) && runs[r].end <= i) &&
    (forall a, b :: 0 <= a < b < |runs| ==> runs[a].end <= runs[b].start) &&
    (forall k :: 0 <= k < i ==> (Covered(runs, k) <==> Drawn(objs[k], shaders)))
  }

  /** The draws issued for the first i objects: one per drawn object, in order, at the running offset. */
  predicate DrawsUpTo(objs: seq<RenderObject>, shaders: map<nat, nat>, draws: seq<Draw>, i: nat)
  {
    i <= |objs| &&
    (forall d :: 0 <= d < |draws| ==> DrawFor(objs, shaders, draws[d]) && draws[d].index < i) &&
    (forall a, b :: 0 <= a < b < |draws| ==> draws[a].index < draws[b].index) &&
    (forall k :: 0 <= k < i && Drawn(objs[k], shaders) ==> HasDraw(draws, k))
  }

  /** The draw calls for the first n objects, one per drawn object, in list order. */
  function DrawList(objs: seq<RenderObject>, shaders: map<nat, nat>, n: nat): seq<Draw>
    requires n <= |objs|
  {
    if n == 0 then []
    else DrawList(objs, shaders, n - 1) +
         (if Drawn(objs[n - 1], shaders) then [Draw(n - 1, DrawnOffset(objs, shaders, n - 1), DrawCount(objs[n - 1]))] else [])
  }

  /**
   * What the batch walk produces. Runs are well formed, in order and
   * disjoint; an object lies in a run exactly when it is visible and its
   * program resolves; draws go out one per such object, in list order, each
   * at the offset the earlier draws reached.
   */
  predicate BatchPlan(objs: seq<RenderObject>, shaders: map<nat, nat>, runs: seq<Run>, draws: seq<Draw>)
  {
    RunsUpTo(objs, shaders, runs, |objs|) && DrawsUpTo(objs, shaders, draws, |objs|)
  }

  /**
   * The batch walk of `RenderObjects`: `i` walks the list, `batchEnd`
   * extends each run and `vertexOffset` advances with every draw.
   */
  method PlanBatches(objs: seq<RenderObject>, shaders: map<nat, nat>) returns (runs: seq<Run>, draws: seq<Draw>)
    ensures BatchPlan(objs, shaders, runs, draws)
    ensures draws == DrawList(objs, shaders, |objs|)
  {
    runs, draws := [], [];
    var vertexOffset := 0;
    var i := 0;
    while i < |objs|
      invariant RunsUpTo(objs, shaders, runs, i)
      invariant draws == DrawList(objs, shaders, i) && vertexOffset == DrawnOffset(objs, shaders, i)
    {
      var first := objs[i];
      if !first.visible {
        SkipObject(objs, shaders, runs, i);
        i := i + 1;
        continue;
      }
      var program := EffectiveShader(first);
      if program !in shaders || shaders[program] == 0 {
        SkipObject(objs, shaders, runs, i);
        i := i + 1;
        continue;
      }
      var batchEnd := ScanBatch(objs, i);
      var run := Run(i, batchEnd, shaders[program]);
      AppendRun(objs, shaders, runs, run);
      runs := runs + [run];
      draws, vertexOffset := EmitDraws(objs, shaders, run, draws, vertexOffset);
      i := batchEnd;
    }
    DrawListCovers(objs, shaders, i);
  }

  /** An object that is not drawn opens no run. */
  lemma SkipObject(objs: seq<RenderObject>, shaders: map<nat, nat>, runs: seq<Run>, i: nat)
    requires i < |objs| && !Drawn(objs[i], shaders) && RunsUpTo(objs, shaders, runs, i)
    ensures RunsUpTo(objs, shaders, runs, i + 1)
  {
  }

  /** The end of the run opened at `start`: the first later object that may not join it. */
  method ScanBatch(objs: seq<RenderObject>, start: nat) returns (batchEnd: nat)
    requires start < |objs| && objs[start].visible
    ensures start < batchEnd <= |objs|
    ensures forall k :: start <= k < batchEnd ==> SameBatch(objs[start], objs[k])
    ensures batchEnd == |objs| || !SameBatch(objs[start], objs[batchEnd])
  {
    var first := objs[start];
    assert SameBatch(first, first);
    batchEnd := start;
    while batchEnd < |objs| && SameBatch(first, objs[batchEnd])
      invariant start <= batchEnd <= |objs|
      invariant forall k :: start <= k < batchEnd ==> SameBatch(first, objs[k])
    {
      batchEnd := batchEnd + 1;
    }
  }

  /** The draws of one run: one per object, each at the offset the earlier draws reached. */
  method EmitDraws(objs: seq<RenderObject>, shaders: map<nat, nat>, run: Run, draws0: seq<Draw>, offset0: int)
    returns (draws: seq<Draw>, vertexOffset: int)
    requires WellFormedRun(objs, shaders, run)
    requires draws0 == DrawList(objs, shaders, run.start) && offset0 == DrawnOffset(objs, shaders, run.start)
    ensures draws == DrawList(objs, shaders, run.end) && vertexOffset == DrawnOffset(objs, shaders, run.end)
  {
    draws, vertexOffset := draws0, offset0;
    var j := run.start;
    while j < run.end
      invariant run.start <= j <= run.end
      invariant draws == DrawList(objs, shaders, j) && vertexOffset == DrawnOffset(objs, shaders, j)
    {
      var obj := objs[j];
      if obj.visible {
        assert SameBatch(objs[run.start], obj);
        draws := draws + [Draw(j, vertexOffset, DrawCount(obj))];
        vertexOffset := vertexOffset + DrawCount(obj);
      }
      j := j + 1;
    }
  }

  /** The draw list covers each drawn object once, in order, at the running offset. */
  lemma {:induction false} DrawListCovers(objs: seq<RenderObject>, shaders: map<nat, nat>, n: nat)
    requires n <= |objs|
    ensures DrawsUpTo(objs, shaders, DrawList(objs, shaders, n), n)
  {
    if n > 0 {
      var i := n - 1;
      DrawListCovers(objs, shaders, i);
      if Drawn(objs[i], shaders) {
        AppendDraw(objs, shaders, DrawList(objs, shaders, i), Draw(i, DrawnOffset(objs, shaders, i), DrawCount(objs[i])), n);
      } else {
        assert DrawList(objs, shaders, n) == DrawList(objs, shaders, i);
      }
    }
  }

  /** Issuing the draw of the next drawn object extends the draws to cover it. */
  lemma AppendDraw(objs: seq<RenderObject>, shaders: map<nat, nat>, draws: seq<Draw>, d: Draw, n: nat)
    requires 0 < n <= |objs| && d.index == n - 1
    requires DrawsUpTo(objs, shaders, draws, n - 1) && DrawFor(objs, shaders, d)
    ensures DrawsUpTo(objs, shaders, draws + [d], n)
  {
    var all := draws + [d];
    forall k | 0 <= k < n && Drawn(objs[k], shaders)
      ensures HasDraw(all, k)
    {
      if k == d.index {
        assert all[|draws|].index == k;
      } else {
        var e :| 0 <= e < |draws| && draws[e].index == k;
        assert all[e].index == k;
      }
    }
  }

  /** Appending a well-formed run that starts at `run.start` extends coverage by exactly its objects. */
  lemma AppendRun(objs: seq<RenderObject>, shaders: map<nat, nat>, runs: seq<Run>, run: Run)
    requires WellFormedRun(objs, shaders, run) && RunsUpTo(objs, shaders, runs, run.start)
    ensures RunsUpTo(objs, shaders, runs + [run], run.end)
  {
    var all := runs + [run];
    forall k | 0 <= k < run.end
      ensures Covered(all, k) <==> Drawn(objs[k], shaders)
    {
      if k < run.start {
        if Covered(all, k) {
          var r :| 0 <= r < |all| && InRun(all[r], k);
          assert r < |runs| && InRun(runs[r], k);
        }
        if Covered(runs, k) {
          var r :| 0 <= r < |runs| && InRun(runs[r], k);
          assert InRun(all[r], k);
        }
      } else {
        assert InRun(all[|runs|], k);
        assert SameBatch(objs[run.start], objs[k]);
      }
    }
  }

  // ---------------------------------------------------------------------
  // Vertex offsets against the buffer
  // ---------------------------------------------------------------------

  /**
   * How many more vertices an object puts into the buffer than the draw
   * walk advances the offset for it. Zero means the two agree.
   */
  function Surplus(o: RenderObject, shaders: map<nat, nat>, m: Maths): int
    requires VerticesDefined(o)
  {
    |ObjectVertices(o, m)| - (if Drawn(o, shaders) then DrawCount(o) else 0)
  }

  function TotalSurplus(objs: seq<RenderObject>, shaders: map<nat, nat>, m: Maths, n: nat): int
    requires n <= |objs| && AllVerticesDefined(objs)
  {
    if n == 0 then 0 else TotalSurplus(objs, shaders, m, n - 1) + Surplus(objs[n - 1], shaders, m)
  }

  /** Where object n starts in the buffer is its draw offset plus the surplus of everything before it. */
  lemma {:induction false} BufferOffsetGap(objs: seq<RenderObject>, shaders: map<nat, nat>, m: Maths, n: nat)
    requires n <= |objs| && AllVerticesDefined(objs)
    ensures |VertexBufferUpTo(objs, n, m)| == DrawnOffset(objs, shaders, n) + TotalSurplus(objs, shaders, m, n)
  {
    if n > 0 {
      var i := n - 1;
      BufferOffsetGap(objs, shaders, m, i);
    }
  }

  /**
   * When no object up to and including a drawn object k has a surplus, its
   * draw reads exactly its own vertices from the buffer.
   */
  lemma DrawReadsOwnVertices(objs: seq<RenderObject>, shaders: map<nat, nat>, m: Maths, k: nat)
    requires k < |objs| && AllVerticesDefined(objs) && Drawn(objs[k], shaders)
    requires forall j :: 0 <= j <= k ==> Surplus(objs[j], shaders, m) == 0
    ensures var buffer := VertexBufferUpTo(objs, |objs|, m); var start := DrawnOffset(objs, shaders, k);
      0 <= start <= start + DrawCount(objs[k]) <= |buffer| &&
      buffer[start .. start + DrawCount(objs[k])] == ObjectVertices(objs[k], m)
  {
    var cs := Chunks(objs, m);
    var n := |objs|;
    NoSurplusUpTo(objs, shaders, m, k);
    BufferOffsetGap(objs, shaders, m, k);
    BufferIsFlatten(objs, k, m);
    BufferIsFlatten(objs, n, m);
    var start := |Flatten(cs, k)|;
    assert start == DrawnOffset(objs, shaders, k);
    assert |cs[k]| == DrawCount(objs[k]) by {
      assert Surplus(objs[k], shaders, m) == 0;
    }
    FlattenChunkAt(cs, k, n);
  }

  lemma {:induction false} NoSurplusUpTo(objs: seq<RenderObject>, shaders: map<nat, nat>, m: Maths, n: nat)
    requires n <= |objs| && AllVerticesDefined(objs)
    requires forall j :: 0 <= j < n ==> Surplus(objs[j], shaders, m) == 0
    ensures TotalSurplus(objs, shaders, m, n) == 0
  {
    if n > 0 {
      var i := n - 1;
      NoSurplusUpTo(objs, shaders, m, i);
    }
  }

  /** A visible quad or glyph whose program does not resolve is skipped yet leaves its six vertices behind. */
  lemma UnresolvedQuadHasSurplus(o: RenderObject, shaders: map<nat, nat>, m: Maths)
    requires VerticesDefined(o) && o.visible && o.kind != Line && !Resolves(o, shaders)
    ensures Surplus(o, shaders, m) == 6
  {
    ObjectVertexCount(o, m);
  }

  /**
   * Every later draw is shifted: after a skipped rectangle with shader 7
   * (only program 1 loaded), the next rectangle is drawn from offset 0 while
   * its vertices start at 6.
   */
  lemma SkippedObjectShiftsLaterDraws(base: RenderObject, m: Maths)
    requires base.kind == Rect && base.visible
    ensures var objs := [base.(shaderId := 7), base.(shaderId := 0)]; var shaders := map[1 := 10];
      AllVerticesDefined(objs) && Drawn(objs[1], shaders) && !Drawn(objs[0], shaders) &&
      DrawnOffset(objs, shaders, 1) == 0 && |VertexBufferUpTo(objs, 1, m)| == 6
  {
    var objs := [base.(shaderId := 7), base.(shaderId := 0)];
    assert EffectiveShader(objs[1]) == 1;
    assert VertexBufferUpTo(objs, 1, m) == ObjectVertices(objs[0], m);
    ObjectVertexCount(objs[0], m);
  }

  /** A straight line with no degenerate segment, its stored count fresh from AddLine, has no surplus. */
  lemma CleanLineHasNoSurplus(o: RenderObject, shaders: map<nat, nat>, m: Maths)
    requires o.kind == Line && o.visible && Resolves(o, shaders) && o.triCount == LineTriCount(o, m)
    requires var ps := PathPoints(o, m); forall j :: 0 <= j < |ps| - 1 ==> !Degenerate(ps[j], ps[j + 1], m)
    ensures Surplus(o, shaders, m) == 0
  {
    LineVerticesMatchTriCount(o, m);
  }

  /**
   * A drawn curved line with at least two intervals asks for more vertices
   * than it put into the buffer, so its draw and every later draw read
   * vertices of the objects after it.
   */
  lemma CurvedLineHasDeficit(o: RenderObject, shaders: map<nat, nat>, m: Maths)
    requires SqrtSound(m) && o.kind == Line && o.lineMode == Curved && Drawn(o, shaders)
    requires o.triCount == LineTriCount(o, m) && |CurveKnots(o, m)| >= 3
    ensures Surplus(o, shaders, m) < 0
  {
    CurvedLineHasPhantomSegment(o, m);
  }
}
