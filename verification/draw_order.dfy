/**
 * The draw order `DuckerNative_Render` sorts by: z-index, then effective
 * shader, then texture, then (between two lines) mode and width, then the
 * scissor rectangle. The scissor bytes compared by `memcmp` are replaced by
 * a lexicographic order on (x, y, w, h). The two differ: on a little-endian
 * machine `memcmp` puts 2.0f (00 00 00 40) before 1.0f (00 00 80 3F). The
 * properties stated here hold for any strict order on rectangles, except
 * where one names particular rectangles; `DrawLessHasCycle` is stated for
 * any three rectangles in increasing order, whichever order that is.
 */
module DrawOrder {
  import opened Types

  /** Strict lexicographic order on rectangles, standing in for the byte comparison. */
  predicate ScissorLess(a: RectF, b: RectF)
  {
    if a.x != b.x then a.x < b.x
    else if a.y != b.y then a.y < b.y
    else if a.w != b.w then a.w < b.w
    else a.h < b.h
  }

  /** The sort comparator: true when `a` must be drawn before `b`. */
  predicate DrawLess(a: RenderObject, b: RenderObject)
  {
    if a.zIndex != b.zIndex then a.zIndex < b.zIndex
    else if EffectiveShader(a) != EffectiveShader(b) then EffectiveShader(a) < EffectiveShader(b)
    else if a.textureId != b.textureId then a.textureId < b.textureId
    else if a.kind == Line && b.kind == Line && a.lineMode != b.lineMode then
      LineModeOrdinal(a.lineMode) < LineModeOrdinal(b.lineMode)
    else if a.kind == Line && b.kind == Line && a.lineWidth != b.lineWidth then
      a.lineWidth < b.lineWidth
    else ScissorLess(a.scissorRect, b.scissorRect)
  }

  /** The comparator is irreflexive and asymmetric. */
  lemma DrawLessAsymmetric(a: RenderObject, b: RenderObject)
    ensures !DrawLess(a, a)
    ensures DrawLess(a, b) ==> !DrawLess(b, a)
  {
  }

  /**
   * The comparator is not a strict weak order: two lines and a rectangle
   * sharing z-index, a custom shader and texture form a cycle, because the
   * line-only keys are skipped when a line meets a rectangle. `std::sort` is
   * not defined for such a comparator. Any three scissors `a`, `b`, `c` in
   * increasing order do; for instance x = 0, 1 and 1.5 with the other sides
   * equal, which the byte comparison orders the same way.
   */
  lemma DrawLessHasCycle(base: RenderObject, a: RectF, b: RectF, c: RectF)
    requires ScissorLess(a, b) && ScissorLess(b, c)
    ensures var curved := base.(kind := Line, lineMode := Curved, shaderId := 100, scissorRect := a);
      var straight := base.(kind := Line, lineMode := Straight, shaderId := 100, scissorRect := c);
      var rect := base.(kind := Rect, shaderId := 100, scissorRect := b);
      DrawLess(straight, curved) && DrawLess(curved, rect) && DrawLess(rect, straight)
  {
  }

  /** No two neighbours are out of order: the weakest notion of "sorted" that needs no transitivity. */
  predicate AdjacentOrdered(s: seq<RenderObject>)
  {
    forall i :: 0 < i < |s| ==> !DrawLess(s[i], s[i - 1])
  }

  /**
   * The sort: a permutation of the objects with no neighbours out of order.
   * Inserting each object after the last one that must not follow it keeps
   * equal objects in their arrival order.
   */
  method SortByDrawOrder(s: seq<RenderObject>) returns (r: seq<RenderObject>)
    ensures multiset(r) == multiset(s)
    ensures AdjacentOrdered(r)
  {
    r := [];
    var i := 0;
    while i < |s|
      invariant 0 <= i <= |s|
      invariant multiset(r) == multiset(s[..i])
      invariant AdjacentOrdered(r)
    {
      r := Insert(r, s[i]);
      assert s[..i + 1] == s[..i] + [s[i]];
      i := i + 1;
    }
    assert s[..i] == s;
  }

  /** Inserts `x` after the last element it does not precede. */
  method Insert(r: seq<RenderObject>, x: RenderObject) returns (t: seq<RenderObject>)
    requires AdjacentOrdered(r)
    ensures multiset(t) == multiset(r) + multiset{x}
    ensures AdjacentOrdered(t)
  {
    var j := |r|;
    while j > 0 && DrawLess(x, r[j - 1])
      invariant 0 <= j <= |r|
      invariant forall k :: j <= k < |r| ==> DrawLess(x, r[k])
      decreases j
    {
      j := j - 1;
    }
    t := r[..j] + [x] + r[j..];
    InsertedAt(r, x, j);
    SpliceMultiset(r, x, j);
  }

  /** Putting `x` at a position where it follows its left neighbour and precedes its right one keeps the order. */
  lemma InsertedAt(r: seq<RenderObject>, x: RenderObject, j: nat)
    requires AdjacentOrdered(r) && j <= |r|
    requires j > 0 ==> !DrawLess(x, r[j - 1])
    requires j < |r| ==> DrawLess(x, r[j])
    ensures AdjacentOrdered(r[..j] + [x] + r[j..])
  {
    SliceOrdered(r, 0, j);
    SliceOrdered(r, j, |r|);
    ConcatOrdered(r[..j], [x]);
    if j < |r| {
      DrawLessAsymmetric(x, r[j]);
    }
    ConcatOrdered(r[..j] + [x], r[j..]);
  }

  lemma SpliceMultiset<T>(r: seq<T>, x: T, j: nat)
    requires j <= |r|
    ensures multiset(r[..j] + [x] + r[j..]) == multiset(r) + multiset{x}
  {
    assert r == r[..j] + r[j..];
  }

  /** A slice of an ordered list is ordered. */
  lemma SliceOrdered(r: seq<RenderObject>, i: nat, j: nat)
    requires AdjacentOrdered(r) && i <= j <= |r|
    ensures AdjacentOrdered(r[i..j])
  {
    forall k | 0 < k < j - i ensures !DrawLess(r[i..j][k], r[i..j][k - 1]) {
      assert r[i..j][k] == r[i + k] && r[i..j][k - 1] == r[i + k - 1];
    }
  }

  /** Two ordered lists joined where the seam is in order form an ordered list. */
  lemma ConcatOrdered(a: seq<RenderObject>, b: seq<RenderObject>)
    requires AdjacentOrdered(a) && AdjacentOrdered(b)
    requires |a| > 0 && |b| > 0 ==> !DrawLess(b[0], a[|a| - 1])
    ensures AdjacentOrdered(a + b)
  {
    forall k | 0 < k < |a + b| ensures !DrawLess((a + b)[k], (a + b)[k - 1]) {
      if k < |a| {
        assert (a + b)[k] == a[k] && (a + b)[k - 1] == a[k - 1];
      } else if k == |a| {
        assert (a + b)[k] == b[0] && (a + b)[k - 1] == a[|a| - 1];
      } else {
        assert (a + b)[k] == b[k - |a|] && (a + b)[k - 1] == b[k - |a| - 1];
      }
    }
  }

  /**
   * Neighbour order is enough for the order the batches rely on, all through
   * the list: z-index never decreases; among equal z-indices the effective
   * shader never decreases; among equal z-index and shader the texture never
   * decreases.
   */
  lemma {:induction false} SortedKeysMonotone(s: seq<RenderObject>, i: nat, j: nat)
    requires AdjacentOrdered(s) && i <= j < |s|
    ensures s[i].zIndex <= s[j].zIndex
    ensures s[i].zIndex == s[j].zIndex ==> EffectiveShader(s[i]) <= EffectiveShader(s[j])
    ensures s[i].zIndex == s[j].zIndex && EffectiveShader(s[i]) == EffectiveShader(s[j]) ==>
      s[i].textureId <= s[j].textureId
    decreases j - i
  {
    if i < j {
      SortedKeysMonotone(s, i + 1, j);
      assert !DrawLess(s[i + 1], s[i]);
      if s[i].zIndex == s[j].zIndex {
        SortedKeysMonotone(s, i, j - 1);
        SortedKeysMonotone(s, i + 1, j);
        assert s[i].zIndex == s[i + 1].zIndex;
        if EffectiveShader(s[i]) == EffectiveShader(s[j]) {
          assert EffectiveShader(s[i]) == EffectiveShader(s[i + 1]);
        }
      }
    }
  }
}
