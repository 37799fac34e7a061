/**
 * The container/clip arithmetic of `DuckerNative_BeginContainer`: a
 * container's rectangle is shifted by the enclosing container's offset,
 * intersected with the enclosing scissor rectangle and clamped to a
 * non-negative size. The stacks themselves live in `Renderer.RendererState`.
 */
module Clip {
  import opened Wrappers
  import opened Types

  function Max(a: real, b: real): real { if a < b then b else a }
  function Min(a: real, b: real): real { if b < a then b else a }

  /** A pixel position is inside a rectangle (left and top edges included, right and bottom excluded). */
  predicate InRect(p: Vec2, r: RectF)
  {
    r.x <= p.x < r.x + r.w && r.y <= p.y < r.y + r.h
  }

  /** The offset new containers inherit: the innermost container's, or none at top level. */
  function CurrentOffset(containers: seq<Vec2>): Vec2
  {
    if containers == [] then Vec2(0.0, 0.0) else containers[|containers| - 1]
  }

  /** The container's rectangle in screen space. */
  function Shifted(bounds: RectF, offset: Vec2): RectF
  {
    RectF(bounds.x + offset.x, bounds.y + offset.y, bounds.w, bounds.h)
  }

  /** The offset the new container pushes: its own corner in screen space. */
  function ChildOffset(bounds: RectF, offset: Vec2): (r: Vec2)
    ensures r.x - offset.x == bounds.x && r.y - offset.y == bounds.y
  {
    Vec2(bounds.x + offset.x, bounds.y + offset.y)
  }

  /**
   * The scissor rectangle the new container pushes: the shifted rectangle,
   * cut to the parent scissor when there is one, with width and height
   * clamped at zero.
   */
  function ChildScissor(bounds: RectF, offset: Vec2, parent: Option<RectF>): (r: RectF)
    ensures r.w >= 0.0 && r.h >= 0.0
  {
    var s := Shifted(bounds, offset);
    var cut :=
      if parent.None? then s
      else
        var q := parent.value;
        var x, y := Max(s.x, q.x), Max(s.y, q.y);
        RectF(x, y, Min(s.x + s.w, q.x + q.w) - x, Min(s.y + s.h, q.y + q.h) - y);
    RectF(cut.x, cut.y, Max(0.0, cut.w), Max(0.0, cut.h))
  }

  /** The innermost scissor, if any. */
  function CurrentScissor(scissors: seq<RectF>): Option<RectF>
  {
    if scissors == [] then None else Some(scissors[|scissors| - 1])
  }

  /**
   * The pushed scissor is exactly the intersection: a point lies in it if and
   * only if it lies in the shifted container rectangle and in the parent
   * scissor (in the shifted rectangle alone at top level).
   */
  lemma ChildScissorIsIntersection(bounds: RectF, offset: Vec2, parent: Option<RectF>, p: Vec2)
    ensures InRect(p, ChildScissor(bounds, offset, parent)) <==>
      InRect(p, Shifted(bounds, offset)) && (parent.Some? ==> InRect(p, parent.value))
  {
  }

  /** Nesting only ever shrinks the clip: every point of the child scissor is in the parent's. */
  lemma ChildScissorWithinParent(bounds: RectF, offset: Vec2, parent: RectF, p: Vec2)
    requires InRect(p, ChildScissor(bounds, offset, Some(parent)))
    ensures InRect(p, parent)
  {
    ChildScissorIsIntersection(bounds, offset, Some(parent), p);
  }

  /**
   * Opening a container makes its corner, shifted by the enclosing offset,
   * the current offset and its clipped rectangle the current scissor;
   * closing it again brings back the enclosing container's offset and
   * scissor.
   */
  lemma ContainerPushPop(containers: seq<Vec2>, scissors: seq<RectF>, bounds: RectF)
    ensures var offset := CurrentOffset(containers);
      var pushedOffsets := containers + [ChildOffset(bounds, offset)];
      var pushedScissors := scissors + [ChildScissor(bounds, offset, CurrentScissor(scissors))];
      CurrentOffset(pushedOffsets) == Vec2(offset.x + bounds.x, offset.y + bounds.y) &&
      CurrentScissor(pushedScissors) == Some(ChildScissor(bounds, offset, CurrentScissor(scissors))) &&
      CurrentOffset(pushedOffsets[..|pushedOffsets| - 1]) == offset &&
      CurrentScissor(pushedScissors[..|pushedScissors| - 1]) == CurrentScissor(scissors)
  {
    var offset := CurrentOffset(containers);
    assert (containers + [ChildOffset(bounds, offset)])[..|containers|] == containers;
    assert (scissors + [ChildScissor(bounds, offset, CurrentScissor(scissors))])[..|scissors|] == scissors;
  }

  /** A container (0,0,100,100) holding a container (50,50,100,100) clips its children to (50,50,50,50). */
  lemma NestedContainerExample()
    ensures var outer := RectF(0.0, 0.0, 100.0, 100.0);
      var top := ChildScissor(outer, CurrentOffset([]), None);
      var inner := ChildScissor(RectF(50.0, 50.0, 100.0, 100.0), CurrentOffset([ChildOffset(outer, Vec2(0.0, 0.0))]), Some(top));
      top == outer && inner == RectF(50.0, 50.0, 50.0, 50.0)
  {
    var outer := RectF(0.0, 0.0, 100.0, 100.0);
    assert CurrentOffset([]) == Vec2(0.0, 0.0);
    assert ChildScissor(outer, Vec2(0.0, 0.0), None) == outer;
    var off := ChildOffset(outer, Vec2(0.0, 0.0));
    assert off == Vec2(0.0, 0.0);
    assert CurrentOffset([off]) == off;
    assert Shifted(RectF(50.0, 50.0, 100.0, 100.0), off) == RectF(50.0, 50.0, 100.0, 100.0);
  }
}
