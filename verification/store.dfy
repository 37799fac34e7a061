/**
 * The object store of `RendererState` as values: the dense `objects` list,
 * the `objectIdToIndex` map that must agree with it, and the three ways the
 * renderer changes them (append with a fresh id, swap-with-last removal,
 * and the index rebuild after the draw-order sort).
 */
module ObjectStore {
  import opened Types
  import opened DrawOrder

  /** The index map and the list agree both ways. */
  predicate Indexed(objects: seq<RenderObject>, index: map<nat, nat>)
  {
    (forall i :: 0 <= i < |objects| ==> objects[i].id in index && index[objects[i].id] == i) &&
    (forall id :: id in index ==> index[id] < |objects| && objects[index[id]].id == id)
  }

  /** The ids present in the list. */
  function Ids(objects: seq<RenderObject>): set<nat>
  {
    set i | 0 <= i < |objects| :: objects[i].id
  }

  predicate DistinctIds(objects: seq<RenderObject>)
  {
    forall i, j :: 0 <= i < j < |objects| ==> objects[i].id != objects[j].id
  }

  /** Every id in the list is positive and below the next id to hand out. */
  predicate IdsBelow(objects: seq<RenderObject>, next: nat)
  {
    forall i :: 0 <= i < |objects| ==> 0 < objects[i].id < next
  }

  /** An index that agrees with the list has exactly the list's ids as keys, and no id twice. */
  lemma IndexedKeys(objects: seq<RenderObject>, index: map<nat, nat>)
    requires Indexed(objects, index)
    ensures index.Keys == Ids(objects)
    ensures DistinctIds(objects)
  {
    forall id | id in index ensures id in Ids(objects) {
      var k := index[id];
      assert objects[k].id == id;
    }
  }

  // ---------------------------------------------------------------------
  // Append
  // ---------------------------------------------------------------------

  /** The object `AddObjectInternal` stores: the caller's object with its new id and scissor. */
  function Stamped(obj: RenderObject, id: nat, scissor: RectF): (o: RenderObject)
    ensures o.id == id && o.scissorRect == scissor
    ensures o.(id := obj.id, scissorRect := obj.scissorRect) == obj
  {
    obj.(id := id, scissorRect := scissor)
  }

  /** Appending an object with a fresh id at the old length keeps the index exact. */
  lemma AddKeepsIndexed(objects: seq<RenderObject>, index: map<nat, nat>, next: nat, o: RenderObject)
    requires Indexed(objects, index) && IdsBelow(objects, next) && next > 0 && o.id == next
    ensures Indexed(objects + [o], index[next := |objects|])
    ensures IdsBelow(objects + [o], next + 1)
  {
    var s := objects + [o];
    var m := index[next := |objects|];
    forall i | 0 <= i < |s| ensures s[i].id in m && m[s[i].id] == i {
      if i < |objects| {
        assert s[i] == objects[i];
      }
    }
    forall id | id in m ensures m[id] < |s| && s[m[id]].id == id {
      if id != next {
        assert id in index;
        assert s[index[id]] == objects[index[id]];
      }
    }
  }

  /** Dropping ids keeps every remaining one below the counter. */
  lemma IdsBelowSubset(a: seq<RenderObject>, b: seq<RenderObject>, next: nat)
    requires IdsBelow(a, next) && Ids(b) <= Ids(a)
    ensures IdsBelow(b, next)
  {
    forall i | 0 <= i < |b| ensures 0 < b[i].id < next {
      assert b[i].id in Ids(b);
      var p :| 0 <= p < |a| && a[p].id == b[i].id;
    }
  }

  // ---------------------------------------------------------------------
  // Swap-with-last removal
  // ---------------------------------------------------------------------

  /** The list after removing position k: the last object moves into the hole. */
  function SwapRemove(objects: seq<RenderObject>, k: nat): (r: seq<RenderObject>)
    requires k < |objects|
    ensures |r| == |objects| - 1
  {
    objects[k := objects[|objects| - 1]][..|objects| - 1]
  }

  /** The index after removing `id`: the moved object gets the hole's position, `id` is erased. */
  function SwapRemoveIndex(objects: seq<RenderObject>, index: map<nat, nat>, id: nat): map<nat, nat>
    requires id in index && objects != []
  {
    index[objects[|objects| - 1].id := index[id]] - {id}
  }

  /**
   * Removal keeps the index exact, drops exactly the removed object from
   * the multiset of objects, and leaves every other id in place.
   */
  lemma RemoveKeepsIndexed(objects: seq<RenderObject>, index: map<nat, nat>, id: nat)
    requires Indexed(objects, index) && id in index
    ensures var k := index[id]; var r := SwapRemove(objects, k);
      Indexed(r, SwapRemoveIndex(objects, index, id)) &&
      multiset(r) == multiset(objects) - multiset{objects[k]} &&
      Ids(r) == Ids(objects) - {id}
  {
    IndexedKeys(objects, index);
    RemovedIndexExact(objects, index, id);
    RemovedMultiset(objects, index[id]);
    RemovedIds(objects, index, id);
  }

  lemma RemovedIndexExact(objects: seq<RenderObject>, index: map<nat, nat>, id: nat)
    requires Indexed(objects, index) && id in index && DistinctIds(objects)
    ensures Indexed(SwapRemove(objects, index[id]), SwapRemoveIndex(objects, index, id))
  {
    var k := index[id];
    var last := |objects| - 1;
    var r := SwapRemove(objects, k);
    var m := SwapRemoveIndex(objects, index, id);
    forall i | 0 <= i < |r| ensures r[i].id in m && m[r[i].id] == i {
      if i == k {
        assert r[i] == objects[last];
        assert objects[last].id != id;
      } else {
        assert r[i] == objects[i];
        assert objects[i].id != id && objects[i].id != objects[last].id;
      }
    }
    forall x | x in m ensures m[x] < |r| && r[m[x]].id == x {
      if x == objects[last].id {
        assert k != last;
      } else {
        assert x in index && index[x] != k && index[x] != last;
      }
    }
  }

  lemma RemovedMultiset(objects: seq<RenderObject>, k: nat)
    requires k < |objects|
    ensures multiset(SwapRemove(objects, k)) == multiset(objects) - multiset{objects[k]}
  {
    SwapLastMultiset(objects, k);
  }

  /** Overwriting slot k with the last element and dropping the last slot removes one copy of the old slot k. */
  lemma SwapLastMultiset<T>(s: seq<T>, k: nat)
    requires k < |s|
    ensures multiset(s[k := s[|s| - 1]][..|s| - 1]) == multiset(s) - multiset{s[k]}
  {
    var last := |s| - 1;
    var r := s[k := s[last]][..last];
    if k == last {
      assert s == r + [s[k]];
    } else {
      var a, b := s[..k], s[k + 1..last];
      assert s == a + [s[k]] + b + [s[last]];
      assert r == a + [s[last]] + b;
      assert multiset(s) == multiset(a) + multiset{s[k]} + multiset(b) + multiset{s[last]};
      assert multiset(r) == multiset(a) + multiset{s[last]} + multiset(b);
    }
  }

  lemma RemovedIds(objects: seq<RenderObject>, index: map<nat, nat>, id: nat)
    requires Indexed(objects, index) && id in index && DistinctIds(objects)
    ensures Ids(SwapRemove(objects, index[id])) == Ids(objects) - {id}
  {
    var k := index[id];
    var last := |objects| - 1;
    var r := SwapRemove(objects, k);
    forall x | x in Ids(objects) - {id} ensures x in Ids(r) {
      var i := index[x];
      if i == last {
        assert r[k] == objects[last];
      } else {
        assert r[i] == objects[i];
      }
    }
    forall x | x in Ids(r) ensures x in Ids(objects) - {id} {
      var j :| 0 <= j < |r| && r[j].id == x;
      if j == k {
        assert r[j] == objects[last];
      } else {
        assert r[j] == objects[j];
      }
    }
  }

  /**
   * The removal as `DuckerNative_RemoveObject` performs it: unless the
   * object is already last, the last object moves into its slot and its
   * index entry follows; then the list is popped and the id erased.
   */
  method RemoveById(objects: seq<RenderObject>, index: map<nat, nat>, id: nat)
    returns (objs: seq<RenderObject>, idx: map<nat, nat>)
    requires Indexed(objects, index) && id in index
    ensures objs == SwapRemove(objects, index[id]) && idx == SwapRemoveIndex(objects, index, id)
  {
    var k := index[id];
    var last := |objects| - 1;
    objs, idx := objects, index;
    if k != last {
      var moved := objs[last];
      objs := objs[k := moved];
      idx := idx[moved.id := k];
    } else {
      assert idx[objects[last].id := k] == idx;
    }
    objs := objs[..last];
    idx := idx - {id};
  }

  /**
   * Removal alone can break the draw order: removing the first of three
   * objects at depths 0, 1, 2 moves depth 2 in front of depth 1. The
   * removal does not raise `needsSort`, so the next frame draws them in
   * that order.
   */
  lemma RemovalCanBreakOrder(base: RenderObject)
    ensures var objs := [base.(id := 1, zIndex := 0), base.(id := 2, zIndex := 1), base.(id := 3, zIndex := 2)];
      AdjacentOrdered(objs) && !AdjacentOrdered(SwapRemove(objs, 0))
  {
    var objs := [base.(id := 1, zIndex := 0), base.(id := 2, zIndex := 1), base.(id := 3, zIndex := 2)];
    var r := SwapRemove(objs, 0);
    assert r == [objs[2], objs[1]];
    assert DrawLess(r[1], r[0]);
  }

  // ---------------------------------------------------------------------
  // Rebuild after sorting
  // ---------------------------------------------------------------------

  lemma IdsSnoc(objects: seq<RenderObject>, i: nat)
    requires i < |objects|
    ensures Ids(objects[..i + 1]) == Ids(objects[..i]) + {objects[i].id}
  {
    var a, b := objects[..i], objects[..i + 1];
    forall x | x in Ids(b) ensures x in Ids(a) + {objects[i].id} {
      var j :| 0 <= j < |b| && b[j].id == x;
      if j < i {
        assert a[j] == b[j];
      }
    }
    forall x | x in Ids(a) ensures x in Ids(b) {
      var j :| 0 <= j < |a| && a[j].id == x;
      assert b[j] == a[j];
    }
    assert b[i] == objects[i];
  }

  /**
   * The rebuild loop of `DuckerNative_Render`: each object's position is
   * written over its entry. Entries for ids no longer in the list stay as
   * they were, since the map is not cleared first.
   */
  method RebuildIndex(objects: seq<RenderObject>, index: map<nat, nat>) returns (r: map<nat, nat>)
    requires DistinctIds(objects)
    ensures r.Keys == index.Keys + Ids(objects)
    ensures forall i :: 0 <= i < |objects| ==> r[objects[i].id] == i
    ensures forall id :: id in index && id !in Ids(objects) ==> r[id] == index[id]
  {
    r := index;
    var i := 0;
    while i < |objects|
      invariant 0 <= i <= |objects|
      invariant r.Keys == index.Keys + Ids(objects[..i])
      invariant forall j :: 0 <= j < i ==> objects[j].id in r && r[objects[j].id] == j
      invariant forall id :: id in index && id !in Ids(objects[..i]) ==> r[id] == index[id]
    {
      IdsSnoc(objects, i);
      r := r[objects[i].id := i];
      i := i + 1;
    }
    assert objects[..i] == objects;
  }

  /** Each value occurs at most once in a list without repeated ids. */
  lemma {:induction false} AtMostOnce(a: seq<RenderObject>, x: RenderObject)
    requires DistinctIds(a)
    ensures multiset(a)[x] <= 1
  {
    if a != [] {
      var n := |a| - 1;
      assert a == a[..n] + [a[n]];
      assert DistinctIds(a[..n]);
      AtMostOnce(a[..n], x);
      if x == a[n] {
        assert x !in a[..n] by {
          forall j | 0 <= j < n ensures a[..n][j] != x {
            assert a[..n][j].id == a[j].id != a[n].id;
          }
        }
      }
    }
  }

  /** A value at two positions is counted twice. */
  lemma CountedTwice(b: seq<RenderObject>, i: nat, j: nat)
    requires i < j < |b| && b[i] == b[j]
    ensures multiset(b)[b[i]] >= 2
  {
    assert b == b[..j] + b[j..];
    assert b[..j][i] == b[i];
    assert b[j..][0] == b[j];
  }

  /**
   * A permutation of an indexed list has the same ids, still without
   * repeats: the sort cannot duplicate or lose an id.
   */
  lemma PermutationKeepsIds(a: seq<RenderObject>, b: seq<RenderObject>, index: map<nat, nat>)
    requires Indexed(a, index) && multiset(a) == multiset(b)
    ensures index.Keys == Ids(b) && DistinctIds(b)
  {
    IndexedKeys(a, index);
    forall x | x in Ids(b) ensures x in Ids(a) {
      var j :| 0 <= j < |b| && b[j].id == x;
      assert b[j] in multiset(a);
      var p :| 0 <= p < |a| && a[p] == b[j];
    }
    forall x | x in Ids(a) ensures x in Ids(b) {
      var j :| 0 <= j < |a| && a[j].id == x;
      assert a[j] in multiset(b);
      var p :| 0 <= p < |b| && b[p] == a[j];
    }
    forall i, j | 0 <= i < j < |b| ensures b[i].id != b[j].id {
      if b[i] == b[j] {
        CountedTwice(b, i, j);
        AtMostOnce(a, b[i]);
      } else {
        assert b[i] in multiset(a) && b[j] in multiset(a);
        var p :| 0 <= p < |a| && a[p] == b[i];
        var q :| 0 <= q < |a| && a[q] == b[j];
        assert p != q;
      }
    }
  }

  /** Sorting then rebuilding leaves the index exact again. */
  lemma RebuiltIsIndexed(a: seq<RenderObject>, b: seq<RenderObject>, index: map<nat, nat>, r: map<nat, nat>)
    requires Indexed(a, index) && multiset(a) == multiset(b)
    requires r.Keys == index.Keys + Ids(b)
    requires forall i :: 0 <= i < |b| ==> r[b[i].id] == i
    ensures Indexed(b, r)
  {
    PermutationKeepsIds(a, b, index);
    forall id | id in r ensures r[id] < |b| && b[r[id]].id == id {
      var j :| 0 <= j < |b| && b[j].id == id;
    }
  }
}
