/**
 * `fast_vector`, the growable array the renderer keeps its objects and
 * shadow groups in. The buffer is represented by the elements it holds
 * (`m_data[0..m_size)`), the capacity the vector records (`m_capacity`) and
 * the number of slots the allocation really has; the two agree in every
 * state the corrected operations produce.
 */
module FastVectors {
  import opened Wrappers

  /** `find_item`: the position of the first element equal to `value`, or the end. */
  method FindItem<T(==)>(s: seq<T>, value: T) returns (pos: nat)
    ensures pos <= |s|
    ensures forall j :: 0 <= j < pos ==> s[j] != value
    ensures pos < |s| ==> s[pos] == value
    ensures pos == |s| <==> value !in s
  {
    pos := 0;
    while pos < |s| && s[pos] != value
      invariant pos <= |s|
      invariant forall j :: 0 <= j < pos ==> s[j] != value
    {
      pos := pos + 1;
    }
  }

  /** The sequence without its first occurrence of `v` (unchanged when there is none). */
  function RemoveFirst<T(==)>(s: seq<T>, v: T): seq<T>
  {
    if s == [] then []
    else if s[0] == v then s[1..]
    else [s[0]] + RemoveFirst(s[1..], v)
  }

  /** Removing the first occurrence drops exactly one copy of it and keeps everything else. */
  lemma {:induction false} RemoveFirstCounts<T>(s: seq<T>, v: T)
    ensures v in s ==> |RemoveFirst(s, v)| == |s| - 1 && multiset(RemoveFirst(s, v)) == multiset(s) - multiset{v}
    ensures v !in s ==> RemoveFirst(s, v) == s
  {
    if s != [] && s[0] != v {
      RemoveFirstCounts(s[1..], v);
      assert s == [s[0]] + s[1..];
    } else if s != [] {
      assert s == [s[0]] + s[1..];
    }
  }

  /** Cutting out the first occurrence at its position is `RemoveFirst`. */
  lemma {:induction false} CutAtFirst<T>(s: seq<T>, v: T, pos: nat)
    requires pos < |s| && s[pos] == v && forall j :: 0 <= j < pos ==> s[j] != v
    ensures s[..pos] + s[pos + 1..] == RemoveFirst(s, v)
  {
    if pos > 0 {
      CutAtFirst(s[1..], v, pos - 1);
      assert s[..pos] == [s[0]] + s[1..][..pos - 1];
      assert s[pos + 1..] == s[1..][pos..];
    }
  }

  /** The shift loop of `erase`: the elements after `pos` move one slot left, in order. */
  method ShiftLeft<T>(s: seq<T>, pos: nat) returns (r: seq<T>)
    requires pos < |s|
    ensures r == s[..pos] + s[pos + 1..]
  {
    r := s[..pos];
    var i := pos;
    while i + 1 < |s|
      invariant pos <= i < |s|
      invariant r == s[..pos] + s[pos + 1..i + 1]
    {
      r := r + [s[i + 1]];
      i := i + 1;
    }
  }

  /** The capacity `push_back` grows a full buffer to. */
  function Grown(capacity: nat): (c: nat)
    ensures c > capacity
  {
    capacity * 2 + 1
  }

  /** Whether the slot `push_back` writes lies inside the allocation it will then have. */
  predicate PushWritesInside(size: nat, capacity: nat, slots: nat)
  {
    size < (if size == capacity then Grown(capacity) else slots)
  }

  class FastVector<T(==)> {
    /** `m_data[0..m_size)`. */
    var elems: seq<T>
    /** `m_capacity`. */
    var capacity: nat
    /** The number of slots the buffer really has. */
    var slots: nat

    /** The elements fit, and the recorded capacity is the allocation. */
    ghost predicate Valid()
      reads this
    {
      |elems| <= capacity && slots == capacity
    }

    /** `fast_vector()`: empty, no buffer. */
    constructor()
      ensures Valid() && elems == [] && capacity == 0
    {
      elems, capacity, slots := [], 0, 0;
    }

    function Size(): nat
      reads this
    {
      |elems|
    }

    /** `at`: the element, or the `range_error` the source throws, as `None`. */
    function At(pos: nat): Option<T>
      reads this
    {
      if pos >= |elems| then None else Some(elems[pos])
    }

    /** `operator[]`: the source asserts the position is in range. */
    function Get(pos: nat): (x: T)
      reads this
      requires pos < |elems|
      ensures x in elems
    {
      elems[pos]
    }

    function Front(): (x: T)
      reads this
      requires |elems| > 0
      ensures x in elems
    {
      elems[0]
    }

    function Back(): (x: T)
      reads this
      requires |elems| > 0
      ensures x in elems
    {
      elems[|elems| - 1]
    }

    /** `reserve`: grows the buffer to `newCap` when that is larger; never shrinks it, never touches the elements. */
    method Reserve(newCap: nat)
      requires Valid()
      modifies this
      ensures Valid() && elems == old(elems)
      ensures capacity == if newCap > old(capacity) then newCap else old(capacity)
    {
      if newCap > capacity {
        slots := newCap;
        capacity := newCap;
      }
    }

    /** `push_back`: a full buffer first grows to twice its capacity plus one; the value goes last. */
    method PushBack(value: T)
      requires Valid()
      modifies this
      ensures Valid() && elems == old(elems) + [value]
      ensures capacity == if old(|elems|) == old(capacity) then Grown(old(capacity)) else old(capacity)
    {
      if |elems| == capacity {
        Reserve(Grown(capacity));
      }
      elems := elems + [value];
    }

    /** `pop_back`: the source asserts the vector is not empty. The capacity stays. */
    method PopBack()
      requires Valid() && |elems| > 0
      modifies this
      ensures Valid() && elems == old(elems)[..|old(elems)| - 1] && capacity == old(capacity)
    {
      elems := elems[..|elems| - 1];
    }

    /** `clear`: no elements, same buffer. */
    method Clear()
      requires Valid()
      modifies this
      ensures Valid() && elems == [] && capacity == old(capacity)
    {
      elems := [];
    }

    /**
     * `resize`: the elements up to the new size stay; the buffer grows to
     * exactly `count` when it is too small; new slots hold `fill`, the value
     * the element type's default constructor makes.
     */
    method Resize(count: nat, fill: T)
      requires Valid()
      modifies this
      ensures Valid() && |elems| == count
      ensures forall i :: 0 <= i < count && i < |old(elems)| ==> elems[i] == old(elems)[i]
      ensures forall i :: |old(elems)| <= i < count ==> elems[i] == fill
      ensures capacity == if count > old(capacity) then count else old(capacity)
    {
      if count == |elems| {
        return;
      }
      if count > capacity {
        Reserve(count);
      }
      if count > |elems| {
        elems := elems + seq(count - |elems|, _ => fill);
      } else {
        elems := elems[..count];
      }
    }

    /**
     * `append`: the values go to the end in order. When they would fill the
     * buffer they are pushed one by one, growing it as `push_back` does;
     * otherwise they are copied in place and the capacity stays.
     */
    method Append(values: seq<T>)
      requires Valid()
      modifies this
      ensures Valid() && elems == old(elems) + values
      ensures capacity >= old(capacity)
      ensures old(|elems|) + |values| < old(capacity) ==> capacity == old(capacity)
    {
      if |elems| + |values| >= capacity {
        var i := 0;
        while i < |values|
          invariant 0 <= i <= |values|
          invariant Valid() && elems == old(elems) + values[..i] && capacity >= old(capacity)
        {
          PushBack(values[i]);
          assert values[..i + 1] == values[..i] + [values[i]];
          i := i + 1;
        }
        assert values[..i] == values;
      } else {
        elems := elems + values;
      }
    }

    /**
     * `erase`: removes the first element equal to `value`, the later ones
     * moving one slot left in order, and answers whether there was one.
     */
    method Erase(value: T) returns (found: bool)
      requires Valid()
      modifies this
      ensures Valid() && capacity == old(capacity)
      ensures found <==> value in old(elems)
      ensures elems == RemoveFirst(old(elems), value)
    {
      var pos := FindItem(elems, value);
      if pos < |elems| {
        CutAtFirst(elems, value, pos);
        elems := ShiftLeft(elems, pos);
        return true;
      }
      RemoveFirstCounts(elems, value);
      return false;
    }

    /**
     * `shrink_to_fit` as written: a non-empty vector with spare room gets a
     * buffer of exactly its size, but `m_capacity` keeps the old value.
     */
    method ShrinkToFitAsWritten()
      requires Valid()
      modifies this
      ensures elems == old(elems) && capacity == old(capacity)
      ensures slots == if 0 < |elems| < old(capacity) then |elems| else old(slots)
    {
      if 0 < |elems| < capacity {
        slots := |elems|;
      }
    }

    /** `shrink_to_fit` with the recorded capacity moved along with the buffer. */
    method ShrinkToFit()
      requires Valid()
      modifies this
      ensures Valid() && elems == old(elems)
      ensures capacity == if 0 < |elems| < old(capacity) then |elems| else old(capacity)
    {
      if 0 < |elems| < capacity {
        slots := |elems|;
        capacity := |elems|;
      }
    }
  }

  /**
   * In every valid state, the slot `push_back` writes is inside the buffer:
   * either there is room, or the buffer grows first.
   */
  lemma ValidPushWritesInside(size: nat, capacity: nat)
    requires size <= capacity
    ensures PushWritesInside(size, capacity, capacity)
  {
  }

  /**
   * After `shrink_to_fit` as written, one element in a buffer of three
   * leaves capacity 3 over an allocation of 1: the next `push_back` sees
   * room (1 != 3), skips the growth, and writes slot 1, past the end.
   */
  lemma StaleCapacityOverflows()
    ensures !PushWritesInside(1, 3, 1)
    ensures forall size: nat, capacity: nat :: 0 < size < capacity ==> !PushWritesInside(size, capacity, size)
  {
  }
}
