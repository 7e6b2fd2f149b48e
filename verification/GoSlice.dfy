/** Go slices: a view (offset, length, capacity) of an array that other slices may share. */
module GoSlice {

  datatype Slice<T> = Nil | View(arr: array<T>, off: nat, len: nat, cap: nat)

  ghost predicate InBounds<T>(s: Slice<T>) {
    s.View? ==> s.len <= s.cap && s.off + s.cap <= s.arr.Length
  }

  ghost function Footprint<T>(s: Slice<T>): set<object> {
    if s.View? then {s.arr} else {}
  }

  function Contents<T>(s: Slice<T>): (c: seq<T>)
    requires InBounds(s)
    reads Footprint(s)
    ensures |c| == (if s.View? then s.len else 0)
  {
    match s
    case Nil => []
    case View(arr, off, len, _) => arr[off..off + len]
  }

  /** The elements fit behind the slice in its own array. */
  predicate Fits<T>(s: Slice<T>, n: nat) {
    if s.View? then s.len + n <= s.cap else n == 0
  }

  /** The expression a[lo:hi] of a slice. */
  function SubSlice<T>(s: Slice<T>, lo: nat, hi: nat): (r: Slice<T>)
    requires s.View? && InBounds(s) && lo <= hi <= s.len
    ensures InBounds(r)
  {
    View(s.arr, s.off + lo, hi - lo, s.cap - lo)
  }

  /** The built-in append: in place when the capacity allows it, so that every other slice
      of the array sees the new elements; otherwise into a new array, with as much spare
      capacity as the runtime likes. */
  method Append<T>(s: Slice<T>, xs: seq<T>, spare: nat) returns (r: Slice<T>)
    requires InBounds(s)
    modifies Footprint(s)
    ensures InBounds(r) && Contents(r) == old(Contents(s)) + xs
    ensures Fits(s, |xs|) ==> r == (if s.Nil? then Nil else s.(len := s.len + |xs|))
    ensures !Fits(s, |xs|) ==> r.View? && fresh(r.arr)
    ensures s.View? ==>
            forall k :: 0 <= k < s.arr.Length && (!Fits(s, |xs|) || k < s.off + s.len || s.off + s.len + |xs| <= k) ==>
              s.arr[k] == old(s.arr[k])
  {
    if s.Nil? && |xs| == 0 {
      return s;
    }
    if s.View? && s.len + |xs| <= s.cap {
      Store(s.arr, s.off + s.len, xs);
      r := View(s.arr, s.off, s.len + |xs|, s.cap);
      forall k | 0 <= k < s.len ensures Contents(r)[k] == old(Contents(s))[k] {
        assert Contents(r)[k] == s.arr[s.off + k];
      }
      assert Contents(r)[s.len..] == xs;
      assert Contents(r) == old(Contents(s)) + xs;
      return;
    }
    r := NewSlice(Contents(s) + xs, spare);
  }

  /** Writes elements into an array. */
  method Store<T>(arr: array<T>, at: nat, xs: seq<T>)
    requires at + |xs| <= arr.Length
    modifies arr
    ensures arr[at..at + |xs|] == xs
    ensures forall k :: 0 <= k < arr.Length && (k < at || at + |xs| <= k) ==> arr[k] == old(arr[k])
  {
    for i := 0 to |xs|
      invariant forall k :: 0 <= k < arr.Length && (k < at || at + i <= k) ==> arr[k] == old(arr[k])
      invariant arr[at..at + i] == xs[..i]
    {
      arr[at + i] := xs[i];
      assert arr[at..at + i + 1] == arr[at..at + i] + [xs[i]];
    }
  }

  method NewSlice<T>(elements: seq<T>, spare: nat) returns (r: Slice<T>)
    requires elements != []
    ensures InBounds(r) && r.View? && fresh(r.arr) && Contents(r) == elements
  {
    var capacity := |elements| + spare;
    var arr := new T[capacity](i requires 0 <= i < capacity => if i < |elements| then elements[i] else elements[0]);
    r := View(arr, 0, |elements|, capacity);
    assert arr[..|elements|] == elements;
  }
}
