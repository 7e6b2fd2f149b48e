/** Sorting strings: sort.Strings on names, whose order is that of their bytes. */
module Order {

  predicate Less(a: string, b: string) {
    if b == [] then false
    else if a == [] then true
    else a[0] < b[0] || (a[0] == b[0] && Less(a[1..], b[1..]))
  }

  /** The strings agree up to k, and there the first one ends or has the smaller character. */
  predicate SmallerAt(a: string, b: string, k: nat) {
    && k <= |a| && k < |b| && a[..k] == b[..k]
    && (k == |a| || a[k] < b[k])
  }

  /** The order is decided by the first position at which the strings differ. */
  lemma {:induction false} LessIff(a: string, b: string)
    ensures Less(a, b) <==> exists k: nat :: SmallerAt(a, b, k)
  {
    if a == [] || b == [] {
      assert b != [] ==> SmallerAt(a, b, 0);
    } else if a[0] != b[0] {
      assert a[0] < b[0] ==> SmallerAt(a, b, 0);
      forall k: nat | k > 0 ensures !SmallerAt(a, b, k) {
        if k <= |a| && k <= |b| {
          assert a[..k][0] == a[0] && b[..k][0] == b[0];
        }
      }
    } else {
      LessIff(a[1..], b[1..]);
      forall k: nat ensures SmallerAt(a[1..], b[1..], k) <==> SmallerAt(a, b, k + 1) {
        SmallerBehind(a, b, k);
      }
      if Less(a, b) {
        var k: nat :| SmallerAt(a[1..], b[1..], k);
        assert SmallerAt(a, b, k + 1);
      }
      if k: nat :| SmallerAt(a, b, k) {
        NotAtStart(a, b);
        assert SmallerAt(a[1..], b[1..], k - 1);
      }
    }
  }

  lemma NotAtStart(a: string, b: string)
    requires a != [] && b != [] && a[0] == b[0]
    ensures !SmallerAt(a, b, 0)
  {
  }

  lemma SmallerBehind(a: string, b: string, k: nat)
    requires a != [] && b != [] && a[0] == b[0]
    ensures SmallerAt(a[1..], b[1..], k) <==> SmallerAt(a, b, k + 1)
  {
    if k + 1 <= |a| && k + 1 < |b| {
      assert a[..k + 1] == [a[0]] + a[1..][..k] && b[..k + 1] == [b[0]] + b[1..][..k];
      assert a[..k + 1][1..] == a[1..][..k] && b[..k + 1][1..] == b[1..][..k];
    }
  }

  lemma {:induction false} LessIrreflexive(a: string)
    ensures !Less(a, a)
  {
    if a != [] {
      LessIrreflexive(a[1..]);
    }
  }

  lemma {:induction false} LessTotal(a: string, b: string)
    ensures Less(a, b) || a == b || Less(b, a)
  {
    if a != [] && b != [] {
      LessTotal(a[1..], b[1..]);
      if a[0] == b[0] && a[1..] == b[1..] {
        assert a == [a[0]] + a[1..] && b == [b[0]] + b[1..];
      }
    }
  }

  lemma {:induction false} LessTransitive(a: string, b: string, c: string)
    requires Less(a, b) && Less(b, c)
    ensures Less(a, c)
  {
    if a != [] && a[0] == b[0] == c[0] {
      LessTransitive(a[1..], b[1..], c[1..]);
    }
  }

  ghost predicate Ascending(s: seq<string>) {
    forall i, j :: 0 <= i < j < |s| ==> Less(s[i], s[j])
  }

  /** `s` lists the set in ascending order. */
  ghost predicate Lists(s: seq<string>, names: set<string>) {
    && Ascending(s)
    && forall n :: n in s <==> n in names
  }

  /** A set has one ascending list only. */
  lemma {:induction false} ListUnique(s: seq<string>, t: seq<string>, names: set<string>)
    requires Lists(s, names) && Lists(t, names)
    ensures s == t
    decreases |s|
  {
    hide Less;
    assert t == [] || t[0] in t;
    if s != [] {
      assert s[0] in s && s[0] in t;
      var i :| 0 <= i < |t| && t[i] == s[0];
      assert t[0] in t && t[0] in s;
      var j :| 0 <= j < |s| && s[j] == t[0];
      SameHead(s, t, i, j);
      Tail(s, names);
      Tail(t, names);
      ListUnique(s[1..], t[1..], names - {s[0]});
      assert s == [s[0]] + s[1..] && t == [t[0]] + t[1..];
    }
  }

  lemma SameHead(s: seq<string>, t: seq<string>, i: nat, j: nat)
    requires Ascending(s) && Ascending(t) && i < |t| && j < |s| && t[i] == s[0] && s[j] == t[0]
    ensures s[0] == t[0]
  {
    hide Less;
    if i > 0 && j > 0 {
      LessTransitive(s[0], s[j], s[0]);
      LessIrreflexive(s[0]);
      assert false;
    }
  }

  lemma Tail(s: seq<string>, names: set<string>)
    requires s != [] && Lists(s, names)
    ensures Lists(s[1..], names - {s[0]})
  {
    hide Less;
    LessIrreflexive(s[0]);
    forall n ensures n in s[1..] <==> n in names - {s[0]} {
      if n in names && n != s[0] {
        assert n in s;
        var i :| 0 <= i < |s| && s[i] == n;
        assert s[1..][i - 1] == n;
      }
      if n in s[1..] {
        var i :| 0 <= i < |s[1..]| && s[1..][i] == n;
        assert s[i + 1] == n && Less(s[0], n);
      }
    }
  }

  /** Puts a new name at its place. */
  function Insert(s: seq<string>, n: string): seq<string> {
    if s == [] || Less(n, s[0]) then [n] + s else [s[0]] + Insert(s[1..], n)
  }

  lemma {:induction false} InsertLists(s: seq<string>, n: string, names: set<string>)
    requires Lists(s, names) && n !in names
    ensures Lists(Insert(s, n), names + {n})
    decreases |s|
  {
    hide Less;
    if s == [] {
    } else if Less(n, s[0]) {
      forall j | 0 <= j < |s| ensures Less(n, s[j]) {
        if j > 0 {
          LessTransitive(n, s[0], s[j]);
        }
      }
    } else {
      assert s[0] in s;
      LessTotal(n, s[0]);
      Tail(s, names);
      InsertLists(s[1..], n, names - {s[0]});
      Prepended(s, Insert(s[1..], n), n, names);
    }
  }

  lemma Prepended(s: seq<string>, t: seq<string>, n: string, names: set<string>)
    requires s != [] && Lists(s, names) && Lists(t, names - {s[0]} + {n}) && Less(s[0], n)
    ensures Lists([s[0]] + t, names + {n})
  {
    hide Less;
    assert s[0] in s;
    forall j | 0 <= j < |t| ensures Less(s[0], t[j]) {
      assert t[j] in t;
      if t[j] != n {
        var k :| 0 <= k < |s| && s[k] == t[j];
      }
    }
  }

  /** The ascending list of a set. */
  ghost function Sorted(names: set<string>): (s: seq<string>)
    ensures Lists(s, names)
  {
    if names == {} then []
    else
      var n :| n in names;
      var rest := Sorted(names - {n});
      InsertLists(rest, n, names - {n});
      assert names - {n} + {n} == names;
      Insert(rest, n)
  }

  function Elements(s: seq<string>): set<string> { set n | n in s }

  lemma ElementsAppend(s: seq<string>, n: string)
    ensures Elements(s + [n]) == Elements(s) + {n}
  {
  }

  /** sort.Strings on distinct names, in whatever order they come. */
  method Sort(names: seq<string>) returns (s: seq<string>)
    requires forall i, j :: 0 <= i < j < |names| ==> names[i] != names[j]
    ensures s == Sorted(Elements(names))
  {
    s := [];
    for k := 0 to |names|
      invariant Lists(s, Elements(names[..k]))
    {
      hide Insert;
      hide Lists;
      assert names[..k + 1] == names[..k] + [names[k]];
      ElementsAppend(names[..k], names[k]);
      InsertLists(s, names[k], Elements(names[..k]));
      s := Insert(s, names[k]);
    }
    assert names[..|names|] == names;
    ListUnique(s, Sorted(Elements(names)), Elements(names));
  }
}
