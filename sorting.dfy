/** Go's `sort.Sort`, `sort.Strings` and `sort.Slice`, modelled by one
    insertion sort over an ordering `le` ("sorts no later than").  Go's
    sorts are not stable; where equal elements exist, the model fixes one
    of the orders Go may produce. */
module Sorting {
  import opened GoText

  ghost predicate TotalPreorder<T(!new)>(le: (T, T) -> bool)
  {
    && (forall a, b :: le(a, b) || le(b, a))
    && (forall a, b, c :: le(a, b) && le(b, c) ==> le(a, c))
  }

  /** `le` is antisymmetric on the elements of `s`. */
  ghost predicate AntisymmetricOn<T>(s: seq<T>, le: (T, T) -> bool)
  {
    forall i, j :: 0 <= i < |s| && 0 <= j < |s| && le(s[i], s[j]) && le(s[j], s[i]) ==> s[i] == s[j]
  }

  ghost predicate SortedBy<T>(s: seq<T>, le: (T, T) -> bool)
  {
    forall i, j :: 0 <= i < j < |s| ==> le(s[i], s[j])
  }

  predicate Distinct<T(==)>(s: seq<T>)
  {
    forall i, j :: 0 <= i < j < |s| ==> s[i] != s[j]
  }

  lemma {:induction false} DistinctMultiplicity<T>(s: seq<T>, x: T)
    requires Distinct(s)
    ensures multiset(s)[x] <= 1
    decreases |s|
  {
    if |s| > 0 {
      assert s == [s[0]] + s[1..];
      assert multiset(s) == multiset{s[0]} + multiset(s[1..]);
      DistinctMultiplicity(s[1..], x);
      if x == s[0] {
        assert x !in s[1..];
      }
    }
  }

  lemma RepeatMultiplicity<T>(s: seq<T>, i: nat, j: nat)
    requires i < j < |s| && s[i] == s[j]
    ensures multiset(s)[s[i]] >= 2
  {
    assert s == s[..j] + s[j..];
    assert multiset(s) == multiset(s[..j]) + multiset(s[j..]);
    assert s[i] == s[..j][i];
    assert s[j] == s[j..][0];
  }

  lemma PermutationMembers<T>(a: seq<T>, b: seq<T>)
    requires multiset(a) == multiset(b)
    ensures forall x :: x in a <==> x in b
  {
    forall x
      ensures x in a <==> x in b
    {
      assert x in a <==> x in multiset(a);
      assert x in b <==> x in multiset(b);
    }
  }

  /** A permutation of a sequence without repeats has none either. */
  lemma DistinctPermutation<T>(a: seq<T>, b: seq<T>)
    requires Distinct(a) && multiset(a) == multiset(b)
    ensures Distinct(b)
  {
    forall i, j | 0 <= i < j < |b|
      ensures b[i] != b[j]
    {
      if b[i] == b[j] {
        RepeatMultiplicity(b, i, j);
        DistinctMultiplicity(a, b[i]);
      }
    }
  }

  /** `p` lists every entry of the map `m` exactly once: `key` and `val`
      read an element's key and value.  This is what collecting a Go map
      with `for key, value := range m` produces, in whatever order. */
  ghost predicate EntriesOf<P, V>(p: seq<P>, m: map<string, V>, key: P -> string, val: P -> V)
  {
    && |p| == |m|
    && (forall i :: 0 <= i < |p| ==> key(p[i]) in m && val(p[i]) == m[key(p[i])])
    && (forall i, j :: 0 <= i < j < |p| ==> key(p[i]) != key(p[j]))
    && (forall k :: k in m ==> exists i :: 0 <= i < |p| && key(p[i]) == k)
  }

  /** Reordering such a list keeps it one. */
  lemma EntriesOfPermutation<P, V>(p: seq<P>, q: seq<P>, m: map<string, V>, key: P -> string, val: P -> V)
    requires EntriesOf(p, m, key, val) && multiset(p) == multiset(q)
    ensures EntriesOf(q, m, key, val)
  {
    assert |q| == |multiset(q)| == |p|;
    assert Distinct(p);
    forall i | 0 <= i < |q|
      ensures key(q[i]) in m && val(q[i]) == m[key(q[i])]
    {
      assert q[i] in multiset(p);
    }
    forall i, j | 0 <= i < j < |q|
      ensures key(q[i]) != key(q[j])
    {
      if key(q[i]) == key(q[j]) {
        assert q[i] in multiset(p) && q[j] in multiset(p);
        var a :| 0 <= a < |p| && p[a] == q[i];
        var b :| 0 <= b < |p| && p[b] == q[j];
        assert a == b;
        RepeatMultiplicity(q, i, j);
        DistinctMultiplicity(p, q[i]);
      }
    }
    forall k | k in m
      ensures exists i :: 0 <= i < |q| && key(q[i]) == k
    {
      var a :| 0 <= a < |p| && key(p[a]) == k;
      assert p[a] in multiset(q);
      var i :| 0 <= i < |q| && q[i] == p[a];
    }
  }

  function Insert<T>(x: T, s: seq<T>, le: (T, T) -> bool): (r: seq<T>)
    ensures multiset(r) == multiset(s) + multiset{x}
    ensures |r| == |s| + 1
  {
    if |s| == 0 then [x]
    else if le(x, s[0]) then [x] + s
    else
      assert s == [s[0]] + s[1..];
      [s[0]] + Insert(x, s[1..], le)
  }

  /** The sorted permutation of `s`. */
  function SortBy<T>(s: seq<T>, le: (T, T) -> bool): (r: seq<T>)
    ensures multiset(r) == multiset(s)
    ensures |r| == |s|
  {
    if |s| == 0 then []
    else
      assert s == [s[0]] + s[1..];
      Insert(s[0], SortBy(s[1..], le), le)
  }

  lemma {:induction false} InsertSorted<T(!new)>(x: T, s: seq<T>, le: (T, T) -> bool)
    requires TotalPreorder(le)
    requires SortedBy(s, le)
    ensures SortedBy(Insert(x, s, le), le)
    decreases |s|
  {
    if |s| > 0 && !le(x, s[0]) {
      InsertSorted(x, s[1..], le);
      var r := Insert(x, s, le);
      var t := Insert(x, s[1..], le);
      assert r == [s[0]] + t;
      forall j | 0 < j < |r|
        ensures le(s[0], r[j])
      {
        assert r[j] == t[j - 1];
        assert t[j - 1] in multiset(t);
        assert t[j - 1] == x || t[j - 1] in multiset(s[1..]);
        if t[j - 1] != x {
          var k :| 0 <= k < |s[1..]| && s[1..][k] == t[j - 1];
          assert s[k + 1] == t[j - 1];
        }
      }
    }
  }

  lemma {:induction false} SortBySorted<T(!new)>(s: seq<T>, le: (T, T) -> bool)
    requires TotalPreorder(le)
    ensures SortedBy(SortBy(s, le), le)
    decreases |s|
  {
    if |s| > 0 {
      SortBySorted(s[1..], le);
      InsertSorted(s[0], SortBy(s[1..], le), le);
    }
  }

  /** Under an order antisymmetric on its elements, the sorted permutation
      of a sequence is unique. */
  lemma {:induction false} SortedUnique<T(!new)>(a: seq<T>, b: seq<T>, le: (T, T) -> bool)
    requires TotalPreorder(le) && AntisymmetricOn(a, le)
    requires SortedBy(a, le) && SortedBy(b, le)
    requires multiset(a) == multiset(b)
    ensures a == b
    decreases |a|
  {
    if |a| > 0 {
      assert |b| == |multiset(b)| == |a|;
      SameHead(a, b, le);
      var a', b' := a[1..], b[1..];
      assert a == [a[0]] + a' && b == [b[0]] + b';
      assert multiset(a') == multiset(a) - multiset{a[0]};
      assert multiset(b') == multiset(b) - multiset{b[0]};
      AntisymmetricOnTail(a, le);
      SortedUnique(a', b', le);
    }
  }

  lemma SameHead<T(!new)>(a: seq<T>, b: seq<T>, le: (T, T) -> bool)
    requires TotalPreorder(le) && AntisymmetricOn(a, le)
    requires SortedBy(a, le) && SortedBy(b, le)
    requires multiset(a) == multiset(b) && |a| > 0 && |b| > 0
    ensures a[0] == b[0]
  {
    assert a[0] in multiset(b);
    assert b[0] in multiset(a);
    var i :| 0 <= i < |b| && b[i] == a[0];
    var j :| 0 <= j < |a| && a[j] == b[0];
    assert le(b[0], a[0]) by { if i > 0 { assert le(b[0], b[i]); } }
    assert le(a[0], a[j]) by { if j > 0 { assert le(a[0], a[j]); } }
  }

  lemma AntisymmetricOnTail<T>(a: seq<T>, le: (T, T) -> bool)
    requires |a| > 0 && AntisymmetricOn(a, le)
    ensures AntisymmetricOn(a[1..], le)
  {
    forall i, j | 0 <= i < |a| - 1 && 0 <= j < |a| - 1
      ensures le(a[1..][i], a[1..][j]) && le(a[1..][j], a[1..][i]) ==> a[1..][i] == a[1..][j]
    {
      assert a[1..][i] == a[i + 1] && a[1..][j] == a[j + 1];
    }
  }

  /** The outcome of sorting depends only on the elements, not on the order
      they were collected in (such as a Go map's iteration order). */
  lemma SortByOrderIndependent<T(!new)>(s: seq<T>, t: seq<T>, le: (T, T) -> bool)
    requires TotalPreorder(le) && AntisymmetricOn(s, le)
    requires multiset(s) == multiset(t)
    ensures SortBy(s, le) == SortBy(t, le)
  {
    SortBySorted(s, le);
    SortBySorted(t, le);
    var a := SortBy(s, le);
    assert AntisymmetricOn(a, le) by {
      forall i, j | 0 <= i < |a| && 0 <= j < |a|
        ensures le(a[i], a[j]) && le(a[j], a[i]) ==> a[i] == a[j]
      {
        assert a[i] in multiset(s) && a[j] in multiset(s);
        var i' :| 0 <= i' < |s| && s[i'] == a[i];
        var j' :| 0 <= j' < |s| && s[j'] == a[j];
      }
    }
    SortedUnique(a, SortBy(t, le), le);
  }

  /** `sort.Sort` under an ordering that is a total preorder. */
  function Sort<T(!new)>(s: seq<T>, le: (T, T) -> bool): (r: seq<T>)
    requires TotalPreorder(le)
    ensures SortedBy(r, le)
    ensures multiset(r) == multiset(s)
    ensures r == SortBy(s, le)
  {
    SortBySorted(s, le);
    SortBy(s, le)
  }

  lemma SortKeepsDistinct<T>(a: seq<T>, b: seq<T>)
    requires multiset(a) == multiset(b)
    ensures Distinct(a) ==> Distinct(b)
  {
    if Distinct(a) {
      DistinctPermutation(a, b);
    }
  }

  /** `sort.Strings(s)`: sorts a string slice into Go's order. */
  function SortStrings(s: seq<string>): (r: seq<string>)
    ensures SortedBy(r, StrLe)
    ensures multiset(r) == multiset(s)
    ensures forall x :: x in r <==> x in s
    ensures Distinct(s) ==> Distinct(r)
  {
    StrLeTotalPreorder();
    SortBySorted(s, StrLe);
    PermutationMembers(s, SortBy(s, StrLe));
    SortKeepsDistinct(s, SortBy(s, StrLe));
    SortBy(s, StrLe)
  }

  function Reverse<T>(s: seq<T>): (r: seq<T>)
    ensures |r| == |s|
    ensures forall i :: 0 <= i < |s| ==> r[i] == s[|s| - 1 - i]
    ensures multiset(r) == multiset(s)
  {
    if |s| == 0 then []
    else
      assert s == [s[0]] + s[1..];
      Reverse(s[1..]) + [s[0]]
  }

  lemma ReverseSorted<T>(s: seq<T>, le: (T, T) -> bool)
    requires SortedBy(s, le)
    ensures SortedBy(Reverse(s), (a, b) => le(b, a))
  {
  }

  /** The first `count` elements when `count` is positive and smaller
      than the length; the whole sequence otherwise. */
  function Truncate<T>(s: seq<T>, count: int): (r: seq<T>)
    ensures count > 0 && |s| > count ==> |r| == count
    ensures !(count > 0 && |s| > count) ==> r == s
    ensures r <= s
  {
    if count > 0 && |s| > count then s[..count] else s
  }
}
