/** code/fixgo/fix_go_sort.go: turning a `map[string]float64` into a list
    of pairs sorted by key or by value. */
module FixGoSort {
  import opened Data
  import opened GoText
  import opened Sorting
  import opened FixGoData

  function PairKey(p: PairFloat64): string { p.key }
  function PairValue(p: PairFloat64): real { p.value }

  /** `p` holds each entry of `m` once, with an empty Formatted text. */
  ghost predicate PairsOf(p: seq<PairFloat64>, m: map<string, real>)
  {
    && EntriesOf(p, m, PairKey, PairValue)
    && (forall i :: 0 <= i < |p| ==> p[i].formatted == "")
  }

  lemma PairsOfPermutation(p: seq<PairFloat64>, q: seq<PairFloat64>, m: map<string, real>)
    requires PairsOf(p, m) && multiset(p) == multiset(q)
    ensures PairsOf(q, m)
  {
    EntriesOfPermutation(p, q, m, PairKey, PairValue);
    forall i | 0 <= i < |q|
      ensures q[i].formatted == ""
    {
      assert q[i] in multiset(p);
    }
  }

  /** `for key, value := range input`, appending one pair per entry; the
      order is the map's iteration order, which Go leaves unspecified. */
  method CollectPairs(input: map<string, real>) returns (pairList: seq<PairFloat64>)
    ensures PairsOf(pairList, input)
  {
    pairList := [];
    ghost var keys: seq<string> := [];
    var remaining := input.Keys;
    while remaining != {}
      invariant remaining <= input.Keys
      invariant |pairList| + |remaining| == |input|
      invariant |keys| == |pairList| && forall i :: 0 <= i < |keys| ==> keys[i] == pairList[i].key
      invariant forall i :: 0 <= i < |pairList| ==>
        && pairList[i].key in input && pairList[i].key !in remaining
        && pairList[i].value == input[pairList[i].key] && pairList[i].formatted == ""
      invariant forall i, j :: 0 <= i < j < |pairList| ==> pairList[i].key != pairList[j].key
      invariant forall k :: k in input && k !in remaining ==> k in keys
      decreases |remaining|
    {
      var key :| key in remaining;
      pairList := pairList + [PairFloat64(key, input[key], "")];
      keys := keys + [key];
      remaining := remaining - {key};
    }
    forall k | k in input
      ensures exists i :: 0 <= i < |pairList| && PairKey(pairList[i]) == k
    {
      var i :| 0 <= i < |keys| && keys[i] == k;
      assert PairKey(pairList[i]) == k;
    }
  }

  /** The key loop of `SortMapStringFloat64ByKey`: every key once, in map
      order. */
  method CollectKeys(input: map<string, real>) returns (keys: seq<string>)
    ensures |keys| == |input| && Distinct(keys)
    ensures forall k :: k in input <==> k in keys
  {
    keys := [];
    var remaining := input.Keys;
    while remaining != {}
      invariant remaining <= input.Keys
      invariant |keys| + |remaining| == |input|
      invariant Distinct(keys)
      invariant forall k :: k in keys ==> k in input && k !in remaining
      invariant forall k :: k in input && k !in remaining ==> k in keys
      decreases |remaining|
    {
      var key :| key in remaining;
      keys := keys + [key];
      remaining := remaining - {key};
    }
  }

  /** The pair loop of `SortMapStringFloat64ByKey`: one pair per key, in
      the keys' order. */
  method KeyPairs(sorted: seq<string>, input: map<string, real>) returns (output: seq<PairFloat64>)
    requires forall k :: k in sorted ==> k in input
    ensures |output| == |sorted|
    ensures forall j :: 0 <= j < |sorted| ==> sorted[j] in input && output[j] == PairFloat64(sorted[j], input[sorted[j]], "")
  {
    output := [];
    var i := 0;
    while i < |sorted|
      invariant 0 <= i <= |sorted|
      invariant |output| == i
      invariant forall j :: 0 <= j < i ==> output[j] == PairFloat64(sorted[j], input[sorted[j]], "")
    {
      output := output + [PairFloat64(sorted[i], input[sorted[i]], "")];
      i := i + 1;
    }
  }

  /** `SortMapStringFloat64ByKey`: every entry once, in increasing key
      order. */
  method SortMapStringFloat64ByKey(input: map<string, real>) returns (output: seq<PairFloat64>)
    ensures PairsOf(output, input)
    ensures forall i, j :: 0 <= i < j < |output| ==> LexLess(output[i].key, output[j].key)
  {
    var keys := CollectKeys(input);
    var sorted := SortStrings(keys);
    output := KeyPairs(sorted, input);
    SortedKeyPairs(keys, sorted, input, output);
  }

  /** The pairs built from the sorted keys list the map in increasing key
      order. */
  lemma SortedKeyPairs(keys: seq<string>, sorted: seq<string>, input: map<string, real>, output: seq<PairFloat64>)
    requires |keys| == |input| && Distinct(keys) && Distinct(sorted)
    requires forall k :: k in input <==> k in keys
    requires multiset(sorted) == multiset(keys) && SortedBy(sorted, StrLe)
    requires |output| == |sorted|
    requires forall j :: 0 <= j < |sorted| ==> sorted[j] in input && output[j] == PairFloat64(sorted[j], input[sorted[j]], "")
    ensures PairsOf(output, input)
    ensures forall i, j :: 0 <= i < j < |output| ==> LexLess(output[i].key, output[j].key)
  {
    assert |sorted| == |multiset(sorted)| == |keys|;
    forall k | k in input
      ensures exists j :: 0 <= j < |output| && PairKey(output[j]) == k
    {
      assert k in multiset(keys);
      assert k in multiset(sorted);
      var j :| 0 <= j < |sorted| && sorted[j] == k;
      assert PairKey(output[j]) == k;
    }
    forall a, b | 0 <= a < b < |output|
      ensures LexLess(output[a].key, output[b].key)
    {
      assert StrLe(sorted[a], sorted[b]) && sorted[a] != sorted[b];
    }
  }

  /** `SortMapStringFloat64ByValue` as written: with `sortForward` the
      pairs are sorted by `PairFloat64List.Less`; otherwise the code calls
      `sort.Reverse(pairList)`, which only wraps the list and sorts
      nothing, and drops the wrapper, so the list stays in map order. */
  method SortMapStringFloat64ByValue(input: map<string, real>, sortForward: bool) returns (output: seq<PairFloat64>)
    ensures PairsOf(output, input)
    ensures sortForward ==> SortedBy(output, PairLe)
  {
    var pairList := CollectPairs(input);
    if sortForward {
      PairLeTotalPreorder();
      SortBySorted(pairList, PairLe);
      PairsOfPermutation(pairList, SortBy(pairList, PairLe), input);
      pairList := SortBy(pairList, PairLe);
    } else {
      // sort.Reverse(pairList) builds a reversed view and the result is discarded
    }
    output := pairList;
  }

  /** With `sortForward` false the contract above allows, and the code can
      return, an ascending list: the descending order is never made. */
  lemma ByValueReverseUnsorted()
    ensures PairsOf([PairFloat64("a", 1.0, ""), PairFloat64("b", 2.0, "")], map["a" := 1.0, "b" := 2.0])
    ensures !SortedBy([PairFloat64("a", 1.0, ""), PairFloat64("b", 2.0, "")], PairGe)
  {
    var p := [PairFloat64("a", 1.0, ""), PairFloat64("b", 2.0, "")];
    var m := map["a" := 1.0, "b" := 2.0];
    assert p[0].key == "a" && p[1].key == "b";
    assert |m| == 2 by {
      assert m.Keys == {"a", "b"};
    }
    assert !PairGe(p[0], p[1]);
  }

  /** `SortMapStringFloat64ByValue` as evidently intended:
      `sort.Sort(sort.Reverse(pairList))` when `sortForward` is false. */
  method SortMapStringFloat64ByValueFixed(input: map<string, real>, sortForward: bool) returns (output: seq<PairFloat64>)
    ensures PairsOf(output, input)
    ensures sortForward ==> SortedBy(output, PairLe)
    ensures !sortForward ==> SortedBy(output, PairGe)
  {
    var pairList := CollectPairs(input);
    if sortForward {
      PairLeTotalPreorder();
      SortBySorted(pairList, PairLe);
      PairsOfPermutation(pairList, SortBy(pairList, PairLe), input);
      pairList := SortBy(pairList, PairLe);
    } else {
      PairGeTotalPreorder();
      SortBySorted(pairList, PairGe);
      PairsOfPermutation(pairList, SortBy(pairList, PairGe), input);
      pairList := SortBy(pairList, PairGe);
    }
    output := pairList;
  }

  /** Sorting the collected pairs by value does not depend on the
      iteration order they were collected in. */
  lemma ByValueOrderIndependent(p: seq<PairFloat64>, q: seq<PairFloat64>, m: map<string, real>)
    requires PairsOf(p, m) && multiset(p) == multiset(q)
    ensures SortBy(p, PairLe) == SortBy(q, PairLe)
    ensures SortBy(p, PairGe) == SortBy(q, PairGe)
  {
    PairLeTotalPreorder();
    PairGeTotalPreorder();
    forall i, j | 0 <= i < |p| && 0 <= j < |p| && PairLe(p[i], p[j]) && PairLe(p[j], p[i])
      ensures p[i] == p[j]
    {
      PairLeAntisymmetric(p[i], p[j]);
    }
    SortByOrderIndependent(p, q, PairLe);
    forall i, j | 0 <= i < |p| && 0 <= j < |p| && PairGe(p[i], p[j]) && PairGe(p[j], p[i])
      ensures p[i] == p[j]
    {
      PairLeAntisymmetric(p[i], p[j]);
    }
    SortByOrderIndependent(p, q, PairGe);
  }
}
