/** code/util/fix_go_sort.go: an older copy of the map-to-pairs sorts with
    its own pair type, ordered by value alone. */
module UtilSort {
  import opened GoText
  import opened Sorting

  /** `util.PairFloat64`: a key and a value, without a formatted text. */
  datatype Pair = Pair(key: string, value: real)

  function PairKey(p: Pair): string { p.key }
  function PairValue(p: Pair): real { p.value }

  function Len(p: seq<Pair>): (n: nat)
    ensures n == |p|
  {
    |p|
  }

  /** `PairFloat64List.Less(i, j)`: compares values only. */
  function Less(p: seq<Pair>, i: nat, j: nat): (r: bool)
    requires i < |p| && j < |p|
    ensures r <==> ValueLess(p[i], p[j])
  {
    p[i].value < p[j].value
  }

  predicate ValueLess(a: Pair, b: Pair)
  {
    a.value < b.value
  }

  /** `PairFloat64List.Swap(i, j)`, in place. */
  method Swap(p: array<Pair>, i: nat, j: nat)
    requires i < p.Length && j < p.Length
    modifies p
    ensures p[..] == old(p[..])[i := old(p[j])][j := old(p[i])]
  {
    p[i], p[j] := p[j], p[i];
  }

  /** Order of `sort.Sort` here: pairs with equal values may come in
      either order, as Go's sort is not stable. */
  predicate ValueLe(a: Pair, b: Pair)
  {
    !ValueLess(b, a)
  }

  lemma ValueLeTotalPreorder()
    ensures TotalPreorder(ValueLe)
  {
  }

  /** The key loop of `SortMapStringFloat64ByKey`: every key once, in map
      order. */
  method CollectKeys(input: map<string, real>) returns (keys: seq<string>)
    ensures |keys| == |input| && Distinct(keys)
    ensures forall k :: k in input <==> k in keys
  {
    keys := [];
    var remaining := input.Keys;
    while remaining != {}
      invariant remaining <= input.Keys
      invariant |keys| + |remaining| == |input|
      invariant Distinct(keys)
      invariant forall k :: k in keys ==> k in input && k !in remaining
      invariant forall k :: k in input && k !in remaining ==> k in keys
      decreases |remaining|
    {
      var key :| key in remaining;
      keys := keys + [key];
      remaining := remaining - {key};
    }
  }

  /** The pair loop of `SortMapStringFloat64ByKey`: one pair per key, in
      the keys' order. */
  method KeyPairs(sorted: seq<string>, input: map<string, real>) returns (output: seq<Pair>)
    requires forall k :: k in sorted ==> k in input
    ensures |output| == |sorted|
    ensures forall j :: 0 <= j < |sorted| ==> sorted[j] in input && output[j] == Pair(sorted[j], input[sorted[j]])
  {
    output := [];
    var i := 0;
    while i < |sorted|
      invariant 0 <= i <= |sorted|
      invariant |output| == i
      invariant forall j :: 0 <= j < i ==> output[j] == Pair(sorted[j], input[sorted[j]])
    {
      output := output + [Pair(sorted[i], input[sorted[i]])];
      i := i + 1;
    }
  }

  /** `util.SortMapStringFloat64ByKey`: every entry once, in increasing key
      order. */
  method SortMapStringFloat64ByKey(input: map<string, real>) returns (output: seq<Pair>)
    ensures EntriesOf(output, input, PairKey, PairValue)
    ensures forall i, j :: 0 <= i < j < |output| ==> LexLess(output[i].key, output[j].key)
  {
    var keys := CollectKeys(input);
    var sorted := SortStrings(keys);
    output := KeyPairs(sorted, input);
    SortedKeyPairs(keys, sorted, input, output);
  }

  lemma SortedKeyPairs(keys: seq<string>, sorted: seq<string>, input: map<string, real>, output: seq<Pair>)
    requires |keys| == |input| && Distinct(keys) && Distinct(sorted)
    requires forall k :: k in input <==> k in keys
    requires multiset(sorted) == multiset(keys) && SortedBy(sorted, StrLe)
    requires |output| == |sorted|
    requires forall j :: 0 <= j < |sorted| ==> sorted[j] in input && output[j] == Pair(sorted[j], input[sorted[j]])
    ensures EntriesOf(output, input, PairKey, PairValue)
    ensures forall i, j :: 0 <= i < j < |output| ==> LexLess(output[i].key, output[j].key)
  {
    assert |sorted| == |multiset(sorted)| == |keys|;
    forall k | k in input
      ensures exists j :: 0 <= j < |output| && PairKey(output[j]) == k
    {
      assert k in multiset(keys);
      assert k in multiset(sorted);
      var j :| 0 <= j < |sorted| && sorted[j] == k;
      assert PairKey(output[j]) == k;
    }
    forall a, b | 0 <= a < b < |output|
      ensures LexLess(output[a].key, output[b].key)
    {
      assert StrLe(sorted[a], sorted[b]) && sorted[a] != sorted[b];
    }
  }

  /** `for key, value := range input`, one pair per entry, in the map's
      iteration order, which Go leaves unspecified. */
  method CollectPairs(input: map<string, real>) returns (pairList: seq<Pair>)
    ensures EntriesOf(pairList, input, PairKey, PairValue)
  {
    pairList := [];
    ghost var keys: seq<string> := [];
    var remaining := input.Keys;
    while remaining != {}
      invariant remaining <= input.Keys
      invariant |pairList| + |remaining| == |input|
      invariant |keys| == |pairList| && forall i :: 0 <= i < |keys| ==> keys[i] == pairList[i].key
      invariant forall i :: 0 <= i < |pairList| ==>
        pairList[i].key in input && pairList[i].key !in remaining && pairList[i].value == input[pairList[i].key]
      invariant forall i, j :: 0 <= i < j < |pairList| ==> pairList[i].key != pairList[j].key
      invariant forall k :: k in input && k !in remaining ==> k in keys
      decreases |remaining|
    {
      var key :| key in remaining;
      pairList := pairList + [Pair(key, input[key])];
      keys := keys + [key];
      remaining := remaining - {key};
    }
    forall k | k in input
      ensures exists i :: 0 <= i < |pairList| && PairKey(pairList[i]) == k
    {
      var i :| 0 <= i < |keys| && keys[i] == k;
      assert PairKey(pairList[i]) == k;
    }
  }

  /** `util.SortMapStringFloat64ByValue`: every entry once, in
      non-decreasing value order. */
  method SortMapStringFloat64ByValue(input: map<string, real>) returns (output: seq<Pair>)
    ensures EntriesOf(output, input, PairKey, PairValue)
    ensures forall i, j :: 0 <= i < j < |output| ==> output[i].value <= output[j].value
  {
    var pairList := CollectPairs(input);

    ValueLeTotalPreorder();
    output := Sort(pairList, ValueLe);
    EntriesOfPermutation(pairList, output, input, PairKey, PairValue);
  }
}
