/** code/data/fix_go_data.go: the orderings used to sort scored pairs, the
    byte-wise string comparison behind them, and the JSON reading of a
    Duration. */
module FixGoData {
  import opened Wrappers
  import opened Data
  import opened GoText
  import opened Sorting

  /** What `StringCompare` computes: the difference of the first differing
      bytes, or of the lengths when one string is a prefix of the other. */
  function Compare(s1: string, s2: string): int
    decreases |s1|
  {
    if |s1| == 0 || |s2| == 0 then |s1| - |s2|
    else if s1[0] != s2[0] then s1[0] as int - s2[0] as int
    else Compare(s1[1..], s2[1..])
  }

  lemma {:induction false} CompareSkip(s1: string, s2: string, i: nat)
    requires i <= |s1| && i <= |s2| && s1[..i] == s2[..i]
    ensures Compare(s1, s2) == Compare(s1[i..], s2[i..])
    decreases i
  {
    if i > 0 {
      assert s1[0] == s1[..i][0] == s2[..i][0] == s2[0];
      assert s1[1..][..i - 1] == s1[1..i] == s2[1..i] == s2[1..][..i - 1];
      CompareSkip(s1[1..], s2[1..], i - 1);
      assert s1[1..][i - 1..] == s1[i..];
      assert s2[1..][i - 1..] == s2[i..];
    }
  }

  method StringCompare(s1: string, s2: string) returns (r: int)
    ensures r == Compare(s1, s2)
  {
    var lens := |s1|;
    if lens > |s2| {
      lens := |s2|;
    }
    var i := 0;
    while i < lens
      invariant 0 <= i <= lens
      invariant lens == if |s1| < |s2| then |s1| else |s2|
      invariant s1[..i] == s2[..i]
    {
      if s1[i] != s2[i] {
        CompareSkip(s1, s2, i);
        return s1[i] as int - s2[i] as int;
      }
      assert s1[..i + 1] == s1[..i] + [s1[i]];
      assert s2[..i + 1] == s2[..i] + [s2[i]];
      i := i + 1;
    }
    CompareSkip(s1, s2, i);
    return |s1| - |s2|;
  }

  lemma {:induction false} CompareZeroIffEqual(s1: string, s2: string)
    ensures Compare(s1, s2) == 0 <==> s1 == s2
    decreases |s1|
  {
    if |s1| > 0 && |s2| > 0 && s1[0] == s2[0] {
      CompareZeroIffEqual(s1[1..], s2[1..]);
      if s1[1..] == s2[1..] {
        assert s1 == [s1[0]] + s1[1..] && s2 == [s2[0]] + s2[1..];
      }
    }
  }

  lemma {:induction false} CompareAntisymmetric(s1: string, s2: string)
    ensures Compare(s2, s1) == -Compare(s1, s2)
    decreases |s1|
  {
    if |s1| > 0 && |s2| > 0 && s1[0] == s2[0] {
      CompareAntisymmetric(s1[1..], s2[1..]);
    }
  }

  /** The sign of `Compare` is Go's string order. */
  lemma {:induction false} CompareNegativeIffLess(s1: string, s2: string)
    ensures Compare(s1, s2) < 0 <==> LexLess(s1, s2)
    decreases |s1|
  {
    if |s1| > 0 && |s2| > 0 && s1[0] == s2[0] {
      CompareNegativeIffLess(s1[1..], s2[1..]);
    }
  }

  /** `PairFloat64List.Less` on two elements: smaller value first; among
      equal values the greater key comes first. */
  predicate PairLess(a: PairFloat64, b: PairFloat64)
  {
    if a.value != b.value then a.value < b.value else Compare(a.key, b.key) > 0
  }

  function Len(p: seq<PairFloat64>): (n: nat)
    ensures n == |p|
  {
    |p|
  }

  /** `PairFloat64List.Less(i, j)`. */
  function Less(p: seq<PairFloat64>, i: nat, j: nat): (r: bool)
    requires i < |p| && j < |p|
    ensures r <==> (p[i].value < p[j].value || (p[i].value == p[j].value && LexLess(p[j].key, p[i].key)))
  {
    CompareAntisymmetric(p[i].key, p[j].key);
    CompareNegativeIffLess(p[j].key, p[i].key);
    PairLess(p[i], p[j])
  }

  /** `PairFloat64List.Swap(i, j)`, in place. */
  method Swap(p: array<PairFloat64>, i: nat, j: nat)
    requires i < p.Length && j < p.Length
    modifies p
    ensures p[..] == old(p[..])[i := old(p[j])][j := old(p[i])]
  {
    p[i], p[j] := p[j], p[i];
  }

  /** Order of `sort.Sort` on a `PairFloat64List`: `a` may precede `b`. */
  predicate PairLe(a: PairFloat64, b: PairFloat64)
  {
    !PairLess(b, a)
  }

  lemma PairLeTotalPreorder()
    ensures TotalPreorder(PairLe)
  {
    forall a: PairFloat64, b: PairFloat64
      ensures PairLe(a, b) || PairLe(b, a)
    {
      CompareAntisymmetric(a.key, b.key);
    }
    forall a: PairFloat64, b: PairFloat64, c: PairFloat64 | PairLe(a, b) && PairLe(b, c)
      ensures PairLe(a, c)
    {
      KeyOrderTransitive(c.key, b.key, a.key);
    }
  }

  /** `Compare(x, y) <= 0` is a transitive relation. */
  lemma KeyOrderTransitive(x: string, y: string, z: string)
    ensures Compare(x, y) <= 0 && Compare(y, z) <= 0 ==> Compare(x, z) <= 0
    ensures Compare(x, y) >= 0 && Compare(y, z) >= 0 ==> Compare(x, z) >= 0
  {
    CompareNegativeIffLess(x, y);
    CompareNegativeIffLess(y, z);
    CompareNegativeIffLess(x, z);
    CompareNegativeIffLess(y, x);
    CompareNegativeIffLess(z, y);
    CompareNegativeIffLess(z, x);
    CompareZeroIffEqual(x, y);
    CompareZeroIffEqual(y, z);
    CompareZeroIffEqual(x, z);
    CompareAntisymmetric(x, y);
    CompareAntisymmetric(y, z);
    CompareAntisymmetric(x, z);
    if LexLess(x, y) && LexLess(y, z) {
      LexLessTransitive(x, y, z);
    }
    if LexLess(z, y) && LexLess(y, x) {
      LexLessTransitive(z, y, x);
    }
  }

  /** Order of `sort.Sort(sort.Reverse(...))` on a `PairFloat64List`:
      greater value first; among equal values the smaller key first. */
  predicate PairGe(a: PairFloat64, b: PairFloat64)
  {
    !PairLess(a, b)
  }

  lemma PairGeTotalPreorder()
    ensures TotalPreorder(PairGe)
  {
    PairLeTotalPreorder();
    assert forall a, b :: PairGe(a, b) == PairLe(b, a);
  }

  /** Two pairs neither of which sorts before the other share key and
      value: with distinct keys the order is strict. */
  lemma PairLeAntisymmetric(a: PairFloat64, b: PairFloat64)
    requires PairLe(a, b) && PairLe(b, a)
    ensures a.key == b.key && a.value == b.value
  {
    CompareAntisymmetric(a.key, b.key);
    CompareZeroIffEqual(a.key, b.key);
  }

  /** `PairBotConditionDataList.Less` on two elements: lower final score
      first; among equal scores the greater key comes first. */
  predicate ConditionPairLess(a: PairBotConditionData, b: PairBotConditionData)
  {
    if a.value.finalScore != b.value.finalScore then a.value.finalScore < b.value.finalScore
    else Compare(a.key, b.key) > 0
  }

  function ConditionLen(p: seq<PairBotConditionData>): (n: nat)
    ensures n == |p|
  {
    |p|
  }

  /** `PairBotConditionDataList.Less(i, j)`. */
  function ConditionLess(p: seq<PairBotConditionData>, i: nat, j: nat): (r: bool)
    requires i < |p| && j < |p|
    ensures r <==> (p[i].value.finalScore < p[j].value.finalScore
                    || (p[i].value.finalScore == p[j].value.finalScore && LexLess(p[j].key, p[i].key)))
  {
    CompareAntisymmetric(p[i].key, p[j].key);
    CompareNegativeIffLess(p[j].key, p[i].key);
    ConditionPairLess(p[i], p[j])
  }

  /** `PairBotConditionDataList.Swap(i, j)`, in place. */
  method ConditionSwap(p: array<PairBotConditionData>, i: nat, j: nat)
    requires i < p.Length && j < p.Length
    modifies p
    ensures p[..] == old(p[..])[i := old(p[j])][j := old(p[i])]
  {
    p[i], p[j] := p[j], p[i];
  }

  /** Order of `sort.Sort` on a `PairBotConditionDataList`. */
  predicate ConditionPairLe(a: PairBotConditionData, b: PairBotConditionData)
  {
    !ConditionPairLess(b, a)
  }

  lemma ConditionPairLeTotalPreorder()
    ensures TotalPreorder(ConditionPairLe)
  {
    forall a: PairBotConditionData, b: PairBotConditionData
      ensures ConditionPairLe(a, b) || ConditionPairLe(b, a)
    {
      CompareAntisymmetric(a.key, b.key);
    }
    forall a: PairBotConditionData, b: PairBotConditionData, c: PairBotConditionData
      | ConditionPairLe(a, b) && ConditionPairLe(b, c)
      ensures ConditionPairLe(a, c)
    {
      KeyOrderTransitive(c.key, b.key, a.key);
    }
  }

  /** `sort.Reverse` of `PairBotConditionDataList`: higher score first;
      among equal scores the smaller key first. */
  predicate ConditionPairGe(a: PairBotConditionData, b: PairBotConditionData)
  {
    !ConditionPairLess(a, b)
  }

  lemma ConditionPairGeTotalPreorder()
    ensures TotalPreorder(ConditionPairGe)
  {
    ConditionPairLeTotalPreorder();
    assert forall a, b :: ConditionPairGe(a, b) == ConditionPairLe(b, a);
  }

  /** A JSON value after `json.Unmarshal` into an `interface{}`: numbers
      arrive as float64, strings as string; anything else is another type. */
  datatype DecodedJson = JsonNumber(n: real) | JsonString(s: string) | JsonOther

  /** Go's float64-to-integer conversion, which truncates towards zero. */
  function TruncateToInt(v: real): (d: int)
    ensures v >= 0.0 ==> 0.0 <= d as real <= v < d as real + 1.0
    ensures v < 0.0 ==> d as real - 1.0 < v <= d as real <= 0.0
  {
    if v >= 0.0 then v.Floor else -((-v).Floor)
  }

  /** `Duration.UnmarshalJSON`.  `decoded` is what `json.Unmarshal` gives
      (or its error) and `parseDuration` stands for `time.ParseDuration`. */
  function UnmarshalDuration(decoded: Result<DecodedJson, string>,
                             parseDuration: string -> Result<Duration, string>): (r: Result<Duration, string>)
    ensures decoded.Err? ==> r == Err(decoded.error)
    ensures decoded.Ok? && decoded.value.JsonNumber? ==> r == Ok(TruncateToInt(decoded.value.n))
    ensures decoded.Ok? && decoded.value.JsonString? ==> r == parseDuration(decoded.value.s)
    ensures decoded.Ok? && decoded.value.JsonOther? ==> r == Err("invalid duration")
  {
    match decoded
    case Err(e) => Err(e)
    case Ok(JsonNumber(n)) => Ok(TruncateToInt(n))
    case Ok(JsonString(s)) => parseDuration(s)
    case Ok(JsonOther) => Err("invalid duration")
  }

  /** A whole number of nanoseconds reads back exactly. */
  lemma UnmarshalWholeNanos(n: int, parseDuration: string -> Result<Duration, string>)
    ensures UnmarshalDuration(Ok(JsonNumber(n as real)), parseDuration) == Ok(n)
  {
  }
}
