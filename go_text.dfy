/** Go string semantics the model relies on.  A Go string is a byte
    sequence; here every `char` stands for one byte, so ordering and
    comparison are those of Go on ASCII text.  The helpers of the `util`
    package that the core calls (`StringInSlice`, `StringSliceFindIndex`,
    `StringSliceRemoveString`, `PrintStringArrayCSV`) are not part of this
    model; the definitions below give them the behaviour their call sites
    rely on. */
module GoText {
  import opened Wrappers

  /** Go's `a < b` on strings: byte-wise lexicographic order. */
  predicate LexLess(a: string, b: string)
    decreases |a|
  {
    if |a| == 0 then |b| > 0
    else if |b| == 0 then false
    else if a[0] != b[0] then a[0] < b[0]
    else LexLess(a[1..], b[1..])
  }

  /** The order `sort.Strings` sorts by. */
  predicate StrLe(a: string, b: string)
  {
    a == b || LexLess(a, b)
  }

  lemma {:induction false} LexLessIrreflexive(a: string)
    ensures !LexLess(a, a)
    decreases |a|
  {
    if |a| > 0 {
      assert a[1..] == a[1..];
      LexLessIrreflexive(a[1..]);
    }
  }

  lemma {:induction false} LexLessTrichotomy(a: string, b: string)
    ensures a == b || LexLess(a, b) || LexLess(b, a)
    ensures !(LexLess(a, b) && LexLess(b, a))
    decreases |a|
  {
    if |a| > 0 && |b| > 0 && a[0] == b[0] {
      LexLessTrichotomy(a[1..], b[1..]);
      if a[1..] == b[1..] {
        assert a == [a[0]] + a[1..] && b == [b[0]] + b[1..];
      }
    }
  }

  lemma {:induction false} LexLessTransitive(a: string, b: string, c: string)
    requires LexLess(a, b) && LexLess(b, c)
    ensures LexLess(a, c)
    decreases |a|
  {
    if |a| > 0 && |b| > 0 && |c| > 0 && a[0] == b[0] && b[0] == c[0] {
      LexLessTransitive(a[1..], b[1..], c[1..]);
    }
  }

  lemma StrLeTotalPreorder()
    ensures forall a: string, b: string :: StrLe(a, b) || StrLe(b, a)
    ensures forall a: string, b: string, c: string :: StrLe(a, b) && StrLe(b, c) ==> StrLe(a, c)
    ensures forall a: string, b: string :: StrLe(a, b) && StrLe(b, a) ==> a == b
  {
    forall a: string, b: string
      ensures StrLe(a, b) || StrLe(b, a)
      ensures StrLe(a, b) && StrLe(b, a) ==> a == b
    {
      LexLessTrichotomy(a, b);
    }
    forall a: string, b: string, c: string | StrLe(a, b) && StrLe(b, c)
      ensures StrLe(a, c)
    {
      if a != b && b != c {
        LexLessTransitive(a, b, c);
      }
    }
  }

  /** `util.StringSliceFindIndex`: the first position of `x`, if any. */
  function FindIndex(s: seq<string>, x: string): (r: Option<nat>)
    ensures r.Some? <==> x in s
    ensures r.Some? ==> r.value < |s| && s[r.value] == x && x !in s[..r.value]
  {
    if |s| == 0 then None
    else if s[0] == x then Some(0)
    else match FindIndex(s[1..], x)
      case None => None
      case Some(i) => assert s[1..][..i] == s[1..i + 1]; Some(i + 1)
  }

  /** `util.StringSliceRemoveString`: removes the first occurrence of `x`;
      `None` (Go: an error) when `x` is absent. */
  function RemoveFirst(s: seq<string>, x: string): (r: Option<seq<string>>)
    ensures r.Some? <==> x in s
    ensures r.Some? ==> multiset(r.value) + multiset{x} == multiset(s)
    ensures r.Some? ==> |r.value| + 1 == |s|
  {
    if |s| == 0 then None
    else if s[0] == x then assert s == [s[0]] + s[1..]; Some(s[1..])
    else match RemoveFirst(s[1..], x)
      case None => None
      case Some(t) => assert s == [s[0]] + s[1..]; Some([s[0]] + t)
  }

  predicate HasPrefix(s: string, p: string)
  {
    |p| <= |s| && s[..|p|] == p
  }

  /** Position of the first `c` in `s`. */
  function IndexOfChar(s: string, c: char): (r: Option<nat>)
    ensures r.Some? <==> c in s
    ensures r.Some? ==> r.value < |s| && s[r.value] == c && c !in s[..r.value]
  {
    if |s| == 0 then None
    else if s[0] == c then Some(0)
    else match IndexOfChar(s[1..], c)
      case None => None
      case Some(i) => assert s[1..][..i] == s[1..i + 1]; Some(i + 1)
  }

  /** `strings.SplitN(s, ".", 2)`: the text before the first dot and, when
      there is a dot, the text after it. */
  function SplitFirstDot(s: string): (r: (string, Option<string>))
    ensures r.1.None? <==> '.' !in s
    ensures r.1.None? ==> r.0 == s
    ensures r.1.Some? ==> s == r.0 + "." + r.1.value && '.' !in r.0
  {
    match IndexOfChar(s, '.')
    case None => (s, None)
    case Some(i) =>
      assert s == s[..i] + "." + s[i + 1..];
      (s[..i], Some(s[i + 1..]))
  }

  lemma SplitJoinDot(base: string, lbl: string)
    requires '.' !in base
    ensures SplitFirstDot(base + "." + lbl) == (base, Some(lbl))
  {
    var s := base + "." + lbl;
    assert forall j :: 0 <= j < |base| ==> s[j] == base[j];
    assert s[|base|] == '.';
    assert s[..|base|] == base;
    assert s[|base| + 1..] == lbl;
  }

  /** `strings.Join(parts, sep)`. */
  function Join(parts: seq<string>, sep: string): (r: string)
    ensures |parts| == 0 ==> r == ""
    ensures |parts| == 1 ==> r == parts[0]
  {
    if |parts| == 0 then ""
    else if |parts| == 1 then parts[0]
    else parts[0] + sep + Join(parts[1..], sep)
  }

  lemma {:induction false} JoinNoSep(parts: seq<string>, sep: string, c: char)
    requires forall i :: 0 <= i < |parts| ==> c !in parts[i]
    requires c !in sep
    ensures c !in Join(parts, sep)
    decreases |parts|
  {
    if |parts| > 1 {
      JoinNoSep(parts[1..], sep, c);
    }
  }

  function DigitChar(d: nat): (c: char)
    requires d < 10
    ensures '0' <= c <= '9'
  {
    "0123456789"[d]
  }

  /** Decimal rendering of a natural number, as `%d` prints it. */
  function NatToString(n: nat): (r: string)
    ensures |r| > 0
    ensures forall i :: 0 <= i < |r| ==> '0' <= r[i] <= '9'
    decreases n
  {
    if n < 10 then [DigitChar(n)] else NatToString(n / 10) + [DigitChar(n % 10)]
  }

  /** Decimal rendering of an integer, as `%d` prints it. */
  function IntToString(n: int): (r: string)
    ensures |r| > 0
    ensures n >= 0 ==> '-' !in r
    ensures n < 0 ==> r[0] == '-'
  {
    if n >= 0 then NatToString(n) else "-" + NatToString(-n)
  }

  function DigitValue(c: char): nat
  {
    if '0' <= c <= '9' then (c as int - '0' as int) as nat else 0
  }

  /** Reads a decimal digit string back. */
  function ParseNat(s: string): nat
    decreases |s|
  {
    if |s| == 0 then 0 else ParseNat(s[..|s| - 1]) * 10 + DigitValue(s[|s| - 1])
  }

  lemma {:induction false} ParseNatToString(n: nat)
    ensures ParseNat(NatToString(n)) == n
    decreases n
  {
    if n >= 10 {
      var s := NatToString(n);
      assert s[..|s| - 1] == NatToString(n / 10);
      ParseNatToString(n / 10);
    }
  }

  lemma NatToStringInjective(a: nat, b: nat)
    requires NatToString(a) == NatToString(b)
    ensures a == b
  {
    ParseNatToString(a);
    ParseNatToString(b);
  }

  /** `strings.ReplaceAll(s, pat, rep)`: every non-overlapping occurrence of
      `pat`, scanning left to right, is replaced by `rep`. */
  function ReplaceAll(s: string, pat: string, rep: string): (r: string)
    requires |pat| > 0
    decreases |s|
  {
    if |s| < |pat| then s
    else if s[..|pat|] == pat then rep + ReplaceAll(s[|pat|..], pat, rep)
    else [s[0]] + ReplaceAll(s[1..], pat, rep)
  }

  /** Replacing a pattern by a text at least as long never shortens the
      string. */
  lemma {:induction false} ReplaceAllGrows(s: string, pat: string, rep: string)
    requires 0 < |pat| <= |rep|
    ensures |ReplaceAll(s, pat, rep)| >= |s|
    decreases |s|
  {
    if |s| < |pat| {
    } else if s[..|pat|] == pat {
      ReplaceAllGrows(s[|pat|..], pat, rep);
    } else {
      ReplaceAllGrows(s[1..], pat, rep);
    }
  }

  /** Replacing a character that does not occur changes nothing. */
  lemma {:induction false} ReplaceAllAbsentChar(s: string, c: char, rep: string)
    requires c !in s
    ensures ReplaceAll(s, [c], rep) == s
    decreases |s|
  {
    if |s| > 0 {
      assert s[..1] == [s[0]];
      ReplaceAllAbsentChar(s[1..], c, rep);
      assert [s[0]] + s[1..] == s;
    }
  }

  /** Replacing a pattern by a strictly shorter text shortens the string
      unless the pattern does not occur. */
  lemma {:induction false} ReplaceAllShorter(s: string, pat: string, rep: string)
    requires |pat| > 0 && |rep| < |pat|
    ensures |ReplaceAll(s, pat, rep)| <= |s|
    ensures Contains(s, pat) ==> |ReplaceAll(s, pat, rep)| < |s|
    ensures !Contains(s, pat) ==> ReplaceAll(s, pat, rep) == s
    decreases |s|
  {
    if |s| >= |pat| {
      if s[..|pat|] == pat {
        ReplaceAllShorter(s[|pat|..], pat, rep);
      } else {
        ReplaceAllShorter(s[1..], pat, rep);
      }
    }
  }

  /** `strings.Contains(s, pat)`. */
  predicate Contains(s: string, pat: string)
    decreases |s|
  {
    if |s| < |pat| then false
    else s[..|pat|] == pat || (|s| > 0 && Contains(s[1..], pat))
  }
}
