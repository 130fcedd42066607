/**
 * The string operations of Python that the logger and the analysis
 * scripts rely on: suffix tests, substring search, `split`/`join` on one
 * separator character, `rsplit(sep, 1)[0]`, the `name[4:-5]` slice, and
 * `int()`/`str()` on decimal integers.
 */
module Text {
  import opened Wrappers

  /** `s.endswith(suffix)` */
  predicate EndsWith(s: string, suffix: string) {
    |suffix| <= |s| && s[|s| - |suffix|..] == suffix
  }

  /** `s.startswith(prefix)` */
  predicate StartsWith(s: string, prefix: string) {
    |prefix| <= |s| && s[..|prefix|] == prefix
  }

  predicate OccursAt(s: string, sub: string, i: int) {
    0 <= i && i + |sub| <= |s| && s[i..i + |sub|] == sub
  }

  /** `sub in s` for two strings. */
  predicate Contains(s: string, sub: string) {
    exists i | 0 <= i <= |s| - |sub| :: OccursAt(s, sub, i)
  }

  lemma ContainsSuffix(s: string, sub: string)
    requires EndsWith(s, sub)
    ensures Contains(s, sub)
  {
    assert OccursAt(s, sub, |s| - |sub|);
  }

  /** `name[4:-5]`: drops the `log_` prefix and the `.json` suffix; Python clamps both bounds. */
  function StripLogName(name: string): (r: string)
    ensures |name| >= 9 ==> name == name[..4] + r + name[|name| - 5..]
    ensures |name| <= 9 ==> r == ""
  {
    if |name| >= 9 then name[4..|name| - 5] else ""
  }

  /** `s.split(c)`: never empty; no piece contains the separator. */
  function Split(s: string, c: char): (r: seq<string>)
    ensures |r| >= 1
    ensures forall i :: 0 <= i < |r| ==> c !in r[i]
  {
    if |s| == 0 then [""]
    else if s[0] == c then [""] + Split(s[1..], c)
    else
      var rest := Split(s[1..], c);
      [[s[0]] + rest[0]] + rest[1..]
  }

  /** `c.join(parts)` */
  function Join(parts: seq<string>, c: char): string {
    if |parts| == 0 then ""
    else if |parts| == 1 then parts[0]
    else parts[0] + [c] + Join(parts[1..], c)
  }

  lemma {:induction false} JoinSplit(s: string, c: char)
    ensures Join(Split(s, c), c) == s
  {
    if |s| == 0 {
    } else if s[0] == c {
      JoinSplit(s[1..], c);
      var rest := Split(s[1..], c);
      assert Split(s, c) == [""] + rest;
      assert s == [c] + s[1..];
    } else {
      JoinSplit(s[1..], c);
      var rest := Split(s[1..], c);
      assert Split(s, c)[1..] == rest[1..];
      if |rest| == 1 {
        assert s == [s[0]] + s[1..];
      } else {
        assert rest == [rest[0]] + rest[1..];
        assert s == [s[0]] + s[1..];
      }
    }
  }

  lemma {:induction false} SplitJoinHead(p: string, tail: string, c: char)
    requires c !in p
    ensures Split(p + tail, c) == (var r := Split(tail, c); [p + r[0]] + r[1..])
    decreases |p|
  {
    if |p| == 0 {
      var r := Split(tail, c);
      assert p + tail == tail;
      assert p + r[0] == r[0];
      assert [r[0]] + r[1..] == r;
    } else {
      SplitJoinHead(p[1..], tail, c);
      assert (p + tail)[1..] == p[1..] + tail;
      assert [p[0]] + (p[1..] + Split(tail, c)[0]) == p + Split(tail, c)[0];
    }
  }

  /** Splitting a join of separator-free pieces gives the pieces back. */
  lemma {:induction false} SplitJoin(parts: seq<string>, c: char)
    requires |parts| >= 1
    requires forall i :: 0 <= i < |parts| ==> c !in parts[i]
    ensures Split(Join(parts, c), c) == parts
  {
    if |parts| == 1 {
      SplitJoinHead(parts[0], "", c);
      assert parts[0] + "" == parts[0];
    } else {
      SplitJoin(parts[1..], c);
      var tail := [c] + Join(parts[1..], c);
      assert tail[0] == c && tail[1..] == Join(parts[1..], c);
      assert Split(tail, c) == [""] + parts[1..];
      assert parts[0] + "" == parts[0];
      assert [parts[0]] + parts[1..] == parts;
      SplitJoinHead(parts[0], tail, c);
      assert parts[0] + [c] + Join(parts[1..], c) == parts[0] + tail;
    }
  }

  /** Joining is injective on separator-free, non-empty lists of pieces. */
  lemma JoinInjective(a: seq<string>, b: seq<string>, c: char)
    requires |a| >= 1 && |b| >= 1
    requires forall i :: 0 <= i < |a| ==> c !in a[i]
    requires forall i :: 0 <= i < |b| ==> c !in b[i]
    requires Join(a, c) == Join(b, c)
    ensures a == b
  {
    SplitJoin(a, c);
    SplitJoin(b, c);
  }

  /** `s.rsplit(c, 1)[0]`: everything before the last `c`, or `s` when there is none. */
  function RSplitHead(s: string, c: char): (r: string)
    ensures StartsWith(s, r)
    ensures c !in s ==> r == s
    ensures c in s ==> |r| < |s| && s[|r|] == c && c !in s[|r| + 1..]
    decreases |s|
  {
    if |s| == 0 then s
    else if s[|s| - 1] == c then s[..|s| - 1]
    else if c in s[..|s| - 1] then
      var init := s[..|s| - 1];
      var r := RSplitHead(init, c);
      assert s[..|r|] == init[..|r|];
      assert s[|r|] == init[|r|];
      assert s[|r| + 1..] == init[|r| + 1..] + [s[|s| - 1]];
      r
    else
      assert s == s[..|s| - 1] + [s[|s| - 1]];
      assert c !in s;
      s
  }

  lemma {:induction false} RSplitHeadOfSuffix(p: string, c: char, t: string)
    requires c !in t
    ensures RSplitHead(p + [c] + t, c) == p
    decreases |t|
  {
    var s := p + [c] + t;
    if |t| == 0 {
      assert s[..|s| - 1] == p;
    } else {
      assert s[..|s| - 1] == p + [c] + t[..|t| - 1];
      assert c in s[..|s| - 1] by { assert s[..|s| - 1][|p|] == c; }
      assert t[|t| - 1] in t;
      RSplitHeadOfSuffix(p, c, t[..|t| - 1]);
    }
  }

  // ---- decimal integers ----

  predicate IsDigit(ch: char) { '0' <= ch <= '9' }

  predicate AllDigits(s: string) { forall i :: 0 <= i < |s| ==> IsDigit(s[i]) }

  function DigitChar(d: nat): (ch: char)
    requires d < 10
    ensures IsDigit(ch)
  {
    ('0' as int + d) as char
  }

  function DigitValue(ch: char): (d: nat)
    requires IsDigit(ch)
    ensures d < 10
  {
    ch as int - '0' as int
  }

  /** The value of a string of decimal digits, most significant first. */
  function DigitsValue(s: string): nat
    requires AllDigits(s)
  {
    if |s| == 0 then 0 else DigitsValue(s[..|s| - 1]) * 10 + DigitValue(s[|s| - 1])
  }

  /** `int(s)` for an optional sign followed by ASCII digits; `None` stands for `ValueError`. */
  function ParseInt(s: string): (r: Option<int>)
    ensures r.Some? <==> && |s| >= 1 && AllDigits(s[1..])
                         && (IsDigit(s[0]) || (|s| >= 2 && (s[0] == '-' || s[0] == '+')))
    ensures r.Some? && r.value < 0 ==> s[0] == '-'
  {
    assert |s| >= 1 ==> (AllDigits(s) <==> IsDigit(s[0]) && AllDigits(s[1..])) by {
      if |s| >= 1 && IsDigit(s[0]) && AllDigits(s[1..]) {
        forall i | 0 < i < |s| ensures IsDigit(s[i]) { assert s[i] == s[1..][i - 1]; }
      }
    }
    if |s| >= 2 && (s[0] == '-' || s[0] == '+') && AllDigits(s[1..]) then
      Some(if s[0] == '-' then -(DigitsValue(s[1..]) as int) else DigitsValue(s[1..]))
    else if |s| >= 1 && AllDigits(s) then Some(DigitsValue(s))
    else None
  }

  /** `str(n)` for a non-negative integer. */
  function NatToDecimal(n: nat): (r: string)
    ensures |r| >= 1 && AllDigits(r)
  {
    if n < 10 then [DigitChar(n)] else NatToDecimal(n / 10) + [DigitChar(n % 10)]
  }

  /** `str(n)` */
  function IntToDecimal(n: int): (r: string)
    ensures |r| >= 1 && (IsDigit(r[0]) || r[0] == '-')
  {
    if n < 0 then "-" + NatToDecimal(-n) else NatToDecimal(n)
  }

  lemma {:induction false} DigitsOfDecimal(n: nat)
    ensures DigitsValue(NatToDecimal(n)) == n
  {
    var r := NatToDecimal(n);
    if n >= 10 {
      DigitsOfDecimal(n / 10);
      assert r[..|r| - 1] == NatToDecimal(n / 10);
    }
  }

  /** `int(str(n)) == n`: the decimal text of an integer parses back to it. */
  lemma ParseIntToDecimal(n: int)
    ensures ParseInt(IntToDecimal(n)) == Some(n)
  {
    var s := IntToDecimal(n);
    if n < 0 {
      DigitsOfDecimal(-n);
      assert s[0] == '-' && s[1..] == NatToDecimal(-n);
      assert |s| >= 2 && AllDigits(s[1..]);
    } else {
      DigitsOfDecimal(n);
      assert s == NatToDecimal(n) && |s| >= 1 && AllDigits(s) && IsDigit(s[0]);
    }
  }

  lemma IntToDecimalInjective(a: int, b: int)
    requires IntToDecimal(a) == IntToDecimal(b)
    ensures a == b
  {
    ParseIntToDecimal(a);
    ParseIntToDecimal(b);
  }

  // ---- Python's `<` on strings and on lists of strings ----

  /** `a < b` on strings: code-point lexicographic order. */
  predicate StrLess(a: string, b: string)
    ensures StrLess(a, b) ==> a != b
    ensures StartsWith(b, a) ==> (StrLess(a, b) <==> |a| < |b|)
  {
    if |a| == 0 then |b| > 0
    else if |b| == 0 then false
    else if a[0] == b[0] then StrLess(a[1..], b[1..])
    else a[0] < b[0]
  }

  /** `a < b` on lists of strings. */
  predicate ListLess(a: seq<string>, b: seq<string>)
    ensures ListLess(a, b) ==> a != b
    ensures |a| <= |b| && b[..|a|] == a ==> (ListLess(a, b) <==> |a| < |b|)
  {
    if |a| == 0 then |b| > 0
    else if |b| == 0 then false
    else if a[0] == b[0] then ListLess(a[1..], b[1..])
    else StrLess(a[0], b[0])
  }

  lemma {:induction false} StrLessAsymmetric(a: string, b: string)
    ensures StrLess(a, b) ==> !StrLess(b, a)
  {
    if |a| > 0 && |b| > 0 && a[0] == b[0] {
      StrLessAsymmetric(a[1..], b[1..]);
    }
  }

  lemma {:induction false} ListLessAsymmetric(a: seq<string>, b: seq<string>)
    ensures ListLess(a, b) ==> !ListLess(b, a)
  {
    if |a| > 0 && |b| > 0 {
      if a[0] == b[0] {
        ListLessAsymmetric(a[1..], b[1..]);
      } else {
        StrLessAsymmetric(a[0], b[0]);
      }
    }
  }
}
