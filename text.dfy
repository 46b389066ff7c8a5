/** The .NET string and number primitives that the broker's logic relies on:
    `string.Replace(old, new, comparison)` and `int.TryParse(string)`,
    stated over `seq<char>`. */
module Text {
  import opened Wrappers

  /** The two `StringComparison` modes the broker uses. */
  datatype Comparison = Ordinal | IgnoreCase

  /** Case folding for the ASCII letters. */
  function ToLowerAscii(c: char): char {
    if 'A' <= c <= 'Z' then (c as int + 32) as char else c
  }

  predicate SameChar(a: char, b: char, cmp: Comparison) {
    match cmp
    case Ordinal => a == b
    case IgnoreCase => ToLowerAscii(a) == ToLowerAscii(b)
  }

  /** `s` begins with `pat` under `cmp`. */
  predicate StartsWith(s: string, pat: string, cmp: Comparison) {
    |pat| <= |s| && forall j :: 0 <= j < |pat| ==> SameChar(s[j], pat[j], cmp)
  }

  /** `pat` occurs somewhere in `s` under `cmp`. */
  predicate Contains(s: string, pat: string, cmp: Comparison)
    decreases |s|
  {
    |pat| <= |s| && (StartsWith(s, pat, cmp) || (|s| > 0 && Contains(s[1..], pat, cmp)))
  }

  /** `s.Replace(pat, rep, cmp)`: scans left to right and replaces every
      non-overlapping occurrence of `pat` by `rep`. The broker only ever
      passes a non-empty `pat` (an empty one makes .NET throw). */
  function ReplaceAll(s: string, pat: string, rep: string, cmp: Comparison): string
    requires |pat| > 0
    decreases |s|
  {
    if |s| < |pat| then s
    else if StartsWith(s, pat, cmp) then rep + ReplaceAll(s[|pat|..], pat, rep, cmp)
    else [s[0]] + ReplaceAll(s[1..], pat, rep, cmp)
  }

  /** Independent reference count: how many occurrences `ReplaceAll` replaces. */
  function Occurrences(s: string, pat: string, cmp: Comparison): nat
    requires |pat| > 0
    decreases |s|
  {
    if |s| < |pat| then 0
    else if StartsWith(s, pat, cmp) then 1 + Occurrences(s[|pat|..], pat, cmp)
    else Occurrences(s[1..], pat, cmp)
  }

  /** A string without the pattern is left untouched. */
  lemma {:induction false} ReplaceAllWithoutMatch(s: string, pat: string, rep: string, cmp: Comparison)
    requires |pat| > 0 && !Contains(s, pat, cmp)
    ensures ReplaceAll(s, pat, rep, cmp) == s
    decreases |s|
  {
    if |s| >= |pat| {
      ReplaceAllWithoutMatch(s[1..], pat, rep, cmp);
      assert [s[0]] + s[1..] == s;
    }
  }

  /** A string that starts with a match of the pattern has that occurrence replaced. */
  lemma ReplaceAllOfPrefixed(p: string, t: string, pat: string, rep: string, cmp: Comparison)
    requires |pat| > 0 && |p| == |pat| && StartsWith(p, pat, cmp)
    ensures ReplaceAll(p + t, pat, rep, cmp) == rep + ReplaceAll(t, pat, rep, cmp)
  {
    assert StartsWith(p + t, pat, cmp) by {
      forall j | 0 <= j < |pat| ensures (p + t)[j] == p[j] { }
    }
    assert (p + t)[|pat|..] == t;
  }

  /** The length of the result: every occurrence trades `|pat|` characters for `|rep|`. */
  lemma {:induction false} ReplaceAllLength(s: string, pat: string, rep: string, cmp: Comparison)
    requires |pat| > 0
    ensures |ReplaceAll(s, pat, rep, cmp)| == |s| + Occurrences(s, pat, cmp) * (|rep| - |pat|)
    decreases |s|
  {
    if |s| >= |pat| {
      if StartsWith(s, pat, cmp) {
        var k := Occurrences(s[|pat|..], pat, cmp);
        ReplaceAllLength(s[|pat|..], pat, rep, cmp);
        TradeOneMore(|s|, |pat|, |rep|, k);
      } else {
        ReplaceAllLength(s[1..], pat, rep, cmp);
      }
    }
  }

  /** The arithmetic of one more replaced occurrence. */
  lemma TradeOneMore(n: int, p: int, r: int, k: int)
    ensures r + (n - p + k * (r - p)) == n + (1 + k) * (r - p)
  {
  }

  // ---------------------------------------------------------------------
  // int.TryParse(string) with NumberStyles.Integer: optional leading white
  // space, an optional sign, one or more ASCII digits, optional trailing
  // white space, and a value in the range of a C# int.

  predicate IsWhite(c: char) {
    c == ' ' || '\t' <= c <= '\r'
  }

  predicate IsDigit(c: char) {
    '0' <= c <= '9'
  }

  predicate AllDigits(s: string) {
    forall i :: 0 <= i < |s| ==> IsDigit(s[i])
  }

  function TrimStart(s: string): (t: string)
    ensures |t| <= |s|
    decreases |s|
  {
    if |s| > 0 && IsWhite(s[0]) then TrimStart(s[1..]) else s
  }

  function TrimEnd(s: string): (t: string)
    ensures |t| <= |s|
    decreases |s|
  {
    if |s| > 0 && IsWhite(s[|s| - 1]) then TrimEnd(s[..|s| - 1]) else s
  }

  function DigitsValue(ds: string): nat
    requires AllDigits(ds)
    decreases |ds|
  {
    if |ds| == 0 then 0
    else
      assert IsDigit(ds[|ds| - 1]);
      DigitsValue(ds[..|ds| - 1]) * 10 + (ds[|ds| - 1] as int - '0' as int)
  }

  /** `int.TryParse(s, out n)`: `Some(n)` when it returns true. */
  function ParseInt32(s: string): (r: Option<int>)
    ensures r.Some? ==> IsInt32(r.value)
  {
    var t := TrimEnd(TrimStart(s));
    var negative := |t| > 0 && t[0] == '-';
    var digits := if |t| > 0 && (t[0] == '-' || t[0] == '+') then t[1..] else t;
    if |digits| == 0 || !AllDigits(digits) then None
    else
      var v: int := DigitsValue(digits);
      var n := if negative then -v else v;
      if IsInt32(n) then Some(n) else None
  }

  /** Decimal rendering of a natural number, as `ToString()` writes it. */
  function ShowNat(n: nat): (s: string)
    ensures |s| > 0 && AllDigits(s)
  {
    if n < 10 then [('0' as int + n) as char]
    else ShowNat(n / 10) + [('0' as int + n % 10) as char]
  }

  /** Decimal rendering of an integer, as `ToString()` writes it. */
  function ShowInt(n: int): string {
    if n < 0 then "-" + ShowNat(-n) else ShowNat(n)
  }

  lemma {:induction false} DigitsValueOfShowNat(n: nat)
    ensures DigitsValue(ShowNat(n)) == n
  {
    var s := ShowNat(n);
    if n >= 10 {
      DigitsValueOfShowNat(n / 10);
      assert s[..|s| - 1] == ShowNat(n / 10);
    }
  }

  /** `int.TryParse` reads back what `ToString()` wrote, for every C# int,
      and rejects the decimal form of every integer outside that range. */
  lemma ParseShowRoundTrip(n: int)
    ensures IsInt32(n) ==> ParseInt32(ShowInt(n)) == Some(n)
    ensures !IsInt32(n) ==> ParseInt32(ShowInt(n)) == None
  {
    var s := ShowInt(n);
    var m: nat := if n < 0 then -n else n;
    var ds := ShowNat(m);
    assert !IsWhite(s[0]);
    assert TrimStart(s) == s;
    assert !IsWhite(s[|s| - 1]) by {
      assert s[|s| - 1] == ds[|ds| - 1];
    }
    assert TrimEnd(s) == s;
    DigitsValueOfShowNat(m);
    if n < 0 {
      assert s[1..] == ds;
    } else {
      assert s == ds;
      assert IsDigit(s[0]);
    }
  }

  /** Text that is not all digits after an optional sign is rejected. */
  lemma ParseRejectsNonNumeric(s: string)
    requires |s| > 0 && forall i :: 0 <= i < |s| ==> !IsWhite(s[i]) && !IsDigit(s[i])
    ensures ParseInt32(s) == None
  {
    assert TrimStart(s) == s;
    assert TrimEnd(TrimStart(s)) == s;
    var digits := if s[0] == '-' || s[0] == '+' then s[1..] else s;
    if |digits| > 0 {
      assert !IsDigit(digits[0]);
      assert !AllDigits(digits);
    }
  }
}
