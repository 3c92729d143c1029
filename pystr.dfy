/** The Python `str` operations the two services rely on: `strip`, `startswith`,
    `replace(old, "")`, `split(sep)`, `sep.join`, `isalnum`/`upper` (ASCII),
    `str(int)` and the `:,.2f` money format of an integer. */
module PyStr {
  import opened Wrappers

  /** Characters for which Python's `str.isspace()` holds; `strip()` removes these. */
  predicate IsSpace(c: char) {
    c == ' ' || ('\t' <= c <= '\r') || ('\U{1c}' <= c <= '\U{1f}')
    || c == '\U{85}' || c == '\U{a0}' || c == '\U{1680}' || ('\U{2000}' <= c <= '\U{200a}')
    || c == '\U{2028}' || c == '\U{2029}' || c == '\U{202f}' || c == '\U{205f}' || c == '\U{3000}'
  }

  predicate AllSpace(s: string) {
    forall i :: 0 <= i < |s| ==> IsSpace(s[i])
  }

  /** The first index at or after `i` that does not hold whitespace. */
  function SkipSpace(s: string, i: nat): (n: nat)
    requires i <= |s|
    ensures i <= n <= |s|
    ensures forall k :: i <= k < n ==> IsSpace(s[k])
    ensures n < |s| ==> !IsSpace(s[n])
    decreases |s| - i
  {
    if i < |s| && IsSpace(s[i]) then SkipSpace(s, i + 1) else i
  }

  /** The end of `s[lo..j]` once its trailing whitespace is removed. */
  function TrimEnd(s: string, lo: nat, j: nat): (n: nat)
    requires lo <= j <= |s|
    ensures lo <= n <= j
    ensures forall k :: n <= k < j ==> IsSpace(s[k])
    ensures n > lo ==> !IsSpace(s[n - 1])
    decreases j
  {
    if j > lo && IsSpace(s[j - 1]) then TrimEnd(s, lo, j - 1) else j
  }

  /** Python's `s.strip()`: leading whitespace is skipped, then trailing
      whitespace is removed from what is left. */
  function Strip(s: string): (r: string)
    ensures |r| <= |s|
    ensures r != [] ==> !IsSpace(r[0]) && !IsSpace(r[|r| - 1])
  {
    var lo := SkipSpace(s, 0);
    s[lo..TrimEnd(s, lo, |s|)]
  }

  /** A string strips to nothing exactly when it is all whitespace. */
  lemma StripBlank(s: string)
    ensures Strip(s) == [] <==> AllSpace(s)
  {
    var lo := SkipSpace(s, 0);
    var hi := TrimEnd(s, lo, |s|);
    assert |Strip(s)| == hi - lo;
    if AllSpace(s) {
      assert lo == |s|;
    }
  }

  /** Stripping a string with no whitespace at either end changes nothing. */
  lemma StripOfStripped(s: string)
    requires s == [] || (!IsSpace(s[0]) && !IsSpace(s[|s| - 1]))
    ensures Strip(s) == s
  {
    assert SkipSpace(s, 0) == 0;
    assert s[0..|s|] == s;
  }

  predicate StartsWith(s: string, p: string) {
    |p| <= |s| && s[..|p|] == p
  }

  predicate EndsWith(s: string, p: string) {
    |p| <= |s| && s[|s| - |p|..] == p
  }

  lemma StartsWithTrans(a: string, b: string, c: string)
    requires StartsWith(b, a) && StartsWith(c, b)
    ensures StartsWith(c, a)
  {
    assert c[..|a|] == c[..|b|][..|a|];
  }

  lemma EndsWithTrans(a: string, b: string, c: string)
    requires EndsWith(b, a) && EndsWith(c, b)
    ensures EndsWith(c, a)
  {
    assert c[|c| - |a|..] == c[|c| - |b|..][|b| - |a|..];
  }

  lemma ConcatEnds(s: string, t: string)
    ensures StartsWith(s + t, s) && EndsWith(s + t, t)
  {
    assert (s + t)[..|s|] == s;
    assert (s + t)[|s + t| - |t|..] == t;
  }

  predicate OccursAt(s: string, p: string, i: nat) {
    i + |p| <= |s| && s[i..i + |p|] == p
  }

  /** Python's `s.find(p)` as an option: the first index where `p` occurs. */
  function Find(s: string, p: string): (r: Option<nat>)
    requires |p| > 0
    ensures r.Some? ==> OccursAt(s, p, r.value) && forall j :: 0 <= j < r.value ==> !OccursAt(s, p, j)
    ensures r.None? ==> forall j :: 0 <= j <= |s| ==> !OccursAt(s, p, j)
    decreases |s|
  {
    if |s| < |p| then None
    else if s[..|p|] == p then Some(0)
    else match Find(s[1..], p)
      case None =>
        forall j | 1 <= j <= |s| ensures !OccursAt(s, p, j) { OccursShift(s, p, j); }
        None
      case Some(k) =>
        OccursShift(s, p, k + 1);
        forall j | 1 <= j <= k ensures !OccursAt(s, p, j) { OccursShift(s, p, j); }
        Some(k + 1)
  }

  lemma OccursShift(s: string, p: string, j: nat)
    requires 1 <= j && |s| >= 1
    ensures OccursAt(s, p, j) <==> OccursAt(s[1..], p, j - 1)
  {
    if j + |p| <= |s| {
      var here, there := s[j..j + |p|], s[1..][j - 1..j - 1 + |p|];
      assert forall k :: 0 <= k < |here| ==> here[k] == there[k];
      assert here == there;
    }
  }

  /** Python's `sep.join(parts)`. */
  function Join(sep: string, parts: seq<string>): (r: string)
    ensures parts == [] ==> r == ""
    ensures |parts| == 1 ==> r == parts[0]
  {
    if |parts| == 0 then ""
    else if |parts| == 1 then parts[0]
    else parts[0] + sep + Join(sep, parts[1..])
  }

  lemma {:induction false} JoinAppend(sep: string, a: seq<string>, b: seq<string>)
    requires a != [] && b != []
    ensures Join(sep, a + b) == Join(sep, a) + sep + Join(sep, b)
  {
    if |a| == 1 {
      assert (a + b)[1..] == b;
    } else {
      assert (a + b)[1..] == a[1..] + b;
      JoinAppend(sep, a[1..], b);
    }
  }

  /** Python's `s.split(sep)` for a non-empty separator: cut at each occurrence,
      scanning left to right without overlaps. */
  function Split(s: string, sep: string): (r: seq<string>)
    requires |sep| > 0
    ensures |r| >= 1
    ensures Join(sep, r) == s
    decreases |s|
  {
    match Find(s, sep)
    case None => [s]
    case Some(i) =>
      var rest := Split(s[i + |sep|..], sep);
      assert s == s[..i] + sep + s[i + |sep|..] by {
        assert s[i..i + |sep|] == sep;
      }
      [s[..i]] + rest
  }

  /** For a one-character separator, splitting undoes joining pieces that do not contain it. */
  lemma {:induction false} SplitJoin(c: char, parts: seq<string>)
    requires parts != []
    requires forall i :: 0 <= i < |parts| ==> c !in parts[i]
    ensures Split(Join([c], parts), [c]) == parts
  {
    var s := Join([c], parts);
    var p := parts[0];
    assert forall j :: 0 <= j < |p| ==> !OccursAt(p, [c], j) by {
      forall j | 0 <= j < |p| ensures !OccursAt(p, [c], j) {
        assert p[j] in p && p[j..j + 1] == [p[j]];
      }
    }
    if |parts| == 1 {
      assert Find(s, [c]) == None;
    } else {
      var rest := Join([c], parts[1..]);
      assert s == p + [c] + rest;
      assert OccursAt(s, [c], |p|) by { assert s[|p|..|p| + 1] == [c]; }
      assert forall j :: 0 <= j < |p| ==> !OccursAt(s, [c], j) by {
        forall j | 0 <= j < |p| ensures !OccursAt(s, [c], j) {
          assert s[j] == p[j] && p[j] in p && s[j..j + 1] == [s[j]];
        }
      }
      assert Find(s, [c]) == Some(|p|);
      assert s[|p| + 1..] == rest;
      SplitJoin(c, parts[1..]);
    }
  }

  /** Python's `s.replace(p, "")`: every non-overlapping occurrence, left to right, is removed. */
  function RemoveAll(s: string, p: string): (r: string)
    requires |p| > 0
    ensures |r| <= |s|
    decreases |s|
  {
    if |s| < |p| then s
    else if s[..|p|] == p then RemoveAll(s[|p|..], p)
    else [s[0]] + RemoveAll(s[1..], p)
  }

  /** Removing a pattern from text in which it does not occur changes nothing. */
  lemma {:induction false} RemoveAllAbsent(s: string, p: string)
    requires |p| > 0
    requires forall j :: 0 <= j <= |s| ==> !OccursAt(s, p, j)
    ensures RemoveAll(s, p) == s
    decreases |s|
  {
    if |s| >= |p| {
      assert !OccursAt(s, p, 0);
      forall j | 0 <= j <= |s[1..]| ensures !OccursAt(s[1..], p, j) {
        if OccursAt(s[1..], p, j) {
          assert s[j + 1..j + 1 + |p|] == s[1..][j..j + |p|];
          assert OccursAt(s, p, j + 1);
        }
      }
      RemoveAllAbsent(s[1..], p);
    }
  }

  /** `(p + rest).replace(p, "")` drops the leading copy and every later one. */
  lemma RemoveAllLeading(p: string, rest: string)
    requires |p| > 0
    ensures RemoveAll(p + rest, p) == RemoveAll(rest, p)
  {
    assert (p + rest)[..|p|] == p;
    assert (p + rest)[|p|..] == rest;
  }

  // ASCII character classes (`str.isalnum` and `str.upper` restricted to ASCII).

  predicate IsAsciiUpper(c: char) { 'A' <= c <= 'Z' }
  predicate IsAsciiLower(c: char) { 'a' <= c <= 'z' }
  predicate IsDigit(c: char) { '0' <= c <= '9' }
  predicate IsAlnum(c: char) { IsAsciiUpper(c) || IsAsciiLower(c) || IsDigit(c) }

  function ToUpper(c: char): (r: char)
    ensures IsAsciiLower(c) ==> IsAsciiUpper(r)
    ensures !IsAsciiLower(c) ==> r == c
  {
    if IsAsciiLower(c) then (c as int - 32) as char else c
  }

  function DigitChar(d: nat): (r: char)
    requires d < 10
    ensures IsDigit(r) && r as int - '0' as int == d
    ensures d > 0 ==> r != '0'
  {
    "0123456789"[d]
  }

  /** Python's `str(n)` for a non-negative integer. */
  function NatToStr(n: nat): (r: string)
    ensures |r| >= 1
    ensures forall i :: 0 <= i < |r| ==> IsDigit(r[i])
    ensures n < 100 ==> |r| <= 2
    ensures n < 1000 ==> |r| <= 3
  {
    if n < 10 then [DigitChar(n)] else NatToStr(n / 10) + [DigitChar(n % 10)]
  }

  /** `str(n)` has no leading zero and denotes `n`. */
  lemma {:induction false} NatToStrDenotes(n: nat)
    ensures |NatToStr(n)| > 1 ==> NatToStr(n)[0] != '0'
    ensures DigitsValue(NatToStr(n)) == n
  {
    if n >= 10 {
      NatToStrDenotes(n / 10);
      var r := NatToStr(n);
      assert r[0] == NatToStr(n / 10)[0];
      assert r[..|r| - 1] == NatToStr(n / 10);
    }
  }

  function Pow10(k: nat): (r: nat)
    ensures r >= 1
  {
    if k == 0 then 1 else 10 * Pow10(k - 1)
  }

  /** A number below 10^k has at most k digits (and at least one). */
  lemma {:induction false} NatToStrLength(n: nat, k: nat)
    requires n < Pow10(k)
    ensures |NatToStr(n)| <= if k == 0 then 1 else k
  {
    if n >= 10 {
      NatToStrLength(n / 10, k - 1);
    }
  }

  /** The number a string of decimal digits denotes. */
  function DigitsValue(s: string): int
  {
    if s == [] then 0
    else 10 * DigitsValue(s[..|s| - 1]) + (s[|s| - 1] as int - '0' as int)
  }

  /** Python's `str(i)` for any integer. */
  function IntToStr(i: int): (r: string)
    ensures |r| >= 1
    ensures i >= 0 ==> r == NatToStr(i)
    ensures i < 0 ==> r == "-" + NatToStr(-i)
  {
    if i < 0 then "-" + NatToStr(-i) else NatToStr(i)
  }

  /** The decimal digits of `n` grouped in threes with commas, as `format(n, ",")` gives. */
  function Grouped(n: nat): (r: string)
    ensures |r| >= 1
  {
    if n < 1000 then NatToStr(n)
    else
      var low := NatToStr(n % 1000);
      Grouped(n / 1000) + "," + seq(3 - |low|, _ => '0') + low
  }

  /** Python's `format(i, ",.2f")` for an integer `i`. */
  function MoneyOfInt(i: int): (r: string)
    ensures EndsWith(r, ".00")
  {
    (if i < 0 then "-" + Grouped(-i) else Grouped(i)) + ".00"
  }
}
