/**
 * The JavaScript string built-ins the adapters rely on: `String(n)`,
 * `padStart`, `parseInt`, `toLowerCase`, `includes`, `indexOf`, `replace`
 * with a string pattern, `slice`/`substring`, and de-duplication through
 * `[...new Set(xs)]`.
 */
module Text {
  import opened Common

  predicate IsDigit(c: char) { '0' <= c <= '9' }

  predicate AllDigits(s: string) { forall i :: 0 <= i < |s| ==> IsDigit(s[i]) }

  /** Digit strings concatenate to a digit string. */
  lemma AllDigitsAppend(a: string, b: string)
    requires AllDigits(a) && AllDigits(b)
    ensures AllDigits(a + b)
  {
    forall i | 0 <= i < |a + b|
      ensures IsDigit((a + b)[i])
    {
      if i < |a| {
        assert (a + b)[i] == a[i];
      } else {
        assert (a + b)[i] == b[i - |a|];
      }
    }
  }

  function DigitChar(d: nat): (c: char)
    requires d < 10
    ensures IsDigit(c)
  {
    (('0' as int) + d) as char
  }

  /** The value of `c` as a digit in base `radix` (2, 8, 10 or 16), if it is one. */
  function DigitIn(c: char, radix: nat): Option<nat> {
    if '0' <= c <= '9' then (if c as int - '0' as int < radix then Some(c as int - '0' as int) else None)
    else if radix == 16 && 'a' <= c <= 'f' then Some(c as int - 'a' as int + 10)
    else if radix == 16 && 'A' <= c <= 'F' then Some(c as int - 'A' as int + 10)
    else None
  }

  predicate AllDigitsIn(s: string, radix: nat) {
    forall i :: 0 <= i < |s| ==> DigitIn(s[i], radix).Some?
  }

  /** The number a string of base-`radix` digits denotes, most significant first. */
  function RadixValue(s: string, radix: nat): nat
    requires AllDigitsIn(s, radix)
  {
    if s == [] then 0
    else RadixValue(s[..|s| - 1], radix) * radix + DigitIn(s[|s| - 1], radix).value
  }

  /** `String(n)` for a non-negative integer: its decimal digits, no leading zero. */
  function NatToString(n: nat): (s: string)
    ensures 1 <= |s| && AllDigits(s)
    ensures 1 < |s| ==> s[0] != '0'
    ensures n < 10 <==> |s| == 1
  {
    if n < 10 then [DigitChar(n)]
    else NatToString(n / 10) + [DigitChar(n % 10)]
  }

  /** `String(i)` for any integer. */
  function IntToString(i: int): (s: string)
    ensures 1 <= |s|
  {
    if i < 0 then "-" + NatToString(-i) else NatToString(i)
  }

  lemma {:induction false} NatToStringRoundTrip(n: nat)
    ensures AllDigitsIn(NatToString(n), 10)
    ensures RadixValue(NatToString(n), 10) == n
  {
    var s := NatToString(n);
    assert AllDigitsIn(s, 10) by {
      forall i | 0 <= i < |s| ensures DigitIn(s[i], 10).Some? {
        assert IsDigit(s[i]);
      }
    }
    if n >= 10 {
      NatToStringRoundTrip(n / 10);
      assert s[..|s| - 1] == NatToString(n / 10);
    }
  }

  /** `String(n).padStart(2, '0')`. */
  function PadStart2(n: nat): (s: string)
    ensures n < 100 ==> |s| == 2 && AllDigitsIn(s, 10) && RadixValue(s, 10) == n
    ensures 100 <= n ==> s == NatToString(n)
  {
    NatToStringRoundTrip(n);
    var digits := NatToString(n);
    if |digits| < 2 then
      var s := "0" + digits;
      assert s[..1] == "0";
      s
    else
      assert n < 100 ==> |digits| == 2 by {
        if n < 100 && |digits| > 2 {
          NatToStringDigitsBound(n);
        }
      }
      digits
  }

  lemma {:induction false} NatToStringDigitsBound(n: nat)
    ensures |NatToString(n)| > 2 ==> n >= 100
  {
    if n >= 10 {
      NatToStringDigitsBound(n / 10);
    }
  }

  /** Ten to the power `k`. */
  function Pow10(k: nat): (p: nat)
    ensures p >= 1
  {
    if k == 0 then 1 else 10 * Pow10(k - 1)
  }

  /** A number below 10^k has at most k digits (and at least one). */
  lemma {:induction false} NatToStringWidth(n: nat, k: nat)
    requires 1 <= k && n < Pow10(k)
    ensures |NatToString(n)| <= k
  {
    if n >= 10 {
      NatToStringWidth(n / 10, k - 1);
    }
  }

  /** A number of at least 10^(k-1) has at least k digits. */
  lemma {:induction false} NatToStringWide(n: nat, k: nat)
    requires 1 <= k && Pow10(k - 1) <= n
    ensures k <= |NatToString(n)|
  {
    if k > 1 {
      NatToStringWide(n / 10, k - 1);
    }
  }

  /** `String(n).padStart(width, '0')`. */
  function PadDigits(n: nat, width: nat): (s: string)
    ensures AllDigits(s) && |NatToString(n)| <= |s|
    ensures |NatToString(n)| <= width ==> |s| == width
  {
    var digits := NatToString(n);
    if |digits| < width then seq(width - |digits|, _ => '0') + digits else digits
  }

  /** `s.replace(/[...]/g, '')`: every character of the class removed. */
  function Strip(s: string, drop: set<char>): (r: string)
    ensures forall i :: 0 <= i < |r| ==> r[i] !in drop
  {
    if s == [] then [] else (if s[0] in drop then [] else [s[0]]) + Strip(s[1..], drop)
  }

  lemma {:induction false} StripAppend(a: string, b: string, drop: set<char>)
    ensures Strip(a + b, drop) == Strip(a, drop) + Strip(b, drop)
  {
    if a != [] {
      assert (a + b)[1..] == a[1..] + b;
      StripAppend(a[1..], b, drop);
    } else {
      assert a + b == b;
    }
  }

  /** Stripping keeps a string none of whose characters is in the class. */
  lemma {:induction false} StripKeeps(s: string, drop: set<char>)
    requires forall i :: 0 <= i < |s| ==> s[i] !in drop
    ensures Strip(s, drop) == s
  {
    if s != [] {
      StripKeeps(s[1..], drop);
    }
  }

  /**
   * The white space `parseInt`, `trim` and `Number` skip: the WhiteSpace
   * characters (tab, vertical tab, form feed, the byte order mark and the
   * Unicode space separators) and the line terminators.
   */
  predicate IsJsSpace(c: char) {
    c == ' ' || c == '\t' || c == '\n' || c == '\r' || c == '\U{000B}'
    || c == '\U{000C}' || c == '\U{00A0}' || c == '\U{FEFF}' || c == '\U{1680}'
    || ('\U{2000}' <= c <= '\U{200A}') || c == '\U{2028}' || c == '\U{2029}'
    || c == '\U{202F}' || c == '\U{205F}' || c == '\U{3000}'
  }

  function TrimStart(s: string): string {
    if s != [] && IsJsSpace(s[0]) then TrimStart(s[1..]) else s
  }

  /** `TrimStart` drops exactly the leading white space: a suffix remains that does not start with it. */
  lemma {:induction false} TrimStartSpec(s: string)
    ensures |TrimStart(s)| <= |s| && TrimStart(s) == s[|s| - |TrimStart(s)|..]
    ensures TrimStart(s) == [] || !IsJsSpace(TrimStart(s)[0])
    ensures forall i :: 0 <= i < |s| - |TrimStart(s)| ==> IsJsSpace(s[i])
  {
    if s != [] && IsJsSpace(s[0]) {
      var rest := s[1..];
      TrimStartSpec(rest);
      assert TrimStart(s) == TrimStart(rest);
      assert s[|s| - |TrimStart(s)|..] == rest[|rest| - |TrimStart(rest)|..];
      forall i | 0 <= i < |s| - |TrimStart(s)|
        ensures IsJsSpace(s[i])
      {
        if i > 0 {
          assert s[i] == rest[i - 1];
        }
      }
    }
  }

  function TrimEnd(s: string): string {
    if s != [] && IsJsSpace(s[|s| - 1]) then TrimEnd(s[..|s| - 1]) else s
  }

  /** `s.trim()`. */
  function Trim(s: string): string {
    TrimEnd(TrimStart(s))
  }

  /** `TrimEnd` drops exactly the trailing white space: a prefix remains that does not end with it. */
  lemma {:induction false} TrimEndSpec(s: string)
    ensures |TrimEnd(s)| <= |s| && TrimEnd(s) == s[..|TrimEnd(s)|]
    ensures TrimEnd(s) == [] || !IsJsSpace(TrimEnd(s)[|TrimEnd(s)| - 1])
    ensures forall i :: |TrimEnd(s)| <= i < |s| ==> IsJsSpace(s[i])
  {
    if s != [] && IsJsSpace(s[|s| - 1]) {
      var init := s[..|s| - 1];
      TrimEndSpec(init);
      assert TrimEnd(s) == TrimEnd(init);
      assert init[..|TrimEnd(init)|] == s[..|TrimEnd(s)|];
      forall i | |TrimEnd(s)| <= i < |s|
        ensures IsJsSpace(s[i])
      {
        if i < |s| - 1 {
          assert s[i] == init[i];
        }
      }
    }
  }

  /** The position of the first character of `s` in `cs`, or `|s|` when there is none. */
  function FindAny(s: string, cs: set<char>): (i: nat)
    ensures i <= |s| && (i < |s| ==> s[i] in cs)
    ensures forall j :: 0 <= j < i ==> s[j] !in cs
  {
    if s == [] then 0
    else if s[0] in cs then 0
    else 1 + FindAny(s[1..], cs)
  }

  /** `FindAny` finds the first mark. */
  lemma FindAnyAt(s: string, cs: set<char>, i: nat)
    requires i < |s| && s[i] in cs && forall j :: 0 <= j < i ==> s[j] !in cs
    ensures FindAny(s, cs) == i
  {
  }

  lemma AllDigitsInAppend(a: string, b: string, radix: nat)
    requires AllDigitsIn(a, radix) && AllDigitsIn(b, radix)
    ensures AllDigitsIn(a + b, radix)
  {
    forall i | 0 <= i < |a + b|
      ensures DigitIn((a + b)[i], radix).Some?
    {
      if i < |a| {
        assert (a + b)[i] == a[i];
      } else {
        assert (a + b)[i] == b[i - |a|];
      }
    }
  }

  /** The longest prefix of `s` made of base-`radix` digits. */
  function LeadingDigits(s: string, radix: nat): (r: string)
    ensures AllDigitsIn(r, radix)
  {
    if s != [] && DigitIn(s[0], radix).Some? then [s[0]] + LeadingDigits(s[1..], radix) else []
  }

  /** `LeadingDigits` is the longest prefix of digits: the next character, if any, is not one. */
  lemma {:induction false} LeadingDigitsSpec(s: string, radix: nat)
    ensures |LeadingDigits(s, radix)| <= |s| && LeadingDigits(s, radix) == s[..|LeadingDigits(s, radix)|]
    ensures |LeadingDigits(s, radix)| < |s| ==> DigitIn(s[|LeadingDigits(s, radix)|], radix).None?
  {
    if s != [] && DigitIn(s[0], radix).Some? {
      LeadingDigitsSpec(s[1..], radix);
    }
  }

  /** The text after one optional leading sign. */
  function SkipSign(t: string): string {
    if |t| > 0 && (t[0] == '-' || t[0] == '+') then t[1..] else t
  }

  /** The digits after an optional sign: hexadecimal after `0x`/`0X`, decimal otherwise. */
  function ParseMagnitude(u: string): Option<nat> {
    var hex := |u| >= 2 && u[0] == '0' && (u[1] == 'x' || u[1] == 'X');
    var radix := if hex then 16 else 10;
    var digits := LeadingDigits(if hex then u[2..] else u, radix);
    if digits == [] then None else Some(RadixValue(digits, radix))
  }

  /**
   * `parseInt(s)` with no radix argument; `None` is NaN. Leading white space
   * and one sign are skipped, a `0x`/`0X` prefix selects base 16, and the
   * longest run of digits that follows is read; no digit at all is NaN.
   */
  function ParseInt(s: string): Option<int> {
    var t := TrimStart(s);
    match ParseMagnitude(SkipSign(t))
    case None => None
    case Some(m) =>
      var v: int := m;
      Some(if |t| > 0 && t[0] == '-' then -v else v)
  }

  /** `parseInt` reads back what `String(n)` wrote. */
  lemma ParseIntOfNatToString(n: nat)
    ensures ParseInt(NatToString(n)) == Some(n)
  {
    NatToStringRoundTrip(n);
    ParseIntOfDecimal(NatToString(n));
  }

  lemma ParseIntOfDecimal(s: string)
    requires s != [] && AllDigitsIn(s, 10) && IsDigit(s[0]) && (|s| >= 2 ==> s[0] != '0')
    ensures ParseInt(s) == Some(RadixValue(s, 10))
  {
    TrimStartOfDigit(s);
    assert SkipSign(s) == s;
    ParseMagnitudeOfDecimal(s);
    assert !(|s| > 0 && s[0] == '-');
    assert ParseMagnitude(SkipSign(TrimStart(s))) == Some(RadixValue(s, 10));
  }

  lemma TrimStartOfDigit(s: string)
    requires s != [] && IsDigit(s[0])
    ensures TrimStart(s) == s
  {
  }

  lemma ParseMagnitudeOfDecimal(s: string)
    requires s != [] && AllDigitsIn(s, 10) && IsDigit(s[0]) && (|s| >= 2 ==> s[0] != '0')
    ensures ParseMagnitude(s) == Some(RadixValue(s, 10))
  {
    LeadingDigitsOfDigits(s, 10);
  }

  lemma {:induction false} LeadingDigitsOfDigits(s: string, radix: nat)
    requires AllDigitsIn(s, radix)
    ensures LeadingDigits(s, radix) == s
  {
    if s != [] {
      LeadingDigitsOfDigits(s[1..], radix);
      assert [s[0]] + s[1..] == s;
    }
  }

  /** `toLowerCase` on the Basic Latin and Latin-1 letters. */
  function LowerChar(c: char): (d: char)
    ensures 'A' <= c <= 'Z' ==> d as int == c as int + 32
    ensures 'a' <= c <= 'z' ==> d == c
  {
    if 'A' <= c <= 'Z' || ('\U{00C0}' <= c <= '\U{00DE}' && c != '\U{00D7}') then (c as int + 32) as char
    else c
  }

  function ToLower(s: string): (r: string)
    ensures |r| == |s| && forall i :: 0 <= i < |s| ==> r[i] == LowerChar(s[i])
  {
    if s == [] then [] else [LowerChar(s[0])] + ToLower(s[1..])
  }

  predicate OccursAt(s: string, pat: string, i: int) {
    0 <= i && i + |pat| <= |s| && s[i..i + |pat|] == pat
  }

  /** `s.indexOf(pat)` from position `from` on: the first occurrence, if any. */
  function IndexFrom(s: string, pat: string, from: nat): (r: Option<nat>)
    ensures r.Some? ==> from <= r.value && OccursAt(s, pat, r.value)
    ensures r.Some? ==> forall j :: from <= j < r.value ==> !OccursAt(s, pat, j)
    ensures r.None? ==> forall j :: from <= j ==> !OccursAt(s, pat, j)
    decreases |s| - from
  {
    if from + |pat| > |s| then None
    else if s[from..from + |pat|] == pat then Some(from)
    else IndexFrom(s, pat, from + 1)
  }

  function IndexOf(s: string, pat: string): (r: Option<nat>)
    ensures r.Some? ==> OccursAt(s, pat, r.value) && forall j :: 0 <= j < r.value ==> !OccursAt(s, pat, j)
    ensures r.None? ==> forall j :: !OccursAt(s, pat, j)
  {
    IndexFrom(s, pat, 0)
  }

  /** `s.includes(pat)`. */
  predicate Contains(s: string, pat: string) { IndexOf(s, pat).Some? }

  /** `s.replace(pat, rep)` with a string pattern: only the first occurrence. */
  function ReplaceFirst(s: string, pat: string, rep: string): string {
    match IndexOf(s, pat)
    case None => s
    case Some(i) => s[..i] + rep + s[i + |pat|..]
  }

  /** When the first occurrence of `pat` is right after `p`, replacing it touches nothing else. */
  lemma ReplaceFirstAt(p: string, pat: string, rest: string, rep: string)
    requires forall j :: 0 <= j < |p| ==> !OccursAt(p + pat + rest, pat, j)
    ensures ReplaceFirst(p + pat + rest, pat, rep) == p + rep + rest
  {
    var s := p + pat + rest;
    assert s[|p|..|p| + |pat|] == pat;
    assert OccursAt(s, pat, |p|);
    assert IndexOf(s, pat) == Some(|p|);
    assert s[..|p|] == p && s[|p| + |pat|..] == rest;
  }

  /** `s.substring(0, n)` / `s.slice(0, n)` for `n >= 0`. */
  function Take(s: string, n: nat): (r: string)
    ensures |r| == if n < |s| then n else |s|
    ensures r == s[..|r|]
  {
    if n < |s| then s[..n] else s
  }

  predicate NoDuplicates<T(==)>(xs: seq<T>) {
    forall i, j :: 0 <= i < j < |xs| ==> xs[i] != xs[j]
  }

  /** The index of the first occurrence of `x` in `xs`. */
  function FirstIndex<T(==)>(xs: seq<T>, x: T): (k: nat)
    requires x in xs
    ensures k < |xs| && xs[k] == x && x !in xs[..k]
  {
    if xs[0] == x then 0 else 1 + FirstIndex(xs[1..], x)
  }

  /** `[...new Set(xs)]`: each value once, in the order of its first occurrence. */
  function Dedup<T(==)>(xs: seq<T>): seq<T> {
    if xs == [] then []
    else
      var prev := Dedup(xs[..|xs| - 1]);
      if xs[|xs| - 1] in prev then prev else prev + [xs[|xs| - 1]]
  }

  lemma {:induction false} DedupSpec<T>(xs: seq<T>)
    ensures NoDuplicates(Dedup(xs))
    ensures forall x :: x in Dedup(xs) <==> x in xs
    ensures forall i, j :: 0 <= i < j < |Dedup(xs)| ==>
              FirstIndex(xs, Dedup(xs)[i]) < FirstIndex(xs, Dedup(xs)[j])
  {
    if xs != [] {
      var init := xs[..|xs| - 1];
      var last := xs[|xs| - 1];
      DedupSpec(init);
      var prev := Dedup(init);
      assert xs == init + [last];
      forall x | x in init ensures FirstIndex(xs, x) == FirstIndex(init, x) {
        FirstIndexOfPrefix(init, [last], x);
      }
      if last !in prev {
        assert last !in init;
        assert FirstIndex(xs, last) == |init| by {
          var k := FirstIndex(xs, last);
          assert k < |xs| && xs[k] == last;
        }
        var r := prev + [last];
        forall i, j | 0 <= i < j < |r| ensures FirstIndex(xs, r[i]) < FirstIndex(xs, r[j]) {
          assert r[i] == prev[i] && prev[i] in prev;
          assert r[i] in Dedup(init);
          DedupMembers(init, r[i]);
          assert r[i] in init;
          if j < |prev| {
            assert r[j] in init;
          } else {
            assert FirstIndex(xs, r[i]) == FirstIndex(init, r[i]);
          }
        }
      }
    }
  }

  lemma {:induction false} DedupMembers<T>(xs: seq<T>, x: T)
    ensures x in Dedup(xs) <==> x in xs
  {
    if xs != [] {
      DedupMembers(xs[..|xs| - 1], x);
      assert xs == xs[..|xs| - 1] + [xs[|xs| - 1]];
    }
  }

  lemma {:induction false} FirstIndexOfPrefix<T>(a: seq<T>, b: seq<T>, x: T)
    requires x in a
    ensures FirstIndex(a + b, x) == FirstIndex(a, x)
  {
    if a[0] != x {
      assert (a + b)[1..] == a[1..] + b;
      FirstIndexOfPrefix(a[1..], b, x);
    }
  }
}
