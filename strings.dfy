/** The JavaScript string operations the core uses, on `string = seq<char>`:
    `\s`, `trim`, `toLowerCase`, `includes`, `startsWith`, `split`, `join`,
    `String(n)` on integers and `parseInt(s, 10)`. */
module Strings {
  import opened Wrappers

  /** The characters matched by the regular-expression class `\s`, which are also the
      characters `String.prototype.trim` removes. */
  predicate IsSpace(c: char) {
    c == ' ' || c == '\t' || c == '\n' || c == '\r' || c == '\U{B}' || c == '\U{C}'
    || c == '\U{A0}' || c == '\U{1680}' || ('\U{2000}' <= c <= '\U{200A}')
    || c == '\U{2028}' || c == '\U{2029}' || c == '\U{202F}' || c == '\U{205F}'
    || c == '\U{3000}' || c == '\U{FEFF}'
  }

  predicate NoSpace(s: string) {
    forall i :: 0 <= i < |s| ==> !IsSpace(s[i])
  }

  /** `toLowerCase` on one character (ASCII letters only). */
  function LowerChar(c: char): (d: char)
    ensures IsSpace(d) <==> IsSpace(c)
    ensures d == c || 'A' <= c <= 'Z'
  {
    if 'A' <= c <= 'Z' then (c as int - 'A' as int + 'a' as int) as char else c
  }

  function Lower(s: string): (r: string)
    ensures |r| == |s|
    ensures forall i {:trigger r[i]} :: 0 <= i < |s| ==> r[i] == LowerChar(s[i])
  {
    seq(|s|, i requires 0 <= i < |s| => LowerChar(s[i]))
  }

  lemma {:induction false} LowerIdempotent(s: string)
    ensures Lower(Lower(s)) == Lower(s)
  {
  }

  lemma {:induction false} LowerConcat(a: string, b: string)
    ensures Lower(a + b) == Lower(a) + Lower(b)
  {
  }

  /** `sub` occurs in `s` at position `i`. */
  predicate OccursAt(s: string, sub: string, i: nat) {
    i + |sub| <= |s| && s[i..i + |sub|] == sub
  }

  /** `s.includes(sub)`. */
  predicate Contains(s: string, sub: string) {
    exists i: nat | i <= |s| :: OccursAt(s, sub, i)
  }

  /** `s.startsWith(p)`. */
  predicate StartsWith(s: string, p: string) {
    |p| <= |s| && s[..|p|] == p
  }

  /** Taking a slice of a slice is taking one slice. */
  lemma {:induction false} SliceOfSlice(s: string, i: nat, m: nat, j: nat, n: nat)
    requires i + m <= |s| && j + n <= m
    ensures s[i..i + m][j..j + n] == s[i + j..i + j + n]
  {
    var a := s[i..i + m][j..j + n];
    var b := s[i + j..i + j + n];
    forall k | 0 <= k < n ensures a[k] == b[k] {
      assert a[k] == s[i..i + m][j + k] == s[i + j + k];
    }
  }

  /** A string contains every substring of its substrings. */
  lemma {:induction false} ContainsTransitive(s: string, mid: string, sub: string)
    requires Contains(s, mid) && Contains(mid, sub)
    ensures Contains(s, sub)
  {
    var i: nat :| i <= |s| && OccursAt(s, mid, i);
    var j: nat :| j <= |mid| && OccursAt(mid, sub, j);
    SliceOfSlice(s, i, |mid|, j, |sub|);
    assert OccursAt(s, sub, i + j);
  }

  /** A string contained in `s` is contained in any extension of `s`. */
  lemma {:induction false} ContainsExtend(s: string, sub: string, before: string, after: string)
    requires Contains(s, sub)
    ensures Contains(before + s + after, sub)
  {
    var i: nat :| i <= |s| && OccursAt(s, sub, i);
    var t := before + s + after;
    assert t[|before|..|before| + |s|] == s;
    SliceOfSlice(t, |before|, |s|, i, |sub|);
    assert OccursAt(t, sub, |before| + i);
  }

  /** A string contains what its suffixes contain. */
  lemma {:induction false} ContainsSuffix(s: string, off: nat, sub: string)
    requires off <= |s| && Contains(s[off..], sub)
    ensures Contains(s, sub)
  {
    var i: nat :| i <= |s| - off && OccursAt(s[off..], sub, i);
    SliceOfSlice(s, off, |s| - off, i, |sub|);
    assert OccursAt(s, sub, off + i);
  }

  lemma {:induction false} ContainsSelf(s: string)
    ensures Contains(s, s)
  {
    assert OccursAt(s, s, 0);
  }

  // ---------------------------------------------------------------- trimming

  /** The length of the leading run of whitespace. */
  function LeadingSpaces(s: string): (n: nat)
    ensures n <= |s|
    ensures forall i :: 0 <= i < n ==> IsSpace(s[i])
    ensures n < |s| ==> !IsSpace(s[n])
    decreases |s|
  {
    if s != [] && IsSpace(s[0]) then 1 + LeadingSpaces(s[1..]) else 0
  }

  /** The length of the trailing run of whitespace. */
  function TrailingSpaces(s: string): (n: nat)
    ensures n <= |s|
    ensures forall i :: |s| - n <= i < |s| ==> IsSpace(s[i])
    ensures n < |s| ==> !IsSpace(s[|s| - n - 1])
    decreases |s|
  {
    if s != [] && IsSpace(s[|s| - 1]) then 1 + TrailingSpaces(s[..|s| - 1]) else 0
  }

  /** `s.trimStart()`: drop the leading run of whitespace. */
  function TrimStart(s: string): string
  {
    s[LeadingSpaces(s)..]
  }

  /** `s.trimEnd()`: drop the trailing run of whitespace. */
  function TrimEnd(s: string): string
  {
    s[..|s| - TrailingSpaces(s)]
  }

  /** `s.trim()`: what lies between the leading whitespace run and the trailing one. */
  function Trim(s: string): (r: string)
    ensures r == [] || (!IsSpace(r[0]) && !IsSpace(r[|r| - 1]))
    ensures NoSpace(s) ==> r == s
  {
    TrimEnd(TrimStart(s))
  }

  /** Trimming keeps exactly the characters after the leading whitespace run and before
      a trailing run of whitespace only. */
  lemma {:induction false} TrimKeepsMiddle(s: string)
    ensures var r := Trim(s);
            && LeadingSpaces(s) + |r| <= |s| && r == s[LeadingSpaces(s)..LeadingSpaces(s) + |r|]
            && forall i :: LeadingSpaces(s) + |r| <= i < |s| ==> IsSpace(s[i])
  {
    var n := LeadingSpaces(s);
    var t := s[n..];
    var m := |t| - TrailingSpaces(t);
    assert Trim(s) == t[..m];
    assert t[..m] == s[n..n + m];
    forall i | n + m <= i < |s|
      ensures IsSpace(s[i])
    {
      assert s[i] == t[i - n];
    }
  }

  /** Trimming a trimmed string changes nothing. */
  lemma {:induction false} TrimIdempotent(s: string)
    ensures Trim(Trim(s)) == Trim(s)
  {
    var t := Trim(s);
    if t != [] {
      assert TrimStart(t) == t;
      assert TrimEnd(t) == t;
    }
  }

  // ---------------------------------------------------------------- splitting

  /** Index of the first whitespace character of `s`, or `|s|` when there is none. */
  function FirstSpace(s: string): (k: nat)
    ensures k <= |s|
    ensures k < |s| ==> IsSpace(s[k])
    ensures forall i :: 0 <= i < k ==> !IsSpace(s[i])
    decreases |s|
  {
    if s == [] then 0 else if IsSpace(s[0]) then 0 else 1 + FirstSpace(s[1..])
  }

  /** `s.split(/\s+/)`: the fields between maximal whitespace runs. A leading run gives
      a first field `""`, a trailing run a last field `""`, and `"".split(/\s+/)` is `[""]`. */
  function SplitWs(s: string): (r: seq<string>)
    ensures |r| >= 1
    decreases |s|
  {
    var k := FirstSpace(s);
    if k == |s| then [s]
    else [s[..k]] + SplitWs(TrimStart(s[k..]))
  }

  /** A string without whitespace is one field. */
  lemma {:induction false} SplitWsNoSpace(s: string)
    requires NoSpace(s)
    ensures SplitWs(s) == [s]
  {
    assert FirstSpace(s) == |s|;
  }

  /** The first whitespace of `a + " " + b` is the separator when `a` has none. */
  lemma {:induction false} FirstSpaceOfPair(a: string, b: string)
    requires NoSpace(a)
    ensures FirstSpace(a + " " + b) == |a|
  {
    var s := a + " " + b;
    assert s[|a|] == ' ';
    assert forall i :: 0 <= i < |a| ==> s[i] == a[i];
  }

  /** Trimming one leading space off a string that does not start with whitespace. */
  lemma {:induction false} TrimStartOneSpace(b: string)
    requires b == [] || !IsSpace(b[0])
    ensures TrimStart(" " + b) == b
  {
    assert (" " + b)[1..] == b;
  }

  /** Two whitespace-free fields joined by one space split back into the two fields. */
  lemma {:induction false} SplitWsPair(a: string, b: string)
    requires NoSpace(a) && NoSpace(b)
    ensures SplitWs(a + " " + b) == [a, b]
  {
    var s := a + " " + b;
    FirstSpaceOfPair(a, b);
    assert s[..|a|] == a;
    assert s[|a|..] == " " + b;
    TrimStartOneSpace(b);
    SplitWsNoSpace(b);
  }

  /** Past the first whitespace, `s.split(/\s+/)` goes on with a suffix of `s`. */
  lemma {:induction false} SplitWsTail(s: string) returns (off: nat)
    requires FirstSpace(s) < |s|
    ensures 0 < off <= |s|
    ensures SplitWs(s) == [s[..FirstSpace(s)]] + SplitWs(s[off..])
  {
    var f := FirstSpace(s);
    var rest := TrimStart(s[f..]);
    off := |s| - |rest|;
    assert rest == s[off..];
  }

  /** Every field of `s.split(/\s+/)` occurs in `s`. */
  lemma {:induction false} SplitWsFieldsOccur(s: string, k: nat)
    requires k < |SplitWs(s)|
    ensures Contains(s, SplitWs(s)[k])
    decreases |s|
  {
    var f := FirstSpace(s);
    if f == |s| {
      ContainsSelf(s);
    } else {
      var off := SplitWsTail(s);
      if k == 0 {
        assert OccursAt(s, s[..f], 0);
      } else {
        var field := SplitWs(s[off..])[k - 1];
        assert SplitWs(s)[k] == field;
        assert off > 0;
        SplitWsFieldsOccur(s[off..], k - 1);
        ContainsSuffix(s, off, field);
      }
    }
  }

  /** No field of `s.split(/\s+/)` holds whitespace. */
  lemma {:induction false} SplitWsFieldsNoSpace(s: string, k: nat)
    requires k < |SplitWs(s)|
    ensures NoSpace(SplitWs(s)[k])
    decreases |s|
  {
    if k == 0 {
      SplitWsHeadNoSpace(s);
    } else {
      assert FirstSpace(s) < |s|;
      var off := SplitWsTail(s);
      var tail := s[off..];
      SplitWsFieldsNoSpace(tail, k - 1);
      assert SplitWs(s)[k] == SplitWs(tail)[k - 1];
    }
  }

  lemma {:induction false} SplitWsHeadNoSpace(s: string)
    ensures NoSpace(SplitWs(s)[0])
  {
    var f := FirstSpace(s);
    if f < |s| {
      var off := SplitWsTail(s);
    }
    assert SplitWs(s)[0] == s[..f];
  }

  lemma {:induction false} FirstSpaceLower(s: string)
    ensures FirstSpace(Lower(s)) == FirstSpace(s)
    decreases |s|
  {
    if s != [] {
      assert Lower(s)[1..] == Lower(s[1..]);
      FirstSpaceLower(s[1..]);
    }
  }

  lemma {:induction false} TrimStartLower(s: string)
    ensures TrimStart(Lower(s)) == Lower(TrimStart(s))
    decreases |s|
  {
    if s != [] {
      assert Lower(s)[1..] == Lower(s[1..]);
      TrimStartLower(s[1..]);
    }
  }

  /** Each string of `ss`, lower-cased. */
  function LowerAll(ss: seq<string>): (r: seq<string>)
    ensures |r| == |ss|
    ensures forall k {:trigger r[k]} :: 0 <= k < |ss| ==> r[k] == Lower(ss[k])
  {
    seq(|ss|, k requires 0 <= k < |ss| => Lower(ss[k]))
  }

  /** Lower-casing and splitting on whitespace commute: the fields of the lower-cased
      string are the lower-cased fields. */
  lemma {:induction false} SplitWsLower(s: string)
    ensures SplitWs(Lower(s)) == LowerAll(SplitWs(s))
    decreases |s|
  {
    var k := FirstSpace(s);
    var ls := Lower(s);
    FirstSpaceLower(s);
    if k < |s| {
      var t := s[k..];
      assert ls[..k] == Lower(s[..k]);
      assert ls[k..] == Lower(t);
      TrimStartLower(t);
      SplitWsLower(TrimStart(t));
      assert SplitWs(ls) == [Lower(s[..k])] + LowerAll(SplitWs(TrimStart(t)));
      assert SplitWs(s) == [s[..k]] + SplitWs(TrimStart(t));
    }
  }

  /** The first and the last field of the lower-cased string are the lower-cased first
      and last fields. */
  lemma {:induction false} SplitWsLowerEnds(s: string)
    ensures |SplitWs(Lower(s))| == |SplitWs(s)|
    ensures SplitWs(Lower(s))[0] == Lower(SplitWs(s)[0])
    ensures SplitWs(Lower(s))[|SplitWs(Lower(s))| - 1] == Lower(SplitWs(s)[|SplitWs(s)| - 1])
  {
    var parts := SplitWs(s);
    SplitWsLower(s);
    LowerAllEnds(parts);
  }

  lemma {:induction false} LowerAllEnds(parts: seq<string>)
    requires |parts| >= 1
    ensures LowerAll(parts)[0] == Lower(parts[0])
    ensures LowerAll(parts)[|parts| - 1] == Lower(parts[|parts| - 1])
  {
  }

  /** Index of the first occurrence of `c` in `s`, or `|s|`. */
  function IndexOf(s: string, c: char): (k: nat)
    ensures k <= |s|
    ensures k < |s| ==> s[k] == c
    ensures forall i :: 0 <= i < k ==> s[i] != c
    decreases |s|
  {
    if s == [] then 0 else if s[0] == c then 0 else 1 + IndexOf(s[1..], c)
  }

  /** `s.split(c)` for a one-character separator: `"".split(",")` is `[""]` and
      `"a,,b".split(",")` is `["a", "", "b"]`. */
  function SplitOn(s: string, c: char): (r: seq<string>)
    ensures |r| >= 1
    ensures c in s ==> |r| >= 2
    ensures forall k :: 0 <= k < |r| ==> c !in r[k]
    decreases |s|
  {
    var k := IndexOf(s, c);
    if k == |s| then [s]
    else [s[..k]] + SplitOn(s[k + 1..], c)
  }

  /** `parts.join(sep)`. */
  function Join(parts: seq<string>, sep: string): (r: string)
    decreases |parts|
  {
    if parts == [] then ""
    else if |parts| == 1 then parts[0]
    else parts[0] + sep + Join(parts[1..], sep)
  }

  /** Splitting a joined list of separator-free fields gives the fields back. */
  lemma {:induction false} SplitJoin(parts: seq<string>, c: char)
    requires |parts| >= 1
    requires forall k :: 0 <= k < |parts| ==> c !in parts[k]
    ensures SplitOn(Join(parts, [c]), c) == parts
    decreases |parts|
  {
    var s := Join(parts, [c]);
    if |parts| == 1 {
      assert IndexOf(s, c) == |s|;
    } else {
      var rest := Join(parts[1..], [c]);
      assert s == parts[0] + [c] + rest;
      assert IndexOf(s, c) == |parts[0]| by {
        assert s[|parts[0]|] == c;
        assert forall i :: 0 <= i < |parts[0]| ==> s[i] == parts[0][i] && s[i] != c;
      }
      assert s[..|parts[0]|] == parts[0];
      assert s[|parts[0]| + 1..] == rest;
      SplitJoin(parts[1..], c);
    }
  }

  // ---------------------------------------------------------------- numbers

  predicate IsDigit(c: char) {
    '0' <= c <= '9'
  }

  predicate AllDigits(s: string) {
    forall i :: 0 <= i < |s| ==> IsDigit(s[i])
  }

  function DigitChar(d: nat): (c: char)
    requires d < 10
    ensures IsDigit(c)
  {
    ('0' as int + d) as char
  }

  function DigitValue(c: char): (d: nat)
    requires IsDigit(c)
    ensures d < 10
  {
    c as int - '0' as int
  }

  /** `String(n)` for a natural number: its decimal digits, most significant first. */
  function NatToString(n: nat): (r: string)
    ensures |r| >= 1 && AllDigits(r)
    decreases n
  {
    if n < 10 then [DigitChar(n)] else NatToString(n / 10) + [DigitChar(n % 10)]
  }

  /** The value of a string of decimal digits. */
  function DigitsValue(s: string): (n: nat)
    requires AllDigits(s)
    decreases |s|
  {
    if s == [] then 0 else DigitsValue(s[..|s| - 1]) * 10 + DigitValue(s[|s| - 1])
  }

  /** Reading back the decimal digits of `n` gives `n`. */
  lemma {:induction false} NatToStringRoundTrip(n: nat)
    ensures DigitsValue(NatToString(n)) == n
    decreases n
  {
    var s := NatToString(n);
    if n >= 10 {
      NatToStringRoundTrip(n / 10);
      assert s[..|s| - 1] == NatToString(n / 10);
    }
  }

  /** Distinct numbers have distinct decimal strings. */
  lemma {:induction false} NatToStringInjective(m: nat, n: nat)
    requires NatToString(m) == NatToString(n)
    ensures m == n
  {
    NatToStringRoundTrip(m);
    NatToStringRoundTrip(n);
  }

  /** `String(i)` for an integer. */
  function IntToString(i: int): (r: string)
  {
    if i < 0 then "-" + NatToString(-i) else NatToString(i)
  }

  /** Length of the longest prefix of `s` made of decimal digits. */
  function DigitPrefixLength(s: string): (k: nat)
    ensures k <= |s| && AllDigits(s[..k])
    ensures k < |s| ==> !IsDigit(s[k])
    decreases |s|
  {
    if s != [] && IsDigit(s[0]) then 1 + DigitPrefixLength(s[1..]) else 0
  }

  /** `parseInt(s, 10)` as an option, `None` standing for `NaN`: leading whitespace is
      skipped, one optional sign is read, then the longest run of decimal digits; no
      digit at all gives `NaN`. */
  function ParseInt(s: string): (r: Option<int>)
  {
    var t := TrimStart(s);
    var neg := t != [] && t[0] == '-';
    var u := if t != [] && (t[0] == '-' || t[0] == '+') then t[1..] else t;
    var k := DigitPrefixLength(u);
    if k == 0 then None
    else Some(if neg then -(DigitsValue(u[..k]) as int) else DigitsValue(u[..k]))
  }

  /** `parseInt` reads back every non-negative number it is given in decimal. */
  lemma {:induction false} ParseIntNatToString(n: nat)
    ensures ParseInt(NatToString(n)) == Some(n)
  {
    var s := NatToString(n);
    assert !IsSpace(s[0]) && s[0] != '-' && s[0] != '+';
    assert TrimStart(s) == s;
    DigitPrefixAll(s);
    assert s[..|s|] == s;
    NatToStringRoundTrip(n);
  }

  lemma {:induction false} DigitPrefixAll(s: string)
    requires AllDigits(s)
    ensures DigitPrefixLength(s) == |s|
    decreases |s|
  {
    if s != [] {
      DigitPrefixAll(s[1..]);
    }
  }

  /** Two strings that end in `c` followed by a `c`-free tail have the same tail:
      the tail is what follows the last `c`. */
  lemma {:induction false} SameTailAfterSeparator(a: string, u: string, b: string, v: string, c: char)
    requires a + [c] + u == b + [c] + v
    requires c !in u && c !in v
    ensures u == v
  {
    var x := a + [c] + u;
    var y := b + [c] + v;
    assert x[|a|] == c && y[|b|] == c;
    assert forall i :: |a| < i < |x| ==> x[i] == u[i - |a| - 1] != c;
    assert forall i :: |b| < i < |y| ==> y[i] == v[i - |b| - 1] != c;
    assert |a| == |b|;
    assert u == x[|a| + 1..];
    assert v == y[|b| + 1..];
  }

  lemma {:induction false} DigitsHaveNoDash(n: nat)
    ensures '-' !in NatToString(n)
  {
  }
}
