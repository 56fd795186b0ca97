/**
 * The handful of Python `str` operations the agent and the formatter use,
 * written out on `seq<char>`: `isspace`/`strip`, slicing `s[2:]`,
 * single-character `replace`, ASCII `lower`/`upper`, `str(n)` for naturals,
 * `sep.join(parts)` and `s * n`.
 */
module Text {
  import opened Wrappers

  /** Python's `str.isspace` for one character (the Unicode whitespace set):
      the ASCII controls `\t`..`\r` and `\x1c`..`\x1f`, the space, and the
      wider characters listed in `WideSpaces`. */
  predicate IsSpace(c: char) {
    ('\t' <= c <= '\r') || ('\U{1c}' <= c <= ' ') || ('\U{85}' <= c && InRanges(c, WideSpaces))
  }

  /** The whitespace characters above ASCII, as inclusive ranges. */
  const WideSpaces: seq<(char, char)> := [
    ('\U{85}', '\U{85}'), ('\U{a0}', '\U{a0}'), ('\U{1680}', '\U{1680}'),
    ('\U{2000}', '\U{200a}'), ('\U{2028}', '\U{2029}'), ('\U{202f}', '\U{202f}'),
    ('\U{205f}', '\U{205f}'), ('\U{3000}', '\U{3000}')]

  predicate InRanges(c: char, ranges: seq<(char, char)>) {
    ranges != [] && ((ranges[0].0 <= c <= ranges[0].1) || InRanges(c, ranges[1..]))
  }

  /** `not s.strip()`: the string is empty or whitespace only. */
  predicate IsBlank(s: string) {
    forall i :: 0 <= i < |s| ==> IsSpace(s[i])
  }

  function StripLeft(s: string): (r: string)
    ensures |r| <= |s|
    ensures r == s[|s| - |r|..]
    ensures r == [] || !IsSpace(r[0])
  {
    if s == [] || !IsSpace(s[0]) then s else StripLeft(s[1..])
  }

  /** What `StripLeft` removes is whitespace. */
  lemma {:induction false} StripLeftRemovesSpace(s: string)
    ensures forall i :: 0 <= i < |s| - |StripLeft(s)| ==> IsSpace(s[i])
  {
    if s != [] && IsSpace(s[0]) {
      StripLeftRemovesSpace(s[1..]);
      assert forall i :: 1 <= i < |s| - |StripLeft(s)| ==> s[i] == s[1..][i - 1];
    }
  }

  function StripRight(s: string): (r: string)
    ensures |r| <= |s|
    ensures r == s[..|r|]
    ensures r == [] || !IsSpace(r[|r| - 1])
  {
    if s == [] || !IsSpace(s[|s| - 1]) then s else StripRight(s[..|s| - 1])
  }

  /** What `StripRight` removes is whitespace. */
  lemma {:induction false} StripRightRemovesSpace(s: string)
    ensures forall i :: |StripRight(s)| <= i < |s| ==> IsSpace(s[i])
  {
    if s != [] && IsSpace(s[|s| - 1]) {
      StripRightRemovesSpace(s[..|s| - 1]);
    }
  }

  /** Python's `s.strip()` with no argument. */
  function Strip(s: string): string {
    StripRight(StripLeft(s))
  }

  /** Stripping leaves nothing exactly when the string is blank. */
  lemma StripEmptyIffBlank(s: string)
    ensures Strip(s) == [] <==> IsBlank(s)
  {
    var l := StripLeft(s);
    StripLeftRemovesSpace(s);
    StripRightRemovesSpace(l);
    assert IsBlank(s) ==> l == [] || IsSpace(l[0]) by {
      if l != [] { assert l[0] == s[|s| - |l|]; }
    }
    assert Strip(s) == [] ==> IsBlank(l);
  }

  /** Stripping removes characters and adds none. */
  lemma StripKeepsAbsent(s: string, c: char)
    requires c !in s
    ensures c !in Strip(s)
  {
    var l := StripLeft(s);
    assert c !in l;
    var r := StripRight(l);
    assert c !in r;
  }

  /** A string that neither starts nor ends with whitespace is left as it is. */
  lemma StripUntrimmed(s: string)
    requires s != [] && !IsSpace(s[0]) && !IsSpace(s[|s| - 1])
    ensures Strip(s) == s
  {
  }

  /** One trailing whitespace character is stripped off. */
  lemma StripTrailingSpace(s: string, c: char)
    requires s != [] && !IsSpace(s[0]) && !IsSpace(s[|s| - 1]) && IsSpace(c)
    ensures Strip(s + [c]) == s
  {
    var t := s + [c];
    assert StripLeft(t) == t by {
      assert t[0] == s[0];
    }
    assert t[..|t| - 1] == s;
    assert StripRight(t) == StripRight(s);
    StripUntrimmed(s);
  }

  /** Python's slice `s[k:]`: empty when the string is shorter than `k`. */
  function DropPrefix(s: string, k: nat): (r: string)
    ensures |r| == if |s| <= k then 0 else |s| - k
  {
    if |s| <= k then [] else s[k..]
  }

  /** Python's `s.replace(target, replacement)` for a one-character `target`. */
  function ReplaceChar(s: string, target: char, replacement: string): (r: string)
    ensures target !in s ==> r == s
  {
    if s == [] then []
    else (if s[0] == target then replacement else [s[0]]) + ReplaceChar(s[1..], target, replacement)
  }

  lemma {:induction false} ReplaceCharAppend(a: string, b: string, target: char, replacement: string)
    ensures ReplaceChar(a + b, target, replacement) == ReplaceChar(a, target, replacement) + ReplaceChar(b, target, replacement)
  {
    if a == [] {
      assert a + b == b;
    } else {
      assert (a + b)[1..] == a[1..] + b;
      ReplaceCharAppend(a[1..], b, target, replacement);
    }
  }

  lemma {:induction false} ReplaceCharRemoves(s: string, target: char, replacement: string)
    requires target !in replacement
    ensures target !in ReplaceChar(s, target, replacement)
  {
    if s != [] {
      ReplaceCharRemoves(s[1..], target, replacement);
    }
  }

  lemma {:induction false} ReplaceCharKeepsAbsent(s: string, target: char, replacement: string, c: char)
    requires c !in s && c !in replacement
    ensures c !in ReplaceChar(s, target, replacement)
  {
    if s != [] {
      ReplaceCharKeepsAbsent(s[1..], target, replacement, c);
    }
  }

  function LowerChar(c: char): char {
    if 'A' <= c <= 'Z' then (c as int + 32) as char else c
  }

  function UpperChar(c: char): char {
    if 'a' <= c <= 'z' then (c as int - 32) as char else c
  }

  /** Python's `s.lower()` restricted to the ASCII letters. */
  function Lower(s: string): (r: string)
    ensures |r| == |s|
    ensures forall i :: 0 <= i < |s| ==> r[i] == LowerChar(s[i])
  {
    if s == [] then [] else [LowerChar(s[0])] + Lower(s[1..])
  }

  /** Python's `s.upper()` restricted to the ASCII letters. */
  function Upper(s: string): (r: string)
    ensures |r| == |s|
    ensures forall i :: 0 <= i < |s| ==> r[i] == UpperChar(s[i])
  {
    if s == [] then [] else [UpperChar(s[0])] + Upper(s[1..])
  }

  predicate IsDigit(c: char) {
    '0' <= c <= '9'
  }

  predicate IsDigits(s: string) {
    forall i :: 0 <= i < |s| ==> IsDigit(s[i])
  }

  function DigitChar(d: nat): char
    requires d < 10
  {
    ('0' as int + d) as char
  }

  /** Python's `str(n)` for a natural number: decimal, no leading zeros. */
  function NatToString(n: nat): (r: string)
    ensures r != [] && IsDigits(r)
    ensures |r| > 1 ==> r[0] != '0'
  {
    if n < 10 then [DigitChar(n)] else NatToString(n / 10) + [DigitChar(n % 10)]
  }

  /** The value of a string of decimal digits, Python's `int(s)` on such strings. */
  function DigitsValue(s: string): nat
    requires IsDigits(s)
  {
    if s == [] then 0 else 10 * DigitsValue(s[..|s| - 1]) + (s[|s| - 1] as int - '0' as int)
  }

  /** `str` on naturals is undone by `int`: the rendering loses nothing. */
  lemma {:induction false} NatToStringRoundTrip(n: nat)
    ensures DigitsValue(NatToString(n)) == n
  {
    if n >= 10 {
      var s := NatToString(n);
      assert s[..|s| - 1] == NatToString(n / 10);
      NatToStringRoundTrip(n / 10);
    }
  }

  /** Python's `sep.join(parts)`. */
  function Join(sep: string, parts: seq<string>): (r: string)
    ensures parts == [] ==> r == []
    ensures |parts| == 1 ==> r == parts[0]
  {
    if parts == [] then []
    else if |parts| == 1 then parts[0]
    else parts[0] + sep + Join(sep, parts[1..])
  }

  /** Python's `s * n`. */
  function Repeat(s: string, n: nat): (r: string)
    ensures |r| == |s| * n
  {
    if n == 0 then [] else s + Repeat(s, n - 1)
  }

  predicate StartsWith(s: string, prefix: string) {
    |prefix| <= |s| && s[..|prefix|] == prefix
  }

  predicate EndsWith(s: string, suffix: string) {
    |suffix| <= |s| && s[|s| - |suffix|..] == suffix
  }

  /** A concatenation starts with its first part and ends with its last. */
  lemma ConcatEnds(a: string, b: string, c: string)
    ensures StartsWith(a + b + c, a) && EndsWith(a + b + c, c)
  {
    assert (a + b + c)[..|a|] == a;
    assert (a + b + c)[|a + b|..] == c;
  }

  /** Python's `t in s` for strings: `t` occurs in `s` as a contiguous slice. */
  ghost predicate Contains(s: string, t: string) {
    exists k :: 0 <= k <= |s| && OccursAt(s, t, k)
  }

  predicate OccursAt(s: string, t: string, k: int) {
    0 <= k <= |s| - |t| && s[k..k + |t|] == t
  }

  lemma ContainsWithin(a: string, s: string, b: string, t: string)
    requires Contains(s, t)
    ensures Contains(a + s + b, t)
  {
    var k :| 0 <= k <= |s| && OccursAt(s, t, k);
    var j := |a| + k;
    assert (a + s + b)[j..j + |t|] == t;
    assert OccursAt(a + s + b, t, j);
  }

  lemma EndsWithContains(s: string, t: string)
    requires EndsWith(s, t)
    ensures Contains(s, t)
  {
    assert OccursAt(s, t, |s| - |t|);
  }

  /** A joined string begins with its first part. */
  lemma JoinStartsWith(sep: string, parts: seq<string>)
    requires parts != []
    ensures StartsWith(Join(sep, parts), parts[0])
  {
    if |parts| > 1 {
      assert Join(sep, parts)[..|parts[0]|] == parts[0];
    }
  }

  /** Every part occurs in the joined string. */
  lemma {:induction false} JoinContains(sep: string, parts: seq<string>, i: nat)
    requires i < |parts|
    ensures Contains(Join(sep, parts), parts[i])
  {
    if i == 0 {
      JoinStartsWith(sep, parts);
      assert OccursAt(Join(sep, parts), parts[0], 0);
    } else {
      JoinContains(sep, parts[1..], i - 1);
      ContainsWithin(parts[0] + sep, Join(sep, parts[1..]), [], parts[i]);
      assert parts[0] + sep + Join(sep, parts[1..]) + [] == Join(sep, parts);
    }
  }

  lemma ContainsExtended(s: string, b: string, t: string)
    requires Contains(s, t)
    ensures Contains(s + b, t)
  {
    var k :| 0 <= k <= |s| && OccursAt(s, t, k);
    assert (s + b)[k..k + |t|] == s[k..k + |t|];
    assert OccursAt(s + b, t, k);
  }

  /** Containment is transitive. */
  lemma ContainsTrans(s: string, t: string, u: string)
    requires Contains(s, t) && Contains(t, u)
    ensures Contains(s, u)
  {
    var j :| 0 <= j <= |s| && OccursAt(s, t, j);
    var k :| 0 <= k <= |t| && OccursAt(t, u, k);
    forall m | 0 <= m < |u| ensures s[j + k + m] == u[m] {
      assert s[j..j + |t|][k + m] == t[k + m];
    }
    assert s[j + k..j + k + |u|] == u;
    assert OccursAt(s, u, j + k);
  }

  lemma AppendAssoc(a: string, b: string, c: string)
    ensures a + b + c == a + (b + c)
  {
  }
}
