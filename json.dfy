/**
 * The two `json.dumps` payloads that `_search_node` puts into its tool
 * messages (f_agent.py:239, 249): `{"error": <text>}` and `{"count": <n>}`,
 * with Python's default separators and `ensure_ascii=True` string escaping.
 * `Unescape` reads an escaped string back and is the partner of `Escape`.
 */
module Json {
  import opened Wrappers
  import opened Text

  /** The lower-case hex digit for `k`. */
  function HexDigit(k: nat): (r: char)
    requires k < 16
    ensures '0' <= r <= '9' || 'a' <= r <= 'f'
  {
    if k < 10 then ('0' as int + k) as char else ('a' as int + k - 10) as char
  }

  /** Four lower-case hex digits, as in Python's `'\\u{0:04x}'`. */
  function Hex4(v: nat): (r: string)
    requires v < 0x10000
    ensures |r| == 4
  {
    var q := v / 16;
    var q2 := q / 16;
    [HexDigit(q2 / 16), HexDigit(q2 % 16), HexDigit(q % 16), HexDigit(v % 16)]
  }

  /** The seven characters with a two-character escape. */
  function ShortEscape(c: char): (r: Option<char>)
    ensures r.Some? ==> ' ' <= r.value <= '~'
  {
    if c == '"' then Some('"')
    else if c == '\\' then Some('\\')
    else if c == '\n' then Some('n')
    else if c == '\r' then Some('r')
    else if c == '\t' then Some('t')
    else if c == '\U{8}' then Some('b')
    else if c == '\U{c}' then Some('f')
    else None
  }

  /** The inverse of `ShortEscape`. */
  function ShortUnescape(d: char): (r: Option<char>)
  {
    if d == '"' then Some('"')
    else if d == '\\' then Some('\\')
    else if d == 'n' then Some('\n')
    else if d == 'r' then Some('\r')
    else if d == 't' then Some('\t')
    else if d == 'b' then Some('\U{8}')
    else if d == 'f' then Some('\U{c}')
    else None
  }

  function HighSurrogate(n: nat): (r: nat)
    requires n < 0x100000
    ensures 0xD800 <= r < 0xDC00
  {
    0xD800 + n / 1024
  }

  function LowSurrogate(n: nat): (r: nat)
    requires n < 0x100000
    ensures 0xDC00 <= r < 0xE000
  {
    0xDC00 + n % 1024
  }

  /** The code point a surrogate pair stands for. */
  function Combine(hi: nat, lo: nat): (r: nat)
    requires 0xD800 <= hi < 0xDC00 && 0xDC00 <= lo < 0xE000
    ensures 0x10000 <= r < 0x110000
  {
    0x10000 + (hi - 0xD800) * 1024 + (lo - 0xDC00)
  }

  lemma CombineSplit(n: nat)
    requires n < 0x100000
    ensures Combine(HighSurrogate(n), LowSurrogate(n)) == 0x10000 + n
  {
  }

  /** `\uXXXX` for a code point below U+10000. */
  function UnicodeEscape(v: nat): (r: string)
    requires v < 0x10000
    ensures |r| == 6
  {
    "\\u" + Hex4(v)
  }

  /** The escape of one character: the two-character escapes, the character
      itself when it is printable ASCII, `\uXXXX` otherwise, and a surrogate
      pair above U+FFFF. */
  function EscapeChar(c: char): (r: string)
    ensures r != []
  {
    match ShortEscape(c)
    case Some(d) => ['\\', d]
    case None =>
      if ' ' <= c <= '~' then [c]
      else if c as int < 0x10000 then UnicodeEscape(c as int)
      else
        var n := c as int - 0x10000;
        UnicodeEscape(HighSurrogate(n)) + UnicodeEscape(LowSurrogate(n))
  }

  function Escape(s: string): string {
    if s == [] then [] else EscapeChar(s[0]) + Escape(s[1..])
  }

  /** A JSON string literal as `json.dumps` writes it. */
  function Quote(s: string): string {
    "\"" + Escape(s) + "\""
  }

  /** `json.dumps({"error": message})`. */
  function ErrorObject(message: string): string {
    "{\"error\": " + Quote(message) + "}"
  }

  /** `json.dumps({"count": n})`. */
  function CountObject(n: nat): string {
    "{\"count\": " + NatToString(n) + "}"
  }

  predicate IsPrintableAscii(s: string) {
    forall i :: 0 <= i < |s| ==> ' ' <= s[i] <= '~'
  }

  lemma UnicodeEscapePrintable(v: nat)
    requires v < 0x10000
    ensures IsPrintableAscii(UnicodeEscape(v))
  {
    var h := Hex4(v);
    assert forall i :: 0 <= i < 4 ==> ' ' <= h[i] <= '~';
    assert UnicodeEscape(v) == ['\\', 'u', h[0], h[1], h[2], h[3]];
  }

  lemma PrintableAppend(a: string, b: string)
    requires IsPrintableAscii(a) && IsPrintableAscii(b)
    ensures IsPrintableAscii(a + b)
  {
    assert forall i :: 0 <= i < |a + b| ==> (a + b)[i] == if i < |a| then a[i] else b[i - |a|];
  }

  lemma EscapeCharPrintable(c: char)
    ensures IsPrintableAscii(EscapeChar(c))
  {
    if ShortEscape(c).None? && !(' ' <= c <= '~') {
      if c as int < 0x10000 {
        UnicodeEscapePrintable(c as int);
      } else {
        var n := c as int - 0x10000;
        var a, b := UnicodeEscape(HighSurrogate(n)), UnicodeEscape(LowSurrogate(n));
        UnicodeEscapePrintable(HighSurrogate(n));
        UnicodeEscapePrintable(LowSurrogate(n));
        assert EscapeChar(c) == a + b;
        PrintableAppend(a, b);
      }
    }
  }

  /** `ensure_ascii`: the escaped text is printable ASCII whatever the input. */
  lemma {:induction false} EscapePrintable(s: string)
    ensures IsPrintableAscii(Escape(s))
  {
    if s != [] {
      EscapePrintable(s[1..]);
      EscapeCharPrintable(s[0]);
      PrintableAppend(EscapeChar(s[0]), Escape(s[1..]));
    }
  }

  function HexValue(c: char): (r: Option<nat>)
    ensures r.Some? ==> r.value < 16
  {
    if '0' <= c <= '9' then Some(c as int - '0' as int)
    else if 'a' <= c <= 'f' then Some(c as int - 'a' as int + 10)
    else if 'A' <= c <= 'F' then Some(c as int - 'A' as int + 10)
    else None
  }

  function Hex4Value(s: string): (r: Option<nat>)
    requires |s| == 4
    ensures r.Some? ==> r.value < 0x10000
  {
    var a, b, c, d := HexValue(s[0]), HexValue(s[1]), HexValue(s[2]), HexValue(s[3]);
    if a.Some? && b.Some? && c.Some? && d.Some?
    then Some(((a.value * 16 + b.value) * 16 + c.value) * 16 + d.value)
    else None
  }

  lemma HexDigitValue(k: nat)
    requires k < 16
    ensures HexValue(HexDigit(k)) == Some(k)
  {
  }

  lemma Hex4RoundTrip(v: nat)
    requires v < 0x10000
    ensures Hex4Value(Hex4(v)) == Some(v)
  {
    var q := v / 16;
    var q2 := q / 16;
    HexDigitValue(q2 / 16);
    HexDigitValue(q2 % 16);
    HexDigitValue(q % 16);
    HexDigitValue(v % 16);
    assert q2 == q2 / 16 * 16 + q2 % 16;
    assert q == q2 * 16 + q % 16;
    assert v == q * 16 + v % 16;
  }

  function Prepend(c: char, r: Option<string>): Option<string> {
    match r
    case Some(t) => Some([c] + t)
    case None => None
  }

  /** The value of `\uXXXX` at the start of `s`, if it is one. */
  function UnicodeValue(s: string): (r: Option<nat>)
    ensures r.Some? ==> r.value < 0x10000
  {
    if |s| < 6 || s[0] != '\\' || s[1] != 'u' then None else Hex4Value(s[2..6])
  }

  lemma UnicodeValueOf(v: nat, t: string)
    requires v < 0x10000
    ensures UnicodeValue(UnicodeEscape(v) + t) == Some(v)
  {
    var s := UnicodeEscape(v) + t;
    assert s[2..6] == Hex4(v);
    Hex4RoundTrip(v);
  }

  /** The first character of an escaped text and the number of characters
      its escape takes; `None` on a malformed escape. */
  function Step(s: string): (r: Option<(char, nat)>)
    requires s != []
    ensures r.Some? ==> 1 <= r.value.1 <= |s|
  {
    if s[0] != '\\' then Some((s[0], 1))
    else if |s| >= 2 && ShortUnescape(s[1]).Some? then Some((ShortUnescape(s[1]).value, 2))
    else match UnicodeValue(s)
      case None => None
      case Some(v) =>
        if v < 0xD800 || 0xE000 <= v then Some((v as char, 6))
        else if 0xDC00 <= v then None
        else match UnicodeValue(s[6..])
          case Some(w) => if 0xDC00 <= w < 0xE000 then Some((Combine(v, w) as char, 12)) else None
          case None => None
  }

  /** The decoding of the escapes `Escape` produces; `None` on a malformed escape. */
  function Unescape(s: string): Option<string>
    decreases |s|
  {
    if s == [] then Some([])
    else match Step(s)
      case None => None
      case Some((c, n)) => Prepend(c, Unescape(s[n..]))
  }

  lemma StepShort(c: char, t: string)
    requires ShortEscape(c).Some?
    ensures Step(EscapeChar(c) + t) == Some((c, 2))
  {
  }

  lemma StepPlain(c: char, t: string)
    requires ShortEscape(c).None? && ' ' <= c <= '~'
    ensures Step(EscapeChar(c) + t) == Some((c, 1))
  {
  }

  lemma StepBasic(c: char, t: string)
    requires ShortEscape(c).None? && !(' ' <= c <= '~') && c as int < 0x10000
    ensures Step(EscapeChar(c) + t) == Some((c, 6))
  {
    UnicodeValueOf(c as int, t);
  }

  /** A well-formed surrogate pair of `\uXXXX` escapes decodes to the
      character it stands for. */
  lemma StepPairAt(s: string, hi: nat, lo: nat)
    requires 0xD800 <= hi < 0xDC00 && 0xDC00 <= lo < 0xE000
    requires |s| >= 12 && s[0] == '\\' && s[1] == 'u'
    requires UnicodeValue(s) == Some(hi) && UnicodeValue(s[6..]) == Some(lo)
    ensures Step(s) == Some((Combine(hi, lo) as char, 12))
  {
    assert ShortUnescape('u').None?;
  }

  lemma StepPair(hi: nat, lo: nat, t: string)
    requires 0xD800 <= hi < 0xDC00 && 0xDC00 <= lo < 0xE000
    ensures Step(UnicodeEscape(hi) + (UnicodeEscape(lo) + t)) == Some((Combine(hi, lo) as char, 12))
  {
    var rest := UnicodeEscape(lo) + t;
    var s := UnicodeEscape(hi) + rest;
    assert UnicodeValue(s) == Some(hi) by {
      UnicodeValueOf(hi, rest);
    }
    assert UnicodeValue(s[6..]) == Some(lo) by {
      assert s[6..] == rest;
      UnicodeValueOf(lo, t);
    }
    assert s[0] == '\\' && s[1] == 'u';
    StepPairAt(s, hi, lo);
  }

  lemma StepSurrogates(c: char, t: string)
    requires c as int >= 0x10000
    ensures Step(EscapeChar(c) + t) == Some((c, 12))
  {
    var n := c as int - 0x10000;
    var hi, lo := HighSurrogate(n), LowSurrogate(n);
    assert EscapeChar(c) == UnicodeEscape(hi) + UnicodeEscape(lo);
    AppendAssoc(UnicodeEscape(hi), UnicodeEscape(lo), t);
    StepPair(hi, lo, t);
    CombineSplit(n);
  }

  /** Each character's escape decodes back to that character, consuming
      exactly the escape. */
  lemma StepChar(c: char, t: string)
    ensures Step(EscapeChar(c) + t) == Some((c, |EscapeChar(c)|))
  {
    if ShortEscape(c).Some? {
      StepShort(c, t);
    } else if ' ' <= c <= '~' {
      StepPlain(c, t);
    } else if c as int < 0x10000 {
      StepBasic(c, t);
    } else {
      StepSurrogates(c, t);
    }
  }

  lemma UnescapeChar(c: char, t: string)
    ensures Unescape(EscapeChar(c) + t) == Prepend(c, Unescape(t))
  {
    StepChar(c, t);
    assert (EscapeChar(c) + t)[|EscapeChar(c)|..] == t;
  }

  /** Escaping loses nothing: the text inside the quotes decodes to the original. */
  lemma {:induction false} EscapeRoundTrip(s: string)
    ensures Unescape(Escape(s)) == Some(s)
  {
    if s != [] {
      EscapeRoundTrip(s[1..]);
      UnescapeChar(s[0], Escape(s[1..]));
      assert [s[0]] + s[1..] == s;
    }
  }
}
