/**
 * The JSON text the consolidation step ranks: Python's `json.dumps` of a
 * `{"title": ..., "url": ..., "content": ...}` record with the default settings
 * (ASCII-only output, lower-case `\uXXXX`, surrogate pairs above U+FFFF), and
 * `json.loads` of records laid out that way.
 */
module Json {
  import opened State

  /** The digits `format` writes with the `x` type: `0`-`9` and `a`-`f`. */
  predicate LowerHexDigit(c: char) {
    '0' <= c <= '9' || 'a' <= c <= 'f'
  }

  /** The lower-case digit of d: the one the decoder reads back as d. */
  function HexDigit(d: nat): (c: char)
    requires d < 16
    ensures LowerHexDigit(c)
    ensures HexValue(c) == Some(d)
  {
    if d < 10 then ('0' as int + d) as char else ('a' as int + d - 10) as char
  }

  /** Python's `'{0:04x}'.format(n)`: four lower-case hex digits that read back as n. */
  function Hex4(n: nat): (s: string)
    requires n < 0x10000
    ensures |s| == 4
    ensures forall i :: 0 <= i < 4 ==> LowerHexDigit(s[i])
    ensures ParseHex4(s) == Some(n)
  {
    var q1 := n / 16;
    var q2 := q1 / 16;
    var q3 := q2 / 16;
    assert q2 == q3 * 16 + q2 % 16;
    assert q1 == q2 * 16 + q1 % 16;
    assert n == q1 * 16 + n % 16;
    [HexDigit(q3), HexDigit(q2 % 16), HexDigit(q1 % 16), HexDigit(n % 16)]
  }

  /** How `json.dumps` writes one character of a string. */
  function EscapeChar(c: char): string {
    if c == '"' then "\\\""
    else if c == '\\' then "\\\\"
    else if c == '\n' then "\\n"
    else if c == '\r' then "\\r"
    else if c == '\t' then "\\t"
    else if c == 8 as char then "\\b"
    else if c == 12 as char then "\\f"
    else if ' ' <= c <= '~' then [c]
    else if c as int < 0x10000 then "\\u" + Hex4(c as int)
    else
      "\\u" + Hex4(HighSurrogate(c)) + "\\u" + Hex4(LowSurrogate(c))
  }

  function Escape(t: string): string
    decreases |t|
  {
    if |t| == 0 then "" else EscapeChar(t[0]) + Escape(t[1..])
  }

  /** `json.dumps` of a string value. */
  function Quote(t: string): string {
    "\"" + Escape(t) + "\""
  }

  const TitleLabel := "{\"title\": "
  const UrlLabel := ", \"url\": "
  const ContentLabel := ", \"content\": "

  /** `json.dumps({"title": s.title, "url": s.url, "content": s.content})`. */
  function Encode(s: Source): string {
    TitleLabel + Quote(s.title) + UrlLabel + Quote(s.url) + ContentLabel + Quote(s.content) + "}"
  }

  // ---- decoding ----

  function HexValue(c: char): Option<nat> {
    if '0' <= c <= '9' then Some(c as int - '0' as int)
    else if 'a' <= c <= 'f' then Some(c as int - 'a' as int + 10)
    else if 'A' <= c <= 'F' then Some(c as int - 'A' as int + 10)
    else None
  }

  function ParseHex4(s: string): (r: Option<nat>)
    ensures r.Some? ==> |s| >= 4 && r.value < 0x10000
  {
    if |s| < 4 then None
    else match (HexValue(s[0]), HexValue(s[1]), HexValue(s[2]), HexValue(s[3]))
      case (Some(a), Some(b), Some(c), Some(d)) =>
        if a < 16 && b < 16 && c < 16 && d < 16 then Some(((a * 16 + b) * 16 + c) * 16 + d) else None
      case _ => None
  }

  /**
   * The character of a `\u` escape (the text after `\u`): a non-surrogate code unit,
   * or a high surrogate followed by `\u` and a low surrogate.
   */
  function ParseUnicode(s: string): (r: Option<(char, string)>)
    ensures r.Some? ==> |r.value.1| < |s|
  {
    match ParseHex4(s)
    case None => None
    case Some(hi) =>
      if hi < 0xD800 || 0xE000 <= hi then Some((hi as char, s[4..]))
      else if 0xDC00 <= hi then None
      else if |s| >= 6 && s[4] == '\\' && s[5] == 'u' then
        match ParseHex4(s[6..])
        case Some(lo) =>
          if 0xDC00 <= lo < 0xE000 then
            Some(((0x10000 + (hi - 0xD800) * 0x400 + (lo - 0xDC00)) as char, s[10..]))
          else None
        case None => None
      else None
  }

  /** The character an escape stands for, given the text after the backslash. */
  function ParseEscape(s: string): (r: Option<(char, string)>)
    ensures r.Some? ==> |r.value.1| < |s|
  {
    if |s| == 0 then None
    else if s[0] == '"' then Some(('"', s[1..]))
    else if s[0] == '\\' then Some(('\\', s[1..]))
    else if s[0] == '/' then Some(('/', s[1..]))
    else if s[0] == 'b' then Some((8 as char, s[1..]))
    else if s[0] == 'f' then Some((12 as char, s[1..]))
    else if s[0] == 'n' then Some(('\n', s[1..]))
    else if s[0] == 'r' then Some(('\r', s[1..]))
    else if s[0] == 't' then Some(('\t', s[1..]))
    else if s[0] == 'u' then ParseUnicode(s[1..])
    else None
  }

  function Prepend(c: char, r: Option<(string, string)>): Option<(string, string)> {
    match r
    case None => None
    case Some((t, rest)) => Some(([c] + t, rest))
  }

  /**
   * The body of a JSON string up to its closing quote: the decoded text and what
   * follows the quote. Raw control characters are refused, as in strict mode.
   */
  function ParseChars(s: string): (r: Option<(string, string)>)
    ensures r.Some? ==> |r.value.1| < |s|
    decreases |s|
  {
    if |s| == 0 then None
    else if s[0] == '"' then Some(("", s[1..]))
    else if s[0] == '\\' then
      match ParseEscape(s[1..])
      case None => None
      case Some((c, rest)) => Prepend(c, ParseChars(rest))
    else if s[0] < ' ' then None
    else Prepend(s[0], ParseChars(s[1..]))
  }

  /** A tag followed by a JSON string: the string's text and what follows it. */
  function ParseField(tag: string, s: string): Option<(string, string)> {
    if |s| > |tag| && s[..|tag|] == tag && s[|tag|] == '"' then ParseChars(s[|tag| + 1..])
    else None
  }

  /** `json.loads` of a record laid out as `Encode` writes it; the result holds only the three fields. */
  function Decode(doc: string): (r: Option<Source>)
    ensures r.Some? ==> r.value.extra == map[]
  {
    match ParseField(TitleLabel, doc)
    case None => None
    case Some((title, r1)) =>
      match ParseField(UrlLabel, r1)
      case None => None
      case Some((url, r2)) =>
        match ParseField(ContentLabel, r2)
        case None => None
        case Some((content, r3)) =>
          if r3 == "}" then Some(Source(title, url, content, map[])) else None
  }

  /** The record a search hit is reduced to before ranking: title, url and content only. */
  function Project(s: Source): (p: Source)
    ensures p.title == s.title && p.url == s.url && p.content == s.content && p.extra == map[]
  {
    Source(s.title, s.url, s.content, map[])
  }

  // ---- round trip ----

  lemma HexDigitValue(d: nat)
    requires d < 16
    ensures HexValue(HexDigit(d)) == Some(d)
  {
  }

  lemma {:induction false} Hex4RoundTrip(n: nat, more: string)
    requires n < 0x10000
    ensures ParseHex4(Hex4(n) + more) == Some(n)
    ensures (Hex4(n) + more)[4..] == more
  {
    var q1 := n / 16;
    var q2 := q1 / 16;
    var q3 := q2 / 16;
    var s := Hex4(n) + more;
    HexDigitValue(q3);
    HexDigitValue(q2 % 16);
    HexDigitValue(q1 % 16);
    HexDigitValue(n % 16);
    assert s[0] == HexDigit(q3) && s[1] == HexDigit(q2 % 16) && s[2] == HexDigit(q1 % 16) && s[3] == HexDigit(n % 16);
    assert q2 == q3 * 16 + q2 % 16;
    assert q1 == q2 * 16 + q1 % 16;
    assert n == q1 * 16 + n % 16;
  }

  /** The short escapes `\"`, `\\`, `\n`, `\r`, `\t`, `\b`, `\f`. */
  lemma ShortEscapeRoundTrip(c: char, more: string)
    requires c == '"' || c == '\\' || c == '\n' || c == '\r' || c == '\t' || c == 8 as char || c == 12 as char
    ensures ParseChars(EscapeChar(c) + more) == Prepend(c, ParseChars(more))
  {
    var e := EscapeChar(c);
    var s := e + more;
    assert |e| == 2 && e[0] == '\\';
    assert s[0] == '\\';
    assert s[1..] == [e[1]] + more;
    assert ParseEscape(s[1..]) == Some((c, more));
  }

  /** A character below U+10000 that is written as `\uXXXX`. */
  lemma UnitEscapeRoundTrip(c: char, more: string)
    requires !(c == '"' || c == '\\' || c == '\n' || c == '\r' || c == '\t' || c == 8 as char || c == 12 as char)
    requires !(' ' <= c <= '~') && c as int < 0x10000
    ensures ParseChars(EscapeChar(c) + more) == Prepend(c, ParseChars(more))
  {
    var h := Hex4(c as int) + more;
    assert EscapeChar(c) + more == "\\u" + h;
    Hex4RoundTrip(c as int, more);
    assert ParseUnicode(h) == Some((c, more));
    UnicodeEscape(h, c, more);
  }

  /** A `\u` escape whose text decodes to c followed by the rest. */
  lemma UnicodeEscape(h: string, c: char, more: string)
    requires ParseUnicode(h) == Some((c, more))
    ensures ParseChars("\\u" + h) == Prepend(c, ParseChars(more))
  {
    var s := "\\u" + h;
    assert s[0] == '\\' && s[1..] == "u" + h && s[1..][1..] == h;
  }

  /** The two halves of a surrogate pair of a character above U+FFFF. */
  function HighSurrogate(c: char): (n: nat)
    requires c as int >= 0x10000
    ensures 0xD800 <= n < 0xDC00
  {
    0xD800 + (c as int - 0x10000) / 0x400
  }

  function LowSurrogate(c: char): (n: nat)
    requires c as int >= 0x10000
    ensures 0xDC00 <= n < 0xE000
  {
    0xDC00 + (c as int - 0x10000) % 0x400
  }

  lemma SurrogatesCombine(c: char)
    requires c as int >= 0x10000
    ensures 0x10000 + (HighSurrogate(c) - 0xD800) * 0x400 + (LowSurrogate(c) - 0xDC00) == c as int
  {
    var v := c as int - 0x10000;
    assert v == (v / 0x400) * 0x400 + v % 0x400;
  }

  lemma PairUnicodeRoundTrip(c: char, more: string)
    requires c as int >= 0x10000
    ensures ParseUnicode(Hex4(HighSurrogate(c)) + ("\\u" + Hex4(LowSurrogate(c)) + more)) == Some((c, more))
  {
    var hi := HighSurrogate(c);
    var lo := LowSurrogate(c);
    var tail := "\\u" + Hex4(lo) + more;
    var u := Hex4(hi) + tail;
    Hex4RoundTrip(hi, tail);
    Hex4RoundTrip(lo, more);
    assert u[4..] == tail;
    assert u[4] == '\\' && u[5] == 'u';
    assert u[6..] == Hex4(lo) + more;
    SurrogatesCombine(c);
  }

  /** A character above U+FFFF, written as a surrogate pair. */
  lemma PairEscapeRoundTrip(c: char, more: string)
    requires c as int >= 0x10000
    ensures ParseChars(EscapeChar(c) + more) == Prepend(c, ParseChars(more))
  {
    var u := Hex4(HighSurrogate(c)) + ("\\u" + Hex4(LowSurrogate(c)) + more);
    assert EscapeChar(c) == "\\u" + Hex4(HighSurrogate(c)) + "\\u" + Hex4(LowSurrogate(c));
    assert EscapeChar(c) + more == "\\u" + u;
    PairUnicodeRoundTrip(c, more);
    UnicodeEscape(u, c, more);
  }

  /** Decoding the escape of one character gives the character back. */
  lemma EscapeCharRoundTrip(c: char, more: string)
    ensures ParseChars(EscapeChar(c) + more) == Prepend(c, ParseChars(more))
  {
    if c == '"' || c == '\\' || c == '\n' || c == '\r' || c == '\t' || c == 8 as char || c == 12 as char {
      ShortEscapeRoundTrip(c, more);
    } else if ' ' <= c <= '~' {
      var s := EscapeChar(c) + more;
      assert s[0] == c && s[1..] == more;
    } else if c as int < 0x10000 {
      UnitEscapeRoundTrip(c, more);
    } else {
      PairEscapeRoundTrip(c, more);
    }
  }

  /** Decoding an escaped string up to its closing quote gives the text and what follows. */
  lemma {:induction false} EscapeRoundTrip(t: string, rest: string)
    ensures ParseChars(Escape(t) + "\"" + rest) == Some((t, rest))
    decreases |t|
  {
    if |t| == 0 {
      assert Escape(t) + "\"" + rest == "\"" + rest;
    } else {
      var tail := Escape(t[1..]) + "\"" + rest;
      assert Escape(t) + "\"" + rest == EscapeChar(t[0]) + tail;
      EscapeCharRoundTrip(t[0], tail);
      EscapeRoundTrip(t[1..], rest);
      assert [t[0]] + t[1..] == t;
    }
  }

  lemma FieldRoundTrip(tag: string, t: string, rest: string)
    ensures ParseField(tag, tag + Quote(t) + rest) == Some((t, rest))
  {
    var s := tag + Quote(t) + rest;
    assert s[..|tag|] == tag;
    assert s[|tag|] == '"';
    assert s[|tag| + 1..] == Escape(t) + "\"" + rest;
    EscapeRoundTrip(t, rest);
  }

  /** Loading the serialized record gives back its title, url and content, and nothing else. */
  lemma RoundTrip(s: Source)
    ensures Decode(Encode(s)) == Some(Project(s))
  {
    var r3 := "}";
    var r2 := ContentLabel + Quote(s.content) + r3;
    var r1 := UrlLabel + Quote(s.url) + r2;
    assert Encode(s) == TitleLabel + Quote(s.title) + r1;
    FieldRoundTrip(TitleLabel, s.title, r1);
    FieldRoundTrip(UrlLabel, s.url, r2);
    FieldRoundTrip(ContentLabel, s.content, r3);
  }
}
