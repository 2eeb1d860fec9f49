/**
 * Text helpers shared by the formatters: Python's `"\n".join`, `str.split("\n")`,
 * `str(n)` for natural numbers and ASCII `str.lower`.
 */
module Strings {

  /** Python's `sep.join(parts)`. */
  function Join(sep: string, parts: seq<string>): string
    decreases |parts|
  {
    if |parts| == 0 then ""
    else if |parts| == 1 then parts[0]
    else parts[0] + sep + Join(sep, parts[1..])
  }

  /** Python's `s.split("\n")`; the result always has at least one piece. */
  function Lines(s: string): (r: seq<string>)
    ensures |r| >= 1
    decreases |s|
  {
    if |s| == 0 then [""]
    else if s[0] == '\n' then [""] + Lines(s[1..])
    else
      var rest := Lines(s[1..]);
      [[s[0]] + rest[0]] + rest[1..]
  }

  predicate NoNewline(s: string) {
    '\n' !in s
  }

  /** A newline-free prefix is glued to the first line of what follows. */
  lemma {:induction false} LinesOfPrefix(p: string, t: string)
    requires NoNewline(p)
    ensures Lines(p + t) == [p + Lines(t)[0]] + Lines(t)[1..]
    decreases |p|
  {
    if |p| > 0 {
      assert (p + t)[0] == p[0];
      assert (p + t)[1..] == p[1..] + t;
      LinesOfPrefix(p[1..], t);
      assert [p[0]] + (p[1..] + Lines(t)[0]) == p + Lines(t)[0];
    } else {
      assert p + t == t;
      assert p + Lines(t)[0] == Lines(t)[0];
      assert Lines(t) == [Lines(t)[0]] + Lines(t)[1..];
    }
  }

  /** Splitting undoes joining, as long as no part holds a newline. */
  lemma {:induction false} LinesOfJoin(parts: seq<string>)
    requires |parts| >= 1
    requires forall i :: 0 <= i < |parts| ==> NoNewline(parts[i])
    ensures Lines(Join("\n", parts)) == parts
    decreases |parts|
  {
    if |parts| == 1 {
      LinesOfPrefix(parts[0], "");
      assert parts[0] + "" == parts[0];
    } else {
      var tail := Join("\n", parts[1..]);
      LinesOfJoin(parts[1..]);
      assert parts[0] + "\n" + tail == parts[0] + ("\n" + tail);
      LinesOfPrefix(parts[0], "\n" + tail);
      assert ("\n" + tail)[1..] == tail;
      assert Lines("\n" + tail) == [""] + parts[1..];
      assert parts[0] + "" == parts[0];
      assert Join("\n", parts) == parts[0] + ("\n" + tail);
      assert parts == [parts[0]] + parts[1..];
    }
  }

  /** Joining two non-empty lists puts one separator between their joins. */
  lemma {:induction false} JoinConcat(sep: string, a: seq<string>, b: seq<string>)
    requires |a| > 0 && |b| > 0
    ensures Join(sep, a + b) == Join(sep, a) + sep + Join(sep, b)
    decreases |a|
  {
    assert (a + b)[0] == a[0];
    assert (a + b)[1..] == a[1..] + b;
    if |a| > 1 {
      JoinConcat(sep, a[1..], b);
    }
  }

  predicate IsDigit(c: char) {
    '0' <= c <= '9'
  }

  function DigitChar(d: nat): (c: char)
    requires d < 10
    ensures IsDigit(c)
  {
    ('0' as int + d) as char
  }

  function DigitValue(c: char): nat
    requires IsDigit(c)
  {
    c as int - '0' as int
  }

  /** Python's `str(n)` for a non-negative integer: decimal, no leading zero. */
  function NatToString(n: nat): (s: string)
    ensures |s| >= 1
    ensures forall i :: 0 <= i < |s| ==> IsDigit(s[i])
    ensures n > 0 ==> s[0] != '0'
    decreases n
  {
    if n < 10 then [DigitChar(n)] else NatToString(n / 10) + [DigitChar(n % 10)]
  }

  predicate AllDigits(s: string) {
    forall i :: 0 <= i < |s| ==> IsDigit(s[i])
  }

  /** The value of a string of decimal digits. */
  function DigitsValue(s: string): nat
    requires AllDigits(s)
    decreases |s|
  {
    if |s| == 0 then 0 else DigitsValue(s[..|s| - 1]) * 10 + DigitValue(s[|s| - 1])
  }

  /** Reading back the decimal rendering gives the number. */
  lemma {:induction false} DecimalRoundTrip(n: nat)
    ensures DigitsValue(NatToString(n)) == n
    decreases n
  {
    var s := NatToString(n);
    if n >= 10 {
      DecimalRoundTrip(n / 10);
      assert s[..|s| - 1] == NatToString(n / 10);
    }
  }

  /** The longest prefix of `s` made of digits. */
  function DigitPrefix(s: string): (p: string)
    ensures AllDigits(p) && |p| <= |s| && p == s[..|p|]
    decreases |s|
  {
    if |s| == 0 || !IsDigit(s[0]) then "" else [s[0]] + DigitPrefix(s[1..])
  }

  /** The number a line starts with, as a reader of the numbered text would take it. */
  function LeadingNumber(s: string): nat {
    DigitsValue(DigitPrefix(s))
  }

  lemma {:induction false} DigitPrefixOf(d: string, rest: string)
    requires AllDigits(d)
    requires |rest| == 0 || !IsDigit(rest[0])
    ensures DigitPrefix(d + rest) == d
    decreases |d|
  {
    if |d| == 0 {
      assert d + rest == rest;
    } else {
      assert (d + rest)[1..] == d[1..] + rest;
      DigitPrefixOf(d[1..], rest);
      assert [d[0]] + d[1..] == d;
    }
  }

  /** A number rendered in front of a non-digit reads back as that number. */
  lemma LeadingNumberOf(n: nat, rest: string)
    requires |rest| == 0 || !IsDigit(rest[0])
    ensures LeadingNumber(NatToString(n) + rest) == n
  {
    DigitPrefixOf(NatToString(n), rest);
    DecimalRoundTrip(n);
  }

  function LowerChar(c: char): char {
    if 'A' <= c <= 'Z' then (c as int + 32) as char else c
  }

  /** Python's `str.lower()` on the ASCII letters. */
  function Lower(s: string): (r: string)
    ensures |r| == |s|
    ensures forall i :: 0 <= i < |r| ==> !('A' <= r[i] <= 'Z')
    ensures forall i :: 0 <= i < |r| ==> r[i] == (if 'A' <= s[i] <= 'Z' then (s[i] as int + 32) as char else s[i])
  {
    seq(|s|, i requires 0 <= i < |s| => LowerChar(s[i]))
  }

  /** Lowering is idempotent, so a lowered key is found by a lowered name. */
  lemma LowerIdempotent(s: string)
    ensures Lower(Lower(s)) == Lower(s)
  {
  }
}
