/** The JavaScript string operations the wizard relies on, over `string` (= `seq<char>`):
    `Number.prototype.toString` for naturals, `padStart(2, '0')`, `String.prototype.trim`,
    `Array.prototype.join` and the string quoting done by `JSON.stringify`. */
module Strings {
  import opened Base

  predicate IsDigit(c: char) {
    '0' <= c <= '9'
  }

  predicate AllDigits(s: string) {
    forall i :: 0 <= i < |s| ==> IsDigit(s[i])
  }

  function DigitChar(d: nat): (c: char)
    requires d < 10
    ensures IsDigit(c) && c as int - '0' as int == d
  {
    "0123456789"[d]
  }

  function DigitValue(c: char): nat
    requires IsDigit(c)
  {
    c as int - '0' as int
  }

  /** The number a string of decimal digits denotes; the partner of `NatToString`. */
  function DecimalValue(s: string): nat
    requires AllDigits(s)
  {
    if s == [] then 0 else DecimalValue(s[..|s| - 1]) * 10 + DigitValue(s[|s| - 1])
  }

  /** `n.toString()` for a natural number `n`: its decimal digits, no leading zero. */
  function NatToString(n: nat): (s: string)
    ensures 1 <= |s| && AllDigits(s)
    ensures (|s| == 1) == (n < 10)
  {
    if n < 10 then [DigitChar(n)] else NatToString(n / 10) + [DigitChar(n % 10)]
  }

  lemma {:induction false} NatToStringRoundTrip(n: nat)
    ensures DecimalValue(NatToString(n)) == n
  {
    if n >= 10 {
      var s := NatToString(n);
      assert s[..|s| - 1] == NatToString(n / 10);
      NatToStringRoundTrip(n / 10);
    }
  }

  /** `s.padStart(2, '0')`. */
  function PadStart2(s: string): (r: string)
    ensures |r| == if |s| < 2 then 2 else |s|
    ensures r[|r| - |s|..] == s
    ensures forall i :: 0 <= i < |r| - |s| ==> r[i] == '0'
  {
    if |s| >= 2 then s else seq(2 - |s|, _ => '0') + s
  }

  lemma {:induction false} LeadingZero(s: string)
    requires AllDigits(s)
    ensures AllDigits("0" + s) && DecimalValue("0" + s) == DecimalValue(s)
  {
    if s != [] {
      assert ("0" + s)[..|"0" + s| - 1] == "0" + s[..|s| - 1];
      LeadingZero(s[..|s| - 1]);
    }
  }

  /** `pad(n)` of the timestamp code: `n.toString().padStart(2, '0')`. Below 100 it is
      exactly two digits that denote `n`. */
  function Pad2(n: nat): (r: string)
    ensures AllDigits(r) && |r| >= 2
    ensures n < 100 ==> |r| == 2 && DecimalValue(r) == n
  {
    var s := NatToString(n);
    NatToStringRoundTrip(n);
    if |s| >= 2 then s
    else
      LeadingZero(s);
      PadStart2(s)
  }

  /** `WhiteSpace` and `LineTerminator` code points of ECMAScript, the characters
      `String.prototype.trim` strips. */
  predicate IsJsWhitespace(c: char) {
    c in {'\t', '\n', '\U{B}', '\U{C}', '\r', ' ', '\U{A0}', '\U{1680}',
          '\U{2000}', '\U{2001}', '\U{2002}', '\U{2003}', '\U{2004}', '\U{2005}',
          '\U{2006}', '\U{2007}', '\U{2008}', '\U{2009}', '\U{200A}',
          '\U{2028}', '\U{2029}', '\U{202F}', '\U{205F}', '\U{3000}', '\U{FEFF}'}
  }

  predicate AllWhitespace(s: string) {
    forall i :: 0 <= i < |s| ==> IsJsWhitespace(s[i])
  }

  /** Drops the leading white space: the result is a suffix of `s`, what was dropped is
      white space, and the result does not start with white space. */
  function TrimStart(s: string): (r: string)
    ensures |r| <= |s| && r == s[|s| - |r|..]
    ensures AllWhitespace(s[..|s| - |r|])
    ensures r != [] ==> !IsJsWhitespace(r[0])
  {
    if s != [] && IsJsWhitespace(s[0]) then TrimStart(s[1..]) else s
  }

  /** Drops the trailing white space: the result is a prefix of `s`, what was dropped is
      white space, and the result does not end with white space. */
  function TrimEnd(s: string): (r: string)
    ensures |r| <= |s| && r == s[..|r|]
    ensures AllWhitespace(s[|r|..])
    ensures r != [] ==> !IsJsWhitespace(r[|r| - 1])
  {
    if s != [] && IsJsWhitespace(s[|s| - 1]) then TrimEnd(s[..|s| - 1]) else s
  }

  /** `s.trim()`. */
  function Trim(s: string): string {
    TrimEnd(TrimStart(s))
  }

  /** `!s.trim()`: the string is empty once trimmed. */
  predicate IsBlank(s: string) {
    Trim(s) == ""
  }

  /** A string is blank exactly when every character of it is white space. */
  lemma {:induction false} BlankIffAllWhitespace(s: string)
    ensures IsBlank(s) <==> AllWhitespace(s)
  {
    var t := TrimStart(s);
    if t != [] {
      assert !IsJsWhitespace(t[0]);
      assert !IsJsWhitespace(s[|s| - |t|]);
    } else {
      assert s[..|s|] == s;
    }
  }

  /** `fields.join(sep)`. */
  function Join(fields: seq<string>, sep: string): string {
    if fields == [] then ""
    else if |fields| == 1 then fields[0]
    else fields[0] + sep + Join(fields[1..], sep)
  }

  const HexDigits: string := "0123456789abcdef"

  /** The escape `JSON.stringify` writes for one character of a string. */
  function EscapeChar(c: char): (r: string)
    ensures 1 <= |r|
    ensures (|r| == 1) == (c != '"' && c != '\\' && c as int >= 0x20)
    ensures |r| == 1 ==> r == [c]
    ensures |r| > 1 ==> r[0] == '\\'
  {
    if c == '"' then "\\\""
    else if c == '\\' then "\\\\"
    else if c == '\U{8}' then "\\b"
    else if c == '\t' then "\\t"
    else if c == '\n' then "\\n"
    else if c == '\U{C}' then "\\f"
    else if c == '\r' then "\\r"
    else if (c as int) < 0x20 then
      "\\u00" + [HexDigits[c as int / 16], HexDigits[c as int % 16]]
    else [c]
  }

  function EscapeAll(s: string): string {
    if s == [] then "" else EscapeChar(s[0]) + EscapeAll(s[1..])
  }

  /** `JSON.stringify(s)` for a string `s`: the escaped text between double quotes. */
  function JsonQuote(s: string): (r: string)
    ensures 2 <= |r| && r[0] == '"' && r[|r| - 1] == '"'
  {
    "\"" + EscapeAll(s) + "\""
  }

  function HexValue(c: char): Option<nat> {
    if '0' <= c <= '9' then Some(c as int - '0' as int)
    else if 'a' <= c <= 'f' then Some(c as int - 'a' as int + 10)
    else None
  }

  function Cons(c: char, rest: Option<string>): Option<string> {
    match rest
    case Some(t) => Some([c] + t)
    case None => None
  }

  /** Reads back the body of a JSON string written by `EscapeAll` (the escapes it writes;
      anything else is rejected). The partner of `EscapeAll`. */
  function Unescape(e: string): Option<string>
    decreases |e|
  {
    if e == [] then Some("")
    else if e[0] != '\\' then Cons(e[0], Unescape(e[1..]))
    else if |e| < 2 then None
    else if e[1] == '"' then Cons('"', Unescape(e[2..]))
    else if e[1] == '\\' then Cons('\\', Unescape(e[2..]))
    else if e[1] == 'b' then Cons('\U{8}', Unescape(e[2..]))
    else if e[1] == 't' then Cons('\t', Unescape(e[2..]))
    else if e[1] == 'n' then Cons('\n', Unescape(e[2..]))
    else if e[1] == 'f' then Cons('\U{C}', Unescape(e[2..]))
    else if e[1] == 'r' then Cons('\r', Unescape(e[2..]))
    else if |e| >= 6 && e[1..4] == "u00" && HexValue(e[4]).Some? && HexValue(e[5]).Some?
            && HexValue(e[4]).value < 2 then
      Cons((HexValue(e[4]).value * 16 + HexValue(e[5]).value) as char, Unescape(e[6..]))
    else None
  }

  /** Reading back one escaped character in front of more escaped text. */
  lemma {:induction false} UnescapeChar(c: char, rest: string)
    ensures Unescape(EscapeChar(c) + rest) == Cons(c, Unescape(rest))
  {
    if c != '"' && c != '\\' && c != '\U{8}' && c != '\t' && c != '\n' && c != '\U{C}'
       && c != '\r' && (c as int) < 0x20 {
      UnescapeControlChar(c, rest);
    } else if |EscapeChar(c)| == 2 {
      UnescapeShortEscape(c, rest);
    } else {
      var e := EscapeChar(c) + rest;
      assert e[0] == c && e[1..] == rest;
    }
  }

  /** A control character without a short escape reads back from its `\u00XX` form. */
  lemma {:induction false} UnescapeControlChar(c: char, rest: string)
    requires c != '\U{8}' && c != '\t' && c != '\n' && c != '\U{C}' && c != '\r' && (c as int) < 0x20
    ensures Unescape(EscapeChar(c) + rest) == Cons(c, Unescape(rest))
  {
    var e := EscapeChar(c) + rest;
    var hi, lo := c as int / 16, c as int % 16;
    assert EscapeChar(c) == "\\u00" + [HexDigits[hi], HexDigits[lo]];
    assert e[0] == '\\' && e[1..4] == "u00";
    assert e[4] == HexDigits[hi] && e[5] == HexDigits[lo];
    assert HexValue(HexDigits[hi]) == Some(hi);
    assert HexValue(HexDigits[lo]) == Some(lo);
    assert e[6..] == rest;
  }

  /** A character with a two-character escape reads back from it. */
  lemma {:induction false} UnescapeShortEscape(c: char, rest: string)
    requires |EscapeChar(c)| == 2
    ensures Unescape(EscapeChar(c) + rest) == Cons(c, Unescape(rest))
  {
    var e := EscapeChar(c) + rest;
    assert e[0] == '\\' && e[2..] == rest;
  }

  /** Escaping loses nothing: reading the escaped text back gives the original string. */
  lemma {:induction false} EscapeRoundTrip(s: string)
    ensures Unescape(EscapeAll(s)) == Some(s)
  {
    if s != [] {
      UnescapeChar(s[0], EscapeAll(s[1..]));
      EscapeRoundTrip(s[1..]);
      assert [s[0]] + s[1..] == s;
    }
  }

  /** The escaped text holds no control character, so a quoted field never breaks a
      line of the CSV export. */
  lemma {:induction false} EscapeHasNoControlChar(s: string)
    ensures forall i :: 0 <= i < |EscapeAll(s)| ==> EscapeAll(s)[i] as int >= 0x20
  {
    if s != [] {
      EscapeHasNoControlChar(s[1..]);
      EscapeCharPrintable(s[0]);
      var h, t := EscapeChar(s[0]), EscapeAll(s[1..]);
      assert EscapeAll(s) == h + t;
    }
  }

  /** The escape of one character holds no control character. */
  lemma {:induction false} EscapeCharPrintable(c: char)
    ensures forall i :: 0 <= i < |EscapeChar(c)| ==> EscapeChar(c)[i] as int >= 0x20
  {
    if c != '"' && c != '\\' && c != '\U{8}' && c != '\t' && c != '\n' && c != '\U{C}'
       && c != '\r' && (c as int) < 0x20 {
      var hi, lo := c as int / 16, c as int % 16;
      assert EscapeChar(c) == "\\u00" + [HexDigits[hi], HexDigits[lo]];
    }
  }
}
