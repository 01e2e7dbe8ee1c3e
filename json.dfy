/** The fragment of JSON the client produces with `JSON.stringify`: string
    literals with their escapes and boolean literals, together with a decoder for string literals that undoes the escaping. */
module Json {
  import opened Wrappers

  /** The lower-case hexadecimal digit `JSON.stringify` writes in `\u00XX`. */
  function HexDigit(d: nat): (c: char)
    requires d < 16
  {
    if d < 10 then ('0' as int + d) as char else ('a' as int + d - 10) as char
  }

  /** The value of a hexadecimal digit of either case, as `JSON.parse` reads it. */
  function HexValue(c: char): (r: Option<nat>)
    ensures r.Some? ==> r.value < 16
  {
    if '0' <= c <= '9' then Some(c as int - '0' as int)
    else if 'a' <= c <= 'f' then Some(c as int - 'a' as int + 10)
    else if 'A' <= c <= 'F' then Some(c as int - 'A' as int + 10)
    else None
  }

  lemma HexDigitValue(d: nat)
    requires d < 16
    ensures HexValue(HexDigit(d)) == Some(d)
  {
  }

  /** How `JSON.stringify` writes one character inside a string literal: the
      quote, the backslash and the control characters are escaped, every other
      character is written as it is. */
  function EscapeChar(c: char): (r: string)
    ensures |r| >= 1
    ensures r[0] != '"'
    ensures r == [c] <==> (c != '"' && c != '\\' && c >= ' ')
  {
    if c == '"' then "\\\""
    else if c == '\\' then "\\\\"
    else if c == '\U{8}' then "\\b"
    else if c == '\U{C}' then "\\f"
    else if c == '\n' then "\\n"
    else if c == '\r' then "\\r"
    else if c == '\t' then "\\t"
    else if c < ' ' then "\\u00" + [HexDigit(c as int / 16), HexDigit(c as int % 16)]
    else [c]
  }

  /** The body of the string literal `JSON.stringify` writes for `s`. */
  function Escape(s: string): (r: string)
    ensures |r| >= |s|
    ensures forall i :: 0 <= i < |r| ==> r[i] >= ' '
  {
    if s == [] then [] else EscapeChar(s[0]) + Escape(s[1..])
  }

  /** `JSON.stringify(s)` for a string `s`. */
  function Quote(s: string): (r: string)
    ensures |r| >= 2 && r[0] == '"' && r[|r| - 1] == '"'
  {
    "\"" + Escape(s) + "\""
  }

  /** `JSON.stringify(b)` for a boolean `b`. */
  function BoolLiteral(b: bool): string
  {
    if b then "true" else "false"
  }

  function Prepend(c: char, d: Option<(string, string)>): Option<(string, string)>
  {
    match d
    case None => None
    case Some(p) => Some(([c] + p.0, p.1))
  }

  /** The four hexadecimal digits `s[i..i + 4]` of a `\u` escape, as a UTF-16 code unit. */
  function Hex4(s: string, i: nat): (r: Option<nat>)
    requires i + 4 <= |s|
    ensures r.Some? ==> r.value < 0x10000
  {
    match (HexValue(s[i]), HexValue(s[i + 1]), HexValue(s[i + 2]), HexValue(s[i + 3]))
    case (Some(a), Some(b), Some(c), Some(d)) => Some(((a * 16 + b) * 16 + c) * 16 + d)
    case _ => None
  }

  /** The escape at the start of `s`, a backslash and what follows it, as
      `JSON.parse` reads it: the character it stands for and how many
      characters it takes up, or None when it is not an escape JSON allows.
      A `\u` escape of a high surrogate followed by one of a low surrogate is
      the one character the pair encodes; a surrogate escape outside such a
      pair is rejected, since a Dafny string cannot hold a lone surrogate. */
  function Unescape(s: string): (r: Option<(char, nat)>)
    requires s != [] && s[0] == '\\'
    ensures r.Some? ==> 2 <= r.value.1 <= |s|
  {
    if |s| < 2 then None
    else if s[1] == '"' then Some(('"', 2))
    else if s[1] == '\\' then Some(('\\', 2))
    else if s[1] == '/' then Some(('/', 2))
    else if s[1] == 'b' then Some(('\U{8}', 2))
    else if s[1] == 'f' then Some(('\U{C}', 2))
    else if s[1] == 'n' then Some(('\n', 2))
    else if s[1] == 'r' then Some(('\r', 2))
    else if s[1] == 't' then Some(('\t', 2))
    else if s[1] == 'u' && |s| >= 6 then
      match Hex4(s, 2)
      case None => None
      case Some(code) =>
        if code < 0xD800 || 0xE000 <= code then Some((code as char, 6))
        else if code < 0xDC00 && |s| >= 12 && s[6] == '\\' && s[7] == 'u' then
          match Hex4(s, 8)
          case Some(low) =>
            if 0xDC00 <= low < 0xE000 then
              Some(((0x10000 + (code - 0xD800) * 0x400 + (low - 0xDC00)) as char, 12))
            else None
          case None => None
        else None
    else None
  }

  /** Reads the body of a string literal up to its closing quote, resolving
      escapes as `Unescape` does; gives the decoded text and what follows the
      closing quote, or None when the text is not a well-formed literal body:
      a control character, a bad escape or no closing quote. */
  function DecodeBody(s: string): (r: Option<(string, string)>)
    ensures r.Some? ==> |r.value.1| < |s| && r.value.1 == s[|s| - |r.value.1|..]
    decreases |s|
  {
    if s == [] then None
    else if s[0] == '"' then Some(([], s[1..]))
    else if s[0] < ' ' then None
    else if s[0] != '\\' then Prepend(s[0], DecodeBody(s[1..]))
    else
      match Unescape(s)
      case None => None
      case Some((c, n)) => Prepend(c, DecodeBody(s[n..]))
  }

  /** An escaped surrogate pair, as `JSON.parse` reads it, is the single
      character outside the Basic Multilingual Plane that it encodes. */
  lemma SurrogatePairDecodes()
    ensures DecodeBody("\\ud83d\\ude00\"") == Some(("\U{1F600}", ""))
  {
    var s := "\\ud83d\\ude00\"";
    assert Hex4(s, 2) == Some(0xD83D);
    assert Hex4(s, 8) == Some(0xDE00);
    assert s[0] == '\\' && s[1] == 'u' && s[6] == '\\' && s[7] == 'u' && |s| == 13;
    assert 0x10000 + (0xD83D - 0xD800) * 0x400 + (0xDE00 - 0xDC00) == 0x1F600;
    assert Unescape(s) == Some(('\U{1F600}', 12));
    assert s[12..] == "\"";
    assert DecodeBody(s[12..]) == Some(([], []));
    assert ['\U{1F600}'] + [] == "\U{1F600}";
  }

  /** Reads a string literal at the start of `s`: the decoded text and what
      follows the closing quote, a proper suffix of `s`. */
  function DecodeString(s: string): (r: Option<(string, string)>)
    ensures r.Some? ==> s != [] && s[0] == '"'
    ensures r.Some? ==> |r.value.1| < |s| - 1 && r.value.1 == s[|s| - |r.value.1|..]
  {
    if s != [] && s[0] == '"' then DecodeBody(s[1..]) else None
  }

  /** An escaped character is read back as itself, whatever follows it. */
  lemma UnescapeChar(c: char, t: string)
    requires EscapeChar(c) != [c]
    ensures var e := EscapeChar(c) + t; e[0] == '\\' && Unescape(e) == Some((c, |EscapeChar(c)|))
  {
    var e := EscapeChar(c) + t;
    if c < ' ' && c != '\U{8}' && c != '\U{C}' && c != '\n' && c != '\r' && c != '\t' {
      var hi, lo := c as int / 16, c as int % 16;
      HexDigitValue(hi);
      HexDigitValue(lo);
      assert e[1] == 'u' && e[2] == '0' && e[3] == '0' && e[4] == HexDigit(hi) && e[5] == HexDigit(lo);
      assert Hex4(e, 2) == Some(((0 * 16 + 0) * 16 + hi) * 16 + lo);
      assert ((0 * 16 + 0) * 16 + hi) * 16 + lo == c as int;
    }
  }

  /** Decoding one escaped character puts that character in front of what
      the rest decodes to. */
  lemma DecodeEscapeChar(c: char, t: string)
    ensures DecodeBody(EscapeChar(c) + t) == Prepend(c, DecodeBody(t))
  {
    var e := EscapeChar(c) + t;
    if EscapeChar(c) == [c] {
      assert e[0] == c && e[1..] == t;
    } else {
      UnescapeChar(c, t);
      assert e[|EscapeChar(c)|..] == t;
    }
  }

  /** Decoding undoes escaping: the body `JSON.stringify` writes for `s`,
      followed by the closing quote, decodes to `s` and leaves what follows. */
  lemma {:induction false} EscapeRoundTrip(s: string, rest: string)
    ensures DecodeBody(Escape(s) + "\"" + rest) == Some((s, rest))
  {
    var whole := Escape(s) + "\"" + rest;
    if s == [] {
      assert whole == "\"" + rest;
      assert whole[1..] == rest;
    } else {
      var tail := Escape(s[1..]) + "\"" + rest;
      assert whole == EscapeChar(s[0]) + tail;
      EscapeRoundTrip(s[1..], rest);
      DecodeEscapeChar(s[0], tail);
      assert [s[0]] + s[1..] == s;
    }
  }

  /** A serialized string literal is read back as the same string, whatever follows it. */
  lemma QuoteRoundTrip(s: string, rest: string)
    ensures DecodeString(Quote(s) + rest) == Some((s, rest))
  {
    var q := Quote(s) + rest;
    var body := Escape(s) + "\"" + rest;
    assert q == "\"" + body;
    assert q[1..] == body;
    EscapeRoundTrip(s, rest);
  }

  /** Different strings serialize to different literals. */
  lemma QuoteInjective(s: string, t: string)
    requires Quote(s) == Quote(t)
    ensures s == t
  {
    QuoteRoundTrip(s, []);
    QuoteRoundTrip(t, []);
    assert Quote(s) + [] == Quote(s);
    assert Quote(t) + [] == Quote(t);
  }
}
