/**
 * The notification body `JSON.stringify({ content: message })`, and a decoder
 * for it that recovers the message. String quoting follows the ECMAScript
 * QuoteJSONString operation: `"` and `\` and the control characters
 * backspace, tab, line feed, form feed and carriage return get two-character
 * escapes; every other character below U+0020 becomes `\u00xx` with
 * lower-case hex digits; everything else is copied.
 */
module Json {
  import opened Wrappers

  const HexDigits: string := "0123456789abcdef"

  /** The lower-case hex digit for `d`. */
  function HexDigit(d: nat): char
    requires d < 16
  {
    HexDigits[d]
  }

  /** The value of a hex digit (either case), if `c` is one. */
  function HexValue(c: char): (r: Option<nat>)
    ensures r.Some? ==> r.value < 16
  {
    if '0' <= c <= '9' then Some(c as int - '0' as int)
    else if 'a' <= c <= 'f' then Some(c as int - 'a' as int + 10)
    else if 'A' <= c <= 'F' then Some(c as int - 'A' as int + 10)
    else None
  }

  lemma HexValueOfDigit(d: nat)
    requires d < 16
    ensures HexValue(HexDigit(d)) == Some(d)
  {
  }

  /** The value of four hex digits. */
  function Hex4(h: string): (r: Option<nat>)
    requires |h| == 4
    ensures r.Some? ==> r.value < 0x1_0000
  {
    match (HexValue(h[0]), HexValue(h[1]), HexValue(h[2]), HexValue(h[3]))
    case (Some(a), Some(b), Some(c), Some(d)) => Some(((a * 16 + b) * 16 + c) * 16 + d)
    case _ => None
  }

  /** No character of `t` is a raw control character. */
  predicate Printable(t: string) {
    forall i :: 0 <= i < |t| ==> t[i] as int >= 0x20
  }

  lemma PrintableConcat(a: string, b: string)
    requires Printable(a) && Printable(b)
    ensures Printable(a + b)
  {
    forall i | 0 <= i < |a + b| ensures (a + b)[i] as int >= 0x20 {
      if i >= |a| { assert (a + b)[i] == b[i - |a|]; }
    }
  }

  /** A character that JSON.stringify copies unchanged: not a quote, not a
      backslash, not a control character below U+0020. */
  predicate IsPlain(c: char) {
    c != '"' && c != '\\' && c as int >= 0x20
  }

  /** How one character is written inside a JSON string literal: a plain
      character stands for itself, anything else becomes an escape sequence
      of printable characters. */
  function EscapeChar(c: char): (r: string)
    ensures IsPlain(c) ==> r == [c]
    ensures !IsPlain(c) ==> |r| >= 2 && r[0] == '\\'
    ensures Printable(r)
  {
    if c == '"' then "\\\""
    else if c == '\\' then "\\\\"
    else if c as int == 0x08 then "\\b"
    else if c as int == 0x0C then "\\f"
    else if c == '\n' then "\\n"
    else if c == '\r' then "\\r"
    else if c == '\t' then "\\t"
    else if c as int < 0x20 then "\\u00" + [HexDigit(c as int / 16), HexDigit(c as int % 16)]
    else [c]
  }

  /** The characters between the quotes of `JSON.stringify(s)`. */
  function Escape(s: string): string {
    if s == [] then [] else EscapeChar(s[0]) + Escape(s[1..])
  }

  /** Escaping never shortens a string and leaves no raw control character. */
  lemma {:induction false} EscapePrintable(s: string)
    ensures |Escape(s)| >= |s|
    ensures Printable(Escape(s))
  {
    if s != [] {
      EscapePrintable(s[1..]);
      PrintableConcat(EscapeChar(s[0]), Escape(s[1..]));
    }
  }

  /** A string of plain characters is written as it is. */
  lemma {:induction false} EscapePlain(s: string)
    requires forall i :: 0 <= i < |s| ==> IsPlain(s[i])
    ensures Escape(s) == s
  {
    if s != [] {
      assert forall i :: 0 <= i < |s[1..]| ==> IsPlain(s[1..][i]) by {
        forall i | 0 <= i < |s[1..]| ensures IsPlain(s[1..][i]) {
          assert s[1..][i] == s[i + 1];
        }
      }
      EscapePlain(s[1..]);
      assert IsPlain(s[0]);
      assert [s[0]] + s[1..] == s;
    }
  }

  /** The text a content body starts with, up to the message's opening quote. */
  const ContentOpen: string := "{\"content\":\""

  /**
   * `JSON.stringify({ content: message })`: one member named `content`, no
   * whitespace, the message quoted and escaped. The body holds no raw control
   * character (the message's line feeds are escaped) and decodes back to the
   * message.
   */
  function ContentBody(message: string): (r: string)
    ensures r == ContentOpen + Escape(message) + "\"}"
    ensures Printable(r)
    ensures ParseContentBody(r) == Some(message)
  {
    var e := Escape(message);
    var r := ContentOpen + e + "\"}";
    EscapePrintable(message);
    PrintableConcat(ContentOpen, e);
    PrintableConcat(ContentOpen + e, "\"}");
    assert r[..|ContentOpen|] == ContentOpen;
    assert r[|ContentOpen|..|r| - 2] == e;
    UnescapeEscape(message);
    r
  }

  /** How the characters of the sample below are written. */
  lemma EscapeCharSamples()
    ensures EscapeChar(1 as char) == "\\u0001"
    ensures EscapeChar('\n') == "\\n"
    ensures EscapeChar('"') == "\\\""
    ensures EscapeChar('a') == "a" && EscapeChar('b') == "b"
  {
    assert HexDigit(0) == '0' && HexDigit(1) == '1';
  }

  /** Escaping works character by character. */
  lemma EscapeStep(c: char, s: string, escapedC: string, escapedS: string)
    requires EscapeChar(c) == escapedC && Escape(s) == escapedS
    ensures Escape([c] + s) == escapedC + escapedS
  {
    assert ([c] + s)[1..] == s;
  }

  /** A sample: quote, line feed and U+0001 in a message, as JSON.stringify writes them. */
  lemma EscapeSample()
    ensures Escape("a\"b\n" + [1 as char]) == "a\\\"b\\n\\u0001"
  {
    var u := 1 as char;
    EscapeCharSamples();
    EscapeStep(u, [], "\\u0001", []);
    EscapeStep('\n', [u], "\\n", "\\u0001");
    EscapeStep('b', ['\n', u], "b", "\\n\\u0001");
    EscapeStep('"', ['b', '\n', u], "\\\"", "b\\n\\u0001");
    EscapeStep('a', ['"', 'b', '\n', u], "a", "\\\"b\\n\\u0001");
    assert ['a', '"', 'b', '\n', u] == "a\"b\n" + [u];
  }

  /** The body for that sample message. */
  lemma ContentBodySample()
    ensures ContentBody("a\"b\n" + [1 as char]) == "{\"content\":\"a\\\"b\\n\\u0001\"}"
  {
    EscapeSample();
  }

  /**
   * Decodes the inside of a JSON string literal: None on a raw quote, a raw
   * control character, an unknown or cut-off escape, or a `\u` escape naming
   * a surrogate (surrogate pairs are not decoded).
   */
  function Unescape(t: string): Option<string>
    decreases |t|
  {
    if t == [] then Some([])
    else if t[0] == '\\' then
      if |t| < 2 then None
      else
        var e := t[1];
        var simple :=
          if e == '"' then Some('"')
          else if e == '\\' then Some('\\')
          else if e == '/' then Some('/')
          else if e == 'b' then Some(0x08 as char)
          else if e == 'f' then Some(0x0C as char)
          else if e == 'n' then Some('\n')
          else if e == 'r' then Some('\r')
          else if e == 't' then Some('\t')
          else None;
        if simple.Some? then
          match Unescape(t[2..])
          case Some(rest) => Some([simple.value] + rest)
          case None => None
        else if e == 'u' && |t| >= 6 then
          match Hex4(t[2..6])
          case Some(n) =>
            if 0xD800 <= n < 0xE000 then None
            else
              (match Unescape(t[6..])
               case Some(rest) => Some([n as char] + rest)
               case None => None)
          case None => None
        else None
    else if t[0] == '"' || t[0] as int < 0x20 then None
    else
      match Unescape(t[1..])
      case Some(rest) => Some([t[0]] + rest)
      case None => None
  }

  /** Decodes a `{"content":"…"}` body back to its message. */
  function ParseContentBody(body: string): Option<string> {
    if |body| < |ContentOpen| + 2 || body[..|ContentOpen|] != ContentOpen || body[|body| - 2..] != "\"}" then None
    else Unescape(body[|ContentOpen|..|body| - 2])
  }

  /** Decoding the escaped text of a character gives the character back, and
      nothing is consumed from what follows it. */
  lemma UnescapeEscapeChar(c: char, rest: string, decoded: string)
    requires Unescape(rest) == Some(decoded)
    ensures Unescape(EscapeChar(c) + rest) == Some([c] + decoded)
  {
    var t := EscapeChar(c) + rest;
    if c as int < 0x20 && c != '\n' && c != '\r' && c != '\t' && c as int != 0x08 && c as int != 0x0C {
      var n := c as int;
      HexValueOfDigit(n / 16);
      HexValueOfDigit(n % 16);
      assert t[2..6] == "00" + [HexDigit(n / 16), HexDigit(n % 16)];
      assert t[6..] == rest;
      assert Hex4(t[2..6]) == Some(n);
    } else if |EscapeChar(c)| == 2 {
      assert t[2..] == rest;
    } else {
      assert t[1..] == rest;
    }
  }

  /** Escaping is undone by unescaping. */
  lemma {:induction false} UnescapeEscape(s: string)
    ensures Unescape(Escape(s)) == Some(s)
  {
    if s != [] {
      UnescapeEscape(s[1..]);
      UnescapeEscapeChar(s[0], Escape(s[1..]), s[1..]);
      assert [s[0]] + s[1..] == s;
    }
  }

  /** Different messages are sent as different bodies. */
  lemma ContentBodyInjective(m1: string, m2: string)
    requires ContentBody(m1) == ContentBody(m2)
    ensures m1 == m2
  {
    assert ParseContentBody(ContentBody(m1)) == Some(m1);
    assert ParseContentBody(ContentBody(m2)) == Some(m2);
  }
}
