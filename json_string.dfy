/** `json.dumps(s, ensure_ascii=False)` for a string `s`: the JSON string
    literal of section 7 of RFC 8259 as Python's encoder writes it, and a
    decoder for the literals it writes, which serves as its reference
    inverse. */
module JsonString {
  import opened Text

  function HexDigit(d: nat): (c: char)
    requires d < 16
    ensures HexValue(c) == Some(d)
  {
    "0123456789abcdef"[d]
  }

  /** The value of one hexadecimal digit, in either case. */
  function HexValue(c: char): Option<nat> {
    if '0' <= c <= '9' then Some(c as int - '0' as int)
    else if 'a' <= c <= 'f' then Some(c as int - 'a' as int + 10)
    else if 'A' <= c <= 'F' then Some(c as int - 'A' as int + 10)
    else None
  }

  /** The value of four hexadecimal digits. */
  function Hex4(h: string): (r: Option<nat>)
    requires |h| == 4
    ensures r.Some? ==> r.value < 0x10000
  {
    match (HexValue(h[0]), HexValue(h[1]), HexValue(h[2]), HexValue(h[3]))
    case (Some(a), Some(b), Some(c), Some(d)) =>
      if a < 16 && b < 16 && c < 16 && d < 16 then Some(((a * 16 + b) * 16 + c) * 16 + d) else None
    case _ => None
  }

  /** How the encoder writes one character: the two-character escapes for the
      quote, the backslash and the five named controls, `\u00xx` with
      lower-case hex digits for the other characters below U+0020, and every
      other character as itself. */
  function EscapeChar(c: char): (e: string)
    ensures 1 <= |e|
    ensures forall i :: 0 <= i < |e| ==> e[i] >= ' '
    ensures c >= ' ' && c != '"' && c != '\\' ==> e == [c]
  {
    if c == '"' then "\\\""
    else if c == '\\' then "\\\\"
    else if c == '\n' then "\\n"
    else if c == '\r' then "\\r"
    else if c == '\t' then "\\t"
    else if c == '\U{0008}' then "\\b"
    else if c == '\U{000C}' then "\\f"
    else if c < ' ' then "\\u00" + [HexDigit(c as int / 16), HexDigit(c as int % 16)]
    else [c]
  }

  /** The characters between the quotes. */
  function EscapeBody(s: string): (t: string)
    ensures |t| >= |s|
    ensures forall i :: 0 <= i < |t| ==> t[i] >= ' '
  {
    if s == [] then [] else EscapeChar(s[0]) + EscapeBody(s[1..])
  }

  /** `json.dumps(s, ensure_ascii=False)`. */
  function Dumps(s: string): (t: string)
    ensures |t| >= 2 && t[0] == '"' && t[|t| - 1] == '"'
    ensures forall i :: 0 <= i < |t| ==> t[i] != '\n' && t[i] != '\r'
  {
    "\"" + EscapeBody(s) + "\""
  }

  // ---------------------------------------------------------------------------
  // Reading back the literals `Dumps` writes. Escapes `\uXXXX` that name a
  // surrogate (pairs, as section 7 of RFC 8259 allows) are not decoded.

  function Cons(c: char, rest: Option<string>): Option<string> {
    match rest
    case Some(s) => Some([c] + s)
    case None => None
  }

  /** The character a two-character escape `\e` stands for. */
  function ShortEscape(e: char): Option<char> {
    if e == '"' then Some('"')
    else if e == '\\' then Some('\\')
    else if e == '/' then Some('/')
    else if e == 'b' then Some('\U{0008}')
    else if e == 'f' then Some('\U{000C}')
    else if e == 'n' then Some('\n')
    else if e == 'r' then Some('\r')
    else if e == 't' then Some('\t')
    else None
  }

  /** Decodes the characters between the quotes; None when they hold an
      unescaped quote or control character or a malformed escape. */
  function DecodeBody(t: string): Option<string>
    decreases |t|
  {
    if t == [] then Some([])
    else if t[0] == '\\' then
      if |t| < 2 then None
      else if t[1] == 'u' then
        if |t| < 6 then None
        else match Hex4(t[2..6])
          case Some(v) =>
            if 0xD800 <= v < 0xE000 then None else Cons(v as char, DecodeBody(t[6..]))
          case None => None
      else match ShortEscape(t[1])
        case Some(c) => Cons(c, DecodeBody(t[2..]))
        case None => None
    else if t[0] == '"' || t[0] < ' ' then None
    else Cons(t[0], DecodeBody(t[1..]))
  }

  /** Reads one string literal as `Dumps` writes it. */
  function Loads(t: string): Option<string> {
    if |t| >= 2 && t[0] == '"' && t[|t| - 1] == '"' then DecodeBody(t[1..|t| - 1]) else None
  }

  /** A control character written as `\u00xx` reads back. */
  lemma DecodeUnicodeEscape(c: char, rest: string)
    requires c < ' ' && c != '\n' && c != '\r' && c != '\t' && c != '\U{0008}' && c != '\U{000C}'
    ensures DecodeBody(EscapeChar(c) + rest) == Cons(c, DecodeBody(rest))
  {
    var hi, lo := c as int / 16, c as int % 16;
    var e := EscapeChar(c);
    assert e == "\\u00" + [HexDigit(hi), HexDigit(lo)];
    var t := e + rest;
    assert t[..2] == "\\u";
    assert t[2..6] == ['0', '0', HexDigit(hi), HexDigit(lo)];
    assert Hex4(t[2..6]) == Some(c as int);
    assert t[6..] == rest;
  }

  /** A character with a two-character escape reads back. */
  lemma DecodeShortEscape(c: char, rest: string)
    requires c == '"' || c == '\\' || c == '\n' || c == '\r' || c == '\t' || c == '\U{0008}' || c == '\U{000C}'
    ensures DecodeBody(EscapeChar(c) + rest) == Cons(c, DecodeBody(rest))
  {
    var t := EscapeChar(c) + rest;
    assert |EscapeChar(c)| == 2 && EscapeChar(c)[0] == '\\';
    assert t[0] == '\\' && t[1] == EscapeChar(c)[1];
    assert t[2..] == rest;
  }

  lemma DecodeEscapeChar(c: char, rest: string)
    ensures DecodeBody(EscapeChar(c) + rest) == Cons(c, DecodeBody(rest))
  {
    if c == '"' || c == '\\' || c == '\n' || c == '\r' || c == '\t' || c == '\U{0008}' || c == '\U{000C}' {
      DecodeShortEscape(c, rest);
    } else if c < ' ' {
      DecodeUnicodeEscape(c, rest);
    } else {
      var t := EscapeChar(c) + rest;
      assert t[0] == c && t[1..] == rest;
    }
  }

  lemma {:induction false} DecodeEscapeBody(s: string)
    ensures DecodeBody(EscapeBody(s)) == Some(s)
  {
    if s != [] {
      DecodeEscapeBody(s[1..]);
      DecodeEscapeChar(s[0], EscapeBody(s[1..]));
      assert [s[0]] + s[1..] == s;
    }
  }

  /** The content column of the ledger reads back as the message content. */
  lemma DumpsRoundTrip(s: string)
    ensures Loads(Dumps(s)) == Some(s)
  {
    var t := Dumps(s);
    assert t[1..|t| - 1] == EscapeBody(s);
    DecodeEscapeBody(s);
  }
}
