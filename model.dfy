/** The normalised post that every subscriber receives (the `Message`
    dataclass) and its `__str__` text. */
module Model {
  import opened Text

  /** A post: who wrote it, its text, the link back to it, its Unix time in
      seconds, and the URLs of its pictures in order. */
  datatype Message = Message(author: string, content: string, link: string, updateAt: int, images: seq<string>)

  /** The dataclass constructor called without `images`: the picture list
      defaults to a new empty list. */
  function NewMessage(author: string, content: string, link: string, updateAt: int): (m: Message)
    ensures m.images == []
    ensures m.author == author && m.content == content && m.link == link && m.updateAt == updateAt
  {
    Message(author, content, link, updateAt, [])
  }

  // ---------------------------------------------------------------------------
  // Python's repr() of a str and of a list of str

  function HexLower(d: nat): char
    requires d < 16
  {
    "0123456789abcdef"[d]
  }

  /** The quote repr() puts around `s`: a double quote only when `s` holds a
      single quote and no double quote. */
  function ReprQuote(s: string): (q: char)
    ensures q == '"' <==> ('\'' in s && '"' !in s)
    ensures q == '"' || q == '\''
  {
    if '\'' in s && '"' !in s then '"' else '\''
  }

  /** One character inside repr(): the chosen quote and the backslash are
      escaped, tab, line feed and carriage return get their letter escapes,
      other ASCII controls and DEL are written `\xhh`. */
  function ReprChar(c: char, q: char): (e: string)
    requires q == '"' || q == '\''
    ensures 1 <= |e|
    ensures forall i :: 0 <= i < |e| ==> e[i] != '\n' && e[i] != '\r'
    ensures c != q && c != '\\' && ' ' <= c && c != '\U{007F}' ==> e == [c]
  {
    if c == q || c == '\\' then ['\\', c]
    else if c == '\t' then "\\t"
    else if c == '\n' then "\\n"
    else if c == '\r' then "\\r"
    else if c < ' ' || c == '\U{007F}' then "\\x" + [HexLower(c as int / 16), HexLower(c as int % 16)]
    else [c]
  }

  function ReprBody(s: string, q: char): (t: string)
    requires q == '"' || q == '\''
    ensures |t| >= |s|
    ensures forall i :: 0 <= i < |t| ==> t[i] != '\n'
  {
    if s == [] then [] else ReprChar(s[0], q) + ReprBody(s[1..], q)
  }

  /** `repr(s)`. */
  function StrRepr(s: string): (r: string)
    ensures |r| >= 2 && r[0] == r[|r| - 1] == ReprQuote(s)
    ensures forall i :: 0 <= i < |r| ==> r[i] != '\n'
  {
    var q := ReprQuote(s);
    [q] + ReprBody(s, q) + [q]
  }

  function JoinReprs(xs: seq<string>): (r: string)
    ensures forall i :: 0 <= i < |r| ==> r[i] != '\n'
  {
    if xs == [] then []
    else if |xs| == 1 then StrRepr(xs[0])
    else StrRepr(xs[0]) + ", " + JoinReprs(xs[1..])
  }

  /** `repr(xs)` for a list of str: `[` repr, `, ` repr ... `]`. */
  function ListRepr(xs: seq<string>): (r: string)
    ensures |r| >= 2 && r[0] == '[' && r[|r| - 1] == ']'
    ensures forall i :: 0 <= i < |r| ==> r[i] != '\n'
  {
    "[" + JoinReprs(xs) + "]"
  }

  // ---------------------------------------------------------------------------
  // __str__

  /** The first of the two joined parts. */
  function HeadLine(m: Message): string {
    "Message(author=" + m.author + ", link=" + m.link + ", update_at=" + IntText(m.updateAt) + ","
  }

  /** The second part: two adjacent f-strings, so `images=` follows
      `content=...,` on the same line and no closing parenthesis follows. */
  function TailLine(m: Message): string {
    "content=" + m.content + "," + "images=" + ListRepr(m.images)
  }

  /** `str(m)`: the two parts joined by one line feed. */
  function Render(m: Message): (r: string)
    ensures |r| > |HeadLine(m)| && r[..|HeadLine(m)|] == HeadLine(m) && r[|HeadLine(m)|] == '\n'
    ensures r[|HeadLine(m)| + 1..] == TailLine(m)
    ensures r[|r| - 1] == ']'
  {
    HeadLine(m) + "\n" + TailLine(m)
  }

  lemma HeadLineNoBreak(m: Message)
    requires '\n' !in m.author && '\n' !in m.link
    ensures '\n' !in HeadLine(m)
  {
    var n := IntText(m.updateAt);
    assert forall i :: 0 <= i < |n| ==> n[i] == '-' || IsDigit(n[i]);
    assert '\n' !in n;
  }

  lemma TailLineNoBreak(m: Message)
    requires '\n' !in m.content
    ensures '\n' !in TailLine(m)
  {
    var imgs := ListRepr(m.images);
    assert '\n' !in imgs;
  }

  /** When the fields hold no line feed, `str(m)` is exactly two lines: the
      single line feed is the one that joins the two parts. */
  lemma RenderTwoLines(m: Message)
    requires '\n' !in m.author && '\n' !in m.link && '\n' !in m.content
    ensures forall i :: 0 <= i < |Render(m)| ==> (Render(m)[i] == '\n' <==> i == |HeadLine(m)|)
  {
    HeadLineNoBreak(m);
    TailLineNoBreak(m);
    var h, t := HeadLine(m), TailLine(m);
    var r := Render(m);
    assert r == h + "\n" + t;
    forall i | 0 <= i < |r|
      ensures r[i] == '\n' <==> i == |h|
    {
      if i < |h| {
        assert r[i] == h[i];
      } else if i > |h| {
        assert r[i] == t[i - |h| - 1];
      }
    }
  }
}
