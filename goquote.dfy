/**
 * The `%q` verb of Go's fmt package applied to a byte slice: the bytes are
 * written as a double-quoted Go string literal. `Unquote` reads such a
 * literal back, so that a message quoting some bytes determines them.
 */
module GoQuote {
  import opened Wrappers

  newtype Byte = b: int | 0 <= b < 256

  const LowerHex: string := "0123456789abcdef"

  /** A byte that `%q` writes as itself. */
  predicate Plain(b: Byte) {
    0x20 <= b < 0x7f && b != 0x22 && b != 0x5c
  }

  /** The letter of the one-letter escape Go uses for a control byte, if any. */
  function ControlLetter(b: Byte): Option<char> {
    if b == 0x07 then Some('a')
    else if b == 0x08 then Some('b')
    else if b == 0x0c then Some('f')
    else if b == 0x0a then Some('n')
    else if b == 0x0d then Some('r')
    else if b == 0x09 then Some('t')
    else if b == 0x0b then Some('v')
    else None
  }

  /** The control byte a one-letter escape stands for, if the letter is one. */
  function LetterControl(c: char): Option<Byte> {
    if c == 'a' then Some(0x07)
    else if c == 'b' then Some(0x08)
    else if c == 'f' then Some(0x0c)
    else if c == 'n' then Some(0x0a)
    else if c == 'r' then Some(0x0d)
    else if c == 't' then Some(0x09)
    else if c == 'v' then Some(0x0b)
    else None
  }

  predicate IsHexDigit(c: char) {
    '0' <= c <= '9' || 'a' <= c <= 'f'
  }

  function HexValue(c: char): (v: int)
    requires IsHexDigit(c)
    ensures 0 <= v < 16 && LowerHex[v] == c
  {
    if c <= '9' then c as int - '0' as int else c as int - 'a' as int + 10
  }

  /**
   * How one byte appears inside the literal: printable ASCII as itself,
   * the quote and the backslash behind a backslash, the seven C control
   * escapes by letter, every other byte as `\xNN` in lower-case hex.
   */
  function Escape(b: Byte): (s: string)
    ensures 1 <= |s| <= 4
    ensures |s| == 1 <==> Plain(b)
    ensures Plain(b) ==> s == [(b as int) as char]
    ensures !Plain(b) ==> s[0] == '\\'
    ensures s[0] != '"'
  {
    if Plain(b) then [(b as int) as char]
    else if b == 0x22 then ['\\', '"']
    else if b == 0x5c then ['\\', '\\']
    else if ControlLetter(b).Some? then ['\\', ControlLetter(b).value]
    else ['\\', 'x', LowerHex[b / 16], LowerHex[b % 16]]
  }

  function QuoteBody(bs: seq<Byte>): (s: string)
    ensures |bs| <= |s| <= 4 * |bs|
  {
    if bs == [] then [] else Escape(bs[0]) + QuoteBody(bs[1..])
  }

  /** `fmt.Sprintf("%q", bs)`. */
  function Quote(bs: seq<Byte>): (s: string)
    ensures |s| >= 2 && s[0] == '"' && s[|s| - 1] == '"'
    ensures |bs| + 2 <= |s| <= 4 * |bs| + 2
  {
    "\"" + QuoteBody(bs) + "\""
  }

  function Prepend(b: Byte, o: Option<(seq<Byte>, string)>): Option<(seq<Byte>, string)> {
    match o
    case None => None
    case Some((bs, rest)) => Some(([b] + bs, rest))
  }

  /**
   * Reads the inside of a quoted literal up to its closing quote: the bytes
   * it denotes and the text after the quote, or None if it is not well formed.
   */
  function ReadQuoted(s: string): Option<(seq<Byte>, string)>
    decreases |s|
  {
    if s == [] then None
    else if s[0] == '"' then Some(([], s[1..]))
    else if s[0] != '\\' then
      if ' ' <= s[0] <= '~' then Prepend(s[0] as int as Byte, ReadQuoted(s[1..])) else None
    else if |s| < 2 then None
    else if s[1] == '"' || s[1] == '\\' then Prepend(s[1] as int as Byte, ReadQuoted(s[2..]))
    else if LetterControl(s[1]).Some? then Prepend(LetterControl(s[1]).value, ReadQuoted(s[2..]))
    else if s[1] == 'x' && |s| >= 4 && IsHexDigit(s[2]) && IsHexDigit(s[3]) then
      Prepend((HexValue(s[2]) * 16 + HexValue(s[3])) as Byte, ReadQuoted(s[4..]))
    else None
  }

  /** Reads a quoted literal at the start of `s`: its bytes and what follows it. */
  function Unquote(s: string): Option<(seq<Byte>, string)> {
    if s != [] && s[0] == '"' then ReadQuoted(s[1..]) else None
  }

  /** Reading back one escaped byte yields that byte. */
  lemma ReadEscape(b: Byte, t: string)
    ensures ReadQuoted(Escape(b) + t) == Prepend(b, ReadQuoted(t))
  {
    var e := Escape(b);
    var s := e + t;
    assert s[..|e|] == e;
    assert s[|e|..] == t;
    if |e| == 4 {
      assert s[0] == '\\' && s[1] == 'x';
      var hi, lo := b / 16, b % 16;
      assert HexValue(s[2]) == hi as int;
      assert HexValue(s[3]) == lo as int;
    }
  }

  /** The quoted body of `bs`, followed by the closing quote, reads back as `bs`. */
  lemma {:induction false} ReadQuoteBody(bs: seq<Byte>, rest: string)
    ensures ReadQuoted(QuoteBody(bs) + "\"" + rest) == Some((bs, rest))
    decreases |bs|
  {
    if bs == [] {
      assert QuoteBody(bs) + "\"" + rest == "\"" + rest;
    } else {
      var tail := QuoteBody(bs[1..]) + "\"" + rest;
      assert QuoteBody(bs) + "\"" + rest == Escape(bs[0]) + tail;
      ReadEscape(bs[0], tail);
      ReadQuoteBody(bs[1..], rest);
      assert [bs[0]] + bs[1..] == bs;
    }
  }

  /** Quoting is invertible, whatever text follows the literal. */
  lemma UnquoteQuote(bs: seq<Byte>, rest: string)
    ensures Unquote(Quote(bs) + rest) == Some((bs, rest))
  {
    var s := Quote(bs) + rest;
    assert s[1..] == QuoteBody(bs) + "\"" + rest;
    ReadQuoteBody(bs, rest);
  }
}
