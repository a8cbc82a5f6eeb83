/** The request key of the mock link is `JSON.stringify({ query: q })`, where `q` is
    the printed query or `undefined`. This module models that one call: the
    escaping of a string literal (the QuoteJSONString operation of ECMA-262), the
    resulting text of the one-member object, and a reader that recovers `q` from
    the text, which shows that distinct printed queries never share a key. */
module JsonKey {
  import opened Options

  /** A lower-case hexadecimal digit, as the `\u` escape of QuoteJSONString writes it. */
  function HexDigit(n: nat): (c: char)
    requires n < 16
    ensures HexValue(c) == Some(n)
  {
    if n < 10 then ('0' as int + n) as char else ('a' as int + n - 10) as char
  }

  /** The value of a hexadecimal digit of either case. */
  function HexValue(c: char): (r: Option<nat>)
    ensures r.Some? ==> r.value < 16
    ensures r.Some? <==> ('0' <= c <= '9' || 'a' <= c <= 'f' || 'A' <= c <= 'F')
  {
    if '0' <= c <= '9' then Some(c as int - '0' as int)
    else if 'a' <= c <= 'f' then Some(c as int - 'a' as int + 10)
    else if 'A' <= c <= 'F' then Some(c as int - 'A' as int + 10)
    else None
  }

  /** The letter of the two-character escape QuoteJSONString uses for backspace, tab,
      line feed, form feed, carriage return, quote and backslash; `None` for every
      other character. */
  function ShortEscape(c: char): (r: Option<char>)
    ensures r.Some? ==> SimpleEscapeValue(r.value) == Some(c)
    ensures r.None? ==> c == ' ' || (c > ' ' && c != '"' && c != '\\') || (c < ' ' && c as int !in {0x08, 0x09, 0x0A, 0x0C, 0x0D})
  {
    if c as int == 0x08 then Some('b')
    else if c == '\t' then Some('t')
    else if c == '\n' then Some('n')
    else if c as int == 0x0C then Some('f')
    else if c == '\r' then Some('r')
    else if c == '"' then Some('"')
    else if c == '\\' then Some('\\')
    else None
  }

  /** The escape of one character inside a JSON string literal: a two-character
      escape where there is one, `\u00XX` for the other control characters, the
      character itself otherwise. (A Dafny `char` is a Unicode scalar value, so the
      lone surrogates that QuoteJSONString also escapes do not arise.) */
  function EscapeChar(c: char): (r: string)
    ensures r == [c] <==> (c >= ' ' && c != '"' && c != '\\')
    ensures r != [c] ==> |r| >= 2 && r[0] == '\\'
  {
    match ShortEscape(c)
    case Some(e) => ['\\', e]
    case None =>
      if c < ' ' then ['\\', 'u', '0', '0', HexDigit(c as int / 16), HexDigit(c as int % 16)]
      else [c]
  }

  /** The body of the JSON string literal for `s`, without its quotes. */
  function Escape(s: string): string
  {
    if s == [] then [] else EscapeChar(s[0]) + Escape(s[1..])
  }

  /** The opening of the text of a one-member object whose member is `query`, up to
      and including the quote that opens the member's string literal. */
  const QueryPrefix: string := "{\"query\":\""

  /** `JSON.stringify({ query: q })`: `{"query":` and the JSON string literal for the
      printed query, then `}`; a member whose value is `undefined` is omitted. */
  function StringifyQueryObject(q: Option<string>): string
  {
    match q
    case None => "{}"
    case Some(s) => QueryPrefix + Escape(s) + "\"}"
  }

  // ---------------------------------------------------------------------------
  // Reading the text back

  /** The character a two-character escape `\e` stands for. */
  function SimpleEscapeValue(e: char): Option<char>
  {
    if e == '"' then Some('"')
    else if e == '\\' then Some('\\')
    else if e == '/' then Some('/')
    else if e == 'b' then Some(0x08 as char)
    else if e == 'f' then Some(0x0C as char)
    else if e == 'n' then Some('\n')
    else if e == 'r' then Some('\r')
    else if e == 't' then Some('\t')
    else None
  }

  /** The character four hexadecimal digits stand for; a surrogate code unit on its
      own is not a character. */
  function HexCodeUnit(h: string): (r: Option<char>)
    requires |h| == 4
  {
    match (HexValue(h[0]), HexValue(h[1]), HexValue(h[2]), HexValue(h[3]))
    case (Some(a), Some(b), Some(c), Some(d)) =>
      var v := a * 4096 + b * 256 + c * 16 + d;
      if 0xD800 <= v < 0xE000 then None else Some(v as char)
    case _ => None
  }

  function Prepend(c: char, r: Option<(string, string)>): Option<(string, string)>
  {
    match r
    case None => None
    case Some((s, rest)) => Some(([c] + s, rest))
  }

  /** The character an escape sequence at the start of `t` stands for, and the
      length of that sequence: a two-character escape, or `\u` and four hexadecimal
      digits. */
  function ReadEscape(t: string): (r: Option<(char, nat)>)
    requires |t| > 0 && t[0] == '\\'
    ensures r.Some? ==> 2 <= r.value.1 <= |t|
  {
    if |t| < 2 then None
    else match SimpleEscapeValue(t[1])
      case Some(c) => Some((c, 2))
      case None =>
        if t[1] == 'u' && |t| >= 6 then
          match HexCodeUnit(t[2..6])
          case Some(c) => Some((c, 6))
          case None => None
        else None
  }

  /** Reads the body of a JSON string literal up to and including its closing quote;
      yields the decoded text and what follows the quote, or `None` when `t` does not
      start with a well-formed literal body. */
  function ReadStringBody(t: string): Option<(string, string)>
    decreases |t|
  {
    if |t| == 0 then None
    else if t[0] == '"' then Some(("", t[1..]))
    else if t[0] == '\\' then
      match ReadEscape(t)
      case Some((c, n)) => Prepend(c, ReadStringBody(t[n..]))
      case None => None
    else if t[0] < ' ' then None
    else Prepend(t[0], ReadStringBody(t[1..]))
  }

  /** Recovers `q` from the text of `JSON.stringify({ query: q })`. */
  function ParseQueryObject(t: string): Option<Option<string>>
  {
    if t == "{}" then Some(None)
    else if |t| >= |QueryPrefix| && t[..|QueryPrefix|] == QueryPrefix then
      match ReadStringBody(t[|QueryPrefix|..])
      case Some((s, rest)) => if rest == "}" then Some(Some(s)) else None
      case None => None
    else None
  }

  // ---------------------------------------------------------------------------
  // Round trip

  /** The escape of a character that needs one reads back as that character. */
  lemma ReadEscapeOf(c: char, t: string)
    requires EscapeChar(c) != [c]
    ensures ReadEscape(EscapeChar(c) + t) == Some((c, |EscapeChar(c)|))
  {
    var e := EscapeChar(c);
    var u := e + t;
    assert u[0] == e[0] && u[1] == e[1];
    if ShortEscape(c).None? {
      var hi, lo := HexDigit(c as int / 16), HexDigit(c as int % 16);
      assert u[2..6] == ['0', '0', hi, lo];
      assert HexCodeUnit(u[2..6]) == Some(c);
    }
  }

  /** Reading the escape of one character yields that character. */
  lemma ReadEscapeChar(c: char, t: string)
    ensures ReadStringBody(EscapeChar(c) + t) == Prepend(c, ReadStringBody(t))
  {
    var e := EscapeChar(c);
    if e == [c] {
      assert (e + t)[1..] == t;
    } else {
      ReadEscapeOf(c, t);
      assert (e + t)[|e|..] == t;
    }
  }

  /** The closing quote ends the literal. */
  lemma ReadClosingQuote(rest: string)
    ensures ReadStringBody(Escape([]) + (['"'] + rest)) == Some(([], rest))
  {
    assert Escape([]) + (['"'] + rest) == ['"'] + rest;
    assert (['"'] + rest)[1..] == rest;
  }

  /** The escape of a non-empty string, followed by any text, starts with the escape
      of its first character. */
  lemma EscapeCons(s: string, x: string)
    requires s != []
    ensures Escape(s) + x == EscapeChar(s[0]) + (Escape(s[1..]) + x)
  {
  }

  /** The body of the literal for `s`, then its closing quote, reads back as `s`. */
  lemma {:induction false} ReadEscaped(s: string, rest: string)
    ensures ReadStringBody(Escape(s) + (['"'] + rest)) == Some((s, rest))
  {
    if s == [] {
      ReadClosingQuote(rest);
    } else {
      var t := Escape(s[1..]) + (['"'] + rest);
      ReadEscaped(s[1..], rest);
      ReadEscapeChar(s[0], t);
      EscapeCons(s, ['"'] + rest);
      assert [s[0]] + s[1..] == s;
    }
  }

  /** The text of `JSON.stringify({ query: q })` determines `q`. */
  lemma ParseStringify(q: Option<string>)
    ensures ParseQueryObject(StringifyQueryObject(q)) == Some(q)
  {
    if q.Some? {
      var s := q.value;
      var body := Escape(s) + "\"}";
      var t := QueryPrefix + body;
      assert "\"}" == ['"'] + "}";
      assert StringifyQueryObject(q) == t;
      assert t[..|QueryPrefix|] == QueryPrefix;
      assert t[|QueryPrefix|..] == body;
      assert t != "{}" by { assert t[1] == '"'; }
      ReadEscaped(s, "}");
    }
  }

  /** Two query objects stringify to the same text exactly when their queries agree. */
  lemma StringifyInjective(a: Option<string>, b: Option<string>)
    ensures StringifyQueryObject(a) == StringifyQueryObject(b) <==> a == b
  {
    ParseStringify(a);
    ParseStringify(b);
  }
}
