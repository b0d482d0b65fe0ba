/**
 Quoted strings as the registry writes and reads them: strconv.Quote and strconv.Unquote of the Go library, and
 the more lenient unquote of internal/gorrcd/config.go around the latter.
 */
module Quoting {
  import opened Bytes
  import opened Texts

  function Escape(c: char): Option<char> {
    if c == '\\' || c == '"' then Some(c)
    else match c as int
      case 7 => Some('a') case 8 => Some('b') case 12 => Some('f') case 10 => Some('n')
      case 13 => Some('r') case 9 => Some('t') case 11 => Some('v')
      case _ => None
  }

  function Unescape(c: char): Option<char> {
    if c == '\\' || c == '"' then Some(c)
    else if c == 'a' then Some(7 as char) else if c == 'b' then Some(8 as char)
    else if c == 'f' then Some(12 as char) else if c == 'n' then Some('\n')
    else if c == 'r' then Some('\r') else if c == 't' then Some('\t')
    else if c == 'v' then Some(11 as char) else None
  }

  function QuoteChar(u: Tables, c: char): string {
    if c != '\\' && c != '"' && u.printable(c) then [c]
    else if Escape(c).Some? then "\\" + [Escape(c).value]
    else if c < ' ' || c as int == 0x7f then "\\x" + Digits(c as nat, 2)
    else if c as int < 0x10000 then "\\u" + Digits(c as nat, 4)
    else "\\U" + Digits(c as nat, 8)
  }

  function QuoteBody(u: Tables, s: string): string {
    if s == [] then "" else QuoteChar(u, s[0]) + QuoteBody(u, s[1..])
  }

  function Quote(u: Tables, s: string): string {
    "\"" + QuoteBody(u, s) + "\""
  }

  predicate ValidRune(n: nat) {
    n < 0xD800 || 0xE000 <= n <= 0x10FFFF
  }

  /** Reads the hexadecimal digits of an escape. */
  function HexChar(s: string, limit: nat): Option<char> {
    var v := Value(s);
    if v.Some? && v.value <= limit && ValidRune(v.value) then Some(v.value as char) else None
  }

  function HexWidth(c: char): nat {
    if c == 'x' then 2 else if c == 'u' then 4 else if c == 'U' then 8 else 0
  }

  /** One character of a quoted body, and how much text it took. */
  function ReadChar(s: string): Option<(char, nat)>
    requires s != []
    ensures ReadChar(s).Some? ==> 0 < ReadChar(s).value.1 <= |s|
  {
    if s[0] == '\n' || s[0] == '"' then None
    else if s[0] != '\\' then Some((s[0], 1))
    else if |s| < 2 then None
    else if Unescape(s[1]).Some? then Some((Unescape(s[1]).value, 2))
    else
      var w := HexWidth(s[1]);
      if w == 0 || |s| < 2 + w then None
      else
        var c := HexChar(s[2..2 + w], if w == 2 then 0x7f else 0x10FFFF);
        if c.Some? then Some((c.value, 2 + w)) else None
  }

  /** The text after the opening quote: characters up to the closing quote, which must end it. */
  function UnquoteBody(s: string): Option<string>
    decreases |s|
  {
    if s == [] then None
    else if s[0] == '"' then (if |s| == 1 then Some("") else None)
    else
      var r := ReadChar(s);
      if r.None? then None
      else
        var rest := UnquoteBody(s[r.value.1..]);
        if rest.None? then None else Some([r.value.0] + rest.value)
  }

  lemma Pow16Values()
    ensures Pow16(2) == 0x100 && Pow16(4) == 0x10000 && Pow16(8) == 0x100000000
  {
    assert Pow16(1) == 16 && Pow16(2) == 0x100 && Pow16(3) == 0x1000 && Pow16(4) == 0x10000;
    assert Pow16(5) == 0x100000 && Pow16(6) == 0x1000000 && Pow16(7) == 0x10000000;
  }

  lemma ReadDigits(n: nat, w: nat, limit: nat)
    requires n < Pow16(w) && n <= limit && ValidRune(n)
    ensures HexChar(Digits(n, w), limit) == Some(n as char)
  {
    ValueDigits(n, w);
  }

  /** What ReadChar does with an escape by number. */
  lemma ReadEscape(k: char, digits: string, rest: string)
    requires HexWidth(k) == |digits| > 0
    ensures ReadChar("\\" + [k] + digits + rest) ==
            var c := HexChar(digits, if |digits| == 2 then 0x7f else 0x10FFFF);
            if c.Some? then Some((c.value, 2 + |digits|)) else None
  {
    var s := "\\" + [k] + digits + rest;
    assert s[0] == '\\' && s[1] == k && s[2..2 + |digits|] == digits;
  }

  lemma ReadHex(k: char, n: nat, w: nat, rest: string)
    requires w == HexWidth(k) && w > 0 && n < Pow16(w) && ValidRune(n) && (w == 2 ==> n <= 0x7f)
    ensures ReadChar("\\" + [k] + Digits(n, w) + rest) == Some((n as char, 2 + w))
  {
    ReadDigits(n, w, if w == 2 then 0x7f else 0x10FFFF);
    ReadEscape(k, Digits(n, w), rest);
  }

  lemma ReadPlain(u: Tables, c: char, rest: string)
    requires TablesOk(u) && c != '\\' && c != '"' && u.printable(c)
    ensures ReadChar([c] + rest) == Some((c, 1))
  {
    assert ([c] + rest)[0] == c;
  }

  lemma ReadEscaped(c: char, rest: string)
    requires Escape(c).Some?
    ensures ReadChar("\\" + [Escape(c).value] + rest) == Some((c, 2))
  {
    var s := "\\" + [Escape(c).value] + rest;
    assert s[0] == '\\' && s[1] == Escape(c).value;
    EscapeBack(c);
  }

  /** The characters written by number: which escape letter, and its width. */
  function HexLetter(c: char): char {
    if c < ' ' || c as int == 0x7f then 'x' else if c as int < 0x10000 then 'u' else 'U'
  }

  lemma ReadByNumber(c: char, rest: string)
    ensures ReadChar("\\" + [HexLetter(c)] + Digits(c as nat, HexWidth(HexLetter(c))) + rest) ==
            Some((c, 2 + HexWidth(HexLetter(c))))
  {
    Pow16Values();
    ReadHex(HexLetter(c), c as nat, HexWidth(HexLetter(c)), rest);
  }

  lemma ReadQuoted(u: Tables, c: char, rest: string)
    requires TablesOk(u)
    ensures |QuoteChar(u, c)| > 0 && QuoteChar(u, c)[0] != '"'
    ensures ReadChar(QuoteChar(u, c) + rest) == Some((c, |QuoteChar(u, c)|))
  {
    var q := QuoteChar(u, c);
    if c != '\\' && c != '"' && u.printable(c) {
      ReadPlain(u, c, rest);
    } else if Escape(c).Some? {
      ReadEscaped(c, rest);
    } else {
      assert q == "\\" + [HexLetter(c)] + Digits(c as nat, HexWidth(HexLetter(c)));
      ReadByNumber(c, rest);
    }
  }

  lemma EscapeBack(c: char)
    requires Escape(c).Some?
    ensures Unescape(Escape(c).value) == Some(c)
  {
  }

  lemma {:induction false} UnquoteQuote(u: Tables, s: string)
    requires TablesOk(u)
    ensures UnquoteBody(QuoteBody(u, s) + "\"") == Some(s)
  {
    if s == [] {
      assert QuoteBody(u, s) + "\"" == "\"";
    } else {
      var q, rest := QuoteChar(u, s[0]), QuoteBody(u, s[1..]) + "\"";
      assert QuoteBody(u, s) + "\"" == q + rest;
      ReadQuoted(u, s[0], rest);
      assert (q + rest)[|q|..] == rest;
      UnquoteQuote(u, s[1..]);
      assert [s[0]] + s[1..] == s;
    }
  }

  function DropEscapedQuotes(s: string): string {
    if |s| < 2 then s
    else if s[0] == '\\' && s[1] == '"' then "\"" + DropEscapedQuotes(s[2..])
    else [s[0]] + DropEscapedQuotes(s[1..])
  }

  predicate Wrapped(s: string, q: char) {
    |s| >= 2 && s[0] == q && s[|s| - 1] == q
  }

  /** unquote: falls back to the bare inside of a malformed quoted string. */
  function Unquote(u: Tables, text: string): string {
    var v := Trim(u, text);
    if Wrapped(v, '"') then
      var r := UnquoteBody(v[1..]);
      if r.Some? then r.value else DropEscapedQuotes(v[1..|v| - 1])
    else if Wrapped(v, '\'') then v[1..|v| - 1]
    else v
  }

  lemma QuoteTight(u: Tables, s: string)
    requires TablesOk(u)
    ensures Wrapped(Quote(u, s), '"') && Tight(u, Quote(u, s))
  {
  }

  /** Every text comes back from its quoted form. */
  lemma QuoteRoundTrip(u: Tables, s: string)
    requires TablesOk(u)
    ensures Unquote(u, Quote(u, s)) == s
  {
    QuoteTight(u, s);
    TrimTight(u, Quote(u, s));
    assert Quote(u, s)[1..] == QuoteBody(u, s) + "\"";
    UnquoteQuote(u, s);
  }

  /** A quoted text stays on one line. */
  lemma {:induction false} QuoteOneLine(u: Tables, s: string)
    requires TablesOk(u)
    ensures '\n' !in QuoteBody(u, s)
  {
    if s != [] {
      QuoteOneLine(u, s[1..]);
      QuoteCharOneLine(u, s[0]);
    }
  }

  lemma EscapeOneLine(k: char, n: nat, w: nat)
    requires k != '\n'
    ensures '\n' !in "\\" + [k] + Digits(n, w)
  {
    assert '\n' !in Digits(n, w);
  }

  lemma QuoteCharOneLine(u: Tables, c: char)
    requires TablesOk(u)
    ensures '\n' !in QuoteChar(u, c)
  {
    if Escape(c).None? && !(c != '\\' && c != '"' && u.printable(c)) {
      EscapeOneLine(HexLetter(c), c as nat, HexWidth(HexLetter(c)));
      assert QuoteChar(u, c) == "\\" + [HexLetter(c)] + Digits(c as nat, HexWidth(HexLetter(c)));
    }
  }

  /** Printable ASCII without quote and backslash is only put between quotes. */
  lemma {:induction false} QuotePlain(u: Tables, s: string)
    requires TablesOk(u) && forall i :: 0 <= i < |s| ==> ' ' <= s[i] <= '~' && s[i] != '"' && s[i] != '\\'
    ensures QuoteBody(u, s) == s
  {
    if s != [] {
      QuotePlain(u, s[1..]);
      assert [s[0]] + s[1..] == s;
    }
  }
}
