/** The string operations that the configuration and registry texts use, over valid UTF-8 seen as characters. */
module Texts {
  import opened Bytes

  /** The Unicode tables: what is printable, what is white space, and the lower-case form. */
  datatype Tables = Tables(printable: char -> bool, space: char -> bool, lower: char -> char)

  predicate AsciiSpace(c: char) {
    c == ' ' || '\t' <= c <= '\r'
  }

  /** The tables on ASCII; nothing is assumed about other characters except that controls are not printable. */
  ghost predicate TablesOk(u: Tables) {
    && (forall c :: ' ' <= c <= '~' ==> u.printable(c))
    && (forall c :: u.printable(c) ==> ' ' <= c && c as int != 0x7f)
    && (forall c :: c <= '~' ==> (u.space(c) <==> AsciiSpace(c)))
    && (forall c :: c <= '~' && !('A' <= c <= 'Z') ==> u.lower(c) == c)
  }

  function TrimLeft(u: Tables, s: string): string {
    if s != [] && u.space(s[0]) then TrimLeft(u, s[1..]) else s
  }

  function TrimRight(u: Tables, s: string): string {
    if s != [] && u.space(s[|s| - 1]) then TrimRight(u, s[..|s| - 1]) else s
  }

  function Trim(u: Tables, s: string): string {
    TrimRight(u, TrimLeft(u, s))
  }

  predicate Tight(u: Tables, s: string) {
    s == [] || (!u.space(s[0]) && !u.space(s[|s| - 1]))
  }

  lemma TrimTight(u: Tables, s: string)
    requires Tight(u, s)
    ensures Trim(u, s) == s
  {
  }

  lemma TrimPadded(u: Tables, s: string)
    requires TablesOk(u) && Tight(u, s)
    ensures Trim(u, " " + s) == s && Trim(u, s + " ") == s && Trim(u, " " + s + " ") == s
  {
    assert u.space(' ');
    assert (" " + s)[1..] == s;
    assert TrimLeft(u, " " + s) == s;
    assert (s + " ")[..|s|] == s && (s + " ")[|s|] == ' ';
    assert TrimRight(u, s + " ") == s;
    assert (" " + s + " ")[1..] == s + " ";
    assert TrimLeft(u, " " + s + " ") == TrimLeft(u, s + " ");
    if s == [] {
      assert s + " " == " " && " "[1..] == [];
    } else {
      assert (s + " ")[0] == s[0];
      assert TrimLeft(u, s + " ") == s + " ";
    }
  }

  function LowerAll(u: Tables, s: string): string {
    seq(|s|, i requires 0 <= i < |s| => u.lower(s[i]))
  }

  function IndexOf(s: string, c: char): int
    ensures -1 <= IndexOf(s, c) < |s|
  {
    if s == [] then -1 else if s[0] == c then 0
    else var i := IndexOf(s[1..], c); if i < 0 then -1 else i + 1
  }

  lemma {:induction false} IndexOfFirst(a: string, c: char, b: string)
    requires c !in a
    ensures IndexOf(a + [c] + b, c) == |a|
  {
    if a != [] {
      assert (a + [c] + b)[1..] == a[1..] + [c] + b;
      IndexOfFirst(a[1..], c, b);
    }
  }

  /** strings.Split on one separator character. */
  function Split(s: string, c: char): (parts: seq<string>)
    ensures |parts| > 0
  {
    if s == [] then [""]
    else
      var rest := Split(s[1..], c);
      if s[0] == c then [""] + rest else [[s[0]] + rest[0]] + rest[1..]
  }

  lemma {:induction false} SplitNone(s: string, c: char)
    requires c !in s
    ensures Split(s, c) == [s]
  {
    if s != [] {
      SplitNone(s[1..], c);
      assert [s[0]] + s[1..] == s;
    }
  }

  lemma {:induction false} SplitFirst(a: string, c: char, b: string)
    requires c !in a
    ensures Split(a + [c] + b, c) == [a] + Split(b, c)
  {
    var s := a + [c] + b;
    if a == [] {
      assert s[1..] == b;
    } else {
      assert s[1..] == a[1..] + [c] + b;
      SplitFirst(a[1..], c, b);
      assert [s[0]] + a[1..] == a;
    }
  }

  /** strings.Join with a comma and a blank. */
  function CommaJoin(parts: seq<string>): string {
    if parts == [] then "" else if |parts| == 1 then parts[0] else parts[0] + ", " + CommaJoin(parts[1..])
  }

  function Padded(parts: seq<string>): seq<string> {
    seq(|parts|, i requires 0 <= i < |parts| => if i == 0 then parts[0] else " " + parts[i])
  }

  lemma {:induction false} SplitJoin(parts: seq<string>, lead: string)
    requires parts != [] && ',' !in lead && forall i :: 0 <= i < |parts| ==> ',' !in parts[i]
    ensures Split(lead + CommaJoin(parts), ',') == [lead + parts[0]] + Padded(parts)[1..]
    decreases |parts|
  {
    if |parts| == 1 {
      SplitNone(lead + parts[0], ',');
      assert Padded(parts)[1..] == [];
    } else {
      var rest := parts[1..];
      assert lead + CommaJoin(parts) == (lead + parts[0]) + [','] + (" " + CommaJoin(rest));
      SplitFirst(lead + parts[0], ',', " " + CommaJoin(rest));
      assert forall i :: 0 <= i < |rest| ==> rest[i] == parts[i + 1];
      SplitJoin(rest, " ");
      assert Padded(parts)[1..] == [" " + rest[0]] + Padded(rest)[1..];
    }
  }

  lemma SplitPadded(parts: seq<string>)
    requires parts != [] && forall i :: 0 <= i < |parts| ==> ',' !in parts[i]
    ensures Split(CommaJoin(parts), ',') == Padded(parts)
  {
    SplitJoin(parts, "");
    assert "" + CommaJoin(parts) == CommaJoin(parts) && "" + parts[0] == parts[0];
    assert [parts[0]] + Padded(parts)[1..] == Padded(parts);
  }

  lemma Unbrace(u: Tables, inner: string)
    requires TablesOk(u) && Tight(u, inner)
    ensures var v := "{ " + inner + " }"; Trim(u, v[1..|v| - 1]) == inner
  {
    var v := "{ " + inner + " }";
    assert v[1..|v| - 1] == " " + inner + " ";
    TrimPadded(u, inner);
  }

  /** The parts of a joined list, split at commas and trimmed again. */
  lemma SplitTrim(u: Tables, parts: seq<string>, i: nat)
    requires TablesOk(u) && i < |parts|
    requires forall j :: 0 <= j < |parts| ==> ',' !in parts[j] && Tight(u, parts[j])
    ensures |Split(CommaJoin(parts), ',')| == |parts| && Trim(u, Split(CommaJoin(parts), ',')[i]) == parts[i]
  {
    SplitPadded(parts);
    TrimTight(u, parts[i]);
    TrimPadded(u, parts[i]);
  }

  lemma {:induction false} JoinTight(u: Tables, parts: seq<string>)
    requires parts != [] && forall j :: 0 <= j < |parts| ==> parts[j] != "" && Tight(u, parts[j])
    ensures Tight(u, CommaJoin(parts)) && CommaJoin(parts) != ""
    ensures CommaJoin(parts)[0] == parts[0][0]
    decreases |parts|
  {
    if |parts| > 1 {
      assert forall i :: 0 <= i < |parts[1..]| ==> parts[1..][i] == parts[i + 1];
      JoinTight(u, parts[1..]);
      var t := CommaJoin(parts[1..]);
      assert CommaJoin(parts) == parts[0] + ", " + t;
      assert CommaJoin(parts)[|CommaJoin(parts)| - 1] == t[|t| - 1];
    }
  }

  lemma {:induction false} JoinHasNo(parts: seq<string>, c: char)
    requires c != ',' && c != ' ' && forall j :: 0 <= j < |parts| ==> c !in parts[j]
    ensures c !in CommaJoin(parts)
    decreases |parts|
  {
    if |parts| > 1 {
      assert forall i :: 0 <= i < |parts[1..]| ==> parts[1..][i] == parts[i + 1];
      JoinHasNo(parts[1..], c);
    }
  }

  // ----- lines --------------------------------------------------------------------

  /** Every line followed by a line break. */
  function Flat(lines: seq<string>): string {
    if lines == [] then "" else lines[0] + "\n" + Flat(lines[1..])
  }

  function DropReturn(s: string): string {
    if s != [] && s[|s| - 1] == '\r' then s[..|s| - 1] else s
  }

  /** The lines a scanner returns: an unfinished last line counts when it is not empty. */
  function Lines(text: string): seq<string>
    decreases |text|
  {
    var i := IndexOf(text, '\n');
    if i < 0 then (if text == "" then [] else [DropReturn(text)])
    else [DropReturn(text[..i])] + Lines(text[i + 1..])
  }

  predicate OneLine(s: string) {
    '\n' !in s && (s == [] || s[|s| - 1] != '\r')
  }

  lemma {:induction false} LinesFlat(lines: seq<string>)
    requires forall i :: 0 <= i < |lines| ==> OneLine(lines[i])
    ensures Lines(Flat(lines)) == lines
    decreases |lines|
  {
    if lines != [] {
      var rest := Flat(lines[1..]);
      assert Flat(lines) == lines[0] + ['\n'] + rest;
      IndexOfFirst(lines[0], '\n', rest);
      assert Flat(lines)[..|lines[0]|] == lines[0] && Flat(lines)[|lines[0]| + 1..] == rest;
      assert forall i :: 0 <= i < |lines[1..]| ==> lines[1..][i] == lines[i + 1];
      LinesFlat(lines[1..]);
    }
  }

  lemma {:induction false} FlatAppend(a: seq<string>, b: seq<string>)
    ensures Flat(a + b) == Flat(a) + Flat(b)
    decreases |a|
  {
    if a == [] {
      assert a + b == b;
    } else {
      assert (a + b)[1..] == a[1..] + b;
      FlatAppend(a[1..], b);
    }
  }

  // ----- hexadecimal --------------------------------------------------------------

  function Digit(n: nat): (c: char)
    requires n < 16
    ensures '0' <= c <= '9' || 'a' <= c <= 'f'
  {
    if n < 10 then '0' + n as char else 'a' + (n - 10) as char
  }

  function DigitValue(c: char): Option<nat> {
    if '0' <= c <= '9' then Some((c - '0') as nat)
    else if 'a' <= c <= 'f' then Some((c - 'a') as nat + 10)
    else if 'A' <= c <= 'F' then Some((c - 'A') as nat + 10)
    else None
  }

  lemma DigitBack(n: nat)
    requires n < 16
    ensures DigitValue(Digit(n)) == Some(n)
  {
  }

  predicate IsHex(s: string) {
    forall i :: 0 <= i < |s| ==> '0' <= s[i] <= '9' || 'a' <= s[i] <= 'f'
  }

  function Digits(n: nat, w: nat): (s: string)
    ensures |s| == w && IsHex(s)
    decreases w
  {
    if w == 0 then "" else Digits(n / 16, w - 1) + [Digit(n % 16)]
  }

  function Value(s: string): Option<nat> {
    if s == [] then Some(0)
    else
      var hi, lo := Value(s[..|s| - 1]), DigitValue(s[|s| - 1]);
      if hi.Some? && lo.Some? then Some(hi.value * 16 + lo.value) else None
  }

  function Pow16(w: nat): nat {
    if w == 0 then 1 else 16 * Pow16(w - 1)
  }

  lemma {:induction false} ValueDigits(n: nat, w: nat)
    requires n < Pow16(w)
    ensures Value(Digits(n, w)) == Some(n)
    decreases w
  {
    if w > 0 {
      ValueDigits(n / 16, w - 1);
      DigitBack(n % 16);
      var s := Digits(n, w);
      assert s[..|s| - 1] == Digits(n / 16, w - 1);
    }
  }
}
