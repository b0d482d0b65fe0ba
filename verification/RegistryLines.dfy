/**
 The line structure of the registry file (internal/gorrcd/rooms.go): named sections of fields. What a field does
 to the room of its section is a parameter here.
 */
module RegistryLines {
  import opened Bytes
  import opened Texts
  import opened Quoting
  import opened RegistryText

  type Name = string
  type Field = (string, string)

  /** A new room, and the effect of one field. */
  datatype Reader<!R> = Reader(blank: R, apply: (R, string, string) -> R)

  function ApplyAll<R>(rd: Reader<R>, st: R, fields: seq<Field>): R
    decreases |fields|
  {
    if fields == [] then st else ApplyAll(rd, rd.apply(st, fields[0].0, fields[0].1), fields[1..])
  }

  lemma {:induction false} ApplyAppend<R>(rd: Reader<R>, st: R, a: seq<Field>, b: seq<Field>)
    ensures ApplyAll(rd, st, a + b) == ApplyAll(rd, ApplyAll(rd, st, a), b)
    decreases |a|
  {
    if a == [] {
      assert a + b == b;
    } else {
      assert (a + b)[1..] == a[1..] + b;
      ApplyAppend(rd, rd.apply(st, a[0].0, a[0].1), a[1..], b);
    }
  }

  lemma ApplyCons<R>(rd: Reader<R>, st: R, k: string, v: string, rest: seq<Field>)
    ensures ApplyAll(rd, st, [(k, v)] + rest) == ApplyAll(rd, rd.apply(st, k, v), rest)
  {
    assert ([(k, v)] + rest)[1..] == rest;
  }

  lemma ApplyOne<R>(rd: Reader<R>, st: R, k: string, v: string)
    ensures ApplyAll(rd, st, [(k, v)]) == rd.apply(st, k, v)
  {
    assert [(k, v)][1..] == [];
  }

  // ----- section headers -----------------------------------------------------------------

  predicate BareChar(c: char) {
    'A' <= c <= 'Z' || 'a' <= c <= 'z' || '0' <= c <= '9' || c == '_' || c == '-'
  }

  predicate IsBare(s: string) {
    s != "" && forall i :: 0 <= i < |s| ==> BareChar(s[i])
  }

  function TableKey(u: Tables, name: Name): string {
    if IsBare(name) then name else Quote(u, name)
  }

  function TableName(u: Tables, s: string): Name {
    var t := Trim(u, s);
    if Wrapped(t, '"') then Unquote(u, t) else t
  }

  const SECTION := "rooms."

  function Header(u: Tables, name: Name): string {
    "[" + SECTION + TableKey(u, name) + "]"
  }

  /** What a header line names: a room, or None for any other section. */
  function ReadHeader(u: Tables, t: string): Option<Name>
    requires |t| >= 2
  {
    var name := Trim(u, t[1..|t| - 1]);
    if SECTION <= LowerAll(u, name) then Some(TableName(u, name[|SECTION|..])) else None
  }

  lemma TableKeyOk(u: Tables, name: Name)
    requires TablesOk(u)
    ensures var k := TableKey(u, name); k != "" && '\n' !in k && Tight(u, k) && TableName(u, k) == name
  {
    var k := TableKey(u, name);
    if IsBare(name) {
      assert BareChar(k[0]) && BareChar(k[|k| - 1]);
      TrimTight(u, k);
    } else {
      QuoteTight(u, name);
      TrimTight(u, k);
      QuoteRoundTrip(u, name);
      QuoteOneLine(u, name);
    }
  }

  lemma SectionLower(u: Tables, k: string)
    requires TablesOk(u)
    ensures SECTION <= LowerAll(u, SECTION + k)
  {
    forall i | 0 <= i < |SECTION| ensures LowerAll(u, SECTION + k)[i] == SECTION[i] {
      assert (SECTION + k)[i] == SECTION[i] && 'A' as int != SECTION[i] as int;
    }
  }

  lemma HeaderBack(u: Tables, name: Name)
    requires TablesOk(u)
    ensures var t := Header(u, name);
            Trim(u, t) == t && Bracketed(t, '[', ']') && OneLine(t) && ReadHeader(u, t) == Some(name)
  {
    var k, t := TableKey(u, name), Header(u, name);
    TableKeyOk(u, name);
    TrimTight(u, t);
    var inner := SECTION + k;
    assert t[1..|t| - 1] == inner;
    assert inner[0] == 'r' && inner[|inner| - 1] == k[|k| - 1];
    TrimTight(u, inner);
    SectionLower(u, k);
    assert inner[|SECTION|..] == k;
  }

  // ----- the parser ---------------------------------------------------------------------------

  datatype Parser<R> = Parser(out: map<Name, R>, cur: Name)

  function Enter<R>(rd: Reader<R>, p: Parser<R>, name: Name): Parser<R> {
    Parser(if name in p.out then p.out else p.out[name := rd.blank], name)
  }

  function Store<R>(rd: Reader<R>, p: Parser<R>, k: string, v: string): Parser<R> {
    if p.cur in p.out then p.(out := p.out[p.cur := rd.apply(p.out[p.cur], k, v)]) else p
  }

  /** One line of parseRoomsTOML. */
  function ParseLine<R>(u: Tables, rd: Reader<R>, p: Parser<R>, line: string): Parser<R> {
    var t := Trim(u, line);
    if t == "" || t[0] == '#' then p
    else if Bracketed(t, '[', ']') then
      var name := ReadHeader(u, t);
      if name.Some? then Enter(rd, p, name.value) else p.(cur := "")
    else if p.cur == "" then p
    else
      var kv := SplitKV(u, t);
      if kv.None? then p else Store(rd, p, kv.value.0, kv.value.1)
  }

  function ParseLines<R>(u: Tables, rd: Reader<R>, p: Parser<R>, lines: seq<string>): Parser<R>
    decreases |lines|
  {
    if lines == [] then p
    else ParseLine(u, rd, ParseLines(u, rd, p, lines[..|lines| - 1]), lines[|lines| - 1])
  }

  function ParseText<R>(u: Tables, rd: Reader<R>, text: string): map<Name, R> {
    ParseLines(u, rd, Parser(map[], ""), Lines(text)).out
  }

  /** The parser's loop. */
  method ParseRooms<R>(u: Tables, rd: Reader<R>, text: string) returns (out: map<Name, R>)
    ensures out == ParseText(u, rd, text)
  {
    var lines := Lines(text);
    var p: Parser<R> := Parser(map[], "");
    ghost var start := p;
    var i := 0;
    while i < |lines|
      invariant 0 <= i <= |lines|
      invariant p == ParseLines(u, rd, start, lines[..i])
    {
      assert lines[..i + 1][..i] == lines[..i];
      p := ParseLine(u, rd, p, lines[i]);
      i := i + 1;
    }
    assert lines[..i] == lines;
    return p.out;
  }

  lemma {:induction false} ParseAppend<R>(u: Tables, rd: Reader<R>, p: Parser<R>, a: seq<string>, b: seq<string>)
    ensures ParseLines(u, rd, p, a + b) == ParseLines(u, rd, ParseLines(u, rd, p, a), b)
    decreases |b|
  {
    if b == [] {
      assert a + b == a;
    } else {
      var n := |b| - 1;
      assert (a + b)[..|a + b| - 1] == a + b[..n];
      ParseAppend(u, rd, p, a, b[..n]);
    }
  }

  // ----- fields -------------------------------------------------------------------------------------

  function KvLines(fields: seq<Field>): seq<string> {
    seq(|fields|, i requires 0 <= i < |fields| => Kv(fields[i].0, fields[i].1))
  }

  /** A field as the writer makes them: a lower-case name and a value that needs no trimming. */
  ghost predicate FieldOk(u: Tables, x: Field) {
    KeyOk(u, x.0) && 'a' <= x.0[0] <= 'z' && x.1 != "" && Tight(u, x.1) && '\n' !in x.1
  }

  lemma FieldTight(u: Tables, x: Field)
    requires TablesOk(u) && FieldOk(u, x)
    ensures var line := Kv(x.0, x.1); line != "" && 'a' <= line[0] <= 'z' && Trim(u, line) == line && OneLine(line)
  {
    var line := Kv(x.0, x.1);
    assert line[0] == x.0[0] && line[|line| - 1] == x.1[|x.1| - 1];
    assert u.space('\r');
    TrimTight(u, line);
  }

  lemma FieldShape(u: Tables, x: Field)
    requires TablesOk(u) && FieldOk(u, x)
    ensures var line := Kv(x.0, x.1);
            && line != "" && 'a' <= line[0] <= 'z' && Trim(u, line) == line && OneLine(line)
            && SplitKV(u, line) == Some(x)
  {
    FieldTight(u, x);
    SplitKvBack(u, "", x.0, x.1);
    assert "" + Kv(x.0, x.1) == Kv(x.0, x.1);
  }

  lemma FieldLine<R>(u: Tables, rd: Reader<R>, p: Parser<R>, x: Field)
    requires TablesOk(u) && FieldOk(u, x)
    ensures ParseLine(u, rd, p, Kv(x.0, x.1)) == if p.cur == "" then p else Store(rd, p, x.0, x.1)
  {
    FieldShape(u, x);
  }

  lemma {:induction false} FieldLines<R>(u: Tables, rd: Reader<R>, p: Parser<R>, fields: seq<Field>)
    requires TablesOk(u) && forall i :: 0 <= i < |fields| ==> FieldOk(u, fields[i])
    requires p.cur != "" ==> p.cur in p.out
    ensures ParseLines(u, rd, p, KvLines(fields)) ==
            if p.cur == "" then p else p.(out := p.out[p.cur := ApplyAll(rd, p.out[p.cur], fields)])
    decreases |fields|
  {
    if fields == [] {
      assert p.cur != "" ==> p.out[p.cur := p.out[p.cur]] == p.out;
    } else {
      var n := |fields| - 1;
      var x := fields[n];
      assert KvLines(fields)[..n] == KvLines(fields[..n]);
      FieldLines(u, rd, p, fields[..n]);
      FieldLine(u, rd, ParseLines(u, rd, p, KvLines(fields[..n])), x);
      if p.cur != "" {
        assert fields == fields[..n] + [(x.0, x.1)];
        ApplyAppend(rd, p.out[p.cur], fields[..n], [(x.0, x.1)]);
        ApplyOne(rd, ApplyAll(rd, p.out[p.cur], fields[..n]), x.0, x.1);
      }
    }
  }

  // ----- a room, and the whole file ------------------------------------------------------------------

  datatype Section = Section(name: Name, fields: seq<Field>)

  ghost predicate SectionOk(u: Tables, s: Section) {
    forall i :: 0 <= i < |s.fields| ==> FieldOk(u, s.fields[i])
  }

  function SectionLines(u: Tables, s: Section): seq<string> {
    ["", Header(u, s.name)] + KvLines(s.fields)
  }

  const PREAMBLE := ["# gorrcd room registry", "", "[rooms]"]

  function FileLines(u: Tables, ss: seq<Section>): seq<string>
    decreases |ss|
  {
    if ss == [] then PREAMBLE else FileLines(u, ss[..|ss| - 1]) + SectionLines(u, ss[|ss| - 1])
  }

  /** The writer's loop over the rooms. */
  method WriteSections(u: Tables, ss: seq<Section>) returns (text: string)
    ensures text == Flat(FileLines(u, ss))
  {
    text := "# gorrcd room registry\n\n[rooms]\n";
    PreambleText();
    var i := 0;
    while i < |ss|
      invariant 0 <= i <= |ss|
      invariant text == Flat(FileLines(u, ss[..i]))
    {
      assert ss[..i + 1][..i] == ss[..i];
      SectionText(u, FileLines(u, ss[..i]), ss[i]);
      text := text + "\n" + Header(u, ss[i].name) + "\n";
      var fields := WriteFields(ss[i].fields);
      text := text + fields;
      i := i + 1;
    }
    assert ss[..i] == ss;
  }

  method WriteFields(fields: seq<Field>) returns (text: string)
    ensures text == Flat(KvLines(fields))
  {
    text := "";
    var i := 0;
    while i < |fields|
      invariant 0 <= i <= |fields|
      invariant text == Flat(KvLines(fields[..i]))
    {
      var line := Kv(fields[i].0, fields[i].1);
      assert KvLines(fields[..i + 1]) == KvLines(fields[..i]) + [line];
      FlatAppend(KvLines(fields[..i]), [line]);
      assert [line][1..] == [] && Flat([line]) == line + "\n";
      text := text + line + "\n";
      i := i + 1;
    }
    assert fields[..i] == fields;
  }

  lemma FlatCons(line: string, rest: seq<string>)
    ensures Flat([line] + rest) == line + "\n" + Flat(rest)
  {
    assert ([line] + rest)[0] == line && ([line] + rest)[1..] == rest;
  }

  lemma PreambleText()
    ensures Flat(PREAMBLE) == "# gorrcd room registry\n\n[rooms]\n"
  {
    var a, c, none: seq<string> := "# gorrcd room registry", "[rooms]", [];
    assert PREAMBLE == [a] + ([""] + ([c] + none));
    FlatCons(a, [""] + ([c] + none));
    FlatCons("", [c] + none);
    FlatCons(c, none);
    assert a + "\n" + ("" + "\n" + (c + "\n" + "")) == "# gorrcd room registry\n\n[rooms]\n";
  }

  lemma Glue(a: string, b: string, c: string)
    ensures a + ("" + "\n" + (b + "\n" + c)) == a + "\n" + b + "\n" + c
  {
  }

  lemma HeadedText(before: seq<string>, head: string, rest: seq<string>)
    ensures Flat(before + (["", head] + rest)) == Flat(before) + "\n" + head + "\n" + Flat(rest)
  {
    assert ["", head] + rest == [""] + ([head] + rest);
    FlatAppend(before, [""] + ([head] + rest));
    FlatCons("", [head] + rest);
    FlatCons(head, rest);
    Glue(Flat(before), head, Flat(rest));
  }

  lemma SectionText(u: Tables, before: seq<string>, s: Section)
    ensures Flat(before + SectionLines(u, s)) ==
            Flat(before) + "\n" + Header(u, s.name) + "\n" + Flat(KvLines(s.fields))
  {
    HeadedText(before, Header(u, s.name), KvLines(s.fields));
  }

  /** What one section reads as: a room without a name keeps none of its fields. */
  function Meaning<R>(rd: Reader<R>, s: Section): R {
    if s.name == "" then rd.blank else ApplyAll(rd, rd.blank, s.fields)
  }

  function Contents<R>(rd: Reader<R>, ss: seq<Section>): map<Name, R>
    decreases |ss|
  {
    if ss == [] then map[] else Contents(rd, ss[..|ss| - 1])[ss[|ss| - 1].name := Meaning(rd, ss[|ss| - 1])]
  }

  predicate Distinct(ss: seq<Section>) {
    forall i, j :: 0 <= i < j < |ss| ==> ss[i].name != ss[j].name
  }

  lemma {:induction false} ContentsKeys<R>(rd: Reader<R>, ss: seq<Section>, name: Name)
    ensures name in Contents(rd, ss) <==> exists i :: 0 <= i < |ss| && ss[i].name == name
    decreases |ss|
  {
    if ss != [] {
      var n := |ss| - 1;
      ContentsKeys(rd, ss[..n], name);
      assert forall i :: 0 <= i < n ==> ss[..n][i] == ss[i];
    }
  }

  lemma {:induction false} ContentsAt<R>(rd: Reader<R>, ss: seq<Section>, i: nat)
    requires Distinct(ss) && i < |ss|
    ensures ss[i].name in Contents(rd, ss) && Contents(rd, ss)[ss[i].name] == Meaning(rd, ss[i])
    decreases |ss|
  {
    var n := |ss| - 1;
    if i < n { ContentsAt(rd, ss[..n], i); }
  }

  lemma SectionHeadBack<R>(u: Tables, rd: Reader<R>, p: Parser<R>, name: Name)
    requires TablesOk(u)
    ensures ParseLines(u, rd, p, ["", Header(u, name)]) == Enter(rd, p, name)
  {
    var h := ["", Header(u, name)];
    HeaderBack(u, name);
    assert h[..1] == [""] && [""][..0] == [];
    assert Trim(u, "") == "";
    assert ParseLines(u, rd, p, [""]) == p;
  }

  lemma SectionBack<R>(u: Tables, rd: Reader<R>, p: Parser<R>, s: Section)
    requires TablesOk(u) && SectionOk(u, s) && s.name !in p.out
    ensures ParseLines(u, rd, p, SectionLines(u, s)) == Parser(p.out[s.name := Meaning(rd, s)], s.name)
  {
    ParseAppend(u, rd, p, ["", Header(u, s.name)], KvLines(s.fields));
    SectionHeadBack(u, rd, p, s.name);
    FieldLines(u, rd, Enter(rd, p, s.name), s.fields);
  }

  lemma PreambleBack<R>(u: Tables, rd: Reader<R>)
    requires TablesOk(u)
    ensures ParseLines(u, rd, Parser(map[], ""), PREAMBLE).out == map[]
  {
    var a, c := PREAMBLE[0], PREAMBLE[2];
    var p: Parser<R> := Parser(map[], "");
    assert PREAMBLE[..2] == [a, ""] && [a, ""][..1] == [a] && [a][..0] == [];
    assert a[0] == '#' && a[|a| - 1] == 'y' && c[0] == '[' && c[|c| - 1] == ']';
    TrimTight(u, a);
    TrimTight(u, c);
    assert Trim(u, "") == "";
    assert ParseLine(u, rd, p, a) == p;
    assert ParseLine(u, rd, p, "") == p;
    assert ParseLines(u, rd, p, [a]) == p;
    var two := [a, ""];
    assert two[..|two| - 1] == [a] && two[|two| - 1] == "";
    assert ParseLines(u, rd, p, two) == p;
    assert Bracketed(c, '[', ']') && c[1..|c| - 1] == "rooms";
    TrimTight(u, "rooms");
    assert |LowerAll(u, "rooms")| == 5;
  }

  /** Reading the lines that were written gives every section's meaning under its name. */
  lemma {:induction false} FileBack<R>(u: Tables, rd: Reader<R>, ss: seq<Section>)
    requires TablesOk(u) && Distinct(ss) && forall i :: 0 <= i < |ss| ==> SectionOk(u, ss[i])
    ensures ParseLines(u, rd, Parser(map[], ""), FileLines(u, ss)).out == Contents(rd, ss)
    decreases |ss|
  {
    if ss == [] {
      PreambleBack(u, rd);
    } else {
      var n := |ss| - 1;
      FileBack(u, rd, ss[..n]);
      ParseAppend(u, rd, Parser(map[], ""), FileLines(u, ss[..n]), SectionLines(u, ss[n]));
      ContentsKeys(rd, ss[..n], ss[n].name);
      SectionBack(u, rd, ParseLines(u, rd, Parser(map[], ""), FileLines(u, ss[..n])), ss[n]);
    }
  }

  lemma SectionOneLine(u: Tables, s: Section)
    requires TablesOk(u) && SectionOk(u, s)
    ensures forall i :: 0 <= i < |SectionLines(u, s)| ==> OneLine(SectionLines(u, s)[i])
  {
    HeaderBack(u, s.name);
    forall i | 0 <= i < |s.fields| ensures OneLine(KvLines(s.fields)[i]) {
      FieldShape(u, s.fields[i]);
    }
  }

  lemma {:induction false} FileOneLine(u: Tables, ss: seq<Section>)
    requires TablesOk(u) && forall i :: 0 <= i < |ss| ==> SectionOk(u, ss[i])
    ensures forall i :: 0 <= i < |FileLines(u, ss)| ==> OneLine(FileLines(u, ss)[i])
    decreases |ss|
  {
    if ss != [] {
      var n := |ss| - 1;
      FileOneLine(u, ss[..n]);
      SectionOneLine(u, ss[n]);
    }
  }

  /** The written text, read again. */
  lemma TextBack<R>(u: Tables, rd: Reader<R>, ss: seq<Section>)
    requires TablesOk(u) && Distinct(ss) && forall i :: 0 <= i < |ss| ==> SectionOk(u, ss[i])
    ensures ParseText(u, rd, Flat(FileLines(u, ss))) == Contents(rd, ss)
  {
    FileOneLine(u, ss);
    LinesFlat(FileLines(u, ss));
    FileBack(u, rd, ss);
  }
}
