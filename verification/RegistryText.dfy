/**
 The room registry file (internal/gorrcd/rooms.go, hash.go, config.go): its writer and its parser. Sets and maps
 are written in some order; the writer takes that order as given, since the parser does not depend on it.
 */
module RegistryText {
  import opened Bytes
  import opened Hub
  import opened Rooms
  import opened Texts
  import opened Quoting

  // ----- identities ---------------------------------------------------------------

  function HexText(bs: seq<byte>): (s: string)
    ensures IsHex(s) && |s| == 2 * |bs|
  {
    if bs == [] then "" else Digits(bs[0], 2) + HexText(bs[1..])
  }

  function HexBytes(s: string): Option<seq<byte>> {
    if s == [] then Some([])
    else if |s| < 2 then None
    else
      var b, rest := Value(s[..2]), HexBytes(s[2..]);
      if b.Some? && b.value < 256 && rest.Some? then Some([b.value] + rest.value) else None
  }

  lemma ByteBack(b: byte)
    ensures Value(Digits(b, 2)) == Some(b)
  {
    assert Pow16(1) == 16 && Pow16(2) == 256;
    ValueDigits(b, 2);
  }

  lemma HexCons(d: string, rest: string, b: byte, bs: seq<byte>)
    requires |d| == 2 && Value(d) == Some(b) && HexBytes(rest) == Some(bs)
    ensures HexBytes(d + rest) == Some([b] + bs)
  {
    assert (d + rest)[..2] == d && (d + rest)[2..] == rest;
  }

  lemma {:induction false} HexBack(bs: seq<byte>)
    ensures HexBytes(HexText(bs)) == Some(bs)
  {
    if bs != [] {
      ByteBack(bs[0]);
      HexBack(bs[1..]);
      HexCons(Digits(bs[0], 2), HexText(bs[1..]), bs[0], bs[1..]);
      assert [bs[0]] + bs[1..] == bs;
    }
  }

  function WithoutBlanks(s: string): string {
    if s == [] then ""
    else if s[0] == ' ' || s[0] == '\t' then WithoutBlanks(s[1..])
    else [s[0]] + WithoutBlanks(s[1..])
  }

  lemma {:induction false} NoBlanks(s: string)
    requires IsHex(s)
    ensures WithoutBlanks(s) == s
  {
    if s != [] {
      NoBlanks(s[1..]);
      assert [s[0]] + s[1..] == s;
    }
  }

  function ParseId(u: Tables, text: string): Option<Key> {
    var t := Trim(u, LowerAll(u, text));
    var b := HexBytes(WithoutBlanks(if "0x" <= t then t[2..] else t));
    if b.Some? && |b.value| == 16 then Some(b.value) else None
  }

  lemma HexPlain(u: Tables, s: string)
    requires TablesOk(u) && IsHex(s)
    ensures LowerAll(u, s) == s && Trim(u, s) == s
  {
    assert forall i :: 0 <= i < |s| ==> u.lower(s[i]) == s[i];
    assert Tight(u, s);
    TrimTight(u, s);
  }

  lemma ParseHex(u: Tables, s: string, id: Key)
    requires TablesOk(u) && IsHex(s) && |s| == 32 && HexBytes(s) == Some(id)
    ensures ParseId(u, s) == Some(id)
  {
    HexPlain(u, s);
    NoBlanks(s);
    assert "0x"[1] != s[1];
  }

  lemma IdBack(u: Tables, id: Key)
    requires TablesOk(u)
    ensures ParseId(u, HexText(id)) == Some(id)
  {
    HexBack(id);
    ParseHex(u, HexText(id), id);
  }

  // ----- lists of identities --------------------------------------------------------

  function QuotedIds(u: Tables, ids: seq<Key>): seq<string> {
    seq(|ids|, i requires 0 <= i < |ids| => Quote(u, HexText(ids[i])))
  }

  function FormatIds(u: Tables, ids: seq<Key>): string {
    if ids == [] then "[]" else "[" + CommaJoin(QuotedIds(u, ids)) + "]"
  }

  predicate Bracketed(s: string, open: char, close: char) {
    |s| >= 2 && s[0] == open && s[|s| - 1] == close
  }

  /** parseStringList */
  function ParseList(u: Tables, text: string): seq<string> {
    var v := Trim(u, text);
    if v == "" || v == "[]" then []
    else
      var inner := if Bracketed(v, '[', ']') then Trim(u, v[1..|v| - 1]) else v;
      if inner == "" then []
      else
        var parts := Split(inner, ',');
        seq(|parts|, i requires 0 <= i < |parts| => Unquote(u, Trim(u, parts[i])))
  }

  function IdsIn(u: Tables, items: seq<string>): set<Key> {
    set i | 0 <= i < |items| && items[i] != "" && ParseId(u, items[i]).Some? :: ParseId(u, items[i]).value
  }

  lemma QuotedHex(u: Tables, s: string)
    requires TablesOk(u) && IsHex(s)
    ensures Quote(u, s) == "\"" + s + "\""
    ensures ',' !in Quote(u, s) && '=' !in Quote(u, s) && '\n' !in Quote(u, s)
    ensures LowerAll(u, Quote(u, s)) == Quote(u, s)
  {
    QuotePlain(u, s);
    var q := "\"" + s + "\"";
    forall i | 0 <= i < |q| ensures u.lower(q[i]) == q[i] {
      if 0 < i < |q| - 1 { assert q[i] == s[i - 1]; } else { assert q[i] == '"'; }
    }
  }

  lemma QuotedIdOk(u: Tables, id: Key)
    requires TablesOk(u)
    ensures var q := Quote(u, HexText(id));
            q != "" && ',' !in q && '=' !in q && '\n' !in q && Tight(u, q) && LowerAll(u, q) == q
    ensures Unquote(u, Quote(u, HexText(id))) == HexText(id)
  {
    QuotedHex(u, HexText(id));
    QuoteTight(u, HexText(id));
    QuoteRoundTrip(u, HexText(id));
  }

  lemma QuotedIdsOk(u: Tables, ids: seq<Key>)
    requires TablesOk(u)
    ensures forall i :: 0 <= i < |ids| ==>
              ',' !in QuotedIds(u, ids)[i] && '\n' !in QuotedIds(u, ids)[i]
              && QuotedIds(u, ids)[i] != "" && Tight(u, QuotedIds(u, ids)[i])
  {
    forall i | 0 <= i < |ids|
      ensures ',' !in QuotedIds(u, ids)[i] && '\n' !in QuotedIds(u, ids)[i]
      ensures QuotedIds(u, ids)[i] != "" && Tight(u, QuotedIds(u, ids)[i])
    {
      QuotedIdOk(u, ids[i]);
    }
  }

  lemma FormatIdsOk(u: Tables, ids: seq<Key>)
    requires TablesOk(u)
    ensures Tight(u, FormatIds(u, ids)) && FormatIds(u, ids) != "" && '\n' !in FormatIds(u, ids)
  {
    QuotedIdsOk(u, ids);
    JoinHasNo(QuotedIds(u, ids), '\n');
  }

  lemma ParseListBack(u: Tables, ids: seq<Key>)
    requires TablesOk(u)
    ensures var items := ParseList(u, FormatIds(u, ids));
            |items| == |ids| && forall i :: 0 <= i < |ids| ==> items[i] == HexText(ids[i])
  {
    var v := FormatIds(u, ids);
    FormatIdsOk(u, ids);
    TrimTight(u, v);
    if ids != [] {
      var q := QuotedIds(u, ids);
      var parts := Split(CommaJoin(q), ',');
      QuotedIdsOk(u, ids);
      JoinTight(u, q);
      TrimTight(u, CommaJoin(q));
      assert v[1..|v| - 1] == CommaJoin(q);
      assert v != "[]" by { assert |v| > 2; }
      SplitTrim(u, q, 0);
      var items := ParseList(u, v);
      assert |items| == |ids|;
      forall i | 0 <= i < |ids| ensures items[i] == HexText(ids[i]) {
        SplitTrim(u, q, i);
        assert items[i] == Unquote(u, Trim(u, parts[i]));
        QuotedIdOk(u, ids[i]);
      }
    }
  }

  /** A set of identities comes back from its list, in whatever order it was written. */
  lemma IdsRoundTrip(u: Tables, ids: seq<Key>)
    requires TablesOk(u)
    ensures IdsIn(u, ParseList(u, FormatIds(u, ids))) == set id | id in ids
  {
    var items := ParseList(u, FormatIds(u, ids));
    ParseListBack(u, ids);
    var got := IdsIn(u, items);
    forall i | 0 <= i < |ids| ensures items[i] != "" && ParseId(u, items[i]) == Some(ids[i]) { IdBack(u, ids[i]); }
    forall id: Key ensures id in got <==> id in ids {
      if id in ids {
        var i :| 0 <= i < |ids| && ids[i] == id;
        assert ParseId(u, items[i]).value == id;
      }
    }
  }

  // ----- key and value ---------------------------------------------------------------

  function SplitKV(u: Tables, line: string): Option<(string, string)> {
    var i := IndexOf(line, '=');
    if i <= 0 then None else Some((LowerAll(u, Trim(u, line[..i])), Trim(u, line[i + 1..])))
  }

  function Kv(k: string, v: string): string {
    k + " = " + v
  }

  /** What a key must be so that reading it back finds it. */
  ghost predicate KeyOk(u: Tables, k: string) {
    k != "" && '=' !in k && '\n' !in k && Tight(u, k) && LowerAll(u, k) == k
  }

  lemma SplitKvBack(u: Tables, lead: string, k: string, v: string)
    requires TablesOk(u) && KeyOk(u, k) && Tight(u, v) && (lead == "" || lead == " ")
    ensures SplitKV(u, lead + Kv(k, v)) == Some((k, v))
  {
    var line := lead + Kv(k, v);
    assert line == (lead + k + " ") + ['='] + (" " + v);
    IndexOfFirst(lead + k + " ", '=', " " + v);
    assert line[..|lead + k| + 1] == lead + k + " " && line[|lead + k| + 2..] == " " + v;
    TrimPadded(u, k);
    TrimPadded(u, v);
    assert lead == "" ==> lead + k + " " == k + " ";
  }

  // ----- numbers and invitations --------------------------------------------------------

  /** How numbers are written and read, and which of them the number type of the program holds. */
  datatype Floats = Floats(show: real -> string, read: string -> real, exact: real -> bool)

  predicate FloatText(s: string) {
    s != "" && forall i :: 0 <= i < |s| ==>
      '0' <= s[i] <= '9' || s[i] == '.' || s[i] == 'e' || s[i] == '+' || s[i] == '-'
  }

  predicate Positive(f: Floats, x: real) {
    x > 0.0 && f.exact(x)
  }

  /** A positive number of the program is written so that reading gives it back. */
  ghost predicate FloatsOk(f: Floats) {
    forall x: real :: Positive(f, x) ==> FloatText(f.show(x)) && f.read(f.show(x)) == x
  }

  lemma FloatOk(u: Tables, f: Floats, x: real)
    requires TablesOk(u) && FloatsOk(f) && Positive(f, x)
    ensures var s := f.show(x);
            Tight(u, s) && ',' !in s && '\n' !in s && Unquote(u, s) == s && f.read(Unquote(u, s)) == x
  {
    var s := f.show(x);
    assert FloatText(s);
    TrimTight(u, s);
  }

  function Invite(u: Tables, f: Floats, id: Key, exp: real): string {
    Kv(Quote(u, HexText(id)), f.show(exp))
  }

  function Invites(u: Tables, f: Floats, ids: seq<Key>, m: map<Key, real>): seq<string>
    requires forall i :: 0 <= i < |ids| ==> ids[i] in m
  {
    seq(|ids|, i requires 0 <= i < |ids| => Invite(u, f, ids[i], m[ids[i]]))
  }

  /** formatInvited; ids are the unexpired ones. */
  function FormatInvites(u: Tables, f: Floats, ids: seq<Key>, m: map<Key, real>): string
    requires forall i :: 0 <= i < |ids| ==> ids[i] in m
  {
    if m == map[] then "{}" else "{ " + CommaJoin(Invites(u, f, ids, m)) + " }"
  }

  function ReadInvite(u: Tables, f: Floats, part: string): Option<(Key, real)> {
    var kv := SplitKV(u, part);
    if kv.None? then None
    else
      var id := ParseId(u, Unquote(u, kv.value.0));
      if id.None? then None else Some((id.value, f.read(Unquote(u, kv.value.1))))
  }

  /** Invitations in order, a later one for the same identity winning, expired ones ignored. */
  function Collect(found: seq<Option<(Key, real)>>, now: real): map<Key, real> {
    if found == [] then map[]
    else
      var last, rest := found[|found| - 1], Collect(found[..|found| - 1], now);
      if last.Some? && last.value.1 > now then rest[last.value.0 := last.value.1] else rest
  }

  function ReadInvites(u: Tables, f: Floats, parts: seq<string>): seq<Option<(Key, real)>> {
    seq(|parts|, i requires 0 <= i < |parts| => ReadInvite(u, f, parts[i]))
  }

  function ParseInvites(u: Tables, f: Floats, text: string, now: real): map<Key, real> {
    var v := Trim(u, text);
    var inner := if Bracketed(v, '{', '}') then Trim(u, v[1..|v| - 1]) else v;
    if inner == "" then map[] else Collect(ReadInvites(u, f, Split(inner, ',')), now)
  }

  lemma InviteBack(u: Tables, f: Floats, lead: string, id: Key, exp: real)
    requires TablesOk(u) && FloatsOk(f) && Positive(f, exp) && (lead == "" || lead == " ")
    ensures ReadInvite(u, f, lead + Invite(u, f, id, exp)) == Some((id, exp))
  {
    QuotedIdOk(u, id);
    FloatOk(u, f, exp);
    SplitKvBack(u, lead, Quote(u, HexText(id)), f.show(exp));
    IdBack(u, id);
  }

  lemma InviteOk(u: Tables, f: Floats, id: Key, exp: real)
    requires TablesOk(u) && FloatsOk(f) && Positive(f, exp)
    ensures var s := Invite(u, f, id, exp); s != "" && Tight(u, s) && ',' !in s && '\n' !in s
  {
    var q, x := Quote(u, HexText(id)), f.show(exp);
    QuotedIdOk(u, id);
    FloatOk(u, f, exp);
    assert FloatText(x);
    var s := Invite(u, f, id, exp);
    assert s[0] == q[0] && s[|s| - 1] == x[|x| - 1];
  }

  function Pairs(ids: seq<Key>, m: map<Key, real>): seq<Option<(Key, real)>>
    requires forall i :: 0 <= i < |ids| ==> ids[i] in m
  {
    seq(|ids|, i requires 0 <= i < |ids| => Some((ids[i], m[ids[i]])))
  }

  function Kept(ids: seq<Key>, m: map<Key, real>, now: real): map<Key, real> {
    map id | id in ids && id in m && m[id] > now :: m[id]
  }

  lemma {:induction false} CollectPairs(ids: seq<Key>, m: map<Key, real>, now: real)
    requires forall i :: 0 <= i < |ids| ==> ids[i] in m
    ensures Collect(Pairs(ids, m), now) == Kept(ids, m, now)
    decreases |ids|
  {
    if ids != [] {
      var n := |ids| - 1;
      assert Pairs(ids, m)[..n] == Pairs(ids[..n], m);
      CollectPairs(ids[..n], m, now);
      assert ids == ids[..n] + [ids[n]];
      assert forall id :: id in ids <==> id in ids[..n] || id == ids[n];
    }
  }

  predicate Enumerates(ids: seq<Key>, s: set<Key>) {
    (set id | id in ids) == s
  }

  function Live(m: map<Key, real>, now: real): set<Key> {
    set id | id in m && m[id] > now
  }

  lemma InvitesOk(u: Tables, f: Floats, ids: seq<Key>, m: map<Key, real>)
    requires TablesOk(u) && FloatsOk(f) && forall i :: 0 <= i < |ids| ==> ids[i] in m && Positive(f, m[ids[i]])
    ensures forall i :: 0 <= i < |ids| ==>
              var s := Invites(u, f, ids, m)[i]; s != "" && Tight(u, s) && ',' !in s && '\n' !in s
  {
    forall i | 0 <= i < |ids|
      ensures var s := Invites(u, f, ids, m)[i]; s != "" && Tight(u, s) && ',' !in s && '\n' !in s
    {
      InviteOk(u, f, ids[i], m[ids[i]]);
    }
  }

  lemma InvitePart(u: Tables, f: Floats, ids: seq<Key>, m: map<Key, real>, i: nat)
    requires TablesOk(u) && FloatsOk(f) && forall j :: 0 <= j < |ids| ==> ids[j] in m && Positive(f, m[ids[j]])
    requires i < |ids|
    ensures ReadInvite(u, f, Padded(Invites(u, f, ids, m))[i]) == Some((ids[i], m[ids[i]]))
  {
    var lead := if i == 0 then "" else " ";
    InviteBack(u, f, lead, ids[i], m[ids[i]]);
    assert "" + Invite(u, f, ids[i], m[ids[i]]) == Invite(u, f, ids[i], m[ids[i]]);
  }

  lemma ReadPadded(u: Tables, f: Floats, ids: seq<Key>, m: map<Key, real>)
    requires TablesOk(u) && FloatsOk(f) && forall i :: 0 <= i < |ids| ==> ids[i] in m && Positive(f, m[ids[i]])
    ensures ReadInvites(u, f, Padded(Invites(u, f, ids, m))) == Pairs(ids, m)
  {
    var got := ReadInvites(u, f, Padded(Invites(u, f, ids, m)));
    forall i | 0 <= i < |ids| ensures got[i] == Pairs(ids, m)[i] {
      InvitePart(u, f, ids, m, i);
    }
  }

  lemma SplitInvites(u: Tables, f: Floats, ids: seq<Key>, m: map<Key, real>, now: real)
    requires TablesOk(u) && FloatsOk(f) && ids != []
    requires forall i :: 0 <= i < |ids| ==> ids[i] in m && Positive(f, m[ids[i]])
    ensures Collect(ReadInvites(u, f, Split(CommaJoin(Invites(u, f, ids, m)), ',')), now) == Kept(ids, m, now)
  {
    InvitesOk(u, f, ids, m);
    SplitPadded(Invites(u, f, ids, m));
    ReadPadded(u, f, ids, m);
    CollectPairs(ids, m, now);
  }

  lemma FormatInvitesOk(u: Tables, f: Floats, ids: seq<Key>, m: map<Key, real>)
    requires TablesOk(u) && FloatsOk(f) && forall i :: 0 <= i < |ids| ==> ids[i] in m && Positive(f, m[ids[i]])
    ensures var v := FormatInvites(u, f, ids, m);
            v != "" && Trim(u, v) == v && Tight(u, v) && '\n' !in v && Bracketed(v, '{', '}')
  {
    var v := FormatInvites(u, f, ids, m);
    InvitesOk(u, f, ids, m);
    JoinHasNo(Invites(u, f, ids, m), '\n');
    TrimTight(u, v);
  }

  lemma LiveLater(ids: seq<Key>, m: map<Key, real>, written: real, now: real)
    requires written <= now && Enumerates(ids, Live(m, written))
    ensures Unexpired(m, now) == Kept(ids, m, now)
  {
    assert forall id :: id in m && m[id] > now ==> id in Live(m, written);
    assert forall id :: id in Live(m, written) <==> id in ids;
  }

  lemma InvitesInner(u: Tables, f: Floats, ids: seq<Key>, m: map<Key, real>)
    requires TablesOk(u) && FloatsOk(f) && m != map[]
    requires forall i :: 0 <= i < |ids| ==> ids[i] in m && Positive(f, m[ids[i]])
    ensures var v := FormatInvites(u, f, ids, m);
            |v| >= 2 && Trim(u, v[1..|v| - 1]) == CommaJoin(Invites(u, f, ids, m))
    ensures ids != [] <==> CommaJoin(Invites(u, f, ids, m)) != ""
  {
    var q := Invites(u, f, ids, m);
    var inner := CommaJoin(q);
    assert Tight(u, inner) && (ids != [] <==> inner != "") by {
      InvitesOk(u, f, ids, m);
      if ids != [] { JoinTight(u, q); }
    }
    Unbrace(u, inner);
  }

  /** The invitations still open when the file is read come back. */
  lemma InvitesRoundTrip(u: Tables, f: Floats, ids: seq<Key>, m: map<Key, real>, written: real, now: real)
    requires TablesOk(u) && FloatsOk(f) && 0.0 <= written <= now && Enumerates(ids, Live(m, written))
    requires forall i :: 0 <= i < |ids| ==> ids[i] in m && Positive(f, m[ids[i]])
    ensures ParseInvites(u, f, FormatInvites(u, f, ids, m), now) == Unexpired(m, now)
  {
    FormatInvitesOk(u, f, ids, m);
    LiveLater(ids, m, written, now);
    if m == map[] {
      var v := FormatInvites(u, f, ids, m);
      assert v[1..|v| - 1] == "" && Trim(u, "") == "";
    } else {
      InvitesInner(u, f, ids, m);
      if ids != [] { SplitInvites(u, f, ids, m, now); }
    }
  }
}
