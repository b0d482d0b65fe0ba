/** What the registry file says about each room (internal/gorrcd/rooms.go): fields, the writer, and the round trip. */
module RegistryFile {
  import opened Bytes
  import H = Hub
  import opened Rooms
  import opened Texts
  import opened Quoting
  import opened RegistryText
  import opened RegistryLines

  type Key = H.Key
  type Text = H.Text

  // ----- reading one field ----------------------------------------------------------

  predicate ParseBool(u: Tables, v: string) {
    var s := LowerAll(u, Unquote(u, v));
    s == "true" || s == "1" || s == "yes"
  }

  /** applyRoomKey */
  function ApplyKey(u: Tables, f: Floats, st: RoomState, k: string, v: string, now: real): RoomState {
    if k == "founder" then
      var id := ParseId(u, Unquote(u, v));
      if id.None? then st else st.(founder := id, ops := st.ops + {id.value})
    else if k == "topic" then st.(topic := Unquote(u, v))
    else if k == "moderated" then st.(modes := st.modes.(moderated := ParseBool(u, v)))
    else if k == "invite_only" then st.(modes := st.modes.(inviteOnly := ParseBool(u, v)))
    else if k == "topic_ops_only" then st.(modes := st.modes.(topicOpsOnly := ParseBool(u, v)))
    else if k == "no_outside_msgs" then st.(modes := st.modes.(noOutside := ParseBool(u, v)))
    else if k == "private" then st.(modes := st.modes.(priv := ParseBool(u, v)))
    else if k == "key" then st.(modes := st.modes.(key := Unquote(u, v)))
    else if k == "operators" then st.(ops := st.ops + IdsIn(u, ParseList(u, v)))
    else if k == "voiced" then st.(voiced := st.voiced + IdsIn(u, ParseList(u, v)))
    else if k == "bans" then st.(bans := st.bans + IdsIn(u, ParseList(u, v)))
    else if k == "invited" then st.(invited := ParseInvites(u, f, v, now))
    else if k == "last_used_ts" then st.(lastUsed := f.read(Unquote(u, v)))
    else st
  }

  function ReaderAt(u: Tables, f: Floats, now: real): Reader<RoomState> {
    Reader(REGISTERED, (st: RoomState, k: string, v: string) => ApplyKey(u, f, st, k, v, now))
  }

  // ----- the fields of a room -----------------------------------------------------------

  /** A room to be written, with the orders its sets come out in. */
  datatype Listing = Listing(name: Text, st: RoomState, ops: seq<Key>, voiced: seq<Key>, bans: seq<Key>,
                             invites: seq<Key>)

  /** Every set is listed, and every number to be written is one that the program holds. */
  ghost predicate ListingOk(f: Floats, l: Listing, written: real) {
    && l.st.registered
    && Enumerates(l.ops, l.st.ops) && Enumerates(l.voiced, l.st.voiced) && Enumerates(l.bans, l.st.bans)
    && Enumerates(l.invites, Live(l.st.invited, written))
    && (forall i :: 0 <= i < |l.invites| ==> l.invites[i] in l.st.invited && Positive(f, l.st.invited[l.invites[i]]))
    && (l.st.lastUsed > 0.0 ==> f.exact(l.st.lastUsed))
  }

  function BoolText(b: bool): string {
    if b then "true" else "false"
  }

  function HeadFields(u: Tables, st: RoomState): seq<Field> {
    (if st.founder.Some? then [("founder", Quote(u, HexText(st.founder.value)))] else []) +
    (if st.topic != "" then [("topic", Quote(u, st.topic))] else [])
  }

  function FlagFields(m: Modes): seq<Field> {
    [("moderated", BoolText(m.moderated)), ("invite_only", BoolText(m.inviteOnly)),
     ("topic_ops_only", BoolText(m.topicOpsOnly)), ("no_outside_msgs", BoolText(m.noOutside)),
     ("private", BoolText(m.priv))]
  }

  function KeyFields(u: Tables, m: Modes): seq<Field> {
    if m.key != "" then [("key", Quote(u, m.key))] else []
  }

  function SetFields(u: Tables, l: Listing): seq<Field> {
    [("operators", FormatIds(u, l.ops)), ("voiced", FormatIds(u, l.voiced)), ("bans", FormatIds(u, l.bans))]
  }

  function TailFields(u: Tables, f: Floats, l: Listing): seq<Field>
    requires forall i :: 0 <= i < |l.invites| ==> l.invites[i] in l.st.invited
  {
    [("invited", FormatInvites(u, f, l.invites, l.st.invited))] +
    (if l.st.lastUsed > 0.0 then [("last_used_ts", f.show(l.st.lastUsed))] else [])
  }

  function Fields(u: Tables, f: Floats, l: Listing): seq<Field>
    requires forall i :: 0 <= i < |l.invites| ==> l.invites[i] in l.st.invited
  {
    HeadFields(u, l.st) + FlagFields(l.st.modes) + KeyFields(u, l.st.modes) + SetFields(u, l) + TailFields(u, f, l)
  }

  const REGISTERED := Fresh(None).(registered := true)

  // ----- reading the fields of a room back ----------------------------------------------------

  lemma FounderField(u: Tables, f: Floats, st: RoomState, id: Key, now: real)
    requires TablesOk(u)
    ensures ApplyKey(u, f, st, "founder", Quote(u, HexText(id)), now) == st.(founder := Some(id), ops := st.ops + {id})
  {
    QuoteRoundTrip(u, HexText(id));
    IdBack(u, id);
  }

  lemma TopicField(u: Tables, f: Floats, st: RoomState, topic: Text, now: real)
    requires TablesOk(u)
    ensures ApplyKey(u, f, st, "topic", Quote(u, topic), now) == st.(topic := topic)
  {
    QuoteRoundTrip(u, topic);
    assert "topic"[0] != "founder"[0];
  }

  lemma HeadBack(u: Tables, f: Floats, st: RoomState, now: real)
    requires TablesOk(u)
    ensures ApplyAll(ReaderAt(u, f, now), REGISTERED, HeadFields(u, st)) ==
            REGISTERED.(founder := st.founder, topic := st.topic,
                        ops := if st.founder.Some? then {st.founder.value} else {})
  {
    var a := if st.founder.Some? then [("founder", Quote(u, HexText(st.founder.value)))] else [];
    var b := if st.topic != "" then [("topic", Quote(u, st.topic))] else [];
    ApplyAppend(ReaderAt(u, f, now), REGISTERED, a, b);
    if st.founder.Some? {
      ApplyOne(ReaderAt(u, f, now), REGISTERED, "founder", Quote(u, HexText(st.founder.value)));
      FounderField(u, f, REGISTERED, st.founder.value, now);
    }
    var s1 := ApplyAll(ReaderAt(u, f, now), REGISTERED, a);
    if st.topic != "" {
      ApplyOne(ReaderAt(u, f, now), s1, "topic", Quote(u, st.topic));
      TopicField(u, f, s1, st.topic, now);
    }
  }

  lemma BoolBack(u: Tables, b: bool)
    requires TablesOk(u)
    ensures ParseBool(u, BoolText(b)) == b && Tight(u, BoolText(b))
  {
    var s := BoolText(b);
    TrimTight(u, s);
    assert Unquote(u, s) == s;
    assert LowerAll(u, s) == s;
  }

  lemma FlagField(u: Tables, f: Floats, st: RoomState, b: bool, now: real)
    requires TablesOk(u)
    ensures var v, m := BoolText(b), st.modes;
            && ApplyKey(u, f, st, "moderated", v, now) == st.(modes := m.(moderated := b))
            && ApplyKey(u, f, st, "invite_only", v, now) == st.(modes := m.(inviteOnly := b))
            && ApplyKey(u, f, st, "topic_ops_only", v, now) == st.(modes := m.(topicOpsOnly := b))
            && ApplyKey(u, f, st, "no_outside_msgs", v, now) == st.(modes := m.(noOutside := b))
            && ApplyKey(u, f, st, "private", v, now) == st.(modes := m.(priv := b))
  {
    BoolBack(u, b);
  }

  lemma FlagsBack(u: Tables, f: Floats, st: RoomState, m: Modes, now: real)
    requires TablesOk(u)
    ensures ApplyAll(ReaderAt(u, f, now), st, FlagFields(m)) == st.(modes := m.(key := st.modes.key))
  {
    var f5 := [("private", BoolText(m.priv))];
    var f4 := [("no_outside_msgs", BoolText(m.noOutside))] + f5;
    var f3 := [("topic_ops_only", BoolText(m.topicOpsOnly))] + f4;
    var f2 := [("invite_only", BoolText(m.inviteOnly))] + f3;
    assert FlagFields(m) == [("moderated", BoolText(m.moderated))] + f2;
    ApplyCons(ReaderAt(u, f, now), st, "moderated", BoolText(m.moderated), f2);
    FlagField(u, f, st, m.moderated, now);
    var s1 := st.(modes := st.modes.(moderated := m.moderated));
    ApplyCons(ReaderAt(u, f, now), s1, "invite_only", BoolText(m.inviteOnly), f3);
    FlagField(u, f, s1, m.inviteOnly, now);
    var s2 := s1.(modes := s1.modes.(inviteOnly := m.inviteOnly));
    ApplyCons(ReaderAt(u, f, now), s2, "topic_ops_only", BoolText(m.topicOpsOnly), f4);
    FlagField(u, f, s2, m.topicOpsOnly, now);
    var s3 := s2.(modes := s2.modes.(topicOpsOnly := m.topicOpsOnly));
    ApplyCons(ReaderAt(u, f, now), s3, "no_outside_msgs", BoolText(m.noOutside), f5);
    FlagField(u, f, s3, m.noOutside, now);
    var s4 := s3.(modes := s3.modes.(noOutside := m.noOutside));
    ApplyOne(ReaderAt(u, f, now), s4, "private", BoolText(m.priv));
    FlagField(u, f, s4, m.priv, now);
  }

  lemma KeyBack(u: Tables, f: Floats, st: RoomState, m: Modes, now: real)
    requires TablesOk(u) && st.modes.key == ""
    ensures ApplyAll(ReaderAt(u, f, now), st, KeyFields(u, m)) == st.(modes := st.modes.(key := m.key))
  {
    QuoteRoundTrip(u, m.key);
  }

  lemma SetKeys(u: Tables, f: Floats, st: RoomState, v: string, now: real)
    ensures var s := IdsIn(u, ParseList(u, v));
            && ApplyKey(u, f, st, "operators", v, now) == st.(ops := st.ops + s)
            && ApplyKey(u, f, st, "voiced", v, now) == st.(voiced := st.voiced + s)
            && ApplyKey(u, f, st, "bans", v, now) == st.(bans := st.bans + s)
  {
    var o, w, b := "operators", "voiced", "bans";
    assert o[0] == 'o' && w[0] == 'v' && b[0] == 'b';
  }

  lemma SetField(u: Tables, f: Floats, st: RoomState, ids: seq<Key>, now: real)
    requires TablesOk(u)
    ensures var v, s := FormatIds(u, ids), set id | id in ids;
            && ApplyKey(u, f, st, "operators", v, now) == st.(ops := st.ops + s)
            && ApplyKey(u, f, st, "voiced", v, now) == st.(voiced := st.voiced + s)
            && ApplyKey(u, f, st, "bans", v, now) == st.(bans := st.bans + s)
  {
    SetKeys(u, f, st, FormatIds(u, ids), now);
    IdsRoundTrip(u, ids);
  }

  lemma SetsBack(u: Tables, f: Floats, st: RoomState, l: Listing, now: real)
    requires TablesOk(u)
    requires Enumerates(l.ops, l.st.ops) && Enumerates(l.voiced, l.st.voiced) && Enumerates(l.bans, l.st.bans)
    ensures ApplyAll(ReaderAt(u, f, now), st, SetFields(u, l)) ==
            st.(ops := st.ops + l.st.ops, voiced := st.voiced + l.st.voiced, bans := st.bans + l.st.bans)
  {
    var a, b, c := ("operators", FormatIds(u, l.ops)), ("voiced", FormatIds(u, l.voiced)),
                   ("bans", FormatIds(u, l.bans));
    assert SetFields(u, l) == [a] + [b] + [c];
    ApplyAppend(ReaderAt(u, f, now), st, [a] + [b], [c]);
    ApplyAppend(ReaderAt(u, f, now), st, [a], [b]);
    SetField(u, f, st, l.ops, now);
    ApplyOne(ReaderAt(u, f, now), st, a.0, a.1);
    var s1 := st.(ops := st.ops + l.st.ops);
    SetField(u, f, s1, l.voiced, now);
    ApplyOne(ReaderAt(u, f, now), s1, b.0, b.1);
    var s2 := s1.(voiced := s1.voiced + l.st.voiced);
    SetField(u, f, s2, l.bans, now);
    ApplyOne(ReaderAt(u, f, now), s2, c.0, c.1);
  }

  lemma InvitedField(u: Tables, f: Floats, st: RoomState, l: Listing, written: real, now: real)
    requires TablesOk(u) && FloatsOk(f) && 0.0 <= written <= now && ListingOk(f, l, written)
    ensures ApplyKey(u, f, st, "invited", FormatInvites(u, f, l.invites, l.st.invited), now) ==
            st.(invited := Unexpired(l.st.invited, now))
  {
    InvitesRoundTrip(u, f, l.invites, l.st.invited, written, now);
    var k := "invited";
    assert |k| == 7 && k[0] == 'i';
  }

  lemma LastUsedField(u: Tables, f: Floats, st: RoomState, x: real, now: real)
    requires TablesOk(u) && FloatsOk(f) && Positive(f, x)
    ensures ApplyKey(u, f, st, "last_used_ts", f.show(x), now) == st.(lastUsed := x)
  {
    FloatOk(u, f, x);
    var k := "last_used_ts";
    assert k[0] == 'l';
  }

  lemma TailBack(u: Tables, f: Floats, st: RoomState, l: Listing, written: real, now: real)
    requires TablesOk(u) && FloatsOk(f) && 0.0 <= written <= now && ListingOk(f, l, written) && st.lastUsed == 0.0
    ensures ApplyAll(ReaderAt(u, f, now), st, TailFields(u, f, l)) ==
            st.(invited := Unexpired(l.st.invited, now), lastUsed := if l.st.lastUsed > 0.0 then l.st.lastUsed else 0.0)
  {
    var a := [("invited", FormatInvites(u, f, l.invites, l.st.invited))];
    var b := if l.st.lastUsed > 0.0 then [("last_used_ts", f.show(l.st.lastUsed))] else [];
    ApplyAppend(ReaderAt(u, f, now), st, a, b);
    ApplyOne(ReaderAt(u, f, now), st, a[0].0, a[0].1);
    InvitedField(u, f, st, l, written, now);
    var s1 := st.(invited := Unexpired(l.st.invited, now));
    if l.st.lastUsed > 0.0 {
      ApplyOne(ReaderAt(u, f, now), s1, b[0].0, b[0].1);
      LastUsedField(u, f, s1, l.st.lastUsed, now);
    }
  }

  /** A new room after its founder, topic, flags and key have been read. */
  function HalfRead(st: RoomState): RoomState {
    REGISTERED.(founder := st.founder, topic := st.topic, ops := if st.founder.Some? then {st.founder.value} else {},
                modes := st.modes)
  }

  lemma FirstHalf(u: Tables, f: Floats, st: RoomState, now: real)
    requires TablesOk(u)
    ensures ApplyAll(ReaderAt(u, f, now), REGISTERED,
                     HeadFields(u, st) + FlagFields(st.modes) + KeyFields(u, st.modes)) ==
            HalfRead(st)
  {
    var a, b, c := HeadFields(u, st), FlagFields(st.modes), KeyFields(u, st.modes);
    ApplyAppend(ReaderAt(u, f, now), REGISTERED, a + b, c);
    ApplyAppend(ReaderAt(u, f, now), REGISTERED, a, b);
    HeadBack(u, f, st, now);
    var s1 := ApplyAll(ReaderAt(u, f, now), REGISTERED, a);
    FlagsBack(u, f, s1, st.modes, now);
    KeyBack(u, f, s1.(modes := st.modes.(key := "")), st.modes, now);
  }

  function MostRead(st: RoomState): RoomState {
    HalfRead(st).(ops := HalfRead(st).ops + st.ops, voiced := st.voiced, bans := st.bans)
  }

  lemma SecondHalf(u: Tables, f: Floats, l: Listing, written: real, now: real)
    requires TablesOk(u) && FloatsOk(f) && 0.0 <= written <= now && ListingOk(f, l, written)
    ensures ApplyAll(ReaderAt(u, f, now), HalfRead(l.st), SetFields(u, l)) == MostRead(l.st)
    ensures ApplyAll(ReaderAt(u, f, now), MostRead(l.st), TailFields(u, f, l)) == Parsed(l.st, now)
  {
    SetsBack(u, f, HalfRead(l.st), l, now);
    assert {} + l.st.voiced == l.st.voiced && {} + l.st.bans == l.st.bans;
    TailBack(u, f, MostRead(l.st), l, written, now);
    assert HalfRead(l.st).ops + l.st.ops == Parsed(l.st, now).ops;
  }

  lemma Stitch(rd: Reader<RoomState>, a: seq<Field>, b: seq<Field>, c: seq<Field>, s0: RoomState, s1: RoomState,
               s2: RoomState)
    requires ApplyAll(rd, s0, a) == s1 && ApplyAll(rd, s1, b) == s2
    ensures ApplyAll(rd, s0, a + b + c) == ApplyAll(rd, s2, c)
  {
    ApplyAppend(rd, s0, a + b, c);
    ApplyAppend(rd, s0, a, b);
  }

  /** Reading a room's fields into a new room gives the room as Parsed describes it. */
  lemma FieldsBack(u: Tables, f: Floats, l: Listing, written: real, now: real)
    requires TablesOk(u) && FloatsOk(f) && 0.0 <= written <= now && ListingOk(f, l, written)
    ensures ApplyAll(ReaderAt(u, f, now), REGISTERED, Fields(u, f, l)) == Parsed(l.st, now)
  {
    FirstHalf(u, f, l.st, now);
    SecondHalf(u, f, l, written, now);
    Stitch(ReaderAt(u, f, now), HeadFields(u, l.st) + FlagFields(l.st.modes) + KeyFields(u, l.st.modes),
           SetFields(u, l), TailFields(u, f, l), REGISTERED, HalfRead(l.st), MostRead(l.st));
  }

  // ----- every field is well formed -----------------------------------------------------------

  predicate Word(k: string) {
    k != "" && 'a' <= k[0] <= 'z' && forall i :: 0 <= i < |k| ==> 'a' <= k[i] <= 'z' || k[i] == '_'
  }

  lemma WordOk(u: Tables, k: string, v: string)
    requires TablesOk(u) && Word(k) && v != "" && Tight(u, v) && '\n' !in v
    ensures FieldOk(u, (k, v))
  {
    forall i | 0 <= i < |k| ensures u.lower(k[i]) == k[i] && k[i] != '=' && k[i] != '\n' {}
    assert LowerAll(u, k) == k;
  }

  ghost predicate AllOk(u: Tables, fields: seq<Field>) {
    forall i :: 0 <= i < |fields| ==> FieldOk(u, fields[i])
  }

  lemma AllOkBoth(u: Tables, a: seq<Field>, b: seq<Field>)
    requires AllOk(u, a) && AllOk(u, b)
    ensures AllOk(u, a + b)
  {
  }

  lemma QuoteField(u: Tables, k: string, text: string)
    requires TablesOk(u) && Word(k)
    ensures AllOk(u, [(k, Quote(u, text))])
  {
    QuoteTight(u, text);
    QuoteOneLine(u, text);
    WordOk(u, k, Quote(u, text));
  }

  lemma BoolField(u: Tables, k: string, b: bool)
    requires TablesOk(u) && Word(k)
    ensures AllOk(u, [(k, BoolText(b))])
  {
    BoolBack(u, b);
    WordOk(u, k, BoolText(b));
  }

  lemma IdsField(u: Tables, k: string, ids: seq<Key>)
    requires TablesOk(u) && Word(k)
    ensures AllOk(u, [(k, FormatIds(u, ids))])
  {
    FormatIdsOk(u, ids);
    WordOk(u, k, FormatIds(u, ids));
  }

  lemma HeadWords()
    ensures Word("founder") && Word("topic")
  {
  }

  lemma HeadOk(u: Tables, st: RoomState)
    requires TablesOk(u)
    ensures AllOk(u, HeadFields(u, st))
  {
    var a := if st.founder.Some? then [("founder", Quote(u, HexText(st.founder.value)))] else [];
    var b := if st.topic != "" then [("topic", Quote(u, st.topic))] else [];
    HeadWords();
    if st.founder.Some? { QuoteField(u, "founder", HexText(st.founder.value)); }
    QuoteField(u, "topic", st.topic);
    AllOkBoth(u, a, b);
  }

  lemma FlagsOk(u: Tables, m: Modes)
    requires TablesOk(u)
    ensures AllOk(u, FlagFields(m))
  {
    BoolField(u, "moderated", m.moderated);
    BoolField(u, "invite_only", m.inviteOnly);
    BoolField(u, "topic_ops_only", m.topicOpsOnly);
    BoolField(u, "no_outside_msgs", m.noOutside);
    BoolField(u, "private", m.priv);
    var a, b := [("moderated", BoolText(m.moderated))], [("invite_only", BoolText(m.inviteOnly))];
    var c, d := [("topic_ops_only", BoolText(m.topicOpsOnly))], [("no_outside_msgs", BoolText(m.noOutside))];
    var e := [("private", BoolText(m.priv))];
    AllOkBoth(u, a, b);
    AllOkBoth(u, a + b, c);
    AllOkBoth(u, a + b + c, d);
    AllOkBoth(u, a + b + c + d, e);
    assert FlagFields(m) == a + b + c + d + e;
  }

  lemma SetsOk(u: Tables, l: Listing)
    requires TablesOk(u)
    ensures AllOk(u, SetFields(u, l))
  {
    IdsField(u, "operators", l.ops);
    IdsField(u, "voiced", l.voiced);
    IdsField(u, "bans", l.bans);
    var a, b, c := [("operators", FormatIds(u, l.ops))], [("voiced", FormatIds(u, l.voiced))],
                   [("bans", FormatIds(u, l.bans))];
    AllOkBoth(u, a, b);
    AllOkBoth(u, a + b, c);
    assert SetFields(u, l) == a + b + c;
  }

  lemma TailOk(u: Tables, f: Floats, l: Listing, written: real)
    requires TablesOk(u) && FloatsOk(f) && ListingOk(f, l, written)
    ensures AllOk(u, TailFields(u, f, l))
  {
    FormatInvitesOk(u, f, l.invites, l.st.invited);
    WordOk(u, "invited", FormatInvites(u, f, l.invites, l.st.invited));
    if l.st.lastUsed > 0.0 {
      FloatOk(u, f, l.st.lastUsed);
      assert FloatText(f.show(l.st.lastUsed));
      WordOk(u, "last_used_ts", f.show(l.st.lastUsed));
    }
    AllOkBoth(u, [("invited", FormatInvites(u, f, l.invites, l.st.invited))],
              if l.st.lastUsed > 0.0 then [("last_used_ts", f.show(l.st.lastUsed))] else []);
  }

  lemma RoomSectionOk(u: Tables, f: Floats, l: Listing, written: real)
    requires TablesOk(u) && FloatsOk(f) && ListingOk(f, l, written)
    ensures SectionOk(u, Section(l.name, Fields(u, f, l)))
  {
    var a, b, c := HeadFields(u, l.st), FlagFields(l.st.modes), KeyFields(u, l.st.modes);
    HeadOk(u, l.st);
    FlagsOk(u, l.st.modes);
    AllOkBoth(u, a, b);
    QuoteField(u, "key", l.st.modes.key);
    AllOkBoth(u, a + b, c);
    SetsOk(u, l);
    AllOkBoth(u, a + b + c, SetFields(u, l));
    TailOk(u, f, l, written);
    AllOkBoth(u, a + b + c + SetFields(u, l), TailFields(u, f, l));
  }

  // ----- the file -----------------------------------------------------------------------------------

  predicate Writable(ls: seq<Listing>) {
    forall j :: 0 <= j < |ls| ==> InvitesKnown(ls[j])
  }

  predicate InvitesKnown(l: Listing) {
    forall i :: 0 <= i < |l.invites| ==> l.invites[i] in l.st.invited
  }

  function Sections(u: Tables, f: Floats, ls: seq<Listing>): seq<Section>
    requires Writable(ls)
  {
    seq(|ls|, j requires 0 <= j < |ls| => assert InvitesKnown(ls[j]); Section(ls[j].name, Fields(u, f, ls[j])))
  }

  function WriteText(u: Tables, f: Floats, ls: seq<Listing>): string
    requires Writable(ls)
  {
    Flat(FileLines(u, Sections(u, f, ls)))
  }

  /** ls lists exactly the registered rooms of reg, each once. */
  ghost predicate Lists(f: Floats, reg: Registry, ls: seq<Listing>, written: real) {
    && (forall i, j :: 0 <= i < j < |ls| ==> ls[i].name != ls[j].name)
    && (forall i :: 0 <= i < |ls| ==> ListingOk(f, ls[i], written) && ls[i].name in reg && ls[i].st == reg[ls[i].name])
    && (forall name :: name in reg && reg[name].registered ==> exists i :: 0 <= i < |ls| && ls[i].name == name)
  }

  lemma ReadBack(u: Tables, f: Floats, reg: Registry, ls: seq<Listing>, written: real, now: real)
    requires TablesOk(u) && FloatsOk(f) && 0.0 <= written <= now && Lists(f, reg, ls, written) && Writable(ls)
    ensures ParseText(u, ReaderAt(u, f, now), WriteText(u, f, ls)) == Contents(ReaderAt(u, f, now), Sections(u, f, ls))
  {
    var ss := Sections(u, f, ls);
    forall i | 0 <= i < |ss| ensures SectionOk(u, ss[i]) { RoomSectionOk(u, f, ls[i], written); }
    TextBack(u, ReaderAt(u, f, now), ss);
  }

  lemma ReadRoom(u: Tables, f: Floats, reg: Registry, ls: seq<Listing>, written: real, now: real, i: nat)
    requires TablesOk(u) && FloatsOk(f) && 0.0 <= written <= now && Lists(f, reg, ls, written)
    requires Writable(ls) && i < |ls|
    ensures var out := Contents(ReaderAt(u, f, now), Sections(u, f, ls));
            ls[i].name in out &&
            out[ls[i].name] == if ls[i].name == "" then REGISTERED else Parsed(reg[ls[i].name], now)
  {
    ContentsAt(ReaderAt(u, f, now), Sections(u, f, ls), i);
    FieldsBack(u, f, ls[i], written, now);
  }

  lemma ReadNames(u: Tables, f: Floats, reg: Registry, ls: seq<Listing>, written: real, now: real, name: Text)
    requires Lists(f, reg, ls, written) && Writable(ls)
    ensures name in Contents(ReaderAt(u, f, now), Sections(u, f, ls)) <==> name in Saved(reg)
  {
    var ss := Sections(u, f, ls);
    ContentsKeys(ReaderAt(u, f, now), ss, name);
    if name in Saved(reg) {
      var i :| 0 <= i < |ls| && ls[i].name == name;
      assert ss[i].name == name;
    }
    if i :| 0 <= i < |ss| && ss[i].name == name {
      assert ls[i].name == name && ListingOk(f, ls[i], written);
    }
  }

  /** Every room reads back as Parsed describes it, except that a room without a name comes back empty. */
  lemma ReadAll(u: Tables, f: Floats, reg: Registry, ls: seq<Listing>, written: real, now: real, name: Text)
    requires TablesOk(u) && FloatsOk(f) && 0.0 <= written <= now && Lists(f, reg, ls, written) && Writable(ls)
    ensures var out := ParseText(u, ReaderAt(u, f, now), WriteText(u, f, ls));
            && (name in out <==> name in Saved(reg))
            && (name in out ==> out[name] == if name == "" then REGISTERED else Parsed(reg[name], now))
  {
    ReadBack(u, f, reg, ls, written, now);
    ReadNames(u, f, reg, ls, written, now, name);
    if name in Saved(reg) {
      var i :| 0 <= i < |ls| && ls[i].name == name;
      ReadRoom(u, f, reg, ls, written, now, i);
    }
  }

  /** Whether a registered room without a name would lose anything. */
  predicate NothingUnderNoName(reg: Registry, now: real) {
    "" in reg && reg[""].registered ==> Parsed(reg[""], now) == REGISTERED
  }

  /** Two registries that agree but for what stands under the empty name. */
  lemma AgreeIff(out: Registry, reg: Registry, now: real)
    requires forall name: Text :: name in out <==> name in Saved(reg)
    requires forall name: Text :: name in out ==> out[name] == if name == "" then REGISTERED else Parsed(reg[name], now)
    ensures out == Loaded(Saved(reg), now) <==> NothingUnderNoName(reg, now)
  {
    var want := Loaded(Saved(reg), now);
    if NothingUnderNoName(reg, now) {
      assert forall name :: name in out ==> out[name] == want[name];
    } else {
      assert out[""] != want[""];
    }
  }

  /**
   The room registry round trip: whatever order the sets are written in, reading the file gives back exactly the
   registered rooms, provided no room that has anything to lose is registered under the empty name.
   */
  lemma RegistryRoundTrip(u: Tables, f: Floats, reg: Registry, ls: seq<Listing>, written: real, now: real)
    requires TablesOk(u) && FloatsOk(f) && 0.0 <= written <= now && Lists(f, reg, ls, written) && Writable(ls)
    ensures ParseText(u, ReaderAt(u, f, now), WriteText(u, f, ls)) == Loaded(Saved(reg), now) <==>
            NothingUnderNoName(reg, now)
  {
    var out := ParseText(u, ReaderAt(u, f, now), WriteText(u, f, ls));
    forall name: Text
      ensures name in out <==> name in Saved(reg)
      ensures name in out ==> out[name] == if name == "" then REGISTERED else Parsed(reg[name], now)
    {
      ReadAll(u, f, reg, ls, written, now, name);
    }
    AgreeIff(out, reg, now);
  }
}
