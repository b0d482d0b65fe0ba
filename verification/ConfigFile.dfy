/**
 How /kline edits the hub's configuration file (internal/gorrcd/config.go, persistBannedIdentities) and what a
 reload reads back (applyTOML). Only the lines that matter for the ban list are told apart.
 */
module ConfigFile {
  import opened Hub

  /**
   Banned is a line that loading takes as the ban list when it stands in the hub section; `found` says whether
   the editor recognises it too (it compares the key's case, loading does not). Lookalike is a line the editor
   takes for the ban list but loading does not, such as a longer key with the same beginning.
   */
  datatype Line = Header(hub: bool) | Banned(found: bool, ids: set<Key>) | Lookalike | Other

  predicate Found(l: Line) {
    l.Lookalike? || (l.Banned? && l.found)
  }

  /** applyTOML for the ban list: the last such line of the hub section, or of the part before any header, wins. */
  function Load(lines: seq<Line>, hub: bool, ids: set<Key>): set<Key> {
    if lines == [] then ids
    else
      match lines[0]
      case Header(h) => Load(lines[1..], h, ids)
      case Banned(_, b) => Load(lines[1..], hub, if hub then b else ids)
      case _ => Load(lines[1..], hub, ids)
  }

  function EndsInHub(lines: seq<Line>, hub: bool): bool {
    if lines == [] then hub else EndsInHub(lines[1..], if lines[0].Header? then lines[0].hub else hub)
  }

  /** The last ban list of the hub section that the editor does not recognise. */
  function Foreign(lines: seq<Line>, hub: bool, ids: set<Key>): set<Key> {
    if lines == [] then ids
    else
      match lines[0]
      case Header(h) => Foreign(lines[1..], h, ids)
      case Banned(found, b) => Foreign(lines[1..], hub, if hub && !found then b else ids)
      case _ => Foreign(lines[1..], hub, ids)
  }

  datatype Source = Absent | Edited | Untouched

  /** Which kind of line decides the ban list after an edit. */
  function LastSource(lines: seq<Line>, hub: bool, src: Source): Source {
    if lines == [] then src
    else
      var l := lines[0];
      if l.Header? then LastSource(lines[1..], l.hub, src)
      else
        LastSource(lines[1..], hub,
                   if !hub then src else if Found(l) then Edited else if l.Banned? then Untouched else src)
  }

  predicate AnyFound(lines: seq<Line>) {
    exists i :: 0 <= i < |lines| && Found(lines[i])
  }

  function Replaced(lines: seq<Line>, ids: set<Key>): seq<Line> {
    seq(|lines|, i requires 0 <= i < |lines| => if Found(lines[i]) then Banned(true, ids) else lines[i])
  }

  function Persist(lines: seq<Line>, ids: set<Key>): seq<Line> {
    if AnyFound(lines) then Replaced(lines, ids) else lines + [Banned(true, ids)]
  }

  method PersistBanned(lines: seq<Line>, ids: set<Key>) returns (out: seq<Line>)
    ensures out == Persist(lines, ids)
  {
    out := [];
    var replaced := false;
    var i := 0;
    while i < |lines|
      invariant 0 <= i <= |lines|
      invariant out == Replaced(lines[..i], ids)
      invariant replaced <==> AnyFound(lines[..i])
    {
      assert lines[..i + 1] == lines[..i] + [lines[i]];
      if Found(lines[i]) {
        assert Found(lines[..i + 1][i]);
        out := out + [Banned(true, ids)];
        replaced := true;
      } else {
        out := out + [lines[i]];
        assert forall j :: 0 <= j < i ==> lines[..i + 1][j] == lines[..i][j];
      }
      i := i + 1;
    }
    assert lines[..i] == lines;
    if !replaced {
      assert out == lines;
      out := out + [Banned(true, ids)];
    }
  }

  /** Whether an edit decides what the next load sees. */
  predicate Lands(lines: seq<Line>) {
    if AnyFound(lines) then LastSource(lines, true, Absent).Edited? else EndsInHub(lines, true)
  }

  lemma {:induction false} LoadReplaced(lines: seq<Line>, ids: set<Key>, hub: bool, was: set<Key>, other: set<Key>,
                                        src: Source)
    requires src.Edited? ==> was == ids
    requires !src.Edited? ==> was == other
    ensures Load(Replaced(lines, ids), hub, was) ==
            if LastSource(lines, hub, src).Edited? then ids else Foreign(lines, hub, other)
    ensures LastSource(Replaced(lines, ids), hub, src) == LastSource(lines, hub, src)
    ensures Foreign(Replaced(lines, ids), hub, other) == Foreign(lines, hub, other)
    decreases |lines|
  {
    if lines != [] {
      var l, rest := lines[0], lines[1..];
      assert Replaced(lines, ids)[1..] == Replaced(rest, ids);
      var src' := if l.Header? || !hub then src else if Found(l) then Edited else if l.Banned? then Untouched else src;
      var hub' := if l.Header? then l.hub else hub;
      var was' := if hub && Found(l) then ids else if hub && l.Banned? then l.ids else was;
      var other' := if hub && l.Banned? && !l.found then l.ids else other;
      LoadReplaced(rest, ids, hub', was', other', src');
    }
  }

  lemma {:induction false} LoadAppended(lines: seq<Line>, ids: set<Key>, hub: bool, was: set<Key>)
    requires !AnyFound(lines)
    ensures Load(lines + [Banned(true, ids)], hub, was) ==
            if EndsInHub(lines, hub) then ids else Foreign(lines, hub, was)
    ensures Foreign(lines + [Banned(true, ids)], hub, was) == Foreign(lines, hub, was) == Load(lines, hub, was)
    ensures forall src :: LastSource(lines + [Banned(true, ids)], hub, src) ==
              if EndsInHub(lines, hub) then Edited else LastSource(lines, hub, src)
    decreases |lines|
  {
    if lines != [] {
      var l, rest := lines[0], lines[1..];
      assert (lines + [Banned(true, ids)])[1..] == rest + [Banned(true, ids)];
      assert !Found(l);
      assert forall i :: 0 <= i < |rest| ==> rest[i] == lines[i + 1];
      LoadAppended(rest, ids, if l.Header? then l.hub else hub, if hub && l.Banned? then l.ids else was);
    } else {
      assert [Banned(true, ids)][1..] == [];
    }
  }

  lemma {:induction false} NeverEdited(lines: seq<Line>, hub: bool, src: Source)
    requires !AnyFound(lines) && !src.Edited?
    ensures !LastSource(lines, hub, src).Edited?
    decreases |lines|
  {
    if lines != [] {
      var l := lines[0];
      assert !Found(l);
      assert forall i :: 0 <= i < |lines[1..]| ==> lines[1..][i] == lines[i + 1];
      NeverEdited(lines[1..], if l.Header? then l.hub else hub, if hub && l.Banned? then Untouched else src);
    }
  }

  /** An edit reaches the next load exactly when it lands; otherwise no edit ever changes what is loaded. */
  lemma PersistThenLoad(lines: seq<Line>, ids: set<Key>)
    ensures Load(Persist(lines, ids), true, {}) == if Lands(lines) then ids else Foreign(lines, true, {})
    ensures Lands(Persist(lines, ids)) == Lands(lines)
    ensures Foreign(Persist(lines, ids), true, {}) == Foreign(lines, true, {})
  {
    var out := Persist(lines, ids);
    if AnyFound(lines) {
      LoadReplaced(lines, ids, true, {}, {}, Absent);
      var i :| 0 <= i < |lines| && Found(lines[i]);
      assert Found(out[i]);
    } else {
      LoadAppended(lines, ids, true, {});
      NeverEdited(lines, true, Absent);
      assert Found(out[|lines|]);
    }
  }

  lemma {:induction false} LoadIsLast(lines: seq<Line>, hub: bool, was: set<Key>, other: set<Key>, src: Source)
    requires !src.Edited? ==> was == other
    ensures !LastSource(lines, hub, src).Edited? ==> Load(lines, hub, was) == Foreign(lines, hub, other)
    decreases |lines|
  {
    if lines != [] {
      var l := lines[0];
      var src' := if l.Header? || !hub then src else if Found(l) then Edited else if l.Banned? then Untouched else src;
      LoadIsLast(lines[1..], if l.Header? then l.hub else hub, if hub && l.Banned? then l.ids else was,
                 if hub && l.Banned? && !l.found then l.ids else other, src');
    }
  }

  lemma LoadWithoutLanding(lines: seq<Line>)
    requires !Lands(lines)
    ensures Load(lines, true, {}) == Foreign(lines, true, {})
  {
    if AnyFound(lines) {
      LoadIsLast(lines, true, {}, {}, Absent);
    } else {
      LoadAppended(lines, {}, true, {});
    }
  }
}
