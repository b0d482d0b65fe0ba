/**
 The RRC hub (pkg/rrc/hub.go, hub_ops.go): sessions, room membership and the nickname index.
 Each handler is one atomic step. Texts are sequences of characters; length limits count their UTF-8 bytes.
 */
module Hub {
  import opened Bytes

  type Key = k: seq<byte> | |k| == 16 witness seq(16, _ => 0)
  type Sid = nat
  type Text = string

  function CharBytes(c: char): nat {
    if c as int < 0x80 then 1 else if c as int < 0x800 then 2 else if c as int < 0x10000 then 3 else 4
  }

  /** The length of a text in UTF-8, which is what the limits count. */
  function ByteLength(t: Text): nat {
    if t == "" then 0 else CharBytes(t[0]) + ByteLength(t[1..])
  }

  type Index = map<Text, set<Key>>

  datatype Config = Config(maxRooms: nat, maxRoomName: nat, maxNick: nat, maxBody: nat, policy: bool,
                           fold: Text -> Text, sanitize: Text -> Text)

  /** fold trims and lowers (NormalizeRoom and the nick index agree); sanitize drops controls. */
  ghost predicate ConfigOk(cfg: Config) {
    && (forall x :: cfg.fold(cfg.fold(x)) == cfg.fold(x))
    && (forall x :: cfg.fold(cfg.sanitize(cfg.sanitize(x))) == cfg.fold(cfg.sanitize(x)))
    && cfg.fold("") == ""
  }

  datatype Kind = Hello | Join | Part | Content | Pong | Other

  datatype Envelope = Envelope(kind: Kind, room: Text, nick: Option<Text>, legacy: Text)

  datatype Session = Session(key: Option<Key>, active: bool, rooms: set<Text>, nick: Text,
                             pending: Option<Envelope>, closed: bool)

  const NEW := Session(None, false, {}, "", None, false)

  datatype State = State(peers: map<Key, Sid>, sessions: map<Sid, Session>, rooms: Index, nicks: Index)

  function Get(s: State, sid: Sid): Session {
    if sid in s.sessions then s.sessions[sid] else NEW
  }

  function Put(s: State, sid: Sid, p: Session): State {
    s.(sessions := s.sessions[sid := p])
  }

  // ----- indexes --------------------------------------------------------------

  function At(m: Index, x: Text): set<Key> {
    if x in m then m[x] else {}
  }

  ghost predicate NoEmpty(m: Index) {
    forall x :: x in m ==> m[x] != {}
  }

  function Enter(m: Index, x: Text, k: Key): Index {
    m[x := At(m, x) + {k}]
  }

  function Leave(m: Index, xs: set<Text>, k: Key): Index {
    map x | x in m && (x in xs ==> m[x] - {k} != {}) :: if x in xs then m[x] - {k} else m[x]
  }

  lemma EnterAt(m: Index, x: Text, k: Key, y: Text, j: Key)
    ensures j in At(Enter(m, x, k), y) <==> j in At(m, y) || (y == x && j == k)
    ensures NoEmpty(m) ==> NoEmpty(Enter(m, x, k))
  {
    if NoEmpty(m) {
      forall z | z in Enter(m, x, k) ensures Enter(m, x, k)[z] != {} {
        if z == x { assert k in Enter(m, x, k)[z]; }
      }
    }
  }

  lemma LeaveAt(m: Index, xs: set<Text>, k: Key, y: Text, j: Key)
    ensures j in At(Leave(m, xs, k), y) <==> j in At(m, y) && !(y in xs && j == k)
    ensures NoEmpty(m) ==> NoEmpty(Leave(m, xs, k))
  {
    if j in At(m, y) && !(y in xs && j == k) && y in xs {
      assert j in m[y] - {k};
    }
  }

  lemma LeaveMore(m: Index, xs: set<Text>, x: Text, k: Key)
    ensures Leave(Leave(m, xs, k), {x}, k) == Leave(m, xs + {x}, k)
  {
    var l, r := Leave(Leave(m, xs, k), {x}, k), Leave(m, xs + {x}, k);
    assert forall y :: y in l <==> y in r;
    assert forall y :: y in l ==> l[y] == r[y];
  }

  lemma LeaveNone(m: Index, k: Key)
    ensures Leave(m, {}, k) == m
  {
  }

  // ----- handlers, as functions of the state ------------------------------------

  function Unindex(cfg: Config, nicks: Index, k: Key, nick: Text): Index {
    if cfg.fold(nick) == "" then nicks else Leave(nicks, {cfg.fold(nick)}, k)
  }

  function Reindex(cfg: Config, nicks: Index, k: Key, was: Text, nick: Text): Index {
    var cut := Unindex(cfg, nicks, k, was);
    if cfg.fold(nick) == "" then cut else Enter(cut, cfg.fold(nick), k)
  }

  /** dropPeerIf: only the current session of a key takes the key out. */
  function Drop(cfg: Config, s: State, sid: Sid): State {
    var p := Get(s, sid);
    if p.key.None? || p.key.value !in s.peers || s.peers[p.key.value] != sid then s
    else
      var k := p.key.value;
      State(s.peers - {k}, s.sessions[sid := p.(rooms := {})],
            Leave(s.rooms, p.rooms, k), Unindex(cfg, s.nicks, k, p.nick))
  }

  function Close(cfg: Config, s: State, sid: Sid): State {
    if Get(s, sid).closed then s else Drop(cfg, Put(s, sid, Get(s, sid).(closed := true)), sid)
  }

  /** The body that registration runs once: the key moves to this session, an older one is closed. */
  function Claim(cfg: Config, s: State, sid: Sid, k: Key): State {
    var p := Get(s, sid).(key := Some(k));
    if k in s.peers && s.peers[k] != sid then
      var prev := s.peers[k];
      Close(cfg, State(s.peers[k := sid], s.sessions[sid := p], Leave(s.rooms, Get(s, prev).rooms, k), s.nicks), prev)
    else State(s.peers[k := sid], s.sessions[sid := p], s.rooms, s.nicks)
  }

  predicate NickTooLong(cfg: Config, nick: Text) {
    ByteLength(cfg.sanitize(nick)) > cfg.maxNick
  }

  /** applyInboundNick for a nickname that is not too long. */
  function SetNick(cfg: Config, s: State, sid: Sid, nick: Text): State {
    var p, n := Get(s, sid), cfg.sanitize(nick);
    if n == "" || n == p.nick then s
    else
      var s' := Put(s, sid, p.(nick := cfg.sanitize(n)));
      if p.key.None? then s' else s'.(nicks := Reindex(cfg, s.nicks, p.key.value, p.nick, n))
  }

  function DoHello(cfg: Config, s: State, sid: Sid, sent: bool): State {
    var s' := Put(s, sid, Get(s, sid).(active := true));
    if sent then s' else Close(cfg, s', sid)
  }

  predicate JoinOk(cfg: Config, p: Session, room: Text, allow: bool) {
    var r := cfg.fold(room);
    r != "" && ByteLength(r) <= cfg.maxRoomName && allow && r !in p.rooms && |p.rooms| < cfg.maxRooms && p.key.Some?
  }

  function DoJoin(cfg: Config, s: State, sid: Sid, room: Text, allow: bool): State {
    var p, r := Get(s, sid), cfg.fold(room);
    if !JoinOk(cfg, p, room, allow) then s
    else Put(s, sid, p.(rooms := p.rooms + {r})).(rooms := Enter(s.rooms, r, p.key.value))
  }

  function DoPart(s: State, sid: Sid, gone: set<Text>): State {
    var p := Get(s, sid);
    if p.key.None? || gone * p.rooms == {} then s
    else Put(s, sid, p.(rooms := p.rooms - gone)).(rooms := Leave(s.rooms, gone * p.rooms, p.key.value))
  }

  /** reHello: the session leaves every room and is welcomed again. */
  function DoReHello(cfg: Config, s: State, sid: Sid, sent: bool): State {
    var s' := DoPart(s, sid, Get(s, sid).rooms);
    DoHello(cfg, Put(s', sid, Get(s', sid).(active := false)), sid, sent)
  }

  function DoRemove(cfg: Config, s: State, k: Key, room: Text): State {
    if k !in s.peers then s else DoPart(s, s.peers[k], {cfg.fold(room)})
  }

  /** What policy, rate limit and transport answer while one envelope is handled. */
  datatype Verdict = Verdict(token: bool, allow: bool, sent: bool)

  datatype Named = Go(s: State) | Stop(s: State)

  function NickStep(cfg: Config, s: State, sid: Sid, env: Envelope): Named {
    var quiet := !Get(s, sid).active;
    if env.nick.Some? then
      if NickTooLong(cfg, env.nick.value) then Stop(if quiet then Close(cfg, s, sid) else s)
      else Go(SetNick(cfg, s, sid, env.nick.value))
    else if env.kind.Hello? && env.legacy != "" then
      if NickTooLong(cfg, env.legacy) then (if quiet then Stop(Close(cfg, s, sid)) else Go(s))
      else Go(SetNick(cfg, s, sid, env.legacy))
    else Go(s)
  }

  function Handle(cfg: Config, s: State, sid: Sid, env: Envelope, v: Verdict): State {
    if !v.token then s
    else
      var active, named := Get(s, sid).active, NickStep(cfg, s, sid, env);
      var s' := named.s;
      if named.Stop? || env.kind.Pong? then s'
      else if !active then (if env.kind.Hello? then DoHello(cfg, s', sid, v.sent) else s')
      else
        match env.kind
        case Hello => DoReHello(cfg, s', sid, v.sent)
        case Join => DoJoin(cfg, s', sid, env.room, v.allow)
        case Part => if cfg.fold(env.room) == "" then s' else DoPart(s', sid, {cfg.fold(env.room)})
        case _ => s'
  }

  function Register(cfg: Config, s: State, sid: Sid, k: Key, identOk: bool, v: Verdict): State {
    var s1 := if Get(s, sid).key.None? then Claim(cfg, s, sid, k) else s;
    var p := Get(s1, sid);
    if !identOk then Close(cfg, s1, sid)
    else if p.pending.Some? then Handle(cfg, Put(s1, sid, p.(pending := None)), sid, p.pending.value, v)
    else s1
  }

  function Receive(cfg: Config, s: State, sid: Sid, remote: Option<Key>, identOk: bool, first: Verdict,
                   env: Envelope, v: Verdict): State {
    var s1 := if remote.Some? then Register(cfg, s, sid, remote.value, identOk, first) else s;
    var p := Get(s1, sid);
    if p.key.Some? then Handle(cfg, s1, sid, env, v)
    else if env.kind.Hello? then Put(s1, sid, p.(pending := Some(env)))
    else s1
  }

  datatype Event =
    | Accepted(sid: Sid)
    | Identified(sid: Sid, key: Key, identOk: bool, v: Verdict)
    | Received(sid: Sid, remote: Option<Key>, identOk: bool, first: Verdict, env: Envelope, v: Verdict)
    | Closed(sid: Sid)
    | Removed(key: Key, room: Text)
    | Disconnected(key: Key)

  /** A closed or replaced session receives no further events. */
  predicate Enabled(s: State, e: Event) {
    match e
    case Accepted(sid) => sid !in s.sessions
    case Identified(sid, k, _, _) => sid in s.sessions && !s.sessions[sid].closed && KeyFits(s.sessions[sid], k)
    case Received(sid, remote, _, _, _, _) =>
      sid in s.sessions && !s.sessions[sid].closed && (remote.Some? ==> KeyFits(s.sessions[sid], remote.value))
    case Closed(sid) => sid in s.sessions && !s.sessions[sid].closed
    case _ => true
  }

  /** A link identifies as one identity only. */
  predicate KeyFits(p: Session, k: Key) {
    p.key.None? || p.key == Some(k)
  }

  function Step(cfg: Config, s: State, e: Event): State {
    match e
    case Accepted(sid) => Put(s, sid, NEW)
    case Identified(sid, k, ok, v) => Register(cfg, s, sid, k, ok, v)
    case Received(sid, remote, ok, first, env, v) => Receive(cfg, s, sid, remote, ok, first, env, v)
    case Closed(sid) => Close(cfg, s, sid)
    case Removed(k, room) => DoRemove(cfg, s, k, room)
    case Disconnected(k) => if k in s.peers then Close(cfg, s, s.peers[k]) else s
  }

  // ----- the invariant -----------------------------------------------------------

  predicate Current(s: State, sid: Sid) {
    Get(s, sid).key.Some? && Get(s, sid).key.value in s.peers && s.peers[Get(s, sid).key.value] == sid
  }

  predicate Listed(s: State, k: Key, r: Text) {
    k in s.peers && r in Get(s, s.peers[k]).rooms
  }

  /** What holds of the session a key currently has. */
  predicate PeerOk(cfg: Config, s: State, k: Key, p: Session) {
    && p.key == Some(k) && !p.closed
    && |p.rooms| <= cfg.maxRooms
    && (p.rooms != {} ==> p.active)
    && (cfg.fold(p.nick) != "" ==> k in At(s.nicks, cfg.fold(p.nick)))
    && (forall r :: r in p.rooms ==> cfg.fold(r) == r != "")
  }

  predicate SessionOk(s: State, sid: Sid, p: Session) {
    && (p.key.None? ==> !p.active && p.rooms == {} && p.nick == "")
    && (p.pending.Some? ==> p.pending.value.kind.Hello?)
    && (p.key.Some? && !p.closed ==> Current(s, sid))
  }

  ghost predicate Inverse(s: State) {
    forall k: Key, r: Text :: k in At(s.rooms, r) <==> Listed(s, k, r)
  }

  ghost predicate Inv(cfg: Config, s: State) {
    && Inverse(s)
    && NoEmpty(s.rooms)
    && (forall k :: k in s.peers ==> s.peers[k] in s.sessions && PeerOk(cfg, s, k, Get(s, s.peers[k])))
    && (forall sid :: sid in s.sessions ==> SessionOk(s, sid, Get(s, sid)))
  }

  /** A registered session whose key is gone: closed by the policy while its envelope is handled. */
  predicate Gone(s: State, sid: Sid) {
    sid in s.sessions && Get(s, sid).closed && Get(s, sid).key.Some? && Get(s, sid).key.value !in s.peers
  }

  predicate Left(s: State, sid: Sid) {
    Gone(s, sid) && Get(s, sid).rooms == {}
  }

  // ----- every handler keeps the invariant --------------------------------------

  lemma DropInverse(cfg: Config, s: State, sid: Sid, s': State, j: Key, r: Text)
    requires Inv(cfg, s) && Current(s, sid) && s' == Drop(cfg, Put(s, sid, Get(s, sid).(closed := true)), sid)
    ensures j in At(s'.rooms, r) <==> Listed(s', j, r)
  {
    var p := Get(s, sid);
    LeaveAt(s.rooms, p.rooms, p.key.value, r, j);
    assert j in At(s.rooms, r) <==> Listed(s, j, r);
    if j in s.peers { assert PeerOk(cfg, s, j, Get(s, s.peers[j])); }
  }

  lemma DropPeer(cfg: Config, s: State, sid: Sid, s': State, j: Key)
    requires Inv(cfg, s) && Current(s, sid) && s' == Drop(cfg, Put(s, sid, Get(s, sid).(closed := true)), sid)
    requires j in s'.peers
    ensures s'.peers[j] in s'.sessions && PeerOk(cfg, s', j, Get(s', s'.peers[j]))
  {
    var p, q := Get(s, sid), Get(s, s.peers[j]);
    assert PeerOk(cfg, s, j, q);
    LeaveAt(s.nicks, {cfg.fold(p.nick)}, p.key.value, cfg.fold(q.nick), j);
  }

  lemma DropKeeps(cfg: Config, s: State, sid: Sid)
    requires Inv(cfg, s) && Current(s, sid)
    ensures Inv(cfg, Drop(cfg, Put(s, sid, Get(s, sid).(closed := true)), sid))
    ensures Left(Drop(cfg, Put(s, sid, Get(s, sid).(closed := true)), sid), sid)
  {
    var s', p := Drop(cfg, Put(s, sid, Get(s, sid).(closed := true)), sid), Get(s, sid);
    forall j: Key, r: Text ensures j in At(s'.rooms, r) <==> Listed(s', j, r) {
      DropInverse(cfg, s, sid, s', j, r);
    }
    LeaveAt(s.rooms, p.rooms, p.key.value, "", p.key.value);
    forall j | j in s'.peers ensures s'.peers[j] in s'.sessions && PeerOk(cfg, s', j, Get(s', s'.peers[j])) {
      DropPeer(cfg, s, sid, s', j);
    }
    forall t | t in s'.sessions ensures SessionOk(s', t, Get(s', t)) {
      assert SessionOk(s, t, Get(s, t));
    }
  }

  lemma CloseKeeps(cfg: Config, s: State, sid: Sid)
    requires ConfigOk(cfg) && Inv(cfg, s) && sid in s.sessions
    ensures Inv(cfg, Close(cfg, s, sid))
    ensures Current(s, sid) ==> Left(Close(cfg, s, sid), sid)
  {
    if !Get(s, sid).closed {
      if Get(s, sid).key.Some? {
        assert SessionOk(s, sid, Get(s, sid));
        DropKeeps(cfg, s, sid);
      } else {
        var s' := Close(cfg, s, sid);
        forall j: Key, r: Text ensures j in At(s'.rooms, r) <==> Listed(s', j, r) {
          assert j in At(s.rooms, r) <==> Listed(s, j, r);
        }
      }
    }
  }

  /** Every peer's session is open and carries its key, and every open session with a key is current. */
  ghost predicate Base(s: State) {
    && (forall k :: k in s.peers ==>
          s.peers[k] in s.sessions && Get(s, s.peers[k]).key == Some(k) && !Get(s, s.peers[k]).closed)
    && (forall sid :: sid in s.sessions ==> SessionOk(s, sid, Get(s, sid)))
  }

  lemma InvBase(cfg: Config, s: State)
    requires Inv(cfg, s)
    ensures Base(s)
  {
    forall k | k in s.peers ensures Get(s, s.peers[k]).key == Some(k) && !Get(s, s.peers[k]).closed {
      assert PeerOk(cfg, s, k, Get(s, s.peers[k]));
    }
  }

  /** Claiming closes the replaced session but leaves its own room list as it was. */
  lemma ClaimShape(cfg: Config, s: State, sid: Sid, k: Key)
    requires Base(s) && sid in s.sessions && !Get(s, sid).closed && Get(s, sid).key.None?
    ensures var s', p := Claim(cfg, s, sid, k), Get(s, sid).(key := Some(k));
            && s'.peers == s.peers[k := sid] && s'.nicks == s.nicks
            && s'.rooms == Leave(s.rooms, OldRooms(s, k), k)
            && s'.sessions ==
               (if k in s.peers then s.sessions[sid := p][s.peers[k] := Get(s, s.peers[k]).(closed := true)]
                               else s.sessions[sid := p])
  {
    LeaveNone(s.rooms, k);
  }

  function OldRooms(s: State, k: Key): set<Text> {
    if k in s.peers then Get(s, s.peers[k]).rooms else {}
  }

  lemma ClaimInverse(cfg: Config, s: State, sid: Sid, k: Key, s': State, j: Key, r: Text)
    requires Inv(cfg, s) && sid in s.sessions && !Get(s, sid).closed && Get(s, sid).key.None?
    requires s' == Claim(cfg, s, sid, k)
    ensures j in At(s'.rooms, r) <==> Listed(s', j, r)
  {
    InvBase(cfg, s);
    ClaimShape(cfg, s, sid, k);
    LeaveAt(s.rooms, OldRooms(s, k), k, r, j);
    assert j in At(s.rooms, r) <==> Listed(s, j, r);
    assert SessionOk(s, sid, Get(s, sid));
    if j in s.peers { assert PeerOk(cfg, s, j, Get(s, s.peers[j])); }
    if k in s.peers { assert PeerOk(cfg, s, k, Get(s, s.peers[k])); }
  }

  lemma ClaimPeer(cfg: Config, s: State, sid: Sid, k: Key, s': State, j: Key)
    requires ConfigOk(cfg) && Inv(cfg, s) && sid in s.sessions && !Get(s, sid).closed && Get(s, sid).key.None?
    requires s' == Claim(cfg, s, sid, k) && j in s'.peers
    ensures s'.peers[j] in s'.sessions && PeerOk(cfg, s', j, Get(s', s'.peers[j]))
  {
    InvBase(cfg, s);
    ClaimShape(cfg, s, sid, k);
    assert SessionOk(s, sid, Get(s, sid));
    if k in s.peers { assert PeerOk(cfg, s, k, Get(s, s.peers[k])); }
    if j != k { assert PeerOk(cfg, s, j, Get(s, s.peers[j])); }
  }

  lemma ClaimSession(cfg: Config, s: State, sid: Sid, k: Key, s': State, t: Sid)
    requires Inv(cfg, s) && sid in s.sessions && !Get(s, sid).closed && Get(s, sid).key.None?
    requires s' == Claim(cfg, s, sid, k) && t in s'.sessions
    ensures SessionOk(s', t, Get(s', t))
  {
    InvBase(cfg, s);
    ClaimShape(cfg, s, sid, k);
    assert SessionOk(s, t, Get(s, t));
    if k in s.peers { assert PeerOk(cfg, s, k, Get(s, s.peers[k])); }
  }

  lemma ClaimKeeps(cfg: Config, s: State, sid: Sid, k: Key)
    requires ConfigOk(cfg) && Inv(cfg, s) && sid in s.sessions && !Get(s, sid).closed && Get(s, sid).key.None?
    ensures Inv(cfg, Claim(cfg, s, sid, k)) && Current(Claim(cfg, s, sid, k), sid)
    ensures Get(Claim(cfg, s, sid, k), sid) == Get(s, sid).(key := Some(k))
  {
    var s' := Claim(cfg, s, sid, k);
    forall j: Key, r: Text ensures j in At(s'.rooms, r) <==> Listed(s', j, r) {
      ClaimInverse(cfg, s, sid, k, s', j, r);
    }
    forall j | j in s'.peers ensures s'.peers[j] in s'.sessions && PeerOk(cfg, s', j, Get(s', s'.peers[j])) {
      ClaimPeer(cfg, s, sid, k, s', j);
    }
    forall t | t in s'.sessions ensures SessionOk(s', t, Get(s', t)) {
      ClaimSession(cfg, s, sid, k, s', t);
    }
    InvBase(cfg, s);
    ClaimShape(cfg, s, sid, k);
    LeaveAt(s.rooms, OldRooms(s, k), k, "", k);
    if k in s.peers { assert PeerOk(cfg, s, k, Get(s, s.peers[k])); }
  }

  /** Changing the nickname, active flag or pending HELLO of a session keeps what it does not touch. */
  lemma PutKeeps(cfg: Config, s: State, s': State, sid: Sid)
    requires Inv(cfg, s) && sid in s.sessions
    requires s'.peers == s.peers && s'.rooms == s.rooms && s'.sessions == s.sessions[sid := Get(s', sid)]
    requires Get(s', sid).key == Get(s, sid).key && Get(s', sid).rooms == Get(s, sid).rooms
    requires Get(s', sid).closed == Get(s, sid).closed
    requires Get(s', sid).key.None? ==> !Get(s', sid).active && Get(s', sid).nick == ""
    requires Get(s', sid).pending.Some? ==> Get(s', sid).pending.value.kind.Hello?
    requires Current(s, sid) ==> PeerOk(cfg, s', Get(s, sid).key.value, Get(s', sid))
    requires forall j :: j in s.peers && s.peers[j] != sid ==> PeerOk(cfg, s', j, Get(s, s.peers[j]))
    ensures Inv(cfg, s')
  {
    forall j: Key, r: Text ensures j in At(s'.rooms, r) <==> Listed(s', j, r) {
      assert j in At(s.rooms, r) <==> Listed(s, j, r);
    }
    forall j | j in s'.peers ensures s'.peers[j] in s'.sessions && PeerOk(cfg, s', j, Get(s', s'.peers[j])) {
      assert PeerOk(cfg, s, j, Get(s, s.peers[j]));
    }
    forall t | t in s'.sessions ensures SessionOk(s', t, Get(s', t)) {
      assert SessionOk(s, t, Get(s, t));
    }
  }

  lemma ReindexAt(cfg: Config, nicks: Index, k: Key, was: Text, nick: Text, y: Text, j: Key)
    ensures j != k ==> (j in At(Reindex(cfg, nicks, k, was, nick), y) <==> j in At(nicks, y))
    ensures cfg.fold(nick) != "" ==> k in At(Reindex(cfg, nicks, k, was, nick), cfg.fold(nick))
  {
    LeaveAt(nicks, {cfg.fold(was)}, k, y, j);
    EnterAt(Unindex(cfg, nicks, k, was), cfg.fold(nick), k, y, j);
  }

  lemma SetNickKeeps(cfg: Config, s: State, sid: Sid, nick: Text)
    requires ConfigOk(cfg) && Inv(cfg, s) && (Current(s, sid) || Gone(s, sid))
    ensures Inv(cfg, SetNick(cfg, s, sid, nick))
    ensures Current(SetNick(cfg, s, sid, nick), sid) == Current(s, sid)
    ensures Get(SetNick(cfg, s, sid, nick), sid) == Get(s, sid).(nick := Get(SetNick(cfg, s, sid, nick), sid).nick)
    ensures SetNick(cfg, s, sid, nick).peers == s.peers
  {
    var s', p, n := SetNick(cfg, s, sid, nick), Get(s, sid), cfg.sanitize(nick);
    if Current(s, sid) { assert PeerOk(cfg, s, p.key.value, p); }
    if n != "" && n != p.nick {
      ReindexAt(cfg, s.nicks, p.key.value, p.nick, n, "", p.key.value);
      forall j | j in s.peers && s.peers[j] != sid ensures PeerOk(cfg, s', j, Get(s, s.peers[j])) {
        var q := Get(s, s.peers[j]);
        assert PeerOk(cfg, s, j, q);
        ReindexAt(cfg, s.nicks, p.key.value, p.nick, n, cfg.fold(q.nick), j);
      }
      PutKeeps(cfg, s, s', sid);
    }
  }

  /** Setting the active flag or the pending HELLO. */
  lemma FlagKeeps(cfg: Config, s: State, sid: Sid, p: Session)
    requires Inv(cfg, s) && sid in s.sessions
    requires p == Get(s, sid).(active := p.active, pending := p.pending)
    requires p.key.None? ==> !p.active
    requires p.pending == Get(s, sid).pending || (p.pending.Some? ==> p.pending.value.kind.Hello?)
    requires Current(s, sid) && p.rooms != {} ==> p.active
    ensures Inv(cfg, Put(s, sid, p)) && Current(Put(s, sid, p), sid) == Current(s, sid)
    ensures Gone(Put(s, sid, p), sid) == Gone(s, sid)
  {
    var s' := Put(s, sid, p);
    assert SessionOk(s, sid, Get(s, sid));
    forall j | j in s.peers ensures PeerOk(cfg, s', j, if s.peers[j] == sid then p else Get(s, s.peers[j])) {
      assert PeerOk(cfg, s, j, Get(s, s.peers[j]));
    }
    PutKeeps(cfg, s, s', sid);
  }

  lemma HelloKeeps(cfg: Config, s: State, sid: Sid, sent: bool)
    requires ConfigOk(cfg) && Inv(cfg, s) && (Current(s, sid) || Gone(s, sid))
    ensures Inv(cfg, DoHello(cfg, s, sid, sent))
    ensures Current(s, sid) ==> Current(DoHello(cfg, s, sid, sent), sid) || Left(DoHello(cfg, s, sid, sent), sid)
  {
    FlagKeeps(cfg, s, sid, Get(s, sid).(active := true));
    CloseKeeps(cfg, Put(s, sid, Get(s, sid).(active := true)), sid);
  }

  lemma JoinListed(cfg: Config, s: State, sid: Sid, room: Text, j: Key, x: Text)
    requires Inv(cfg, s) && Current(s, sid) && JoinOk(cfg, Get(s, sid), room, true)
    ensures Listed(DoJoin(cfg, s, sid, room, true), j, x) <==>
            Listed(s, j, x) || (x == cfg.fold(room) && j == Get(s, sid).key.value)
  {
    if j in s.peers { assert PeerOk(cfg, s, j, Get(s, s.peers[j])); }
  }

  lemma JoinInverse(cfg: Config, s: State, sid: Sid, room: Text, s': State, j: Key, x: Text)
    requires Inv(cfg, s) && Current(s, sid) && JoinOk(cfg, Get(s, sid), room, true)
    requires s' == DoJoin(cfg, s, sid, room, true)
    ensures j in At(s'.rooms, x) <==> Listed(s', j, x)
  {
    EnterAt(s.rooms, cfg.fold(room), Get(s, sid).key.value, x, j);
    assert j in At(s.rooms, x) <==> Listed(s, j, x);
    JoinListed(cfg, s, sid, room, j, x);
  }

  lemma JoinPeer(cfg: Config, s: State, sid: Sid, room: Text, s': State, j: Key)
    requires ConfigOk(cfg) && Inv(cfg, s) && Current(s, sid) && Get(s, sid).active && j in s.peers
    requires JoinOk(cfg, Get(s, sid), room, true) && s' == DoJoin(cfg, s, sid, room, true)
    ensures s'.peers[j] in s'.sessions && PeerOk(cfg, s', j, Get(s', s'.peers[j]))
  {
    assert PeerOk(cfg, s, j, Get(s, s.peers[j]));
  }

  lemma JoinKeeps(cfg: Config, s: State, sid: Sid, room: Text, allow: bool)
    requires ConfigOk(cfg) && Inv(cfg, s) && Current(s, sid) && Get(s, sid).active
    ensures Inv(cfg, DoJoin(cfg, s, sid, room, allow)) && Current(DoJoin(cfg, s, sid, room, allow), sid)
  {
    var s' := DoJoin(cfg, s, sid, room, allow);
    if JoinOk(cfg, Get(s, sid), room, allow) {
      forall j: Key, x: Text ensures j in At(s'.rooms, x) <==> Listed(s', j, x) {
        JoinInverse(cfg, s, sid, room, s', j, x);
      }
      EnterAt(s.rooms, cfg.fold(room), Get(s, sid).key.value, "", Get(s, sid).key.value);
      forall j | j in s'.peers ensures s'.peers[j] in s'.sessions && PeerOk(cfg, s', j, Get(s', s'.peers[j])) {
        JoinPeer(cfg, s, sid, room, s', j);
      }
      forall t | t in s'.sessions ensures SessionOk(s', t, Get(s', t)) {
        assert SessionOk(s, t, Get(s, t));
      }
    }
  }

  lemma PartInverse(cfg: Config, s: State, sid: Sid, gone: set<Text>, s': State, j: Key, x: Text)
    requires Inv(cfg, s) && Current(s, sid) && s' == DoPart(s, sid, gone)
    ensures j in At(s'.rooms, x) <==> Listed(s', j, x)
  {
    var p := Get(s, sid);
    assert j in At(s.rooms, x) <==> Listed(s, j, x);
    LeaveAt(s.rooms, gone * p.rooms, p.key.value, x, j);
    if j in s.peers { assert PeerOk(cfg, s, j, Get(s, s.peers[j])); }
  }

  lemma PartPeer(cfg: Config, s: State, sid: Sid, gone: set<Text>, s': State, j: Key)
    requires Inv(cfg, s) && Current(s, sid) && s' == DoPart(s, sid, gone) && j in s.peers
    ensures s'.peers[j] in s'.sessions && PeerOk(cfg, s', j, Get(s', s'.peers[j]))
  {
    assert PeerOk(cfg, s, j, Get(s, s.peers[j]));
    Fewer(Get(s, sid).rooms, gone);
  }

  lemma PartKeeps(cfg: Config, s: State, sid: Sid, gone: set<Text>)
    requires Inv(cfg, s) && (Current(s, sid) || Left(s, sid))
    ensures Inv(cfg, DoPart(s, sid, gone))
    ensures DoPart(s, sid, gone).peers == s.peers
    ensures Get(DoPart(s, sid, gone), sid) == Get(s, sid).(rooms := Get(s, sid).rooms - gone)
  {
    var s', p := DoPart(s, sid, gone), Get(s, sid);
    if gone * p.rooms == {} {
      assert forall r :: r in p.rooms && r in gone ==> r in gone * p.rooms;
      assert p.rooms - gone == p.rooms;
    } else {
      forall j: Key, x: Text ensures j in At(s'.rooms, x) <==> Listed(s', j, x) {
        PartInverse(cfg, s, sid, gone, s', j, x);
      }
      LeaveAt(s.rooms, gone * p.rooms, p.key.value, "", p.key.value);
      forall j | j in s'.peers ensures s'.peers[j] in s'.sessions && PeerOk(cfg, s', j, Get(s', s'.peers[j])) {
        PartPeer(cfg, s, sid, gone, s', j);
      }
      forall t | t in s'.sessions ensures SessionOk(s', t, Get(s', t)) {
        assert SessionOk(s, t, Get(s, t));
      }
    }
  }

  lemma Fewer(rooms: set<Text>, gone: set<Text>)
    ensures |rooms - gone| <= |rooms|
  {
    assert rooms == (rooms - gone) + (rooms * gone);
    assert (rooms - gone) !! (rooms * gone);
  }

  lemma ReHelloKeeps(cfg: Config, s: State, sid: Sid, sent: bool)
    requires ConfigOk(cfg) && Inv(cfg, s) && (Current(s, sid) || Left(s, sid))
    ensures Inv(cfg, DoReHello(cfg, s, sid, sent))
    ensures Current(s, sid) ==> Current(DoReHello(cfg, s, sid, sent), sid) || Left(DoReHello(cfg, s, sid, sent), sid)
  {
    PartKeeps(cfg, s, sid, Get(s, sid).rooms);
    var s' := DoPart(s, sid, Get(s, sid).rooms);
    FlagKeeps(cfg, s', sid, Get(s', sid).(active := false));
    HelloKeeps(cfg, Put(s', sid, Get(s', sid).(active := false)), sid, sent);
  }

  // ----- whole steps --------------------------------------------------------------

  lemma NickStepKeeps(cfg: Config, s: State, sid: Sid, env: Envelope)
    requires ConfigOk(cfg) && Inv(cfg, s) && (Current(s, sid) || Gone(s, sid))
    ensures Inv(cfg, NickStep(cfg, s, sid, env).s)
    ensures Current(s, sid) ==> Current(NickStep(cfg, s, sid, env).s, sid) || Left(NickStep(cfg, s, sid, env).s, sid)
    ensures NickStep(cfg, s, sid, env).Go? ==>
              var s' := NickStep(cfg, s, sid, env).s;
              && s'.peers == s.peers && Get(s', sid) == Get(s, sid).(nick := Get(s', sid).nick)
              && Current(s', sid) == Current(s, sid) && Gone(s', sid) == Gone(s, sid)
  {
    var nick := if env.nick.Some? then env.nick.value else env.legacy;
    if NickTooLong(cfg, nick) {
      CloseKeeps(cfg, s, sid);
    } else {
      SetNickKeeps(cfg, s, sid, nick);
    }
  }

  lemma HandleKeeps(cfg: Config, s: State, sid: Sid, env: Envelope, v: Verdict)
    requires ConfigOk(cfg) && Inv(cfg, s) && Current(s, sid)
    ensures Inv(cfg, Handle(cfg, s, sid, env, v))
    ensures Current(Handle(cfg, s, sid, env, v), sid) || Left(Handle(cfg, s, sid, env, v), sid)
  {
    NickStepKeeps(cfg, s, sid, env);
    var s' := NickStep(cfg, s, sid, env).s;
    if v.token && NickStep(cfg, s, sid, env).Go? && !env.kind.Pong? {
      if env.kind.Hello? {
        if Get(s, sid).active { ReHelloKeeps(cfg, s', sid, v.sent); } else { HelloKeeps(cfg, s', sid, v.sent); }
      } else if Get(s, sid).active {
        if env.kind.Join? {
          JoinKeeps(cfg, s', sid, env.room, v.allow);
        } else if env.kind.Part? {
          PartKeeps(cfg, s', sid, {cfg.fold(env.room)});
        }
      }
    }
  }

  /** A JOIN that the handler still carries out for a session it has just dropped. */
  predicate LateJoin(cfg: Config, p: Session, env: Envelope, v: Verdict) {
    && p.active && v.token && env.kind.Join?
    && (env.nick.Some? ==> !NickTooLong(cfg, env.nick.value))
    && JoinOk(cfg, p.(rooms := {}), env.room, v.allow)
  }

  lemma LateJoinBreaks(cfg: Config, s: State, sid: Sid, env: Envelope, v: Verdict)
    requires Inv(cfg, s) && Left(s, sid) && LateJoin(cfg, Get(s, sid), env, v)
    ensures !Inv(cfg, Handle(cfg, s, sid, env, v))
  {
    var s1 := NickStep(cfg, s, sid, env).s;
    var s2, r, k := Handle(cfg, s, sid, env, v), cfg.fold(env.room), Get(s, sid).key.value;
    assert s1.rooms == s.rooms && s1.peers == s.peers && Get(s1, sid).rooms == {} && Get(s1, sid).key == Some(k);
    assert s2 == DoJoin(cfg, s1, sid, env.room, v.allow);
    EnterAt(s1.rooms, r, k, r, k);
    assert k in At(s2.rooms, r) && !Listed(s2, k, r);
  }

  lemma GoneKeeps(cfg: Config, s: State, sid: Sid, env: Envelope, v: Verdict)
    requires ConfigOk(cfg) && Inv(cfg, s) && Left(s, sid) && !LateJoin(cfg, Get(s, sid), env, v)
    ensures Inv(cfg, Handle(cfg, s, sid, env, v))
  {
    NickStepKeeps(cfg, s, sid, env);
    var s' := NickStep(cfg, s, sid, env).s;
    if v.token && NickStep(cfg, s, sid, env).Go? && !env.kind.Pong? {
      if env.kind.Hello? {
        if Get(s, sid).active { ReHelloKeeps(cfg, s', sid, v.sent); } else { HelloKeeps(cfg, s', sid, v.sent); }
      } else if Get(s, sid).active && env.kind.Part? {
        PartKeeps(cfg, s', sid, {cfg.fold(env.room)});
      }
    }
  }

  lemma HandleGone(cfg: Config, s: State, sid: Sid, env: Envelope, v: Verdict)
    requires ConfigOk(cfg) && Inv(cfg, s) && Left(s, sid)
    ensures Inv(cfg, Handle(cfg, s, sid, env, v)) <==> !LateJoin(cfg, Get(s, sid), env, v)
  {
    if LateJoin(cfg, Get(s, sid), env, v) {
      LateJoinBreaks(cfg, s, sid, env, v);
    } else {
      GoneKeeps(cfg, s, sid, env, v);
    }
  }

  lemma RegisterKeeps(cfg: Config, s: State, sid: Sid, k: Key, identOk: bool, v: Verdict)
    requires ConfigOk(cfg) && Inv(cfg, s) && sid in s.sessions && !Get(s, sid).closed && KeyFits(Get(s, sid), k)
    ensures Inv(cfg, Register(cfg, s, sid, k, identOk, v))
    ensures var s' := Register(cfg, s, sid, k, identOk, v); Current(s', sid) || Left(s', sid)
  {
    assert SessionOk(s, sid, Get(s, sid));
    if Get(s, sid).key.None? { ClaimKeeps(cfg, s, sid, k); }
    var s1 := if Get(s, sid).key.None? then Claim(cfg, s, sid, k) else s;
    assert Current(s1, sid);
    assert PeerOk(cfg, s1, k, Get(s1, sid));
    CloseKeeps(cfg, s1, sid);
    if identOk && Get(s1, sid).pending.Some? {
      FlagKeeps(cfg, s1, sid, Get(s1, sid).(pending := None));
      HandleKeeps(cfg, Put(s1, sid, Get(s1, sid).(pending := None)), sid, Get(s1, sid).pending.value, v);
    }
  }

  /**
   The receive callback hands the envelope on even when registration has just closed the session, because
   the policy refused the peer or the WELCOME for its waiting HELLO could not be sent.
   */
  predicate DroppedJoin(cfg: Config, s: State, e: Event) {
    e.Received? && e.remote.Some? &&
    var p := Get(Register(cfg, s, e.sid, e.remote.value, e.identOk, e.first), e.sid);
    p.closed && LateJoin(cfg, p, e.env, e.v)
  }

  lemma ReceiveKeeps(cfg: Config, s: State, e: Event)
    requires ConfigOk(cfg) && Inv(cfg, s) && Enabled(s, e) && e.Received?
    ensures Inv(cfg, Step(cfg, s, e)) <==> !DroppedJoin(cfg, s, e)
  {
    var sid := e.sid;
    assert SessionOk(s, sid, Get(s, sid));
    var s1 := if e.remote.Some? then Register(cfg, s, sid, e.remote.value, e.identOk, e.first) else s;
    if e.remote.Some? { RegisterKeeps(cfg, s, sid, e.remote.value, e.identOk, e.first); }
    if Get(s1, sid).key.None? {
      if e.env.kind.Hello? { FlagKeeps(cfg, s1, sid, Get(s1, sid).(pending := Some(e.env))); }
    } else if Current(s1, sid) {
      assert PeerOk(cfg, s1, Get(s1, sid).key.value, Get(s1, sid));
      HandleKeeps(cfg, s1, sid, e.env, e.v);
    } else {
      HandleGone(cfg, s1, sid, e.env, e.v);
    }
  }

  /** Every step keeps the invariant, except exactly a JOIN handled for a session just dropped. */
  lemma StepKeeps(cfg: Config, s: State, e: Event)
    requires ConfigOk(cfg) && Inv(cfg, s) && Enabled(s, e)
    ensures Inv(cfg, Step(cfg, s, e)) <==> !DroppedJoin(cfg, s, e)
  {
    match e
    case Accepted(sid) => AcceptKeeps(cfg, s, sid);
    case Identified(sid, k, ok, v) => RegisterKeeps(cfg, s, sid, k, ok, v);
    case Received(_, _, _, _, _, _) => ReceiveKeeps(cfg, s, e);
    case Closed(sid) => CloseKeeps(cfg, s, sid);
    case Removed(k, room) =>
      if k in s.peers {
        assert PeerOk(cfg, s, k, Get(s, s.peers[k]));
        PartKeeps(cfg, s, s.peers[k], {cfg.fold(room)});
      }
    case Disconnected(k) =>
      if k in s.peers { CloseKeeps(cfg, s, s.peers[k]); }
  }

  lemma AcceptKeeps(cfg: Config, s: State, sid: Sid)
    requires Inv(cfg, s) && sid !in s.sessions
    ensures Inv(cfg, Put(s, sid, NEW))
  {
    var s' := Put(s, sid, NEW);
    forall j: Key, r: Text ensures j in At(s'.rooms, r) <==> Listed(s', j, r) {
      assert j in At(s.rooms, r) <==> Listed(s, j, r);
      if j in s.peers { assert s.peers[j] in s.sessions; }
    }
    forall j | j in s'.peers ensures s'.peers[j] in s'.sessions && PeerOk(cfg, s', j, Get(s', s'.peers[j])) {
      assert PeerOk(cfg, s, j, Get(s, s.peers[j]));
    }
    forall t | t in s'.sessions ensures SessionOk(s', t, Get(s', t)) {
      if t != sid { assert SessionOk(s, t, Get(s, t)); }
    }
  }

  // ----- what each handler does to membership, exactly --------------------------------

  lemma JoinExact(cfg: Config, s: State, sid: Sid, room: Text, allow: bool, j: Key, x: Text)
    ensures j in At(DoJoin(cfg, s, sid, room, allow).rooms, x) <==>
            j in At(s.rooms, x) ||
            (JoinOk(cfg, Get(s, sid), room, allow) && Get(s, sid).key == Some(j) && x == cfg.fold(room))
  {
    if JoinOk(cfg, Get(s, sid), room, allow) { EnterAt(s.rooms, cfg.fold(room), Get(s, sid).key.value, x, j); }
  }

  lemma PartExact(cfg: Config, s: State, sid: Sid, gone: set<Text>, j: Key, x: Text)
    requires Inv(cfg, s) && Current(s, sid)
    ensures j in At(DoPart(s, sid, gone).rooms, x) <==>
            j in At(s.rooms, x) && !(Get(s, sid).key == Some(j) && x in gone)
  {
    var p := Get(s, sid);
    assert j in At(s.rooms, x) <==> Listed(s, j, x);
    LeaveAt(s.rooms, gone * p.rooms, p.key.value, x, j);
  }

  /** A closed current session is out of every room and of the peers; nobody else is. */
  lemma CloseExact(cfg: Config, s: State, sid: Sid, j: Key, x: Text)
    requires Inv(cfg, s) && Current(s, sid)
    ensures j in At(Close(cfg, s, sid).rooms, x) <==> j in At(s.rooms, x) && Get(s, sid).key != Some(j)
    ensures j in Close(cfg, s, sid).peers <==> j in s.peers && Get(s, sid).key != Some(j)
  {
    var p := Get(s, sid);
    assert PeerOk(cfg, s, p.key.value, p);
    assert j in At(s.rooms, x) <==> Listed(s, j, x);
    LeaveAt(s.rooms, p.rooms, p.key.value, x, j);
  }

  /** A new session for a key starts without rooms, and every other membership stays. */
  lemma ClaimExact(cfg: Config, s: State, sid: Sid, k: Key, j: Key, x: Text)
    requires Inv(cfg, s) && sid in s.sessions && !Get(s, sid).closed && Get(s, sid).key.None?
    ensures j in At(Claim(cfg, s, sid, k).rooms, x) <==> j in At(s.rooms, x) && j != k
    ensures j in Claim(cfg, s, sid, k).peers <==> j in s.peers || j == k
  {
    InvBase(cfg, s);
    ClaimShape(cfg, s, sid, k);
    assert j in At(s.rooms, x) <==> Listed(s, j, x);
    LeaveAt(s.rooms, OldRooms(s, k), k, x, j);
  }

  /** A second HELLO leaves all rooms; the session stays connected when it can be welcomed. */
  lemma ReHelloExact(cfg: Config, s: State, sid: Sid, j: Key, x: Text)
    requires Inv(cfg, s) && Current(s, sid)
    ensures var s' := DoReHello(cfg, s, sid, true);
            && (j in At(s'.rooms, x) <==> j in At(s.rooms, x) && Get(s, sid).key != Some(j))
            && s'.peers == s.peers && Get(s', sid).active && Get(s', sid).rooms == {}
  {
    var p := Get(s, sid);
    PartExact(cfg, s, sid, p.rooms, j, x);
    assert j in At(s.rooms, x) <==> Listed(s, j, x);
    assert p.rooms - p.rooms == {} && (p.rooms * p.rooms == {} ==> p.rooms == {});
  }

  /** After a nickname is taken over, looking it up finds its owner. */
  lemma NickFound(cfg: Config, s: State, sid: Sid, nick: Text)
    requires ConfigOk(cfg) && Inv(cfg, s) && Current(s, sid)
    ensures cfg.fold(cfg.sanitize(nick)) != "" ==>
              Get(s, sid).key.value in LookupNick(cfg, SetNick(cfg, s, sid, nick), cfg.sanitize(nick))
  {
    SetNickKeeps(cfg, s, sid, nick);
    var s' := SetNick(cfg, s, sid, nick);
    assert PeerOk(cfg, s', Get(s, sid).key.value, Get(s', sid));
    assert cfg.sanitize(nick) != "" || cfg.fold(cfg.sanitize(nick)) == "";
  }

  // ----- membership grows only by an allowed JOIN -----------------------------------

  /** No new member, no new peer, and the session keeps its identity. */
  ghost predicate Shrinks(s: State, s': State, sid: Sid) {
    && s'.peers.Keys <= s.peers.Keys && Get(s', sid).key == Get(s, sid).key
    && forall j: Key, r: Text :: j in At(s'.rooms, r) ==> j in At(s.rooms, r)
  }

  lemma LeaveShrinks(m: Index, xs: set<Text>, k: Key)
    ensures forall j: Key, r: Text :: j in At(Leave(m, xs, k), r) ==> j in At(m, r)
  {
    forall j: Key, r: Text | j in At(Leave(m, xs, k), r) ensures j in At(m, r) {
      LeaveAt(m, xs, k, r, j);
    }
  }

  lemma CloseShrinks(cfg: Config, s: State, sid: Sid)
    ensures Shrinks(s, Close(cfg, s, sid), sid)
  {
    if Get(s, sid).key.Some? { LeaveShrinks(s.rooms, Get(s, sid).rooms, Get(s, sid).key.value); }
  }

  lemma HelloShrinks(cfg: Config, s: State, sid: Sid, sent: bool)
    ensures Shrinks(s, DoHello(cfg, s, sid, sent), sid)
  {
    CloseShrinks(cfg, Put(s, sid, Get(s, sid).(active := true)), sid);
  }

  lemma PartShrinks(s: State, sid: Sid, gone: set<Text>)
    ensures Shrinks(s, DoPart(s, sid, gone), sid)
  {
    if Get(s, sid).key.Some? { LeaveShrinks(s.rooms, gone * Get(s, sid).rooms, Get(s, sid).key.value); }
  }

  lemma ReHelloShrinks(cfg: Config, s: State, sid: Sid, sent: bool)
    ensures Shrinks(s, DoReHello(cfg, s, sid, sent), sid)
  {
    var s' := DoPart(s, sid, Get(s, sid).rooms);
    PartShrinks(s, sid, Get(s, sid).rooms);
    HelloShrinks(cfg, Put(s', sid, Get(s', sid).(active := false)), sid, sent);
  }

  lemma NickStepShrinks(cfg: Config, s: State, sid: Sid, env: Envelope)
    ensures Shrinks(s, NickStep(cfg, s, sid, env).s, sid)
  {
    CloseShrinks(cfg, s, sid);
  }

  /** Handling an envelope adds at most its own session's key to the room of an allowed JOIN. */
  lemma HandleAdds(cfg: Config, s: State, sid: Sid, env: Envelope, v: Verdict, j: Key, r: Text)
    requires j in At(Handle(cfg, s, sid, env, v).rooms, r)
    ensures j in At(s.rooms, r) || (env.kind.Join? && v.allow && r == cfg.fold(env.room) && Get(s, sid).key == Some(j))
  {
    NickStepShrinks(cfg, s, sid, env);
    var s' := NickStep(cfg, s, sid, env).s;
    if env.kind.Join? {
      if Get(s', sid).key.Some? { EnterAt(s'.rooms, cfg.fold(env.room), Get(s', sid).key.value, r, j); }
    } else {
      HelloShrinks(cfg, s', sid, v.sent);
      ReHelloShrinks(cfg, s', sid, v.sent);
      PartShrinks(s', sid, {cfg.fold(env.room)});
    }
  }

  lemma HandlePeers(cfg: Config, s: State, sid: Sid, env: Envelope, v: Verdict)
    ensures Handle(cfg, s, sid, env, v).peers.Keys <= s.peers.Keys
    ensures Get(Handle(cfg, s, sid, env, v), sid).key == Get(s, sid).key
  {
    NickStepShrinks(cfg, s, sid, env);
    var s' := NickStep(cfg, s, sid, env).s;
    if env.kind.Hello? {
      HelloShrinks(cfg, s', sid, v.sent);
      ReHelloShrinks(cfg, s', sid, v.sent);
    } else if env.kind.Part? {
      PartShrinks(s', sid, {cfg.fold(env.room)});
    }
  }

  lemma ClaimAdds(cfg: Config, s: State, sid: Sid, k: Key, j: Key, r: Text)
    ensures j in At(Claim(cfg, s, sid, k).rooms, r) ==> j in At(s.rooms, r)
    ensures Claim(cfg, s, sid, k).peers.Keys <= s.peers.Keys + {k}
  {
    if k in s.peers && s.peers[k] != sid {
      var prev := s.peers[k];
      var s1 := State(s.peers[k := sid], s.sessions[sid := Get(s, sid).(key := Some(k))],
                      Leave(s.rooms, Get(s, prev).rooms, k), s.nicks);
      LeaveShrinks(s.rooms, Get(s, prev).rooms, k);
      CloseShrinks(cfg, s1, prev);
      assert Claim(cfg, s, sid, k) == Close(cfg, s1, prev);
    }
  }

  /** Registration adds no member, and adds the identity as a peer only when the policy accepts it. */
  lemma RegisterAdds(cfg: Config, s: State, sid: Sid, k: Key, identOk: bool, v: Verdict, j: Key, r: Text)
    requires Base(s) && sid in s.sessions && !Get(s, sid).closed && KeyFits(Get(s, sid), k)
    ensures j in At(Register(cfg, s, sid, k, identOk, v).rooms, r) ==> j in At(s.rooms, r)
    ensures j in Register(cfg, s, sid, k, identOk, v).peers ==> j in s.peers || (j == k && identOk)
    ensures Get(Register(cfg, s, sid, k, identOk, v), sid).key == Some(k)
    ensures sid in Register(cfg, s, sid, k, identOk, v).sessions
  {
    var s1 := if Get(s, sid).key.None? then Claim(cfg, s, sid, k) else s;
    assert SessionOk(s, sid, Get(s, sid));
    if Get(s, sid).key.None? {
      ClaimBase(cfg, s, sid, k);
      ClaimAdds(cfg, s, sid, k, j, r);
    }
    var p := Get(s1, sid);
    assert p.key == Some(k) && s1.peers.Keys <= s.peers.Keys + {k};
    CloseShrinks(cfg, s1, sid);
    CloseBase(cfg, s1, sid);
    if identOk && p.pending.Some? {
      var s2 := Put(s1, sid, p.(pending := None));
      HandlePeers(cfg, s2, sid, p.pending.value, v);
      if j in At(Handle(cfg, s2, sid, p.pending.value, v).rooms, r) {
        HandleAdds(cfg, s2, sid, p.pending.value, v, j, r);
      }
    }
  }

  // ----- peers and sessions, whatever happens to rooms -----------------------------------

  /** A session record changes in what the base does not speak about. */
  ghost predicate SameSeat(s: State, s': State, sid: Sid) {
    && s'.peers == s.peers && s'.sessions == s.sessions[sid := Get(s', sid)]
    && Get(s', sid).key == Get(s, sid).key && Get(s', sid).closed == Get(s, sid).closed
    && (Get(s', sid).pending == Get(s, sid).pending || Get(s', sid).pending.None?)
  }

  lemma SeatBase(s: State, s': State, sid: Sid)
    requires Base(s) && sid in s.sessions && Get(s, sid).key.Some? && SameSeat(s, s', sid)
    ensures Base(s') && Current(s', sid) == Current(s, sid)
  {
    forall t | t in s'.sessions ensures SessionOk(s', t, Get(s', t)) { assert SessionOk(s, t, Get(s, t)); }
  }

  lemma CloseBase(cfg: Config, s: State, sid: Sid)
    requires Base(s) && sid in s.sessions
    ensures Base(Close(cfg, s, sid)) && sid in Close(cfg, s, sid).sessions
    ensures Current(s, sid) ==> Get(s, sid).key.value !in Close(cfg, s, sid).peers
  {
    var s' := Close(cfg, s, sid);
    assert SessionOk(s, sid, Get(s, sid));
    forall t | t in s'.sessions ensures SessionOk(s', t, Get(s', t)) { assert SessionOk(s, t, Get(s, t)); }
  }

  lemma ClaimBase(cfg: Config, s: State, sid: Sid, k: Key)
    requires Base(s) && sid in s.sessions && !Get(s, sid).closed && Get(s, sid).key.None?
    ensures Base(Claim(cfg, s, sid, k)) && Current(Claim(cfg, s, sid, k), sid)
    ensures Get(Claim(cfg, s, sid, k), sid) == Get(s, sid).(key := Some(k)) && sid in Claim(cfg, s, sid, k).sessions
  {
    ClaimShape(cfg, s, sid, k);
    SeatsAfterClaim(s, Claim(cfg, s, sid, k), sid, k);
  }

  lemma SeatsAfterClaim(s: State, s': State, sid: Sid, k: Key)
    requires Base(s) && sid in s.sessions && !Get(s, sid).closed && Get(s, sid).key.None?
    requires s'.peers == s.peers[k := sid]
    requires var p := Get(s, sid).(key := Some(k));
             s'.sessions == if k in s.peers then s.sessions[sid := p][s.peers[k] := Get(s, s.peers[k]).(closed := true)]
                            else s.sessions[sid := p]
    ensures Base(s') && Current(s', sid) && Get(s', sid) == Get(s, sid).(key := Some(k)) && sid in s'.sessions
  {
    forall t | t in s'.sessions ensures SessionOk(s', t, Get(s', t)) { assert SessionOk(s, t, Get(s, t)); }
  }

  lemma HelloBase(cfg: Config, s: State, sid: Sid, sent: bool)
    requires Base(s) && sid in s.sessions && Get(s, sid).key.Some?
    ensures Base(DoHello(cfg, s, sid, sent))
  {
    var s' := Put(s, sid, Get(s, sid).(active := true));
    SeatBase(s, s', sid);
    CloseBase(cfg, s', sid);
  }

  lemma ReHelloBase(cfg: Config, s: State, sid: Sid, sent: bool)
    requires Base(s) && sid in s.sessions && Get(s, sid).key.Some?
    ensures Base(DoReHello(cfg, s, sid, sent))
  {
    var s1 := DoPart(s, sid, Get(s, sid).rooms);
    RoomsBase(cfg, s, sid, "", false, Get(s, sid).rooms);
    var s2 := Put(s1, sid, Get(s1, sid).(active := false));
    SeatBase(s1, s2, sid);
    HelloBase(cfg, s2, sid, sent);
  }

  lemma SetNickBase(cfg: Config, s: State, sid: Sid, nick: Text)
    requires Base(s) && sid in s.sessions && Get(s, sid).key.Some?
    ensures Base(SetNick(cfg, s, sid, nick)) && sid in SetNick(cfg, s, sid, nick).sessions
    ensures Get(SetNick(cfg, s, sid, nick), sid).key == Get(s, sid).key
  {
    if cfg.sanitize(nick) != "" && cfg.sanitize(nick) != Get(s, sid).nick {
      SeatBase(s, SetNick(cfg, s, sid, nick), sid);
    }
  }

  lemma NickStepBase(cfg: Config, s: State, sid: Sid, env: Envelope)
    requires Base(s) && sid in s.sessions && Get(s, sid).key.Some?
    ensures var s' := NickStep(cfg, s, sid, env).s;
            Base(s') && sid in s'.sessions && (NickStep(cfg, s, sid, env).Go? ==> Get(s', sid).key == Get(s, sid).key)
  {
    var nick := if env.nick.Some? then env.nick.value else env.legacy;
    if NickTooLong(cfg, nick) { CloseBase(cfg, s, sid); } else { SetNickBase(cfg, s, sid, nick); }
  }

  lemma RoomsBase(cfg: Config, s: State, sid: Sid, room: Text, allow: bool, gone: set<Text>)
    requires Base(s) && sid in s.sessions && Get(s, sid).key.Some?
    ensures Base(DoJoin(cfg, s, sid, room, allow)) && Base(DoPart(s, sid, gone))
  {
    if JoinOk(cfg, Get(s, sid), room, allow) { SeatBase(s, DoJoin(cfg, s, sid, room, allow), sid); }
    if gone * Get(s, sid).rooms != {} { SeatBase(s, DoPart(s, sid, gone), sid); }
  }

  lemma HandleBase(cfg: Config, s: State, sid: Sid, env: Envelope, v: Verdict)
    requires Base(s) && sid in s.sessions && Get(s, sid).key.Some?
    ensures Base(Handle(cfg, s, sid, env, v))
  {
    NickStepBase(cfg, s, sid, env);
    var s' := NickStep(cfg, s, sid, env).s;
    if v.token && NickStep(cfg, s, sid, env).Go? && !env.kind.Pong? {
      if env.kind.Hello? {
        if Get(s, sid).active { ReHelloBase(cfg, s', sid, v.sent); } else { HelloBase(cfg, s', sid, v.sent); }
      } else if Get(s, sid).active {
        RoomsBase(cfg, s', sid, env.room, v.allow, {cfg.fold(env.room)});
      }
    }
  }

  lemma RegisterBase(cfg: Config, s: State, sid: Sid, k: Key, identOk: bool, v: Verdict)
    requires Base(s) && sid in s.sessions && !Get(s, sid).closed && KeyFits(Get(s, sid), k)
    ensures Base(Register(cfg, s, sid, k, identOk, v))
  {
    assert SessionOk(s, sid, Get(s, sid));
    if Get(s, sid).key.None? { ClaimBase(cfg, s, sid, k); }
    var s1 := if Get(s, sid).key.None? then Claim(cfg, s, sid, k) else s;
    if !identOk {
      CloseBase(cfg, s1, sid);
    } else if Get(s1, sid).pending.Some? {
      var s2 := Put(s1, sid, Get(s1, sid).(pending := None));
      SeatBase(s1, s2, sid);
      HandleBase(cfg, s2, sid, Get(s1, sid).pending.value, v);
    }
  }

  /** Every event keeps the base, without exception. */
  lemma StepBase(cfg: Config, s: State, e: Event)
    requires Base(s) && Enabled(s, e)
    ensures Base(Step(cfg, s, e))
  {
    match e
    case Accepted(sid) =>
      var s' := Put(s, sid, NEW);
      forall t | t in s'.sessions ensures SessionOk(s', t, Get(s', t)) {
        if t != sid { assert SessionOk(s, t, Get(s, t)); }
      }
    case Identified(sid, k, ok, v) => RegisterBase(cfg, s, sid, k, ok, v);
    case Received(_, _, _, _, _, _) => ReceiveBase(cfg, s, e);
    case Closed(sid) => CloseBase(cfg, s, sid);
    case Removed(k, room) => if k in s.peers { RoomsBase(cfg, s, s.peers[k], "", false, {cfg.fold(room)}); }
    case Disconnected(k) => if k in s.peers { CloseBase(cfg, s, s.peers[k]); }
  }

  lemma ReceiveBase(cfg: Config, s: State, e: Event)
    requires Base(s) && Enabled(s, e) && e.Received?
    ensures Base(Step(cfg, s, e))
  {
    var sid := e.sid;
    if e.remote.Some? {
      RegisterBase(cfg, s, sid, e.remote.value, e.identOk, e.first);
      RegisterAdds(cfg, s, sid, e.remote.value, e.identOk, e.first, e.remote.value, "");
    }
    var s1 := if e.remote.Some? then Register(cfg, s, sid, e.remote.value, e.identOk, e.first) else s;
    if Get(s1, sid).key.Some? {
      HandleBase(cfg, s1, sid, e.env, e.v);
    } else {
      var s' := Step(cfg, s, e);
      forall t | t in s'.sessions ensures SessionOk(s', t, Get(s', t)) { assert SessionOk(s, t, Get(s, t)); }
    }
  }

  const EMPTY := State(map[], map[], map[], map[])

  ghost predicate IsRun(cfg: Config, states: seq<State>, events: seq<Event>) {
    && |states| == |events| + 1 && states[0] == EMPTY
    && forall i :: 0 <= i < |events| ==>
         Enabled(states[i], events[i]) && states[i + 1] == Step(cfg, states[i], events[i])
  }

  /** Over every run without such a JOIN, the two indexes stay inverse. */
  lemma {:induction false} RunKeeps(cfg: Config, states: seq<State>, events: seq<Event>, n: nat)
    requires ConfigOk(cfg) && IsRun(cfg, states, events) && n < |states|
    requires forall i :: 0 <= i < n ==> !DroppedJoin(cfg, states[i], events[i])
    ensures Inv(cfg, states[n])
  {
    if n > 0 {
      RunKeeps(cfg, states, events, n - 1);
      StepKeeps(cfg, states[n - 1], events[n - 1]);
    }
  }

  const PLAIN := Config(1, 9, 9, 9, true, x => x, x => x)
  const YES := Verdict(true, true, true)

  function Greeting(k: Key): Event { Received(0, Some(k), true, YES, Envelope(Hello, "", None, ""), YES) }

  function Refused(k: Key): Event { Received(0, Some(k), false, YES, Envelope(Join, "r", None, ""), YES) }

  function Welcomed(k: Key): State { State(map[k := 0], map[0 := NEW.(key := Some(k), active := true)], map[], map[]) }

  lemma GreetingWelcomes(k: Key)
    ensures Step(PLAIN, Put(EMPTY, 0, NEW), Greeting(k)) == Welcomed(k)
  {
    var s1 := Claim(PLAIN, Put(EMPTY, 0, NEW), 0, k);
    assert s1 == State(map[k := 0], map[0 := NEW.(key := Some(k))], map[], map[]);
    assert Register(PLAIN, Put(EMPTY, 0, NEW), 0, k, true, YES) == s1;
    assert Handle(PLAIN, s1, 0, Greeting(k).env, YES) == DoHello(PLAIN, s1, 0, true);
  }

  lemma RefusalStillJoins(k: Key)
    ensures k in At(Step(PLAIN, Welcomed(k), Refused(k)).rooms, "r")
    ensures k !in Step(PLAIN, Welcomed(k), Refused(k)).peers
  {
    var p := NEW.(key := Some(k), active := true, closed := true);
    var s1 := State(map[], map[0 := p], map[], map[]);
    assert Leave(map[], {}, k) == map[];
    assert Close(PLAIN, Welcomed(k), 0) == s1;
    assert Handle(PLAIN, s1, 0, Refused(k).env, YES) == DoJoin(PLAIN, s1, 0, "r", true);
    EnterAt(map[], "r", k, "r", k);
  }

  lemma ThreeSteps(cfg: Config, ss: seq<State>, es: seq<Event>)
    requires |ss| == 4 && |es| == 3 && ss[0] == EMPTY
    requires Enabled(ss[0], es[0]) && ss[1] == Step(cfg, ss[0], es[0])
    requires Enabled(ss[1], es[1]) && ss[2] == Step(cfg, ss[1], es[1])
    requires Enabled(ss[2], es[2]) && ss[3] == Step(cfg, ss[2], es[2])
    ensures IsRun(cfg, ss, es)
  {
  }

  /** The exception is reachable: HELLO, then a JOIN at the moment the policy starts refusing the peer. */
  lemma DroppedJoinIsReachable(k: Key)
    ensures exists states: seq<State>, events: seq<Event> ::
              && ConfigOk(PLAIN) && IsRun(PLAIN, states, events)
              && k in At(states[|events|].rooms, "r") && k !in states[|events|].peers
  {
    GreetingWelcomes(k);
    RefusalStillJoins(k);
    var states := [EMPTY, Put(EMPTY, 0, NEW), Welcomed(k), Step(PLAIN, Welcomed(k), Refused(k))];
    var events := [Accepted(0), Greeting(k), Refused(k)];
    ThreeSteps(PLAIN, states, events);
    assert states[|events|] == states[3];
  }

  // ----- what follows for relaying and lookup --------------------------------------

  datatype Forward = Forward(sender: Key, room: Text, nick: Text, body: Option<nat>, to: set<Sid>)

  predicate Reached(s: State, k: Key) {
    k in s.peers && Get(s, s.peers[k]).active
  }

  /** onRoomContent: who gets the message, and from whom it says it comes; body is the size of its body, if any. */
  function Relay(cfg: Config, s: State, sid: Sid, room: Text, body: Option<nat>): Option<Forward> {
    var p, r := Get(s, sid), cfg.fold(room);
    if r == "" || p.key.None? || (body.Some? && body.value > cfg.maxBody) || (r !in p.rooms && !cfg.policy) then None
    else Some(Forward(p.key.value, r, p.nick, body, set k | k in At(s.rooms, r) && Reached(s, k) :: s.peers[k]))
  }

  predicate InRoom(s: State, sid: Sid, r: Text) {
    sid in s.sessions && !Get(s, sid).closed && Get(s, sid).key.Some? && r in Get(s, sid).rooms
  }

  /** A relayed message reaches exactly the open sessions that list the room, with the true sender. */
  lemma RelayReachesMembers(cfg: Config, s: State, sid: Sid, room: Text, body: Option<nat>, t: Sid)
    requires Inv(cfg, s) && Current(s, sid) && Relay(cfg, s, sid, room, body).Some?
    ensures t in Relay(cfg, s, sid, room, body).value.to <==> InRoom(s, t, cfg.fold(room))
    ensures s.peers[Relay(cfg, s, sid, room, body).value.sender] == sid
    ensures !cfg.policy ==> sid in Relay(cfg, s, sid, room, body).value.to
  {
    var r, to := cfg.fold(room), Relay(cfg, s, sid, room, body).value.to;
    forall u | InRoom(s, u, r) ensures u in to {
      assert SessionOk(s, u, Get(s, u));
      var k := Get(s, u).key.value;
      assert PeerOk(cfg, s, k, Get(s, u));
      assert k in At(s.rooms, r) <==> Listed(s, k, r);
    }
    forall u | u in to ensures InRoom(s, u, r) {
      var k :| k in At(s.rooms, r) && Reached(s, k) && s.peers[k] == u;
      assert k in At(s.rooms, r) <==> Listed(s, k, r);
      assert PeerOk(cfg, s, k, Get(s, u));
    }
    if !cfg.policy { assert PeerOk(cfg, s, Get(s, sid).key.value, Get(s, sid)); }
  }

  /** So it is at every point of every run without the exception. */
  lemma RunRelays(cfg: Config, states: seq<State>, events: seq<Event>, n: nat, sid: Sid, room: Text, body: Option<nat>,
                  t: Sid)
    requires ConfigOk(cfg) && IsRun(cfg, states, events) && n < |states|
    requires forall i :: 0 <= i < n ==> !DroppedJoin(cfg, states[i], events[i])
    requires sid in states[n].sessions && !Get(states[n], sid).closed && Relay(cfg, states[n], sid, room, body).Some?
    ensures Relay(cfg, states[n], sid, room, body).value.sender == Get(states[n], sid).key.value
    ensures t in Relay(cfg, states[n], sid, room, body).value.to <==> InRoom(states[n], t, cfg.fold(room))
  {
    RunKeeps(cfg, states, events, n);
    assert SessionOk(states[n], sid, Get(states[n], sid));
    RelayReachesMembers(cfg, states[n], sid, room, body, t);
  }

  function LookupNick(cfg: Config, s: State, nick: Text): set<Key> {
    set k | k in At(s.nicks, cfg.fold(nick)) && k in s.peers
  }

  /** Every current non-empty nickname is found, and only connected keys are returned. */
  lemma LookupComplete(cfg: Config, s: State, k: Key)
    requires Inv(cfg, s) && k in s.peers
    ensures cfg.fold(Get(s, s.peers[k]).nick) != "" ==> k in LookupNick(cfg, s, Get(s, s.peers[k]).nick)
  {
    assert PeerOk(cfg, s, k, Get(s, s.peers[k]));
  }

  // ----- the hub object --------------------------------------------------------------

  class HubServer {
    const cfg: Config
    var peers: map<Key, Sid>
    var sessions: map<Sid, Session>
    var rooms: Index
    var nicks: Index

    constructor (cfg: Config)
      ensures this.cfg == cfg && View() == EMPTY
    {
      this.cfg := cfg;
      peers, sessions, rooms, nicks := map[], map[], map[], map[];
    }

    function View(): State reads this {
      State(peers, sessions, rooms, nicks)
    }

    /** Deletes a key from one room's member set, and the set when it becomes empty. */
    method DeleteMember(room: Text, k: Key)
      requires room in rooms
      modifies this`rooms
      ensures rooms == Leave(old(rooms), {room}, k)
    {
      var members := rooms[room] - {k};
      rooms := if members == {} then rooms - {room} else rooms[room := members];
    }

    method LeaveRooms(gone: set<Text>, k: Key)
      modifies this`rooms
      ensures rooms == Leave(old(rooms), gone, k)
    {
      var todo, done: set<Text> := gone, {};
      LeaveNone(rooms, k);
      while todo != {}
        invariant todo + done == gone && todo !! done
        invariant rooms == Leave(old(rooms), done, k)
        decreases todo
      {
        var room :| room in todo;
        LeaveMore(old(rooms), done, room, k);
        LeaveAbsent(rooms, room, k);
        if room in rooms { DeleteMember(room, k); }
        todo, done := todo - {room}, done + {room};
      }
      assert done == gone;
    }

    method UnindexNick(k: Key, nick: Text)
      modifies this`nicks
      ensures nicks == Unindex(cfg, old(nicks), k, nick)
    {
      var n := cfg.fold(nick);
      if n == "" { return; }
      LeaveAbsent(nicks, n, k);
      if n !in nicks { return; }
      var m := nicks[n] - {k};
      nicks := if m == {} then nicks - {n} else nicks[n := m];
    }

    method ReindexNick(k: Key, was: Text, nick: Text)
      modifies this`nicks
      ensures nicks == Reindex(cfg, old(nicks), k, was, nick)
    {
      UnindexNick(k, was);
      var n := cfg.fold(nick);
      if n != "" {
        if n !in nicks { nicks := nicks[n := {}]; }
        nicks := nicks[n := nicks[n] + {k}];
      }
    }

    method DropPeerIf(sid: Sid)
      modifies this
      ensures View() == Drop(cfg, old(View()), sid)
    {
      var p := Get(View(), sid);
      if p.key.None? { return; }
      var k := p.key.value;
      if k !in peers || peers[k] != sid { return; }
      peers := peers - {k};
      UnindexNick(k, p.nick);
      LeaveRooms(p.rooms, k);
      sessions := sessions[sid := p.(rooms := {})];
    }

    method CloseSession(sid: Sid)
      modifies this
      ensures View() == Close(cfg, old(View()), sid)
    {
      var p := Get(View(), sid);
      if p.closed { return; }
      sessions := sessions[sid := p.(closed := true)];
      DropPeerIf(sid);
    }

    method ClaimKey(sid: Sid, k: Key)
      modifies this
      ensures View() == Claim(cfg, old(View()), sid, k)
    {
      var p := Get(View(), sid).(key := Some(k));
      if k in peers && peers[k] != sid {
        var prev := peers[k];
        LeaveRooms(Get(View(), prev).rooms, k);
        sessions := sessions[sid := p];
        peers := peers[k := sid];
        CloseSession(prev);
      } else {
        sessions := sessions[sid := p];
        peers := peers[k := sid];
      }
    }

    method OnJoin(sid: Sid, name: Text, allow: bool)
      requires Get(View(), sid).key.Some?
      modifies this
      ensures View() == DoJoin(cfg, old(View()), sid, name, allow)
    {
      var room := cfg.fold(name);
      if room == "" || ByteLength(room) > cfg.maxRoomName || !allow { return; }
      var p := Get(View(), sid);
      if room !in p.rooms {
        if |p.rooms| >= cfg.maxRooms { return; }
        sessions := sessions[sid := p.(rooms := p.rooms + {room})];
        if room !in rooms { rooms := rooms[room := {}]; }
        rooms := rooms[room := rooms[room] + {p.key.value}];
      }
    }

    method OnPart(sid: Sid, name: Text)
      requires Get(View(), sid).key.Some?
      modifies this
      ensures View() == if cfg.fold(name) == "" then old(View()) else DoPart(old(View()), sid, {cfg.fold(name)})
    {
      var room := cfg.fold(name);
      if room == "" { return; }
      var p := Get(View(), sid);
      if room !in p.rooms { return; }
      assert {room} * p.rooms == {room};
      sessions := sessions[sid := p.(rooms := p.rooms - {room})];
      LeaveAbsent(rooms, room, p.key.value);
      if room in rooms { DeleteMember(room, p.key.value); }
    }

    method OnHello(sid: Sid, sent: bool)
      modifies this
      ensures View() == DoHello(cfg, old(View()), sid, sent)
    {
      sessions := sessions[sid := Get(View(), sid).(active := true)];
      if !sent { CloseSession(sid); }
    }

    /** Parts the rooms one by one through the ordinary PART handler, then welcomes again. */
    method ReHello(sid: Sid, sent: bool)
      requires Get(View(), sid).key.Some? && forall r :: r in Get(View(), sid).rooms ==> cfg.fold(r) == r != ""
      modifies this
      ensures View() == DoReHello(cfg, old(View()), sid, sent)
    {
      ghost var s := View();
      var all := Get(View(), sid).rooms;
      var todo, done: set<Text> := all, {};
      while todo != {}
        invariant todo + done == all && todo !! done
        invariant View() == DoPart(s, sid, done)
        decreases todo
      {
        var room :| room in todo;
        PartMore(s, sid, done, room);
        OnPart(sid, room);
        todo, done := todo - {room}, done + {room};
      }
      assert done == all;
      sessions := sessions[sid := Get(View(), sid).(active := false)];
      OnHello(sid, sent);
    }

    method RemoveFromRoom(k: Key, name: Text) returns (removed: bool)
      requires forall j :: j in peers ==> Get(View(), peers[j]).key == Some(j)
      modifies this
      ensures View() == DoRemove(cfg, old(View()), k, name)
      ensures removed <==> Listed(old(View()), k, cfg.fold(name))
    {
      var room := cfg.fold(name);
      if k !in peers { return false; }
      var sid := peers[k];
      var p := Get(View(), sid);
      if room !in p.rooms { return false; }
      assert {room} * p.rooms == {room};
      sessions := sessions[sid := p.(rooms := p.rooms - {room})];
      LeaveAbsent(rooms, room, k);
      if room in rooms { DeleteMember(room, k); }
      return true;
    }

    method ApplyInboundNick(sid: Sid, name: Text) returns (ok: bool)
      modifies this
      ensures ok == !NickTooLong(cfg, name)
      ensures View() == if ok then SetNick(cfg, old(View()), sid, name) else old(View())
    {
      var nick := cfg.sanitize(name);
      if nick == "" { return true; }
      if ByteLength(nick) > cfg.maxNick { return false; }
      var p := Get(View(), sid);
      if nick == p.nick { return true; }
      sessions := sessions[sid := p.(nick := cfg.sanitize(nick))];
      if p.key.Some? { ReindexNick(p.key.value, p.nick, nick); }
      return true;
    }

    method HandlePeer(sid: Sid, env: Envelope, v: Verdict)
      requires Get(View(), sid).key.Some? && forall r :: r in Get(View(), sid).rooms ==> cfg.fold(r) == r != ""
      modifies this
      ensures View() == Handle(cfg, old(View()), sid, env, v)
    {
      if !v.token { return; }
      var active := Get(View(), sid).active;
      if env.nick.Some? {
        var ok := ApplyInboundNick(sid, env.nick.value);
        if !ok {
          if !active { CloseSession(sid); }
          return;
        }
      } else if env.kind.Hello? && env.legacy != "" {
        var ok := ApplyInboundNick(sid, env.legacy);
        if !ok && !active {
          CloseSession(sid);
          return;
        }
      }
      if env.kind.Pong? { return; }
      if !active {
        if env.kind.Hello? { OnHello(sid, v.sent); }
        return;
      }
      match env.kind
      case Hello => ReHello(sid, v.sent);
      case Join => OnJoin(sid, env.room, v.allow);
      case Part => OnPart(sid, env.room);
      case _ =>
    }

    method RegisterPeer(sid: Sid, k: Key, identOk: bool, v: Verdict)
      requires ConfigOk(cfg) && Inv(cfg, View())
      requires sid in sessions && !Get(View(), sid).closed && KeyFits(Get(View(), sid), k)
      modifies this
      ensures View() == Register(cfg, old(View()), sid, k, identOk, v)
    {
      assert SessionOk(View(), sid, Get(View(), sid));
      if Get(View(), sid).key.None? {
        ClaimKeeps(cfg, View(), sid, k);
        ClaimKey(sid, k);
      }
      assert PeerOk(cfg, View(), k, Get(View(), sid));
      if !identOk {
        CloseSession(sid);
        return;
      }
      var p := Get(View(), sid);
      if p.pending.Some? {
        sessions := sessions[sid := p.(pending := None)];
        HandlePeer(sid, p.pending.value, v);
      }
    }

    /** The session's message callback. */
    method OnEnvelope(sid: Sid, remote: Option<Key>, identOk: bool, first: Verdict, env: Envelope, v: Verdict)
      requires ConfigOk(cfg) && Inv(cfg, View()) && Enabled(View(), Received(sid, remote, identOk, first, env, v))
      modifies this
      ensures View() == Receive(cfg, old(View()), sid, remote, identOk, first, env, v)
    {
      assert SessionOk(View(), sid, Get(View(), sid));
      if remote.Some? {
        RegisterKeeps(cfg, View(), sid, remote.value, identOk, first);
        RegisterPeer(sid, remote.value, identOk, first);
      }
      var p := Get(View(), sid);
      if p.key.None? {
        if env.kind.Hello? { sessions := sessions[sid := p.(pending := Some(env))]; }
        return;
      }
      if Current(View(), sid) { assert PeerOk(cfg, View(), p.key.value, p); }
      HandlePeer(sid, env, v);
    }

    method OnRoomContent(sid: Sid, name: Text, body: Option<nat>) returns (sent: Option<Forward>)
      requires Get(View(), sid).key.Some?
      ensures sent == Relay(cfg, View(), sid, name, body)
    {
      var room := cfg.fold(name);
      if room == "" { return None; }
      if body.Some? && body.value > cfg.maxBody { return None; }
      var p := Get(View(), sid);
      if room !in p.rooms && !cfg.policy { return None; }
      var members: set<Sid> := {};
      var all := At(rooms, room);
      var todo := all;
      while todo != {}
        invariant todo <= all
        invariant members == set k | k in all - todo && Reached(View(), k) :: peers[k]
        decreases todo
      {
        var k :| k in todo;
        if k in peers && Get(View(), peers[k]).active { members := members + {peers[k]}; }
        todo := todo - {k};
      }
      assert all - todo == all;
      return Some(Forward(p.key.value, room, p.nick, body, members));
    }
  }

  lemma LeaveAbsent(m: Index, x: Text, k: Key)
    ensures x !in m ==> Leave(m, {x}, k) == m
    ensures x in m ==> Leave(m, {x}, k) == (if m[x] - {k} == {} then m - {x} else m[x := m[x] - {k}])
  {
  }

  lemma PartForm(s: State, sid: Sid, gone: set<Text>)
    requires Get(s, sid).key.Some? && gone <= Get(s, sid).rooms
    ensures var p := Get(s, sid);
            DoPart(s, sid, gone) ==
            Put(s, sid, p.(rooms := p.rooms - gone)).(rooms := Leave(s.rooms, gone, p.key.value))
  {
    var p := Get(s, sid);
    assert gone * p.rooms == gone;
    if gone == {} {
      LeaveNone(s.rooms, p.key.value);
      assert p.rooms - {} == p.rooms && s.sessions[sid := p] == s.sessions;
    }
  }

  lemma PartMore(s: State, sid: Sid, done: set<Text>, room: Text)
    requires Get(s, sid).key.Some? && done <= Get(s, sid).rooms && room in Get(s, sid).rooms && room !in done
    ensures DoPart(DoPart(s, sid, done), sid, {room}) == DoPart(s, sid, done + {room})
  {
    var p := Get(s, sid);
    PartForm(s, sid, done);
    PartForm(s, sid, done + {room});
    PartForm(DoPart(s, sid, done), sid, {room});
    LeaveMore(s.rooms, done, room, p.key.value);
    assert p.rooms - done - {room} == p.rooms - (done + {room});
    var l, r := DoPart(DoPart(s, sid, done), sid, {room}), DoPart(s, sid, done + {room});
    assert l.sessions == r.sessions;
  }
}
