/**
 gorrcd on top of the hub (internal/gorrcd/service.go, commands.go, trust.go): who may connect and join, and
 what the operator commands change. Files written by the service are part of the state.
 */
module Policy {
  import opened Bytes
  import opened Hub
  import opened Rooms
  import C = ConfigFile

  /** No identity hashes to this; the commands use it for "no target". */
  const ZERO: Key := [0, 0, 0, 0, 0, 0, 0, 0, 0, 0, 0, 0, 0, 0, 0, 0]

  datatype Setup = Setup(hub: Config, path: bool, inviteTtl: real)

  /** registryFile: rooms as last written; config: lines of the configuration file; trusted never changes there. */
  datatype World = World(hub: State, rooms: Registry, trusted: set<Key>, banned: set<Key>,
                         registryFile: Registry, config: seq<C.Line>)

  /** A command's target: hexadecimal text of at least six digits, or a nickname. */
  datatype Token = Hex(prefix: seq<byte>) | Nick(nick: Text)

  datatype Grant = Op | Deop | Voice | Devoice

  datatype Command =
    | Kick(name: Text, token: Token)
    | KlineAdd(token: Token)
    | KlineDel(token: Token)
    | Enrol(name: Text)
    | Withdraw(name: Text)
    | Topic(name: Text, topic: Text)
    | Give(grant: Grant, name: Text, token: Token)
    | Mode(name: Text, flag: Flag, on: bool, key: Text)
    | BanAdd(name: Text, token: Token)
    | BanDel(name: Text, token: Token)
    | InviteAdd(name: Text, token: Token)
    | InviteDel(name: Text, token: Token)
    | Query

  // ----- finding a target -------------------------------------------------------------

  function Hits(cfg: Config, s: State, token: Token): set<Key> {
    match token
    case Hex(prefix) => set k | k in s.peers && prefix <= k
    case Nick(nick) => LookupNick(cfg, s, nick)
  }

  function Found(cfg: Config, s: State, token: Token, room: Option<Text>): set<Key> {
    set k | k in Hits(cfg, s, token) && (room.Some? ==> Listed(s, k, room.value))
  }

  function FullId(token: Token): Key {
    if token.Hex? && |token.prefix| == 16 then token.prefix else ZERO
  }

  ghost function Resolve(cfg: Config, s: State, token: Token, room: Option<Text>): Key {
    var hits := Found(cfg, s, token, room);
    if |hits| == 1 then Pick(hits) else if |hits| > 1 then ZERO else FullId(token)
  }

  ghost function Pick(ks: set<Key>): (k: Key)
    requires ks != {}
    ensures k in ks
  {
    var k :| k in ks; k
  }

  /** The loop that collects matches, and the choice made from them. */
  method ResolveToken(cfg: Config, s: State, token: Token, room: Option<Text>) returns (id: Key, matches: set<Key>)
    ensures matches == Found(cfg, s, token, room)
    ensures id == Resolve(cfg, s, token, room)
  {
    var hits := Hits(cfg, s, token);
    matches := {};
    var todo := hits;
    while todo != {}
      invariant todo <= hits
      invariant matches == set k | k in hits && k !in todo && (room.Some? ==> Listed(s, k, room.value))
      decreases todo
    {
      var k :| k in todo;
      todo := todo - {k};
      if room.None? || Listed(s, k, room.value) { matches := matches + {k}; }
    }
    assert matches == Found(cfg, s, token, room);
    if |matches| == 1 {
      var k := Only(matches);
      return k, matches;
    }
    if |matches| > 1 { return ZERO, matches; }
    return FullId(token), matches;
  }

  method Only(ks: set<Key>) returns (k: Key)
    requires |ks| == 1
    ensures ks == {k}
  {
    k :| k in ks;
    assert |ks - {k}| == 0;
    assert ks == {k};
  }

  // ----- changes to rooms and files ------------------------------------------------------

  function Save(w: World): World {
    w.(registryFile := Saved(w.rooms))
  }

  function SetRoom(w: World, room: Text, st: RoomState, save: bool): World {
    var w' := w.(rooms := w.rooms[room := st]);
    if save then Save(w') else w'
  }

  /** mutateSet: the change marks the room used and is written when the room is registered. */
  function Mutate(w: World, room: Text, st: RoomState, now: real): World {
    SetRoom(w, room, st.(lastUsed := now), st.registered)
  }

  function SetBanned(w: World, banned: set<Key>): World {
    w.(banned := banned, config := C.Persist(w.config, banned))
  }

  function Room(cfg: Config, name: Text): Option<Text> {
    var r := cfg.fold(name);
    if r == "" || ByteLength(r) > cfg.maxRoomName then None else Some(r)
  }

  // ----- commands --------------------------------------------------------------------------

  function Granted(st: RoomState, grant: Grant, t: Key): RoomState {
    match grant
    case Op => st.(ops := st.ops + {t})
    case Deop => st.(ops := st.ops - {t})
    case Voice => st.(voiced := st.voiced + {t})
    case Devoice => st.(voiced := st.voiced - {t})
  }

  function DoKick(pc: Setup, w: World, r: Text, t: Key, hits: nat): World {
    if t == ZERO && hits != 1 then w else w.(hub := DoRemove(pc.hub, w.hub, t, r))
  }

  function DoGrant(w: World, r: Text, grant: Grant, t: Key, now: real): World {
    var st := Ensured(w.rooms, r, None);
    if t == ZERO || (grant.Deop? && st.founder == Some(t)) then w else Mutate(w, r, Granted(st, grant, t), now)
  }

  function DoMode(w: World, r: Text, flag: Flag, on: bool, key: Text, now: real): World {
    var st := Ensured(w.rooms, r, None);
    var m := Flagged(st.modes, flag, on, key);
    if m.None? then SetRoom(w, r, st, false) else Mutate(w, r, st.(modes := m.value), now)
  }

  function DoBan(pc: Setup, w: World, r: Text, t: Key, now: real): World {
    var st := Ensured(w.rooms, r, None);
    if t == ZERO then w
    else Mutate(w, r, st.(bans := st.bans + {t}), now).(hub := DoRemove(pc.hub, w.hub, t, r))
  }

  function DoUnban(w: World, r: Text, t: Key, now: real): World {
    var st := Ensured(w.rooms, r, None);
    if t == ZERO then w else Mutate(w, r, st.(bans := st.bans - {t}), now)
  }

  function Ttl(pc: Setup): real {
    if pc.inviteTtl <= 0.0 then 900.0 else pc.inviteTtl
  }

  /** An invitation is stored only where joining needs one. */
  function DoInvite(pc: Setup, w: World, r: Text, t: Key, now: real): World {
    if t == ZERO || r !in w.rooms || !(w.rooms[r].modes.inviteOnly || w.rooms[r].modes.key != "") then w
    else Mutate(w, r, w.rooms[r].(invited := w.rooms[r].invited[t := now + Ttl(pc)]), now)
  }

  function DoUninvite(w: World, r: Text, t: Key, now: real): World {
    var st := Ensured(w.rooms, r, None);
    if t == ZERO then w else Mutate(w, r, st.(invited := st.invited - {t}), now)
  }

  ghost function RoomCommand(pc: Setup, w: World, r: Text, cmd: Command, now: real): World {
    match cmd
    case Kick(_, token) =>
      DoKick(pc, w, r, Resolve(pc.hub, w.hub, token, Some(r)), |Found(pc.hub, w.hub, token, Some(r))|)
    case Give(grant, _, token) => DoGrant(w, r, grant, Resolve(pc.hub, w.hub, token, Some(r)), now)
    case Mode(_, flag, on, key) => DoMode(w, r, flag, on, key, now)
    case BanAdd(_, token) => DoBan(pc, w, r, Resolve(pc.hub, w.hub, token, Some(r)), now)
    case BanDel(_, token) => DoUnban(w, r, Resolve(pc.hub, w.hub, token, Some(r)), now)
    case InviteAdd(_, token) => DoInvite(pc, w, r, Resolve(pc.hub, w.hub, token, None), now)
    case InviteDel(_, token) => DoUninvite(w, r, Resolve(pc.hub, w.hub, token, None), now)
    case _ => w
  }

  /** Whether /register or /unregister comes from the founder, sent in the room while in it. */
  predicate FounderHere(pc: Setup, w: World, id: Key, at: Text, room: Option<Text>) {
    room.Some? &&
    var r := room.value;
    at != "" && pc.hub.fold(at) == r && Listed(w.hub, id, r) && r in w.rooms && w.rooms[r].founder == Some(id)
  }

  function DoKline(pc: Setup, w: World, token: Token, t: Key, hits: nat): World {
    if t != ZERO then
      SetBanned(w, w.banned + {t}).(hub := if t in w.hub.peers then Close(pc.hub, w.hub, w.hub.peers[t]) else w.hub)
    else if hits > 1 || token.Nick? || |token.prefix| != 16 then w
    else SetBanned(w, w.banned + {FullId(token)})
  }

  function DoUnkline(w: World, token: Token): World {
    if token.Nick? || |token.prefix| != 16 || FullId(token) !in w.banned then w
    else SetBanned(w, w.banned - {FullId(token)})
  }

  function DoEnrol(w: World, r: Text, id: Key, now: real): World {
    var st := Ensured(w.rooms, r, Some(id));
    SetRoom(w, r,
            st.(registered := true, modes := st.modes.(noOutside := true, topicOpsOnly := true), ops := st.ops + {id},
                lastUsed := now),
            true)
  }

  function DoWithdraw(w: World, r: Text): World {
    if r !in w.rooms || !w.rooms[r].registered then w
    else SetRoom(w, r, w.rooms[r].(registered := false), true)
  }

  function DoTopic(w: World, r: Text, topic: Text, now: real): World {
    SetRoom(w, r, Ensured(w.rooms, r, None).(topic := topic, lastUsed := now), true)
  }

  /** Who may set the topic: operators, or anyone where the room does not reserve it to them. */
  predicate TopicAllowed(w: World, r: Text, id: Key) {
    IsOp(w.rooms, r, id, id in w.trusted) || !(r in w.rooms && w.rooms[r].modes.topicOpsOnly)
  }

  ghost function Execute(pc: Setup, w: World, id: Key, at: Text, cmd: Command, now: real): World {
    var op := id in w.trusted;
    match cmd
    case KlineAdd(token) =>
      if op then DoKline(pc, w, token, Resolve(pc.hub, w.hub, token, None), |Found(pc.hub, w.hub, token, None)|) else w
    case KlineDel(token) => if op then DoUnkline(w, token) else w
    case Enrol(name) =>
      if pc.path && FounderHere(pc, w, id, at, Room(pc.hub, name)) then DoEnrol(w, pc.hub.fold(name), id, now) else w
    case Withdraw(name) =>
      if FounderHere(pc, w, id, at, Room(pc.hub, name)) then DoWithdraw(w, pc.hub.fold(name)) else w
    case Topic(name, topic) =>
      if Room(pc.hub, name).Some? && TopicAllowed(w, pc.hub.fold(name), id)
      then DoTopic(w, pc.hub.fold(name), topic, now) else w
    case Query => w
    case _ =>
      if Room(pc.hub, cmd.name).Some? && IsOp(w.rooms, pc.hub.fold(cmd.name), id, op)
      then RoomCommand(pc, w, pc.hub.fold(cmd.name), cmd, now) else w
  }

  // ----- events ------------------------------------------------------------------------------

  function JoinEffects(w: World, p: Session, cfg: Config, id: Key, r: Text, offered: Text, now: real): World {
    var st := Ensured(w.rooms, r, Some(id));
    if r == "" || ByteLength(r) > cfg.maxRoomName then w
    else if !JoinAllowed(st, id, offered, id in w.trusted, now) || (r !in p.rooms && |p.rooms| >= cfg.maxRooms)
    then SetRoom(w, r, st, false)
    else SetRoom(w, r, st.(invited := st.invited - {id}, lastUsed := now), true)
  }

  function Touched(reg: Registry, rs: set<Text>, now: real): Registry {
    map r | r in reg.Keys + rs :: if r in rs then Ensured(reg, r, None).(lastUsed := now) else reg[r]
  }

  function Touch(w: World, rs: set<Text>, now: real): World {
    if rs == {} then w else Save(w.(rooms := Touched(w.rooms, rs, now)))
  }

  /** What the policy callbacks do around the hub's own handling; p is the session before that. */
  ghost function Effects(pc: Setup, w: World, p: Session, env: Envelope, v: Verdict, offered: Text,
                         cmd: Option<Command>, now: real): World {
    if p.key.None? || !v.token || !p.active || (env.nick.Some? && NickTooLong(pc.hub, env.nick.value)) then w
    else
      match env.kind
      case Join => JoinEffects(w, p, pc.hub, p.key.value, pc.hub.fold(env.room), offered, now)
      case Part => if pc.hub.fold(env.room) in p.rooms then Touch(w, {pc.hub.fold(env.room)}, now) else w
      case Hello => Touch(w, p.rooms, now)
      case Content => if cmd.Some? then Execute(pc, w, p.key.value, env.room, cmd.value, now) else w
      case _ => w
  }

  datatype Outcome = ConfigBad | RegistryBad | Done

  datatype Happening =
    | Linked(sid: Sid)
    | Identity(sid: Sid, key: Key, v: Verdict)
    | Message(sid: Sid, remote: Option<Key>, first: Verdict, env: Envelope, v: Verdict, offered: Text,
              cmd: Option<Command>)
    | Lost(sid: Sid)
    | PingedOut(key: Key)
    | Prune(after: real, started: real)
    | Reload(outcome: Outcome, trusted: set<Key>)

  predicate MayJoin(w: World, k: Option<Key>, r: Text, offered: Text, now: real) {
    k.Some? && JoinAllowed(Ensured(w.rooms, r, k), k.value, offered, k.value in w.trusted, now)
  }

  /** The session once the message callback has registered it. */
  function Before(pc: Setup, w: World, e: Happening): State
    requires e.Message?
  {
    if e.remote.Some? then Register(pc.hub, w.hub, e.sid, e.remote.value, e.remote.value !in w.banned, e.first)
    else w.hub
  }

  /** The hub event with the policy's answers filled in. */
  function HubEvent(pc: Setup, w: World, e: Happening, now: real): Event
    requires e.Message?
  {
    var allow := MayJoin(w, Get(Before(pc, w, e), e.sid).key, pc.hub.fold(e.env.room), e.offered, now);
    Received(e.sid, e.remote, e.remote.Some? ==> e.remote.value !in w.banned, e.first, e.env, e.v.(allow := allow))
  }

  function DoReload(w: World, outcome: Outcome, trusted: set<Key>, now: real): World {
    match outcome
    case ConfigBad => w
    case RegistryBad => w.(trusted := trusted, banned := C.Load(w.config, true, {}))
    case Done => w.(trusted := trusted, banned := C.Load(w.config, true, {}), rooms := Loaded(w.registryFile, now))
  }

  function DoPrune(w: World, after: real, started: real, now: real): World {
    var reg := Pruned(w.rooms, w.hub.rooms.Keys, after, started, now);
    if reg == w.rooms then w else Save(w.(rooms := reg))
  }

  predicate Possible(w: World, e: Happening) {
    match e
    case Linked(sid) => sid !in w.hub.sessions
    case Identity(sid, k, v) => Enabled(w.hub, Identified(sid, k, true, v)) && k != ZERO
    case Message(sid, remote, first, env, v, _, _) =>
      Enabled(w.hub, Received(sid, remote, true, first, env, v)) && remote != Some(ZERO)
    case Lost(sid) => Enabled(w.hub, Closed(sid))
    case _ => true
  }

  ghost function Next(pc: Setup, w: World, e: Happening, now: real): World {
    match e
    case Linked(sid) => w.(hub := Put(w.hub, sid, NEW))
    case Identity(sid, k, v) => w.(hub := Register(pc.hub, w.hub, sid, k, k !in w.banned, v))
    case Message(sid, _, _, env, v, offered, cmd) =>
      var w' := w.(hub := Step(pc.hub, w.hub, HubEvent(pc, w, e, now)));
      Effects(pc, w', Get(Before(pc, w, e), sid), env, v, offered, cmd, now)
    case Lost(sid) => w.(hub := Close(pc.hub, w.hub, sid))
    case PingedOut(k) => w.(hub := Step(pc.hub, w.hub, Disconnected(k)))
    case Prune(after, started) => DoPrune(w, after, started, now)
    case Reload(outcome, trusted) => DoReload(w, outcome, trusted, now)
  }

  // ----- what holds after every event ----------------------------------------------------------

  predicate FounderOk(st: RoomState) {
    st.founder.Some? ==> st.founder.value in st.ops
  }

  function InvitedIn(reg: Registry, r: Text): map<Key, real> {
    if r in reg then reg[r].invited else map[]
  }

  /** Every invitation of a is in b as well. */
  predicate Within(a: map<Key, real>, b: map<Key, real>) {
    forall id :: id in a ==> id in b && b[id] == a[id]
  }

  /** The file holds exactly the registered rooms, with their present bans and all present invitations. */
  predicate RoomSaved(reg: Registry, file: Registry, r: Text) {
    && (r in file <==> r in reg && reg[r].registered)
    && (r in file ==> r in reg && file[r].bans == reg[r].bans && Within(reg[r].invited, file[r].invited))
  }

  ghost predicate RegistryOk(w: World) {
    && (forall r :: r in w.rooms ==> FounderOk(w.rooms[r]))
    && (forall r: Text :: RoomSaved(w.rooms, w.registryFile, r))
  }

  ghost predicate NoBanned(s: State, reg: Registry) {
    forall k: Key, r: Text :: k in At(s.rooms, r) ==> k !in Bans(reg, r)
  }

  ghost predicate NoKlined(s: State, banned: set<Key>) {
    forall k :: k in s.peers ==> k !in banned && k != ZERO
  }

  /** The identities on a list that anyone can have. */
  function Real(ids: set<Key>): set<Key> {
    set k | k in ids && k != ZERO
  }

  /** Edits of the configuration file reach the next load, or that load can ban nobody who exists. */
  predicate ConfigSafe(config: seq<C.Line>) {
    C.Lands(config) || Real(C.Foreign(config, true, {})) == {}
  }

  predicate ConfigOkFor(w: World) {
    ConfigSafe(w.config) && (C.Lands(w.config) ==> C.Load(w.config, true, {}) == w.banned)
  }

  ghost predicate Barred(w: World) {
    NoKlined(w.hub, w.banned) && ConfigOkFor(w)
  }

  // ----- registry changes -------------------------------------------------------------------------

  predicate WasRegistered(w: World, r: Text) {
    r in w.rooms && w.rooms[r].registered
  }

  lemma SaveOk(w: World)
    requires forall r :: r in w.rooms ==> FounderOk(w.rooms[r])
    ensures RegistryOk(Save(w))
  {
    forall r: Text ensures RoomSaved(w.rooms, Save(w).registryFile, r) {}
  }

  predicate NeedsNoSave(w: World, r: Text, st: RoomState) {
    && st.registered == WasRegistered(w, r)
    && (st.registered ==> st.bans == w.rooms[r].bans && st.invited == w.rooms[r].invited)
  }

  lemma SetRoomOk(w: World, r: Text, st: RoomState, save: bool)
    requires RegistryOk(w) && FounderOk(st) && (save || NeedsNoSave(w, r, st))
    ensures RegistryOk(SetRoom(w, r, st, save))
  {
    if save {
      SaveOk(w.(rooms := w.rooms[r := st]));
    } else {
      var w' := SetRoom(w, r, st, save);
      forall x: Text ensures RoomSaved(w'.rooms, w'.registryFile, x) {
        assert RoomSaved(w.rooms, w.registryFile, x);
      }
    }
  }

  lemma EnsuredOk(w: World, r: Text, founder: Option<Key>)
    requires RegistryOk(w)
    ensures var st := Ensured(w.rooms, r, founder);
            && FounderOk(st) && st.registered == WasRegistered(w, r)
            && st.bans == Bans(w.rooms, r) && st.invited == InvitedIn(w.rooms, r)
  {
  }

  lemma MutateOk(w: World, r: Text, st: RoomState, now: real)
    requires RegistryOk(w) && FounderOk(st) && st.registered == WasRegistered(w, r)
    ensures RegistryOk(Mutate(w, r, st, now))
  {
    SetRoomOk(w, r, st.(lastUsed := now), st.registered);
  }

  lemma GrantOk(w: World, r: Text, grant: Grant, t: Key, now: real)
    requires RegistryOk(w)
    ensures RegistryOk(DoGrant(w, r, grant, t, now))
  {
    var st := Ensured(w.rooms, r, None);
    EnsuredOk(w, r, None);
    if !(grant.Deop? && st.founder == Some(t)) { MutateOk(w, r, Granted(st, grant, t), now); }
  }

  lemma ModeOk(w: World, r: Text, flag: Flag, on: bool, key: Text, now: real)
    requires RegistryOk(w)
    ensures RegistryOk(DoMode(w, r, flag, on, key, now))
  {
    var st := Ensured(w.rooms, r, None);
    EnsuredOk(w, r, None);
    var m := Flagged(st.modes, flag, on, key);
    if m.Some? { MutateOk(w, r, st.(modes := m.value), now); } else { SetRoomOk(w, r, st, false); }
  }

  lemma BanOk(pc: Setup, w: World, r: Text, t: Key, now: real)
    requires RegistryOk(w)
    ensures RegistryOk(DoBan(pc, w, r, t, now)) && RegistryOk(DoUnban(w, r, t, now))
  {
    var st := Ensured(w.rooms, r, None);
    EnsuredOk(w, r, None);
    MutateOk(w, r, st.(bans := st.bans + {t}), now);
    MutateOk(w, r, st.(bans := st.bans - {t}), now);
  }

  lemma InviteOk(pc: Setup, w: World, r: Text, t: Key, now: real)
    requires RegistryOk(w)
    ensures RegistryOk(DoInvite(pc, w, r, t, now)) && RegistryOk(DoUninvite(w, r, t, now))
  {
    var st := Ensured(w.rooms, r, None);
    EnsuredOk(w, r, None);
    MutateOk(w, r, st.(invited := st.invited[t := now + Ttl(pc)]), now);
    MutateOk(w, r, st.(invited := st.invited - {t}), now);
  }

  /** Every command, by anyone, leaves the registry and its file in step. */
  lemma ExecuteRegistry(pc: Setup, w: World, id: Key, at: Text, cmd: Command, now: real)
    requires RegistryOk(w)
    ensures RegistryOk(Execute(pc, w, id, at, cmd, now))
  {
    match cmd
    case Enrol(name) =>
      var r := pc.hub.fold(name);
      var st := Ensured(w.rooms, r, Some(id));
      EnsuredOk(w, r, Some(id));
      SetRoomOk(w, r, st.(registered := true, modes := st.modes.(noOutside := true, topicOpsOnly := true),
                          ops := st.ops + {id}, lastUsed := now), true);
    case Withdraw(name) =>
      var r := pc.hub.fold(name);
      if r in w.rooms { SetRoomOk(w, r, w.rooms[r].(registered := false), true); }
    case Topic(name, topic) =>
      var r := pc.hub.fold(name);
      EnsuredOk(w, r, None);
      SetRoomOk(w, r, Ensured(w.rooms, r, None).(topic := topic, lastUsed := now), true);
    case Give(grant, name, token) =>
      GrantOk(w, pc.hub.fold(name), grant, Resolve(pc.hub, w.hub, token, Some(pc.hub.fold(name))), now);
    case Mode(name, flag, on, key) => ModeOk(w, pc.hub.fold(name), flag, on, key, now);
    case BanAdd(name, token) =>
      BanOk(pc, w, pc.hub.fold(name), Resolve(pc.hub, w.hub, token, Some(pc.hub.fold(name))), now);
    case BanDel(name, token) =>
      BanOk(pc, w, pc.hub.fold(name), Resolve(pc.hub, w.hub, token, Some(pc.hub.fold(name))), now);
    case InviteAdd(name, token) => InviteOk(pc, w, pc.hub.fold(name), Resolve(pc.hub, w.hub, token, None), now);
    case InviteDel(name, token) => InviteOk(pc, w, pc.hub.fold(name), Resolve(pc.hub, w.hub, token, None), now);
    case _ =>
  }

  lemma JoinEffectsRegistry(w: World, p: Session, cfg: Config, id: Key, r: Text, offered: Text, now: real)
    requires RegistryOk(w)
    ensures RegistryOk(JoinEffects(w, p, cfg, id, r, offered, now))
  {
    var st := Ensured(w.rooms, r, Some(id));
    EnsuredOk(w, r, Some(id));
    SetRoomOk(w, r, st, false);
    SetRoomOk(w, r, st.(invited := st.invited - {id}, lastUsed := now), true);
  }

  lemma TouchRegistry(w: World, rs: set<Text>, now: real)
    requires RegistryOk(w)
    ensures RegistryOk(Touch(w, rs, now))
  {
    var w1 := w.(rooms := Touched(w.rooms, rs, now));
    forall r | r in w1.rooms ensures FounderOk(w1.rooms[r]) {
      EnsuredOk(w, r, None);
    }
    SaveOk(w1);
  }

  lemma EffectsRegistry(pc: Setup, w: World, p: Session, env: Envelope, v: Verdict, offered: Text,
                        cmd: Option<Command>, now: real)
    requires RegistryOk(w)
    ensures RegistryOk(Effects(pc, w, p, env, v, offered, cmd, now))
  {
    match env.kind
    case Join => if p.key.Some? { JoinEffectsRegistry(w, p, pc.hub, p.key.value, pc.hub.fold(env.room), offered, now); }
    case Part => TouchRegistry(w, {pc.hub.fold(env.room)}, now);
    case Hello => TouchRegistry(w, p.rooms, now);
    case Content => if p.key.Some? && cmd.Some? { ExecuteRegistry(pc, w, p.key.value, env.room, cmd.value, now); }
    case _ =>
  }

  lemma ReloadRegistry(w: World, outcome: Outcome, trusted: set<Key>, now: real)
    requires RegistryOk(w)
    ensures RegistryOk(DoReload(w, outcome, trusted, now))
  {
    var w' := DoReload(w, outcome, trusted, now);
    forall r: Text ensures RoomSaved(w'.rooms, w'.registryFile, r) {
      assert RoomSaved(w.rooms, w.registryFile, r);
    }
  }

  /** The world after the hub has handled a message, before the policy's own effects. */
  function Handled(pc: Setup, w: World, e: Happening, now: real): World
    requires e.Message?
  {
    w.(hub := Step(pc.hub, w.hub, HubEvent(pc, w, e, now)))
  }

  /** Every event leaves the registry and its file in step. */
  lemma NextRegistry(pc: Setup, w: World, e: Happening, now: real)
    requires RegistryOk(w)
    ensures RegistryOk(Next(pc, w, e, now))
  {
    match e
    case Message(sid, _, _, env, v, offered, cmd) =>
      var w1 := Handled(pc, w, e, now);
      assert RegistryOk(w1);
      EffectsRegistry(pc, w1, Get(Before(pc, w, e), sid), env, v, offered, cmd, now);
    case Prune(after, started) => SaveOk(w.(rooms := Pruned(w.rooms, w.hub.rooms.Keys, after, started, now)));
    case Reload(outcome, trusted) => ReloadRegistry(w, outcome, trusted, now);
    case _ =>
  }

  // ----- the hub under the policy --------------------------------------------------------------------

  /** Apart from klines, commands leave trust alone, and only /kick and /ban reach the hub. */
  lemma ExecuteHub(pc: Setup, w: World, id: Key, at: Text, cmd: Command, now: real)
    requires !cmd.KlineAdd? && !cmd.KlineDel?
    ensures var w' := Execute(pc, w, id, at, cmd, now);
            && w'.banned == w.banned && w'.config == w.config
            && (w'.hub == w.hub || (
                  (cmd.Kick? || cmd.BanAdd?) &&
                  var r := pc.hub.fold(cmd.name);
                  w'.hub == DoRemove(pc.hub, w.hub, Resolve(pc.hub, w.hub, cmd.token, Some(r)), r)))
  {
  }

  lemma ExecuteBase(pc: Setup, w: World, id: Key, at: Text, cmd: Command, now: real)
    requires Base(w.hub)
    ensures Base(Execute(pc, w, id, at, cmd, now).hub)
  {
    if cmd.KlineAdd? {
      var t := Resolve(pc.hub, w.hub, cmd.token, None);
      if t in w.hub.peers { CloseBase(pc.hub, w.hub, w.hub.peers[t]); }
    } else if !cmd.KlineDel? {
      ExecuteHub(pc, w, id, at, cmd, now);
      if cmd.Kick? || cmd.BanAdd? {
        var r := pc.hub.fold(cmd.name);
        StepBase(pc.hub, w.hub, Removed(Resolve(pc.hub, w.hub, cmd.token, Some(r)), r));
      }
    }
  }

  lemma HandledBase(pc: Setup, w: World, e: Happening, now: real)
    requires Base(w.hub) && Possible(w, e) && e.Message?
    ensures Base(Handled(pc, w, e, now).hub)
  {
    StepBase(pc.hub, w.hub, HubEvent(pc, w, e, now));
  }

  lemma EffectsBase(pc: Setup, w: World, p: Session, env: Envelope, v: Verdict, offered: Text, cmd: Option<Command>,
                    now: real)
    requires Base(w.hub)
    ensures Base(Effects(pc, w, p, env, v, offered, cmd, now).hub)
  {
    if p.key.Some? && cmd.Some? { ExecuteBase(pc, w, p.key.value, env.room, cmd.value, now); }
  }

  lemma NextBase(pc: Setup, w: World, e: Happening, now: real)
    requires Base(w.hub) && Possible(w, e)
    ensures Base(Next(pc, w, e, now).hub)
  {
    match e
    case Linked(sid) => StepBase(pc.hub, w.hub, Accepted(sid));
    case Identity(sid, k, v) => RegisterBase(pc.hub, w.hub, sid, k, k !in w.banned, v);
    case Message(sid, _, _, env, v, offered, cmd) =>
      HandledBase(pc, w, e, now);
      EffectsBase(pc, Handled(pc, w, e, now), Get(Before(pc, w, e), sid), env, v, offered, cmd, now);
    case Lost(sid) => CloseBase(pc.hub, w.hub, sid);
    case PingedOut(k) => if k in w.hub.peers { CloseBase(pc.hub, w.hub, w.hub.peers[k]); }
    case _ =>
  }

  // ----- klines ------------------------------------------------------------------------------------------

  lemma FewerBarred(w: World, s: State)
    requires Barred(w) && s.peers.Keys <= w.hub.peers.Keys
    ensures Barred(w.(hub := s))
  {
    forall k | k in s.peers ensures k !in w.banned && k != ZERO {
      assert k in w.hub.peers;
    }
  }

  lemma RemoveBarred(pc: Setup, w: World, t: Key, r: Text)
    requires Barred(w)
    ensures Barred(w.(hub := DoRemove(pc.hub, w.hub, t, r)))
  {
    if t in w.hub.peers { PartShrinks(w.hub, w.hub.peers[t], {pc.hub.fold(r)}); }
    FewerBarred(w, DoRemove(pc.hub, w.hub, t, r));
  }

  lemma BannedOk(w: World, banned: set<Key>)
    requires ConfigSafe(w.config)
    ensures ConfigOkFor(SetBanned(w, banned))
  {
    C.PersistThenLoad(w.config, banned);
  }

  lemma KlineBars(pc: Setup, w: World, token: Token, t: Key, hits: nat)
    requires Base(w.hub) && Barred(w) && (t == ZERO && hits <= 1 ==> FullId(token) == ZERO)
    ensures Barred(DoKline(pc, w, token, t, hits))
    ensures t != ZERO ==> t in DoKline(pc, w, token, t, hits).banned && t !in DoKline(pc, w, token, t, hits).hub.peers
  {
    var w' := DoKline(pc, w, token, t, hits);
    if t != ZERO {
      BannedOk(w, w.banned + {t});
      if t in w.hub.peers {
        CloseBase(pc.hub, w.hub, w.hub.peers[t]);
        CloseShrinks(pc.hub, w.hub, w.hub.peers[t]);
        FewerBarred(w, w'.hub);
      }
    } else {
      BannedOk(w, w.banned + {FullId(token)});
    }
  }

  lemma ResolveZero(cfg: Config, s: State, token: Token, room: Option<Text>)
    requires ZERO !in s.peers
    ensures Resolve(cfg, s, token, room) == ZERO && |Found(cfg, s, token, room)| <= 1 ==> FullId(token) == ZERO
  {
    var hits := Found(cfg, s, token, room);
    if |hits| == 1 {
      assert Pick(hits) in hits;
      assert Pick(hits) in s.peers;
    }
  }

  /** Every command, by anyone, leaves no klined identity connected. */
  lemma ExecuteBars(pc: Setup, w: World, id: Key, at: Text, cmd: Command, now: real)
    requires Base(w.hub) && Barred(w)
    ensures Barred(Execute(pc, w, id, at, cmd, now))
  {
    if cmd.KlineAdd? {
      var token := cmd.token;
      ResolveZero(pc.hub, w.hub, token, None);
      KlineBars(pc, w, token, Resolve(pc.hub, w.hub, token, None), |Found(pc.hub, w.hub, token, None)|);
    } else if cmd.KlineDel? {
      BannedOk(w, w.banned - {FullId(cmd.token)});
    } else {
      ExecuteHub(pc, w, id, at, cmd, now);
      if cmd.Kick? || cmd.BanAdd? {
        var r := pc.hub.fold(cmd.name);
        RemoveBarred(pc, w, Resolve(pc.hub, w.hub, cmd.token, Some(r)), r);
      }
    }
  }

  lemma MessagePeers(pc: Setup, w: World, e: Happening, now: real, j: Key)
    requires Base(w.hub) && Barred(w) && Possible(w, e) && e.Message?
    requires j in Handled(pc, w, e, now).hub.peers
    ensures j !in w.banned && j != ZERO
  {
    var h, s1 := HubEvent(pc, w, e, now), Before(pc, w, e);
    if e.remote.Some? { RegisterAdds(pc.hub, w.hub, e.sid, e.remote.value, h.identOk, e.first, j, ""); }
    HandlePeers(pc.hub, s1, e.sid, e.env, h.v);
    assert j in s1.peers;
  }

  lemma HandledBars(pc: Setup, w: World, e: Happening, now: real)
    requires Base(w.hub) && Barred(w) && Possible(w, e) && e.Message?
    ensures Barred(Handled(pc, w, e, now))
  {
    var w1 := Handled(pc, w, e, now);
    forall j | j in w1.hub.peers ensures j !in w1.banned && j != ZERO { MessagePeers(pc, w, e, now, j); }
  }

  lemma EffectsBar(pc: Setup, w: World, p: Session, env: Envelope, v: Verdict, offered: Text, cmd: Option<Command>,
                   now: real)
    requires Base(w.hub) && Barred(w)
    ensures Barred(Effects(pc, w, p, env, v, offered, cmd, now))
  {
    if p.key.Some? && cmd.Some? { ExecuteBars(pc, w, p.key.value, env.room, cmd.value, now); }
  }

  lemma IdentityBars(pc: Setup, w: World, e: Happening)
    requires Base(w.hub) && Barred(w) && Possible(w, e) && e.Identity?
    ensures Barred(Next(pc, w, e, 0.0))
  {
    var ok := e.key !in w.banned;
    var s' := Register(pc.hub, w.hub, e.sid, e.key, ok, e.v);
    forall j | j in s'.peers ensures j !in w.banned && j != ZERO {
      RegisterAdds(pc.hub, w.hub, e.sid, e.key, ok, e.v, j, "");
    }
  }

  ghost predicate NoneConnected(s: State, ids: set<Key>) {
    forall k :: k in s.peers ==> k !in ids
  }

  /** A reload keeps klined identities out exactly when no connected one is on the list it loads. */
  lemma ReloadKlined(w: World, outcome: Outcome, trusted: set<Key>, now: real)
    requires NoKlined(w.hub, w.banned)
    ensures NoKlined(w.hub, DoReload(w, outcome, trusted, now).banned) <==>
            outcome.ConfigBad? || NoneConnected(w.hub, C.Load(w.config, true, {}))
  {
  }

  lemma ReloadBars(w: World, outcome: Outcome, trusted: set<Key>, now: real)
    requires Barred(w)
    ensures Barred(DoReload(w, outcome, trusted, now))
  {
    if !C.Lands(w.config) { C.LoadWithoutLanding(w.config); }
    var w' := DoReload(w, outcome, trusted, now);
    forall k | k in w'.hub.peers ensures k !in w'.banned && k != ZERO {
      assert k in w.hub.peers;
      if !C.Lands(w.config) { assert k !in Real(C.Foreign(w.config, true, {})); }
    }
  }

  /** Every event leaves no klined identity connected, lost WELCOMEs and late JOINs included. */
  lemma NextBars(pc: Setup, w: World, e: Happening, now: real)
    requires Base(w.hub) && Barred(w) && Possible(w, e)
    ensures Barred(Next(pc, w, e, now))
  {
    match e
    case Linked(sid) => FewerBarred(w, Put(w.hub, sid, NEW));
    case Identity(_, _, _) => IdentityBars(pc, w, e);
    case Message(sid, _, _, env, v, offered, cmd) =>
      HandledBase(pc, w, e, now);
      HandledBars(pc, w, e, now);
      EffectsBar(pc, Handled(pc, w, e, now), Get(Before(pc, w, e), sid), env, v, offered, cmd, now);
    case Lost(sid) =>
      CloseShrinks(pc.hub, w.hub, sid);
      FewerBarred(w, Close(pc.hub, w.hub, sid));
    case PingedOut(k) =>
      if k in w.hub.peers {
        CloseShrinks(pc.hub, w.hub, w.hub.peers[k]);
        FewerBarred(w, Close(pc.hub, w.hub, w.hub.peers[k]));
      }
    case Prune(_, _) =>
    case Reload(outcome, trusted) => ReloadBars(w, outcome, trusted, now);
  }

  // ----- reloads ----------------------------------------------------------------------------------------------

  /** A reload keeps a room's bans exactly when the room is registered, or has none to lose. */
  lemma BansSurviveReload(w: World, trusted: set<Key>, now: real, r: Text)
    requires RegistryOk(w)
    ensures Bans(DoReload(w, Done, trusted, now).rooms, r) == Bans(w.rooms, r) <==>
            WasRegistered(w, r) || Bans(w.rooms, r) == {}
  {
    assert RoomSaved(w.rooms, w.registryFile, r);
  }

  /** A reload keeps the klines exactly when edits land, or the klines are those the file had all along. */
  lemma KlinesSurviveReload(w: World, trusted: set<Key>, now: real)
    requires ConfigOkFor(w)
    ensures DoReload(w, Done, trusted, now).banned == w.banned <==>
            C.Lands(w.config) || w.banned == C.Foreign(w.config, true, {})
  {
    if !C.Lands(w.config) { C.LoadWithoutLanding(w.config); }
  }

  // ----- the service object -------------------------------------------------------------------------------------

  class Service {
    const pc: Setup
    const hub: HubServer
    var rooms: Registry
    var trusted: set<Key>
    var banned: set<Key>
    var registryFile: Registry
    var config: seq<C.Line>

    constructor (pc: Setup, hub: HubServer)
      ensures this.pc == pc && this.hub == hub && rooms == map[] && trusted == banned == {} && config == []
    {
      this.pc, this.hub := pc, hub;
      rooms, trusted, banned, registryFile, config := map[], {}, {}, map[], [];
    }

    function View(): World reads this, hub {
      World(hub.View(), rooms, trusted, banned, registryFile, config)
    }

    ghost predicate Valid() reads this, hub {
      hub.cfg == pc.hub && ConfigOk(pc.hub) && Base(hub.View())
    }

    method MutateRoom(r: Text, st: RoomState, now: real)
      modifies this
      ensures View() == Mutate(old(View()), r, st, now)
      ensures hub.View() == old(hub.View())
    {
      rooms := rooms[r := st.(lastUsed := now)];
      if st.registered { registryFile := Saved(rooms); }
    }

    method PersistBans()
      modifies this
      ensures View() == old(View()).(config := C.Persist(old(config), banned))
      ensures hub.View() == old(hub.View())
    {
      config := C.PersistBanned(config, banned);
    }

    method AddBan(r: Text, target: Key, now: real)
      requires hub.cfg == pc.hub && ConfigOk(pc.hub) && Base(hub.View()) && pc.hub.fold(r) == r && target != ZERO
      modifies this, hub
      ensures View() == DoBan(pc, old(View()), r, target, now)
    {
      var st := Ensured(rooms, r, None);
      MutateRoom(r, st.(bans := st.bans + {target}), now);
      NotListedStays(pc.hub, hub.View(), target, r);
      if Listed(hub.View(), target, r) {
        var _ := hub.RemoveFromRoom(target, r);
      }
    }

    method CmdBan(id: Key, at: Text, name: Text, add: bool, token: Token, now: real)
      requires Valid()
      modifies this, hub
      ensures View() == Execute(pc, old(View()), id, at, if add then BanAdd(name, token) else BanDel(name, token), now)
    {
      var r := pc.hub.fold(name);
      if r == "" || ByteLength(r) > pc.hub.maxRoomName || !IsOp(rooms, r, id, id in trusted) { return; }
      var target, _ := ResolveToken(pc.hub, hub.View(), token, Some(r));
      if target == ZERO { return; }
      if add {
        AddBan(r, target, now);
      } else {
        var st := Ensured(rooms, r, None);
        MutateRoom(r, st.(bans := st.bans - {target}), now);
      }
    }

    method CmdKick(id: Key, at: Text, name: Text, token: Token, now: real)
      requires Valid()
      modifies hub
      ensures View() == Execute(pc, old(View()), id, at, Kick(name, token), now)
    {
      var r := pc.hub.fold(name);
      if r == "" || ByteLength(r) > pc.hub.maxRoomName || !IsOp(rooms, r, id, id in trusted) { return; }
      var target, matches := ResolveToken(pc.hub, hub.View(), token, Some(r));
      if |matches| != 1 && target == ZERO { return; }
      NotListedStays(pc.hub, hub.View(), target, r);
      if !Listed(hub.View(), target, r) { return; }
      var _ := hub.RemoveFromRoom(target, r);
    }

    method CmdKline(id: Key, at: Text, add: bool, token: Token, now: real)
      requires Valid()
      modifies this, hub
      ensures View() == Execute(pc, old(View()), id, at, if add then KlineAdd(token) else KlineDel(token), now)
    {
      if id !in trusted { return; }
      if add {
        var target, matches := ResolveToken(pc.hub, hub.View(), token, None);
        if target != ZERO {
          banned := banned + {target};
          PersistBans();
          if target in hub.peers { hub.CloseSession(hub.peers[target]); }
          return;
        }
        if |matches| > 1 || token.Nick? || |token.prefix| != 16 { return; }
        banned := banned + {FullId(token)};
        PersistBans();
      } else {
        if token.Nick? || |token.prefix| != 16 || FullId(token) !in banned { return; }
        banned := banned - {FullId(token)};
        PersistBans();
      }
    }
  }

  lemma NotListedStays(cfg: Config, s: State, k: Key, r: Text)
    requires ConfigOk(cfg) && cfg.fold(r) == r
    ensures !Listed(s, k, r) ==> DoRemove(cfg, s, k, r) == s
  {
    if k in s.peers && r !in Get(s, s.peers[k]).rooms { assert {r} * Get(s, s.peers[k]).rooms == {}; }
  }
}
