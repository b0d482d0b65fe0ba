/**
 Histories that show where the guarantees about bans and klines end (internal/gorrcd/commands.go, service.go;
 pkg/rrc/hub.go), and with them the exact condition on the configuration file.
 */
module PolicyWitness {
  import opened Bytes
  import opened Hub
  import opened Rooms
  import opened Policy
  import opened PolicyRuns
  import C = ConfigFile

  const HELLO := Envelope(Hello, "", None, "")

  function Hail(sid: Sid, k: Key): Happening {
    Message(sid, Some(k), YES, HELLO, YES, "", None)
  }

  function Order(sid: Sid, k: Key, room: Text, cmd: Command): Happening {
    Message(sid, Some(k), YES, Envelope(Content, room, None, ""), YES, "", Some(cmd))
  }

  function Seated(w: World, sid: Sid, k: Key): World {
    w.(hub := State(w.hub.peers[k := sid], w.hub.sessions[sid := NEW.(key := Some(k), active := true)],
                    w.hub.rooms, w.hub.nicks))
  }

  lemma HailSeats(pc: Setup, w: World, sid: Sid, k: Key, now: real)
    requires sid in w.hub.sessions && Get(w.hub, sid) == NEW && k !in w.hub.peers && k !in w.banned && k != ZERO
    ensures Possible(w, Hail(sid, k)) && Next(pc, w, Hail(sid, k), now) == Seated(w, sid, k)
  {
    var e, cfg := Hail(sid, k), pc.hub;
    var s1 := State(w.hub.peers[k := sid], w.hub.sessions[sid := NEW.(key := Some(k))], w.hub.rooms, w.hub.nicks);
    assert Claim(cfg, w.hub, sid, k) == s1;
    assert Before(pc, w, e) == s1;
    assert Step(cfg, w.hub, HubEvent(pc, w, e, now)) == Handle(cfg, s1, sid, HELLO, HubEvent(pc, w, e, now).v);
    assert Handle(cfg, s1, sid, HELLO, HubEvent(pc, w, e, now).v) == Put(s1, sid, NEW.(key := Some(k), active := true));
  }

  lemma OrderRuns(pc: Setup, w: World, sid: Sid, k: Key, room: Text, cmd: Command, now: real)
    requires sid in w.hub.sessions && Get(w.hub, sid).key == Some(k) && Get(w.hub, sid).active
    requires !Get(w.hub, sid).closed
    requires Get(w.hub, sid).pending.None? && k !in w.banned && k != ZERO
    ensures Possible(w, Order(sid, k, room, cmd))
    ensures Next(pc, w, Order(sid, k, room, cmd), now) == Execute(pc, w, k, room, cmd, now)
  {
    var e := Order(sid, k, room, cmd);
    assert Before(pc, w, e) == w.hub;
    assert Step(pc.hub, w.hub, HubEvent(pc, w, e, now)) == w.hub;
    assert w.(hub := w.hub) == w;
  }

  lemma Extend(pc: Setup, ws: seq<World>, es: seq<Happening>, times: seq<real>, e: Happening, now: real)
    requires IsHistory(pc, ws, es, times) && Possible(ws[|es|], e)
    ensures IsHistory(pc, ws + [Next(pc, ws[|es|], e, now)], es + [e], times + [now])
  {
  }

  /** Some history leads from the one world to the other. */
  ghost predicate Reaches(pc: Setup, from: World, to: World) {
    exists ws: seq<World>, es: seq<Happening>, times: seq<real> ::
      IsHistory(pc, ws, es, times) && ws[0] == from && ws[|es|] == to
  }

  lemma ReachesSelf(pc: Setup, w: World)
    ensures Reaches(pc, w, w)
  {
    var es: seq<Happening>, times: seq<real> := [], [];
    assert IsHistory(pc, [w], es, times) && [w][|es|] == w;
  }

  lemma ReachesNext(pc: Setup, from: World, w: World, e: Happening, now: real)
    requires Reaches(pc, from, w) && Possible(w, e)
    ensures Reaches(pc, from, Next(pc, w, e, now))
  {
    var ws: seq<World>, es: seq<Happening>, times: seq<real> :|
      IsHistory(pc, ws, es, times) && ws[0] == from && ws[|es|] == w;
    Extend(pc, ws, es, times, e, now);
    var ws', es' := ws + [Next(pc, w, e, now)], es + [e];
    assert ws'[0] == from && ws'[|es'|] == Next(pc, w, e, now);
  }

  /** An operator connects under a new session number. */
  lemma ReachesSeated(pc: Setup, from: World, w: World, sid: Sid, k: Key, now: real)
    requires Reaches(pc, from, w) && sid !in w.hub.sessions && k !in w.hub.peers && k !in w.banned && k != ZERO
    ensures Reaches(pc, from, Seated(w, sid, k))
  {
    var w1 := w.(hub := Put(w.hub, sid, NEW));
    ReachesNext(pc, from, w, Linked(sid), now);
    HailSeats(pc, w1, sid, k, now);
    ReachesNext(pc, from, w1, Hail(sid, k), now);
    assert Seated(w1, sid, k) == Seated(w, sid, k);
  }

  // ----- klines ---------------------------------------------------------------------------------------

  /** An unwanted identity connects as soon as its kline is lifted. */
  lemma IdentityConnects(pc: Setup, w: World, sid: Sid, id: Key, now: real)
    requires sid in w.hub.sessions && Get(w.hub, sid) == NEW && id !in w.hub.peers && id !in w.banned && id != ZERO
    ensures Possible(w, Identity(sid, id, YES))
    ensures var w' := Next(pc, w, Identity(sid, id, YES), now);
            id in w'.hub.peers && w'.config == w.config && w'.trusted == w.trusted
  {
    var s1 := State(w.hub.peers[id := sid], w.hub.sessions[sid := NEW.(key := Some(id))], w.hub.rooms, w.hub.nicks);
    assert Claim(pc.hub, w.hub, sid, id) == s1;
    assert Register(pc.hub, w.hub, sid, id, true, YES) == s1;
  }

  /** The operator lifts the kline of id. */
  lemma ReachesLifted(pc: Setup, w: World, op: Key, id: Key, now: real) returns (w': World)
    requires w.hub == EMPTY && op in w.trusted && op !in w.banned && op != ZERO && id in w.banned
    ensures Reaches(pc, w, w')
    ensures w'.banned == w.banned - {id} && w'.config == C.Persist(w.config, w.banned - {id})
    ensures w'.hub == Seated(w, 0, op).hub
  {
    ReachesSelf(pc, w);
    ReachesSeated(pc, w, w, 0, op, now);
    var w1 := Seated(w, 0, op);
    var cmd := KlineDel(Hex(id));
    OrderRuns(pc, w1, 0, op, "", cmd, now);
    ReachesNext(pc, w, w1, Order(0, op, "", cmd), now);
    w' := Execute(pc, w1, op, "", cmd, now);
    assert FullId(Hex(id)) == id;
  }

  /**
   Where edits of the configuration file do not land and the file bans a real identity: an operator lifts that
   kline, the identity connects, and a reload of the unedited files leaves it klined and connected.
   */
  lemma UnsafeConfigBreaks(pc: Setup, w: World, start: real, op: Key, now: real) returns (w': World, id: Key)
    requires Started(w, start) && !ConfigSafe(w.config) && op in w.trusted && op !in w.banned && op != ZERO
    ensures Reaches(pc, w, w') && id in w'.banned && id in w'.hub.peers
  {
    id :| id in Real(C.Foreign(w.config, true, {}));
    C.LoadWithoutLanding(w.config);
    var w1 := ReachesLifted(pc, w, op, id, now);
    var w2 := Next(pc, w1, Linked(1), now);
    ReachesNext(pc, w, w1, Linked(1), now);
    IdentityConnects(pc, w2, 1, id, now);
    var w3 := Next(pc, w2, Identity(1, id, YES), now);
    ReachesNext(pc, w, w2, Identity(1, id, YES), now);
    w' := Next(pc, w3, Reload(Done, w3.trusted), now);
    ReachesNext(pc, w, w3, Reload(Done, w3.trusted), now);
    C.PersistThenLoad(w.config, w.banned - {id});
  }

  lemma SafeConfigHolds(pc: Setup, w: World, start: real, w': World)
    requires Started(w, start) && ConfigSafe(w.config) && Reaches(pc, w, w')
    ensures NoKlined(w'.hub, w'.banned)
  {
    var ws: seq<World>, es: seq<Happening>, times: seq<real> :|
      IsHistory(pc, ws, es, times) && ws[0] == w && ws[|es|] == w';
    HistoryBars(pc, ws, es, times, start, |es|);
  }

  /** Klined identities stay out in every run from a start, if and only if its configuration file is safe. */
  lemma KlinesHoldIff(pc: Setup, w: World, start: real, op: Key)
    requires Started(w, start) && op in w.trusted && op !in w.banned && op != ZERO
    ensures ConfigSafe(w.config) <==> forall w': World :: Reaches(pc, w, w') ==> NoKlined(w'.hub, w'.banned)
  {
    if ConfigSafe(w.config) {
      forall w': World | Reaches(pc, w, w') ensures NoKlined(w'.hub, w'.banned) { SafeConfigHolds(pc, w, start, w'); }
    } else {
      var w', id := UnsafeConfigBreaks(pc, w, start, op, 0.0);
      assert Reaches(pc, w, w') && !NoKlined(w'.hub, w'.banned);
    }
  }

  // ----- bans -----------------------------------------------------------------------------------------

  /** HELLO before the link is identified, then a JOIN with the WELCOME lost. */
  function Early(sid: Sid): Happening {
    Message(sid, None, YES, HELLO, YES, "", None)
  }

  function Late(sid: Sid, k: Key, r: Text): Happening {
    Message(sid, Some(k), Verdict(true, true, false), Envelope(Join, r, None, ""), YES, "", None)
  }

  /** A name that the hub takes as it is, and room for at least one room. */
  ghost predicate Plain(pc: Setup, r: Text) {
    ConfigOk(pc.hub) && pc.hub.fold(r) == r != "" && ByteLength(r) <= pc.hub.maxRoomName && pc.hub.maxRooms > 0
  }

  lemma EarlyWaits(pc: Setup, w: World, sid: Sid, now: real)
    requires sid in w.hub.sessions && Get(w.hub, sid) == NEW
    ensures Possible(w, Early(sid))
    ensures Next(pc, w, Early(sid), now) == w.(hub := Put(w.hub, sid, NEW.(pending := Some(HELLO))))
  {
    var e := Early(sid);
    assert Before(pc, w, e) == w.hub;
    assert Step(pc.hub, w.hub, HubEvent(pc, w, e, now)) == Put(w.hub, sid, NEW.(pending := Some(HELLO)));
  }

  /** Registration handles the waiting HELLO, cannot welcome, and drops the session. */
  lemma RegistrationDrops(pc: Setup, s: State, sid: Sid, k: Key)
    requires pc.hub.fold("") == "" && sid in s.sessions && Get(s, sid) == NEW.(pending := Some(HELLO)) && k !in s.peers
    ensures Register(pc.hub, s, sid, k, true, Verdict(true, true, false)) ==
            Put(s, sid, NEW.(key := Some(k), active := true, closed := true))
  {
    var cfg, v := pc.hub, Verdict(true, true, false);
    var p := NEW.(key := Some(k));
    var s1 := State(s.peers[k := sid], s.sessions[sid := p.(pending := Some(HELLO))], s.rooms, s.nicks);
    assert Claim(cfg, s, sid, k) == s1;
    var s2 := Put(s1, sid, p);
    assert Handle(cfg, s2, sid, HELLO, v) == DoHello(cfg, s2, sid, false);
    LeaveNone(s.rooms, k);
    assert s.peers[k := sid] - {k} == s.peers;
    var s3 := Put(s2, sid, p.(active := true));
    assert Drop(cfg, Put(s3, sid, p.(active := true, closed := true)), sid) ==
           State(s.peers, s1.sessions[sid := p.(active := true, closed := true)], s.rooms, s.nicks);
    assert s1.sessions[sid := p.(active := true, closed := true)] ==
           s.sessions[sid := p.(active := true, closed := true)];
  }

  /** The policy allows the JOIN, and the hub handles it although the session is closed. */
  lemma LateHandled(pc: Setup, w: World, sid: Sid, k: Key, r: Text, now: real)
    requires Plain(pc, r) && sid in w.hub.sessions && Get(w.hub, sid) == NEW.(pending := Some(HELLO))
    requires k !in w.hub.peers && k !in w.banned && k != ZERO && r !in w.rooms
    ensures Possible(w, Late(sid, k, r))
    ensures var s1 := Put(w.hub, sid, NEW.(key := Some(k), active := true, closed := true));
            Before(pc, w, Late(sid, k, r)) == s1 &&
            Handled(pc, w, Late(sid, k, r), now).hub == Handle(pc.hub, s1, sid, Envelope(Join, r, None, ""), YES)
  {
    var e := Late(sid, k, r);
    RegistrationDrops(pc, w.hub, sid, k);
    assert Before(pc, w, e) == Put(w.hub, sid, NEW.(key := Some(k), active := true, closed := true));
    assert MayJoin(w, Some(k), r, "", now);
    assert HubEvent(pc, w, e, now) == Received(sid, Some(k), true, e.first, e.env, YES);
  }

  lemma LateJoins(pc: Setup, w: World, sid: Sid, k: Key, r: Text, now: real)
    requires Plain(pc, r) && sid in w.hub.sessions && Get(w.hub, sid) == NEW.(pending := Some(HELLO))
    requires k !in w.hub.peers && k !in w.banned && k != ZERO && r !in w.rooms
    ensures Possible(w, Late(sid, k, r))
    ensures var w' := Next(pc, w, Late(sid, k, r), now);
            && w'.hub.peers == w.hub.peers && w'.hub.sessions.Keys == w.hub.sessions.Keys && k in At(w'.hub.rooms, r)
            && w'.trusted == w.trusted && w'.banned == w.banned
  {
    var e := Late(sid, k, r);
    LateHandled(pc, w, sid, k, r, now);
    var s1 := Put(w.hub, sid, NEW.(key := Some(k), active := true, closed := true));
    ClosedJoin(pc.hub, s1, sid, k, r);
    EffectsKeepBans(pc, w, e, now);
    EffectsKeepLists(pc, w, e, now);
  }

  lemma ClosedJoin(cfg: Config, s: State, sid: Sid, k: Key, r: Text)
    requires sid in s.sessions && Get(s, sid) == NEW.(key := Some(k), active := true, closed := true)
    requires cfg.fold(r) == r != "" && ByteLength(r) <= cfg.maxRoomName && cfg.maxRooms > 0
    ensures var s' := Handle(cfg, s, sid, Envelope(Join, r, None, ""), YES);
            s'.peers == s.peers && s'.sessions.Keys == s.sessions.Keys && k in At(s'.rooms, r)
  {
    assert Handle(cfg, s, sid, Envelope(Join, r, None, ""), YES) == DoJoin(cfg, s, sid, r, true);
    EnterAt(s.rooms, r, k, r, k);
  }

  lemma EffectsKeepLists(pc: Setup, w: World, e: Happening, now: real)
    requires e.Message? && Ran(pc, w, e).None?
    ensures var w' := Next(pc, w, e, now); w'.trusted == w.trusted && w'.banned == w.banned
  {
  }

  lemma NobodyFound(cfg: Config, s: State, k: Key, r: Text)
    requires k !in s.peers
    ensures Found(cfg, s, Hex(k), Some(r)) == {}
  {
    forall j: Key ensures j !in Found(cfg, s, Hex(k), Some(r)) {
      if j in s.peers && k <= j { SameKey(k, j); }
    }
  }

  /** A ban by full hash of an identity that lingers leaves it in the room. */
  lemma BanMisses(pc: Setup, w: World, op: Key, k: Key, r: Text, now: real)
    requires Plain(pc, r) && op in w.trusted && k != ZERO && k !in w.hub.peers && k in At(w.hub.rooms, r)
    ensures var w' := Execute(pc, w, op, r, BanAdd(r, Hex(k)), now);
            k in Bans(w'.rooms, r) && k in At(w'.hub.rooms, r)
  {
    NobodyFound(pc.hub, w.hub, k, r);
    assert Resolve(pc.hub, w.hub, Hex(k), Some(r)) == k;
    BanLists(pc, w, r, k, now, r);
  }

  lemma SameKey(k: Key, j: Key)
    requires k <= j
    ensures k == j
  {
  }

  lemma ReachesLate(pc: Setup, w: World, start: real, k: Key, r: Text, now: real) returns (w': World)
    requires Started(w, start) && Plain(pc, r) && r !in w.rooms && k !in w.banned && k != ZERO
    ensures Reaches(pc, w, w') && k in At(w'.hub.rooms, r) && w'.trusted == w.trusted && w'.banned == w.banned
    ensures w'.hub.peers == map[] && 1 !in w'.hub.sessions
  {
    ReachesSelf(pc, w);
    var w1 := Next(pc, w, Linked(0), now);
    ReachesNext(pc, w, w, Linked(0), now);
    EarlyWaits(pc, w1, 0, now);
    var w2 := Next(pc, w1, Early(0), now);
    ReachesNext(pc, w, w1, Early(0), now);
    LateJoins(pc, w2, 0, k, r, now);
    w' := Next(pc, w2, Late(0, k, r), now);
    ReachesNext(pc, w, w2, Late(0, k, r), now);
  }

  /**
   The exception about bans is real: HELLO before identification, a JOIN with the WELCOME lost, then a ban by
   full hash, and a banned identity is in the room.
   */
  lemma BannedMemberIsReachable(pc: Setup, w: World, start: real, op: Key, k: Key, r: Text,
                                now: real) returns (w': World)
    requires Started(w, start) && Plain(pc, r) && r !in w.rooms
    requires op in w.trusted && op !in w.banned && op != ZERO && k !in w.banned && k != ZERO && k != op
    ensures Reaches(pc, w, w') && k in Bans(w'.rooms, r) && k in At(w'.hub.rooms, r)
  {
    var w1 := ReachesLate(pc, w, start, k, r, now);
    ReachesSeated(pc, w, w1, 1, op, now);
    var w2 := Seated(w1, 1, op);
    OrderRuns(pc, w2, 1, op, r, BanAdd(r, Hex(k)), now);
    ReachesNext(pc, w, w2, Order(1, op, r, BanAdd(r, Hex(k))), now);
    w' := Next(pc, w2, Order(1, op, r, BanAdd(r, Hex(k))), now);
    BanMisses(pc, w2, op, k, r, now);
  }
}
