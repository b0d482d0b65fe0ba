/**
 Runs of the hub under gorrcd (internal/gorrcd/service.go, commands.go): bans and klines over every history,
 and exactly where each of them can fail.
 */
module PolicyRuns {
  import opened Bytes
  import opened Hub
  import opened Rooms
  import opened Policy
  import C = ConfigFile

  // ----- what a command does to ban sets --------------------------------------------------------

  predicate Authorised(pc: Setup, w: World, id: Key, name: Text) {
    Room(pc.hub, name).Some? && IsOp(w.rooms, pc.hub.fold(name), id, id in w.trusted)
  }

  /** The command is one by an operator of r that names t. */
  ghost predicate Targets(pc: Setup, w: World, id: Key, cmd: Command, r: Text, t: Key) {
    && (cmd.BanAdd? || cmd.BanDel? || cmd.Give?) && pc.hub.fold(cmd.name) == r && Authorised(pc, w, id, cmd.name)
    && t != ZERO && Resolve(pc.hub, w.hub, cmd.token, Some(r)) == t
  }

  ghost predicate SameLists(w: World, w': World, x: Text) {
    Bans(w'.rooms, x) == Bans(w.rooms, x) && InvitedIn(w'.rooms, x) == InvitedIn(w.rooms, x)
  }

  /** Storing a room sets its own lists and no others. */
  lemma SetRoomLists(w: World, r: Text, st: RoomState, save: bool, x: Text)
    ensures var reg := SetRoom(w, r, st, save).rooms;
            && Bans(reg, x) == (if x == r then st.bans else Bans(w.rooms, x))
            && InvitedIn(reg, x) == (if x == r then st.invited else InvitedIn(w.rooms, x))
  {
  }

  lemma GrantLists(w: World, r: Text, grant: Grant, t: Key, now: real, x: Text)
    ensures SameLists(w, DoGrant(w, r, grant, t, now), x)
  {
    var st := Ensured(w.rooms, r, None);
    SetRoomLists(w, r, Granted(st, grant, t).(lastUsed := now), st.registered, x);
    assert Granted(st, grant, t).registered == st.registered;
  }

  lemma ModeLists(w: World, r: Text, flag: Flag, on: bool, key: Text, now: real, x: Text)
    ensures SameLists(w, DoMode(w, r, flag, on, key, now), x)
  {
    var st := Ensured(w.rooms, r, None);
    var m := Flagged(st.modes, flag, on, key);
    SetRoomLists(w, r, st, false, x);
    if m.Some? { SetRoomLists(w, r, st.(modes := m.value, lastUsed := now), st.registered, x); }
  }

  lemma EnrolLists(w: World, r: Text, id: Key, now: real, x: Text)
    ensures SameLists(w, DoEnrol(w, r, id, now), x) && SameLists(w, DoWithdraw(w, r), x)
  {
    var st := Ensured(w.rooms, r, Some(id));
    SetRoomLists(w, r, st.(registered := true, modes := st.modes.(noOutside := true, topicOpsOnly := true),
                           ops := st.ops + {id}, lastUsed := now), true, x);
    if r in w.rooms { SetRoomLists(w, r, w.rooms[r].(registered := false), true, x); }
  }

  lemma TopicLists(w: World, r: Text, topic: Text, now: real, x: Text)
    ensures SameLists(w, DoTopic(w, r, topic, now), x)
  {
    SetRoomLists(w, r, Ensured(w.rooms, r, None).(topic := topic, lastUsed := now), true, x);
  }

  /** Commands other than /ban and /invite leave every ban and every invitation alone. */
  lemma QuietLists(pc: Setup, w: World, id: Key, at: Text, cmd: Command, now: real, x: Text)
    requires !cmd.BanAdd? && !cmd.BanDel? && !cmd.InviteAdd? && !cmd.InviteDel?
    ensures SameLists(w, Execute(pc, w, id, at, cmd, now), x)
  {
    match cmd
    case Enrol(name) => EnrolLists(w, pc.hub.fold(name), id, now, x);
    case Withdraw(name) => EnrolLists(w, pc.hub.fold(name), id, now, x);
    case Topic(name, topic) => TopicLists(w, pc.hub.fold(name), topic, now, x);
    case Give(grant, name, token) =>
      GrantLists(w, pc.hub.fold(name), grant, Resolve(pc.hub, w.hub, token, Some(pc.hub.fold(name))), now, x);
    case Mode(name, flag, on, key) => ModeLists(w, pc.hub.fold(name), flag, on, key, now, x);
    case _ =>
  }

  lemma InviteLists(pc: Setup, w: World, r: Text, t: Key, now: real, x: Text)
    ensures var w' := DoInvite(pc, w, r, t, now);
            && Bans(w'.rooms, x) == Bans(w.rooms, x)
            && InvitedIn(w'.rooms, x) == (if x == r && t != ZERO && Closable(w.rooms, r)
                                          then InvitedIn(w.rooms, x)[t := now + Ttl(pc)] else InvitedIn(w.rooms, x))
    ensures var w' := DoUninvite(w, r, t, now);
            && Bans(w'.rooms, x) == Bans(w.rooms, x)
            && InvitedIn(w'.rooms, x) ==
               (if x == r && t != ZERO then InvitedIn(w.rooms, x) - {t} else InvitedIn(w.rooms, x))
  {
    var st := Ensured(w.rooms, r, None);
    SetRoomLists(w, r, st.(invited := st.invited[t := now + Ttl(pc)], lastUsed := now), st.registered, x);
    SetRoomLists(w, r, st.(invited := st.invited - {t}, lastUsed := now), st.registered, x);
  }

  /** Joining the room needs an invitation or a key. */
  predicate Closable(reg: Registry, r: Text) {
    r in reg && (reg[r].modes.inviteOnly || reg[r].modes.key != "")
  }

  lemma BanLists(pc: Setup, w: World, r: Text, t: Key, now: real, x: Text)
    ensures var w' := DoBan(pc, w, r, t, now);
            && Bans(w'.rooms, x) == (if x == r && t != ZERO then Bans(w.rooms, x) + {t} else Bans(w.rooms, x))
            && InvitedIn(w'.rooms, x) == InvitedIn(w.rooms, x)
    ensures var w' := DoUnban(w, r, t, now);
            && Bans(w'.rooms, x) == (if x == r && t != ZERO then Bans(w.rooms, x) - {t} else Bans(w.rooms, x))
            && InvitedIn(w'.rooms, x) == InvitedIn(w.rooms, x)
  {
    var st := Ensured(w.rooms, r, None);
    SetRoomLists(w, r, st.(bans := st.bans + {t}, lastUsed := now), st.registered, x);
    SetRoomLists(w, r, st.(bans := st.bans - {t}, lastUsed := now), st.registered, x);
  }

  lemma BanAddBans(pc: Setup, w: World, id: Key, at: Text, cmd: Command, now: real, k: Key, r: Text)
    requires cmd.BanAdd?
    ensures k in Bans(Execute(pc, w, id, at, cmd, now).rooms, r) <==>
            k in Bans(w.rooms, r) || Targets(pc, w, id, cmd, r, k)
  {
    var x := pc.hub.fold(cmd.name);
    if Authorised(pc, w, id, cmd.name) {
      BanLists(pc, w, x, Resolve(pc.hub, w.hub, cmd.token, Some(x)), now, r);
    } else {
      assert Execute(pc, w, id, at, cmd, now) == w;
    }
  }

  lemma BanDelBans(pc: Setup, w: World, id: Key, at: Text, cmd: Command, now: real, k: Key, r: Text)
    requires cmd.BanDel?
    ensures k in Bans(Execute(pc, w, id, at, cmd, now).rooms, r) <==>
            k in Bans(w.rooms, r) && !Targets(pc, w, id, cmd, r, k)
  {
    var x := pc.hub.fold(cmd.name);
    if Authorised(pc, w, id, cmd.name) {
      BanLists(pc, w, x, Resolve(pc.hub, w.hub, cmd.token, Some(x)), now, r);
    } else {
      assert Execute(pc, w, id, at, cmd, now) == w;
    }
  }

  lemma InviteCommandBans(pc: Setup, w: World, id: Key, at: Text, cmd: Command, now: real, r: Text)
    requires cmd.InviteAdd? || cmd.InviteDel?
    ensures Bans(Execute(pc, w, id, at, cmd, now).rooms, r) == Bans(w.rooms, r)
  {
    InviteLists(pc, w, pc.hub.fold(cmd.name), Resolve(pc.hub, w.hub, cmd.token, None), now, r);
  }

  /** A ban set changes exactly by /ban add and /ban del of an operator. */
  lemma ExecuteBans(pc: Setup, w: World, id: Key, at: Text, cmd: Command, now: real, k: Key, r: Text)
    ensures k in Bans(Execute(pc, w, id, at, cmd, now).rooms, r) <==>
            || (cmd.BanAdd? && Targets(pc, w, id, cmd, r, k))
            || (k in Bans(w.rooms, r) && !(cmd.BanDel? && Targets(pc, w, id, cmd, r, k)))
  {
    if cmd.BanAdd? {
      BanAddBans(pc, w, id, at, cmd, now, k, r);
    } else if cmd.BanDel? {
      BanDelBans(pc, w, id, at, cmd, now, k, r);
    } else if cmd.InviteAdd? || cmd.InviteDel? {
      InviteCommandBans(pc, w, id, at, cmd, now, r);
    } else {
      QuietLists(pc, w, id, at, cmd, now, r);
    }
  }

  // ----- who is a member after a command ------------------------------------------------------

  /** No command makes anyone a member. */
  lemma ExecuteMembers(pc: Setup, w: World, id: Key, at: Text, cmd: Command, now: real, j: Key, x: Text)
    ensures j in At(Execute(pc, w, id, at, cmd, now).hub.rooms, x) ==> j in At(w.hub.rooms, x)
  {
    if cmd.KlineAdd? {
      var t := Resolve(pc.hub, w.hub, cmd.token, None);
      if t in w.hub.peers { CloseShrinks(pc.hub, w.hub, w.hub.peers[t]); }
    } else if !cmd.KlineDel? {
      ExecuteHub(pc, w, id, at, cmd, now);
      if cmd.Kick? || cmd.BanAdd? {
        var r := pc.hub.fold(cmd.name);
        var t := Resolve(pc.hub, w.hub, cmd.token, Some(r));
        if t in w.hub.peers { PartShrinks(w.hub, w.hub.peers[t], {pc.hub.fold(r)}); }
      }
    }
  }

  /** Removal takes a member out exactly when its session lists the room. */
  lemma RemoveExact(pc: Setup, s: State, t: Key, r: Text, j: Key, x: Text)
    requires Base(s) && pc.hub.fold(r) == r
    ensures j in At(DoRemove(pc.hub, s, t, r).rooms, x) <==>
            j in At(s.rooms, x) && !(j == t && x == r && Listed(s, t, r))
  {
    if t in s.peers { LeaveAt(s.rooms, {r} * Get(s, s.peers[t]).rooms, t, x, j); }
  }

  /** A banned identity that is in the room's member set without a session that lists the room. */
  ghost predicate Lingers(s: State, t: Key, r: Text) {
    t in At(s.rooms, r) && !Listed(s, t, r)
  }

  lemma ExecuteNoBanned(pc: Setup, w: World, id: Key, at: Text, cmd: Command, now: real)
    requires ConfigOk(pc.hub) && Base(w.hub) && NoBanned(w.hub, w.rooms)
    ensures var w' := Execute(pc, w, id, at, cmd, now);
            NoBanned(w'.hub, w'.rooms) <==>
            !(cmd.BanAdd? &&
              exists t :: Targets(pc, w, id, cmd, pc.hub.fold(cmd.name), t) && Lingers(w.hub, t, pc.hub.fold(cmd.name)))
  {
    var w' := Execute(pc, w, id, at, cmd, now);
    if cmd.BanAdd? {
      BanNoBanned(pc, w, id, at, cmd, now);
    } else {
      forall j: Key, x: Text | j in At(w'.hub.rooms, x) ensures j !in Bans(w'.rooms, x) {
        ExecuteMembers(pc, w, id, at, cmd, now, j, x);
        ExecuteBans(pc, w, id, at, cmd, now, j, x);
      }
    }
  }

  lemma BanNoBanned(pc: Setup, w: World, id: Key, at: Text, cmd: Command, now: real)
    requires ConfigOk(pc.hub) && Base(w.hub) && NoBanned(w.hub, w.rooms) && cmd.BanAdd?
    ensures var w', r := Execute(pc, w, id, at, cmd, now), pc.hub.fold(cmd.name);
            NoBanned(w'.hub, w'.rooms) <==> !exists t :: Targets(pc, w, id, cmd, r, t) && Lingers(w.hub, t, r)
  {
    var w', r := Execute(pc, w, id, at, cmd, now), pc.hub.fold(cmd.name);
    var t := Resolve(pc.hub, w.hub, cmd.token, Some(r));
    if Targets(pc, w, id, cmd, r, t) {
      assert w'.hub == DoRemove(pc.hub, w.hub, t, r);
      RemoveExact(pc, w.hub, t, r, t, r);
      ExecuteBans(pc, w, id, at, cmd, now, t, r);
      if !Lingers(w.hub, t, r) {
        forall j: Key, x: Text | j in At(w'.hub.rooms, x) ensures j !in Bans(w'.rooms, x) {
          RemoveExact(pc, w.hub, t, r, j, x);
          ExecuteBans(pc, w, id, at, cmd, now, j, x);
        }
      }
    } else {
      assert w' == w;
    }
  }

  // ----- events ----------------------------------------------------------------------------------

  /** The command an event makes the service run, if any, and who sent it. */
  function Ran(pc: Setup, w: World, e: Happening): Option<Command> {
    if !e.Message? || !e.env.kind.Content? then None
    else
      var p := Get(Before(pc, w, e), e.sid);
      if p.key.None? || !e.v.token || !p.active || (e.env.nick.Some? && NickTooLong(pc.hub, e.env.nick.value)) then None
      else e.cmd
  }

  function Sender(pc: Setup, w: World, e: Happening): Key
    requires e.Message?
  {
    var k := Get(Before(pc, w, e), e.sid).key;
    if k.Some? then k.value else ZERO
  }

  lemma NextOfCommand(pc: Setup, w: World, e: Happening, now: real)
    requires Ran(pc, w, e).Some?
    ensures Next(pc, w, e, now) ==
            Execute(pc, Handled(pc, w, e, now), Sender(pc, w, e), e.env.room, Ran(pc, w, e).value, now)
  {
  }

  /** Without a command, a message leaves every ban set as it is. */
  lemma EffectsKeepBans(pc: Setup, w: World, e: Happening, now: real)
    requires e.Message? && Ran(pc, w, e).None?
    ensures var w' := Next(pc, w, e, now);
            w'.hub == Handled(pc, w, e, now).hub && forall r: Text :: Bans(w'.rooms, r) == Bans(w.rooms, r)
  {
    var w1, p := Handled(pc, w, e, now), Get(Before(pc, w, e), e.sid);
    var r := pc.hub.fold(e.env.room);
    if e.env.kind.Join? && p.key.Some? {
      var st := Ensured(w1.rooms, r, p.key);
      assert st.bans == Bans(w1.rooms, r);
    }
  }

  /** A message makes nobody a member who is banned, because the policy was asked first. */
  lemma MessageMembers(pc: Setup, w: World, e: Happening, now: real, j: Key, r: Text)
    requires Base(w.hub) && Possible(w, e) && e.Message?
    ensures j in At(Handled(pc, w, e, now).hub.rooms, r) && j in Bans(w.rooms, r) ==> j in At(w.hub.rooms, r)
  {
    var h, s1 := HubEvent(pc, w, e, now), Before(pc, w, e);
    if j in At(Handled(pc, w, e, now).hub.rooms, r) {
      if e.remote.Some? { RegisterAdds(pc.hub, w.hub, e.sid, e.remote.value, h.identOk, e.first, j, r); }
      if Get(s1, e.sid).key.Some? { HandleAdds(pc.hub, s1, e.sid, e.env, h.v, j, r); }
    }
  }

  /** An operator bans an identity that lingers in the room. */
  ghost predicate BansLingering(pc: Setup, w: World, e: Happening, now: real) {
    Ran(pc, w, e).Some? && Ran(pc, w, e).value.BanAdd? &&
    var w1, cmd := Handled(pc, w, e, now), Ran(pc, w, e).value;
    var r := pc.hub.fold(cmd.name);
    exists t :: Targets(pc, w1, Sender(pc, w, e), cmd, r, t) && Lingers(w1.hub, t, r)
  }

  lemma MessageNoBanned(pc: Setup, w: World, e: Happening, now: real)
    requires ConfigOk(pc.hub) && Base(w.hub) && NoBanned(w.hub, w.rooms) && Possible(w, e) && e.Message?
    ensures var w' := Next(pc, w, e, now); NoBanned(w'.hub, w'.rooms) <==> !BansLingering(pc, w, e, now)
  {
    var w1 := Handled(pc, w, e, now);
    HandledBase(pc, w, e, now);
    forall j: Key, r: Text | j in At(w1.hub.rooms, r) ensures j !in Bans(w1.rooms, r) {
      MessageMembers(pc, w, e, now, j, r);
    }
    if Ran(pc, w, e).Some? {
      NextOfCommand(pc, w, e, now);
      ExecuteNoBanned(pc, w1, Sender(pc, w, e), e.env.room, Ran(pc, w, e).value, now);
    } else {
      EffectsKeepBans(pc, w, e, now);
    }
  }

  lemma FewerNoBanned(s: State, s': State, reg: Registry, reg': Registry)
    requires NoBanned(s, reg)
    requires forall j: Key, r: Text :: j in At(s'.rooms, r) ==> j in At(s.rooms, r)
    requires forall r: Text :: Bans(reg', r) <= Bans(reg, r)
    ensures NoBanned(s', reg')
  {
    forall j: Key, r: Text | j in At(s'.rooms, r) ensures j !in Bans(reg', r) { assert j !in Bans(reg, r); }
  }

  lemma RegistryNoBanned(pc: Setup, w: World, e: Happening, now: real)
    requires RegistryOk(w) && NoBanned(w.hub, w.rooms) && (e.Prune? || e.Reload?)
    ensures var w' := Next(pc, w, e, now); NoBanned(w'.hub, w'.rooms)
  {
    var w' := Next(pc, w, e, now);
    forall r: Text ensures Bans(w'.rooms, r) <= Bans(w.rooms, r) { assert RoomSaved(w.rooms, w.registryFile, r); }
    FewerNoBanned(w.hub, w'.hub, w.rooms, w'.rooms);
  }

  lemma LinkNoBanned(pc: Setup, w: World, e: Happening, now: real)
    requires Base(w.hub) && NoBanned(w.hub, w.rooms) && Possible(w, e)
    requires e.Linked? || e.Identity? || e.Lost? || e.PingedOut?
    ensures var w' := Next(pc, w, e, now); NoBanned(w'.hub, w'.rooms)
  {
    var w' := Next(pc, w, e, now);
    match e {
      case Identity(sid, k, v) =>
        forall j: Key, r: Text | j in At(w'.hub.rooms, r) ensures j in At(w.hub.rooms, r) {
          RegisterAdds(pc.hub, w.hub, sid, k, k !in w.banned, v, j, r);
        }
      case Lost(sid) => CloseShrinks(pc.hub, w.hub, sid);
      case PingedOut(k) => if k in w.hub.peers { CloseShrinks(pc.hub, w.hub, w.hub.peers[k]); }
      case _ =>
    }
    FewerNoBanned(w.hub, w'.hub, w.rooms, w'.rooms);
  }

  /** No event makes a banned identity a member, except exactly a ban of one that lingers. */
  lemma NextNoBanned(pc: Setup, w: World, e: Happening, now: real)
    requires ConfigOk(pc.hub) && Base(w.hub) && RegistryOk(w) && NoBanned(w.hub, w.rooms) && Possible(w, e)
    ensures var w' := Next(pc, w, e, now); NoBanned(w'.hub, w'.rooms) <==> !BansLingering(pc, w, e, now)
  {
    match e
    case Message(_, _, _, _, _, _, _) => MessageNoBanned(pc, w, e, now);
    case Prune(_, _) => RegistryNoBanned(pc, w, e, now);
    case Reload(_, _) => RegistryNoBanned(pc, w, e, now);
    case _ => LinkNoBanned(pc, w, e, now);
  }

  // ----- whole runs ----------------------------------------------------------------------------------------

  /** A service just started from its files. */
  predicate Started(w: World, now: real) {
    && w.hub == EMPTY && w.rooms == Loaded(w.registryFile, now) && w.banned == C.Load(w.config, true, {})
    && (forall r :: r in w.registryFile ==> w.registryFile[r].registered)
  }

  ghost predicate IsHistory(pc: Setup, ws: seq<World>, es: seq<Happening>, times: seq<real>) {
    && |ws| == |es| + 1 == |times| + 1
    && forall i :: 0 <= i < |es| ==> Possible(ws[i], es[i]) && ws[i + 1] == Next(pc, ws[i], es[i], times[i])
  }

  lemma StartOk(w: World, now: real)
    requires Started(w, now)
    ensures Base(w.hub) && RegistryOk(w) && NoBanned(w.hub, w.rooms)
    ensures ConfigSafe(w.config) ==> Barred(w)
  {
    forall r: Text ensures RoomSaved(w.rooms, w.registryFile, r) {}
  }

  /** In every run the hub's sessions and peers agree, and the registry file matches the registered rooms. */
  lemma {:induction false} HistoryOk(pc: Setup, ws: seq<World>, es: seq<Happening>, times: seq<real>, now: real, n: nat)
    requires IsHistory(pc, ws, es, times) && n < |ws| && Started(ws[0], now)
    ensures Base(ws[n].hub) && RegistryOk(ws[n])
  {
    if n == 0 {
      StartOk(ws[0], now);
    } else {
      HistoryOk(pc, ws, es, times, now, n - 1);
      NextBase(pc, ws[n - 1], es[n - 1], times[n - 1]);
      NextRegistry(pc, ws[n - 1], es[n - 1], times[n - 1]);
    }
  }

  lemma {:induction false} HistoryBars(pc: Setup, ws: seq<World>, es: seq<Happening>, times: seq<real>, now: real,
                                       n: nat)
    requires IsHistory(pc, ws, es, times) && n < |ws| && Started(ws[0], now) && ConfigSafe(ws[0].config)
    ensures Barred(ws[n])
  {
    if n == 0 {
      StartOk(ws[0], now);
    } else {
      HistoryBars(pc, ws, es, times, now, n - 1);
      HistoryOk(pc, ws, es, times, now, n - 1);
      NextBars(pc, ws[n - 1], es[n - 1], times[n - 1]);
    }
  }

  lemma {:induction false} HistoryNoBanned(pc: Setup, ws: seq<World>, es: seq<Happening>, times: seq<real>, now: real,
                                           n: nat)
    requires ConfigOk(pc.hub) && IsHistory(pc, ws, es, times) && n < |ws| && Started(ws[0], now)
    requires forall i :: 0 <= i < n ==> !BansLingering(pc, ws[i], es[i], times[i])
    ensures NoBanned(ws[n].hub, ws[n].rooms)
  {
    if n == 0 {
      StartOk(ws[0], now);
    } else {
      HistoryNoBanned(pc, ws, es, times, now, n - 1);
      HistoryOk(pc, ws, es, times, now, n - 1);
      NextNoBanned(pc, ws[n - 1], es[n - 1], times[n - 1]);
    }
  }

  /** In every run no klined identity is connected. */
  lemma KlinesHold(pc: Setup, ws: seq<World>, es: seq<Happening>, times: seq<real>, now: real, n: nat, id: Key)
    requires IsHistory(pc, ws, es, times) && n < |ws| && Started(ws[0], now) && ConfigSafe(ws[0].config)
    ensures id in ws[n].banned ==> id !in ws[n].hub.peers
  {
    HistoryBars(pc, ws, es, times, now, n);
  }

  /** In every run in which nobody bans a lingering identity, no identity in a room's ban set is in that room. */
  lemma BansHold(pc: Setup, ws: seq<World>, es: seq<Happening>, times: seq<real>, now: real, n: nat, id: Key, r: Text)
    requires ConfigOk(pc.hub) && IsHistory(pc, ws, es, times) && n < |ws| && Started(ws[0], now)
    requires forall i :: 0 <= i < n ==> !BansLingering(pc, ws[i], es[i], times[i])
    ensures id in Bans(ws[n].rooms, r) ==> id !in At(ws[n].hub.rooms, r)
  {
    HistoryNoBanned(pc, ws, es, times, now, n);
  }

  // ----- lingering members need a dropped JOIN -----------------------------------------------------------

  /** The hub carries out a JOIN for a session that registration has just closed: see Hub.DroppedJoin. */
  predicate Dropped(pc: Setup, w: World, e: Happening, now: real) {
    e.Message? && DroppedJoin(pc.hub, w.hub, HubEvent(pc, w, e, now))
  }

  lemma ExecuteInv(pc: Setup, w: World, id: Key, at: Text, cmd: Command, now: real)
    requires ConfigOk(pc.hub) && Inv(pc.hub, w.hub)
    ensures Inv(pc.hub, Execute(pc, w, id, at, cmd, now).hub)
  {
    if cmd.KlineAdd? {
      var t := Resolve(pc.hub, w.hub, cmd.token, None);
      if t in w.hub.peers { CloseKeeps(pc.hub, w.hub, w.hub.peers[t]); }
    } else if !cmd.KlineDel? {
      ExecuteHub(pc, w, id, at, cmd, now);
      if cmd.Kick? || cmd.BanAdd? {
        var r := pc.hub.fold(cmd.name);
        StepKeeps(pc.hub, w.hub, Removed(Resolve(pc.hub, w.hub, cmd.token, Some(r)), r));
      }
    }
  }

  lemma NextInv(pc: Setup, w: World, e: Happening, now: real)
    requires ConfigOk(pc.hub) && Inv(pc.hub, w.hub) && Possible(w, e) && !Dropped(pc, w, e, now)
    ensures Inv(pc.hub, Next(pc, w, e, now).hub) && !BansLingering(pc, w, e, now)
  {
    match e
    case Linked(sid) => AcceptKeeps(pc.hub, w.hub, sid);
    case Identity(sid, k, v) => RegisterKeeps(pc.hub, w.hub, sid, k, k !in w.banned, v);
    case Message(_, _, _, _, _, _, _) =>
      var w1 := Handled(pc, w, e, now);
      StepKeeps(pc.hub, w.hub, HubEvent(pc, w, e, now));
      if Ran(pc, w, e).Some? {
        NextOfCommand(pc, w, e, now);
        ExecuteInv(pc, w1, Sender(pc, w, e), e.env.room, Ran(pc, w, e).value, now);
        forall t: Key, r: Text ensures !Lingers(w1.hub, t, r) {
          assert t in At(w1.hub.rooms, r) <==> Listed(w1.hub, t, r);
        }
      } else {
        EffectsKeepBans(pc, w, e, now);
      }
    case Lost(sid) => CloseKeeps(pc.hub, w.hub, sid);
    case PingedOut(k) => if k in w.hub.peers { CloseKeeps(pc.hub, w.hub, w.hub.peers[k]); }
    case _ =>
  }

  /** In a run without dropped JOINs the hub's indexes stay inverse and nobody lingers. */
  lemma {:induction false} NoDropNoLinger(pc: Setup, ws: seq<World>, es: seq<Happening>, times: seq<real>, n: nat)
    requires ConfigOk(pc.hub) && IsHistory(pc, ws, es, times) && n < |ws| && ws[0].hub == EMPTY
    requires forall i :: 0 <= i < n ==> !Dropped(pc, ws[i], es[i], times[i])
    ensures Inv(pc.hub, ws[n].hub) && forall i :: 0 <= i < n ==> !BansLingering(pc, ws[i], es[i], times[i])
  {
    if n == 0 {
      forall k: Key, r: Text ensures k in At(EMPTY.rooms, r) <==> Listed(EMPTY, k, r) {}
    } else {
      NoDropNoLinger(pc, ws, es, times, n - 1);
      NextInv(pc, ws[n - 1], es[n - 1], times[n - 1]);
    }
  }

  lemma ClosedByHello(cfg: Config, s: State, sid: Sid, env: Envelope, v: Verdict)
    requires env.kind.Hello? && !Get(s, sid).closed && Get(s, sid).key.Some?
    ensures var p := Get(Handle(cfg, s, sid, env, v), sid); p.closed && p.active ==> !v.sent
  {
    var named := NickStep(cfg, s, sid, env);
    if named.Stop? {
      CloseFlags(cfg, s, sid);
    } else {
      assert !Get(named.s, sid).closed;
      var s' := DoPart(named.s, sid, Get(named.s, sid).rooms);
      assert !Get(s', sid).closed;
    }
  }

  lemma CloseFlags(cfg: Config, s: State, sid: Sid)
    ensures Get(Close(cfg, s, sid), sid).active == Get(s, sid).active
  {
  }

  /** How registration can leave a welcomed session closed. */
  lemma RegisteredSession(cfg: Config, s: State, sid: Sid, k: Key, identOk: bool, v: Verdict)
    requires Base(s) && sid in s.sessions && !Get(s, sid).closed && KeyFits(Get(s, sid), k)
    ensures var p := Get(Register(cfg, s, sid, k, identOk, v), sid);
            p.closed && p.active ==>
              (!identOk && Get(s, sid).active) || (identOk && Get(s, sid).pending.Some? && !v.sent)
  {
    assert SessionOk(s, sid, Get(s, sid));
    if Get(s, sid).key.None? { ClaimBase(cfg, s, sid, k); }
    var s1 := if Get(s, sid).key.None? then Claim(cfg, s, sid, k) else s;
    var p := Get(s1, sid);
    assert p == Get(s, sid).(key := Some(k));
    if identOk && p.pending.Some? {
      ClosedByHello(cfg, Put(s1, sid, p.(pending := None)), sid, p.pending.value, v);
    } else if !identOk {
      CloseFlags(cfg, s1, sid);
    }
  }

  /** The policy's own refusals never lead to a dropped JOIN: only a WELCOME that could not be sent does. */
  lemma OnlyLostWelcomeDrops(pc: Setup, w: World, e: Happening, now: real)
    requires Base(w.hub) && NoKlined(w.hub, w.banned) && Possible(w, e) && Dropped(pc, w, e, now)
    ensures Get(w.hub, e.sid).pending.Some? && !e.first.sent
  {
    var sid, p := e.sid, Get(w.hub, e.sid);
    assert SessionOk(w.hub, sid, p);
    if p.key.Some? { assert p.key.value !in w.banned; }
    RegisteredSession(pc.hub, w.hub, sid, e.remote.value, e.remote.value !in w.banned, e.first);
  }
}
