/**
 Rank in a room (internal/gorrcd/commands.go, rooms.go, rooms_mut.go): exactly which events give and take it, and
 over every history where it comes from.
 */
module PolicyRanks {
  import opened Bytes
  import opened Hub
  import opened Rooms
  import opened Policy
  import opened PolicyRuns
  import opened PolicyRules

  function Ops(reg: Registry, r: Text): set<Key> {
    if r in reg then reg[r].ops else {}
  }

  function Voices(reg: Registry, r: Text): set<Key> {
    if r in reg then reg[r].voiced else {}
  }

  predicate SameRanks(w: World, w': World, x: Text) {
    Ops(w'.rooms, x) == Ops(w.rooms, x) && Voices(w'.rooms, x) == Voices(w.rooms, x)
  }

  /** Storing a room sets its own ranks and no others. */
  lemma SetRoomRanks(w: World, r: Text, st: RoomState, save: bool, x: Text)
    ensures var reg := SetRoom(w, r, st, save).rooms;
            && Ops(reg, x) == (if x == r then st.ops else Ops(w.rooms, x))
            && Voices(reg, x) == (if x == r then st.voiced else Voices(w.rooms, x))
  {
  }

  lemma MutateRanks(w: World, r: Text, st: RoomState, now: real, x: Text)
    ensures var reg := Mutate(w, r, st, now).rooms;
            && Ops(reg, x) == (if x == r then st.ops else Ops(w.rooms, x))
            && Voices(reg, x) == (if x == r then st.voiced else Voices(w.rooms, x))
  {
    SetRoomRanks(w, r, st.(lastUsed := now), st.registered, x);
  }

  // ----- commands ---------------------------------------------------------------------------------

  predicate Founded(reg: Registry, r: Text, k: Key) {
    r in reg && reg[r].founder == Some(k)
  }

  lemma GrantRanks(w: World, r: Text, grant: Grant, t: Key, now: real, x: Text, k: Key)
    ensures var reg, hit := DoGrant(w, r, grant, t, now).rooms, x == r && k == t && t != ZERO;
            && (k in Ops(reg, x) <==>
                (hit && grant.Op?) || (k in Ops(w.rooms, x) && !(hit && grant.Deop? && !Founded(w.rooms, r, t))))
            && (k in Voices(reg, x) <==> (hit && grant.Voice?) || (k in Voices(w.rooms, x) && !(hit && grant.Devoice?)))
  {
    var st := Ensured(w.rooms, r, None);
    MutateRanks(w, r, Granted(st, grant, t), now, x);
  }

  lemma EnrolRanks(w: World, r: Text, id: Key, now: real, x: Text)
    requires RegistryOk(w) && Founded(w.rooms, r, id)
    ensures SameRanks(w, DoEnrol(w, r, id, now), x)
  {
    var st := Ensured(w.rooms, r, Some(id));
    assert FounderOk(w.rooms[r]);
    SetRoomRanks(w, r, st.(registered := true, modes := st.modes.(noOutside := true, topicOpsOnly := true),
                           ops := st.ops + {id}, lastUsed := now), true, x);
  }

  lemma SettingRanks(pc: Setup, w: World, r: Text, cmd: Command, now: real, x: Text)
    requires cmd.Kick? || cmd.Mode? || cmd.BanAdd? || cmd.BanDel? || cmd.InviteAdd? || cmd.InviteDel?
    ensures SameRanks(w, RoomCommand(pc, w, r, cmd, now), x)
  {
    var st := Ensured(w.rooms, r, None);
    match cmd
    case Mode(_, flag, on, key) =>
      var m := Flagged(st.modes, flag, on, key);
      SetRoomRanks(w, r, st, false, x);
      if m.Some? { MutateRanks(w, r, st.(modes := m.value), now, x); }
    case BanAdd(_, token) => MutateRanks(w, r, st.(bans := st.bans + {Resolve(pc.hub, w.hub, token, Some(r))}), now, x);
    case BanDel(_, token) => MutateRanks(w, r, st.(bans := st.bans - {Resolve(pc.hub, w.hub, token, Some(r))}), now, x);
    case InviteAdd(_, token) =>
      MutateRanks(w, r, st.(invited := st.invited[Resolve(pc.hub, w.hub, token, None) := now + Ttl(pc)]), now, x);
    case InviteDel(_, token) =>
      MutateRanks(w, r, st.(invited := st.invited - {Resolve(pc.hub, w.hub, token, None)}), now, x);
    case _ =>
  }

  lemma OtherRanks(pc: Setup, w: World, id: Key, at: Text, cmd: Command, now: real, x: Text)
    requires RegistryOk(w) && !cmd.Give?
    ensures SameRanks(w, Execute(pc, w, id, at, cmd, now), x)
  {
    if cmd.Enrol? {
      var r := pc.hub.fold(cmd.name);
      if Founded(w.rooms, r, id) { EnrolRanks(w, r, id, now, x); }
    } else if cmd.Withdraw? {
      var r := pc.hub.fold(cmd.name);
      if r in w.rooms { SetRoomRanks(w, r, w.rooms[r].(registered := false), true, x); }
    } else if cmd.Topic? {
      var r := pc.hub.fold(cmd.name);
      SetRoomRanks(w, r, Ensured(w.rooms, r, None).(topic := cmd.topic, lastUsed := now), true, x);
    } else if !cmd.KlineAdd? && !cmd.KlineDel? && !cmd.Query? {
      SettingRanks(pc, w, pc.hub.fold(cmd.name), cmd, now, x);
    }
  }

  lemma GiveRanks(pc: Setup, w: World, id: Key, at: Text, cmd: Command, now: real, k: Key, r: Text)
    requires cmd.Give?
    ensures var reg, hit := Execute(pc, w, id, at, cmd, now).rooms, Targets(pc, w, id, cmd, r, k);
            && (k in Ops(reg, r) <==>
                (hit && cmd.grant.Op?) ||
                (k in Ops(w.rooms, r) && !(hit && cmd.grant.Deop? && !Founded(w.rooms, r, k))))
            && (k in Voices(reg, r) <==>
                (hit && cmd.grant.Voice?) || (k in Voices(w.rooms, r) && !(hit && cmd.grant.Devoice?)))
  {
    var x := pc.hub.fold(cmd.name);
    GrantRanks(w, x, cmd.grant, Resolve(pc.hub, w.hub, cmd.token, Some(x)), now, r, k);
  }

  /**
   Rank and voice change exactly by /op, /deop, /voice and /devoice of an operator, and a founder is never deposed.
   */
  lemma ExecuteRanks(pc: Setup, w: World, id: Key, at: Text, cmd: Command, now: real, k: Key, r: Text)
    requires RegistryOk(w)
    ensures var reg, hit := Execute(pc, w, id, at, cmd, now).rooms, cmd.Give? && Targets(pc, w, id, cmd, r, k);
            && (k in Ops(reg, r) <==>
                (hit && cmd.grant.Op?) ||
                (k in Ops(w.rooms, r) && !(hit && cmd.grant.Deop? && !Founded(w.rooms, r, k))))
            && (k in Voices(reg, r) <==>
                (hit && cmd.grant.Voice?) || (k in Voices(w.rooms, r) && !(hit && cmd.grant.Devoice?)))
  {
    if cmd.Give? {
      GiveRanks(pc, w, id, at, cmd, now, k, r);
    } else {
      OtherRanks(pc, w, id, at, cmd, now, r);
    }
  }

  // ----- events -----------------------------------------------------------------------------------

  /** The event is a command of an operator about the rank of k in r. */
  ghost predicate Ranks(pc: Setup, w: World, e: Happening, now: real, grant: Grant, k: Key, r: Text) {
    Ran(pc, w, e).Some? && Ran(pc, w, e).value.Give? && Ran(pc, w, e).value.grant == grant &&
    Targets(pc, Handled(pc, w, e, now), Sender(pc, w, e), Ran(pc, w, e).value, r, k)
  }

  /** A JOIN, accepted or not, of k to a room that has no founder yet. */
  predicate Founds(pc: Setup, w: World, e: Happening, k: Key, r: Text) {
    e.Message? && e.env.kind.Join? && pc.hub.fold(e.env.room) == r && r != "" && ByteLength(r) <= pc.hub.maxRoomName &&
    var p := Get(Before(pc, w, e), e.sid);
    && p.key == Some(k) && e.v.token && p.active && !(e.env.nick.Some? && NickTooLong(pc.hub, e.env.nick.value))
    && (r !in w.rooms || w.rooms[r].founder.None?)
  }

  predicate Reloads(e: Happening) {
    e.Reload? && e.outcome.Done?
  }

  lemma JoinRanks(w: World, p: Session, cfg: Config, id: Key, x: Text, offered: Text, now: real, k: Key, r: Text)
    ensures var reg := JoinEffects(w, p, cfg, id, x, offered, now).rooms;
            var first := k == id && r == x && x != "" && ByteLength(x) <= cfg.maxRoomName &&
                         (x !in w.rooms || w.rooms[x].founder.None?);
            (k in Ops(reg, r) <==> k in Ops(w.rooms, r) || first) && Voices(reg, r) == Voices(w.rooms, r)
  {
    var st := Ensured(w.rooms, x, Some(id));
    SetRoomRanks(w, x, st, false, r);
    SetRoomRanks(w, x, st.(invited := st.invited - {id}, lastUsed := now), true, r);
  }

  lemma EffectsRanks(pc: Setup, w: World, e: Happening, now: real, k: Key, r: Text)
    requires e.Message? && Ran(pc, w, e).None?
    ensures var reg := Next(pc, w, e, now).rooms;
            && (k in Ops(reg, r) <==> k in Ops(w.rooms, r) || Founds(pc, w, e, k, r))
            && Voices(reg, r) == Voices(w.rooms, r)
  {
    var w1, p := Handled(pc, w, e, now), Get(Before(pc, w, e), e.sid);
    if e.env.kind.Join? && p.key.Some? {
      JoinRanks(w1, p, pc.hub, p.key.value, pc.hub.fold(e.env.room), e.offered, now, k, r);
    }
  }

  /** Rank that a reload finds in the file. */
  predicate Filed(file: Registry, r: Text, k: Key) {
    r in file && (k in file[r].ops || file[r].founder == Some(k))
  }

  ghost predicate Promotes(pc: Setup, w: World, e: Happening, now: real, k: Key, r: Text) {
    Ranks(pc, w, e, now, Op, k, r) || Founds(pc, w, e, k, r)
  }

  ghost predicate Demotes(pc: Setup, w: World, e: Happening, now: real, k: Key, r: Text) {
    (Ranks(pc, w, e, now, Deop, k, r) && !Founded(w.rooms, r, k)) || Forgets(w, e, now, r)
  }

  /** Exactly these events change who has rank in a room; a reload takes it from the file. */
  lemma NextOps(pc: Setup, w: World, e: Happening, now: real, k: Key, r: Text)
    requires RegistryOk(w)
    ensures k in Ops(Next(pc, w, e, now).rooms, r) <==>
            if Reloads(e) then Filed(w.registryFile, r, k)
            else Promotes(pc, w, e, now, k, r) || (k in Ops(w.rooms, r) && !Demotes(pc, w, e, now, k, r))
  {
    if Ran(pc, w, e).Some? {
      NextOfCommand(pc, w, e, now);
      ExecuteRanks(pc, Handled(pc, w, e, now), Sender(pc, w, e), e.env.room, Ran(pc, w, e).value, now, k, r);
    } else if e.Message? {
      EffectsRanks(pc, w, e, now, k, r);
    }
  }

  // ----- histories -----------------------------------------------------------------------------------

  /** The rank was in the file at the start, or one of the first n events gave it. */
  ghost predicate Earned(pc: Setup, ws: seq<World>, es: seq<Happening>, times: seq<real>, k: Key, r: Text, n: nat)
    requires IsHistory(pc, ws, es, times) && n < |ws|
  {
    Filed(ws[0].registryFile, r, k) || exists i :: 0 <= i < n && Promotes(pc, ws[i], es[i], times[i], k, r)
  }

  ghost predicate AllEarned(pc: Setup, ws: seq<World>, es: seq<Happening>, times: seq<real>, k: Key, r: Text, n: nat)
    requires IsHistory(pc, ws, es, times) && n < |ws|
  {
    k in Ops(ws[n].rooms, r) || Filed(ws[n].registryFile, r, k) ==> Earned(pc, ws, es, times, k, r, n)
  }

  lemma StepOps(pc: Setup, ws: seq<World>, es: seq<Happening>, times: seq<real>, start: real, k: Key, r: Text, n: nat)
    requires IsHistory(pc, ws, es, times) && n < |es| && Started(ws[0], start)
    ensures k in Ops(ws[n + 1].rooms, r) || Filed(ws[n + 1].registryFile, r, k) ==>
            k in Ops(ws[n].rooms, r) || Filed(ws[n].registryFile, r, k) || Promotes(pc, ws[n], es[n], times[n], k, r)
  {
    HistoryOk(pc, ws, es, times, start, n);
    HistoryOk(pc, ws, es, times, start, n + 1);
    NextFile(pc, ws[n], es[n], times[n]);
    NextOps(pc, ws[n], es[n], times[n], k, r);
    if r in ws[n + 1].rooms { assert FounderOk(ws[n + 1].rooms[r]); }
  }

  lemma {:induction false} HistoryEarned(pc: Setup, ws: seq<World>, es: seq<Happening>, times: seq<real>, start: real,
                                         k: Key, r: Text, n: nat)
    requires IsHistory(pc, ws, es, times) && n < |ws| && Started(ws[0], start)
    ensures AllEarned(pc, ws, es, times, k, r, n)
  {
    if n > 0 {
      HistoryEarned(pc, ws, es, times, start, k, r, n - 1);
      StepOps(pc, ws, es, times, start, k, r, n - 1);
    }
  }

  /**
   In every run whoever may command a room is trusted, had rank in the file, founded the room, or was made operator
   by someone who could command it then.
   */
  lemma RankIsEarned(pc: Setup, ws: seq<World>, es: seq<Happening>, times: seq<real>, start: real, k: Key, r: Text,
                     n: nat)
    requires IsHistory(pc, ws, es, times) && n < |ws| && Started(ws[0], start)
    requires IsOp(ws[n].rooms, r, k, k in ws[n].trusted)
    ensures k in ws[n].trusted || Earned(pc, ws, es, times, k, r, n)
  {
    HistoryOk(pc, ws, es, times, start, n);
    HistoryEarned(pc, ws, es, times, start, k, r, n);
    if r in ws[n].rooms { assert FounderOk(ws[n].rooms[r]); }
  }
}
