/**
 How long bans and invitations last (internal/gorrcd/commands.go, service.go, rooms.go): over every history,
 what gives them, what ends them, and whom they keep out or let in meanwhile.
 */
module PolicyRules {
  import opened Bytes
  import opened Hub
  import opened Rooms
  import opened Policy
  import opened PolicyRuns

  // ----- facts that events give and end -------------------------------------------------------------

  lemma {:induction false} Stays(held: seq<bool>, m: nat, n: nat)
    requires m <= n < |held| && held[m] && forall i :: m <= i < n && held[i] ==> held[i + 1]
    ensures held[n]
    decreases n
  {
    if m < n { Stays(held, m, n - 1); }
  }

  lemma {:induction false} Origin(held: seq<bool>, given: seq<bool>, ended: seq<bool>, n: nat) returns (m: nat)
    requires |held| == |given| + 1 == |ended| + 1 && n < |held| && held[n]
    requires forall i :: 0 <= i < n && held[i + 1] ==> given[i] || (held[i] && !ended[i])
    ensures m <= n && (if m == 0 then held[0] else given[m - 1]) && forall i :: m <= i < n ==> !ended[i]
    decreases n
  {
    if n == 0 { return 0; }
    if given[n - 1] { return n; }
    m := Origin(held, given, ended, n - 1);
  }

  // ----- bans ------------------------------------------------------------------------------------

  /** The event is a command of an operator that bans t from r. */
  ghost predicate Imposes(pc: Setup, w: World, e: Happening, now: real, t: Key, r: Text) {
    Ran(pc, w, e).Some? && Ran(pc, w, e).value.BanAdd? &&
    Targets(pc, Handled(pc, w, e, now), Sender(pc, w, e), Ran(pc, w, e).value, r, t)
  }

  /** The room's state is dropped: by pruning, or by a reload that does not find it in the file. */
  predicate Forgets(w: World, e: Happening, now: real, r: Text) {
    match e
    case Prune(after, started) => r in w.rooms && Prunable(w.rooms[r], r in w.hub.rooms.Keys, after, started, now)
    case Reload(outcome, _) => outcome.Done? && !WasRegistered(w, r)
    case _ => false
  }

  ghost predicate Lifts(pc: Setup, w: World, e: Happening, now: real, t: Key, r: Text) {
    || Forgets(w, e, now, r)
    || (Ran(pc, w, e).Some? && Ran(pc, w, e).value.BanDel? &&
        Targets(pc, Handled(pc, w, e, now), Sender(pc, w, e), Ran(pc, w, e).value, r, t))
  }

  /** Exactly these events change who is banned. */
  lemma NextBans(pc: Setup, w: World, e: Happening, now: real, t: Key, r: Text)
    requires RegistryOk(w)
    ensures t in Bans(Next(pc, w, e, now).rooms, r) <==>
            Imposes(pc, w, e, now, t, r) || (t in Bans(w.rooms, r) && !Lifts(pc, w, e, now, t, r))
  {
    if Ran(pc, w, e).Some? {
      NextOfCommand(pc, w, e, now);
      ExecuteBans(pc, Handled(pc, w, e, now), Sender(pc, w, e), e.env.room, Ran(pc, w, e).value, now, t, r);
    } else if e.Message? {
      EffectsKeepBans(pc, w, e, now);
    } else {
      assert RoomSaved(w.rooms, w.registryFile, r);
    }
  }

  /**
   The ban of t in r, in force before the first event or imposed by event m - 1, is still in force after event n - 1.
   */
  ghost predicate BannedSince(pc: Setup, ws: seq<World>, es: seq<Happening>, times: seq<real>, t: Key, r: Text, m: nat,
                              n: nat)
    requires IsHistory(pc, ws, es, times) && n < |ws|
  {
    && m <= n
    && (if m == 0 then t in Bans(ws[0].rooms, r) else Imposes(pc, ws[m - 1], es[m - 1], times[m - 1], t, r))
    && forall i :: m <= i < n ==> !Lifts(pc, ws[i], es[i], times[i], t, r)
  }

  lemma StepBans(pc: Setup, ws: seq<World>, es: seq<Happening>, times: seq<real>, start: real, t: Key, r: Text, i: nat)
    requires IsHistory(pc, ws, es, times) && i < |es| && Started(ws[0], start)
    ensures t in Bans(ws[i + 1].rooms, r) <==>
            || Imposes(pc, ws[i], es[i], times[i], t, r)
            || (t in Bans(ws[i].rooms, r) && !Lifts(pc, ws[i], es[i], times[i], t, r))
  {
    HistoryOk(pc, ws, es, times, start, i);
    NextBans(pc, ws[i], es[i], times[i], t, r);
  }

  /** A ban in force stays in force until it is lifted. */
  lemma BanLasts(pc: Setup, ws: seq<World>, es: seq<Happening>, times: seq<real>, start: real, t: Key, r: Text, m: nat,
                 n: nat)
    requires IsHistory(pc, ws, es, times) && m <= n < |ws| && Started(ws[0], start) && t in Bans(ws[m].rooms, r)
    requires forall i :: m <= i < n ==> !Lifts(pc, ws[i], es[i], times[i], t, r)
    ensures t in Bans(ws[n].rooms, r)
  {
    var held := seq(|ws|, i requires 0 <= i < |ws| => t in Bans(ws[i].rooms, r));
    forall i | m <= i < n && held[i] ensures held[i + 1] { StepBans(pc, ws, es, times, start, t, r, i); }
    Stays(held, m, n);
  }

  /** Whoever is banned was banned by some event. */
  lemma BanHasOrigin(pc: Setup, ws: seq<World>, es: seq<Happening>, times: seq<real>, start: real, t: Key, r: Text,
                     n: nat)
    returns (m: nat)
    requires IsHistory(pc, ws, es, times) && n < |ws| && Started(ws[0], start) && t in Bans(ws[n].rooms, r)
    ensures BannedSince(pc, ws, es, times, t, r, m, n)
  {
    var held := seq(|ws|, i requires 0 <= i < |ws| => t in Bans(ws[i].rooms, r));
    var given := seq(|es|, i requires 0 <= i < |es| => Imposes(pc, ws[i], es[i], times[i], t, r));
    var ended := seq(|es|, i requires 0 <= i < |es| => Lifts(pc, ws[i], es[i], times[i], t, r));
    forall i | 0 <= i < n && held[i + 1] ensures given[i] || (held[i] && !ended[i]) {
      StepBans(pc, ws, es, times, start, t, r, i);
    }
    m := Origin(held, given, ended, n);
    forall i | m <= i < n ensures !Lifts(pc, ws[i], es[i], times[i], t, r) { assert !ended[i]; }
  }

  lemma ImposedIsBanned(pc: Setup, ws: seq<World>, es: seq<Happening>, times: seq<real>, start: real, t: Key, r: Text,
                        i: nat)
    requires IsHistory(pc, ws, es, times) && i < |es| && Started(ws[0], start)
    requires Imposes(pc, ws[i], es[i], times[i], t, r)
    ensures t in Bans(ws[i + 1].rooms, r)
  {
    StepBans(pc, ws, es, times, start, t, r, i);
  }

  lemma SinceIsBanned(pc: Setup, ws: seq<World>, es: seq<Happening>, times: seq<real>, start: real, t: Key, r: Text,
                      m: nat, n: nat)
    requires IsHistory(pc, ws, es, times) && n < |ws| && Started(ws[0], start)
    requires BannedSince(pc, ws, es, times, t, r, m, n)
    ensures t in Bans(ws[n].rooms, r)
  {
    if m > 0 { ImposedIsBanned(pc, ws, es, times, start, t, r, m - 1); }
    BanLasts(pc, ws, es, times, start, t, r, m, n);
  }

  /** In every run an identity is banned exactly when some event banned it and none since has lifted that. */
  lemma BannedExactly(pc: Setup, ws: seq<World>, es: seq<Happening>, times: seq<real>, start: real, t: Key, r: Text,
                      n: nat)
    requires IsHistory(pc, ws, es, times) && n < |ws| && Started(ws[0], start)
    ensures t in Bans(ws[n].rooms, r) <==> exists m: nat :: BannedSince(pc, ws, es, times, t, r, m, n)
  {
    if t in Bans(ws[n].rooms, r) {
      var m := BanHasOrigin(pc, ws, es, times, start, t, r, n);
    }
    forall m: nat | BannedSince(pc, ws, es, times, t, r, m, n) ensures t in Bans(ws[n].rooms, r) {
      SinceIsBanned(pc, ws, es, times, start, t, r, m, n);
    }
  }

  /** No event lets a banned identity into the room. */
  lemma NextKeepsOut(pc: Setup, w: World, e: Happening, now: real, t: Key, r: Text)
    requires Base(w.hub) && Possible(w, e) && t in Bans(w.rooms, r) && t !in At(w.hub.rooms, r)
    ensures t !in At(Next(pc, w, e, now).hub.rooms, r)
  {
    match e
    case Identity(sid, k, v) => RegisterAdds(pc.hub, w.hub, sid, k, k !in w.banned, v, t, r);
    case Message(_, _, _, _, _, _, _) =>
      MessageMembers(pc, w, e, now, t, r);
      if Ran(pc, w, e).Some? {
        NextOfCommand(pc, w, e, now);
        ExecuteMembers(pc, Handled(pc, w, e, now), Sender(pc, w, e), e.env.room, Ran(pc, w, e).value, now, t, r);
      } else {
        EffectsKeepBans(pc, w, e, now);
      }
    case Lost(sid) => CloseShrinks(pc.hub, w.hub, sid);
    case PingedOut(k) => if k in w.hub.peers { CloseShrinks(pc.hub, w.hub, w.hub.peers[k]); }
    case _ =>
  }

  lemma StepKeepsOut(pc: Setup, ws: seq<World>, es: seq<Happening>, times: seq<real>, start: real, t: Key, r: Text,
                     i: nat)
    requires IsHistory(pc, ws, es, times) && i < |es| && Started(ws[0], start)
    requires t in Bans(ws[i].rooms, r) && t !in At(ws[i].hub.rooms, r)
    ensures t !in At(ws[i + 1].hub.rooms, r)
  {
    HistoryOk(pc, ws, es, times, start, i);
    NextKeepsOut(pc, ws[i], es[i], times[i], t, r);
  }

  /** In every run a banned identity that is out stays out until its ban is lifted, whatever its rank or invitation. */
  lemma BanKeepsOut(pc: Setup, ws: seq<World>, es: seq<Happening>, times: seq<real>, start: real, t: Key, r: Text,
                    m: nat, n: nat)
    requires IsHistory(pc, ws, es, times) && m <= n < |ws| && Started(ws[0], start)
    requires t in Bans(ws[m].rooms, r) && t !in At(ws[m].hub.rooms, r)
    requires forall i :: m <= i < n ==> !Lifts(pc, ws[i], es[i], times[i], t, r)
    ensures t !in At(ws[n].hub.rooms, r)
  {
    var held := seq(|ws|, i requires 0 <= i < |ws| => t !in At(ws[i].hub.rooms, r));
    forall i | m <= i < n && held[i] ensures held[i + 1] {
      BanLasts(pc, ws, es, times, start, t, r, m, i);
      StepKeepsOut(pc, ws, es, times, start, t, r, i);
    }
    Stays(held, m, n);
  }

  /** In every run a JOIN or a message of an identity banned and not unbanned since is refused. */
  lemma BanRefuses(pc: Setup, ws: seq<World>, es: seq<Happening>, times: seq<real>, start: real, t: Key, r: Text,
                   m: nat, n: nat,
                   offered: Text, now: real, member: bool, op: bool)
    requires IsHistory(pc, ws, es, times) && n < |ws| && Started(ws[0], start)
    requires BannedSince(pc, ws, es, times, t, r, m, n)
    ensures !MayJoin(ws[n], Some(t), r, offered, now) && !ContentAllowed(ws[n].rooms, r, t, member, op)
  {
    SinceIsBanned(pc, ws, es, times, start, t, r, m, n);
  }

  // ----- invitations ---------------------------------------------------------------------------------

  function Until(reg: Registry, r: Text, t: Key): Option<real> {
    if t in InvitedIn(reg, r) then Some(InvitedIn(reg, r)[t]) else None
  }

  /** The command is one by an operator of r about an invitation for t. */
  ghost predicate Concerns(pc: Setup, w: World, id: Key, cmd: Command, r: Text, t: Key) {
    && (cmd.InviteAdd? || cmd.InviteDel?) && pc.hub.fold(cmd.name) == r && Authorised(pc, w, id, cmd.name)
    && t != ZERO && Resolve(pc.hub, w.hub, cmd.token, None) == t
  }

  ghost predicate Invites(pc: Setup, w: World, e: Happening, now: real, t: Key, r: Text) {
    Ran(pc, w, e).Some? && Ran(pc, w, e).value.InviteAdd? && Closable(w.rooms, r) &&
    Concerns(pc, Handled(pc, w, e, now), Sender(pc, w, e), Ran(pc, w, e).value, r, t)
  }

  ghost predicate Withdraws(pc: Setup, w: World, e: Happening, now: real, t: Key, r: Text) {
    Ran(pc, w, e).Some? && Ran(pc, w, e).value.InviteDel? &&
    Concerns(pc, Handled(pc, w, e, now), Sender(pc, w, e), Ran(pc, w, e).value, r, t)
  }

  /** A JOIN of t to r that the policy and the hub accept. */
  predicate Enters(pc: Setup, w: World, e: Happening, now: real, t: Key, r: Text) {
    e.Message? && e.env.kind.Join? && pc.hub.fold(e.env.room) == r && r != "" && ByteLength(r) <= pc.hub.maxRoomName &&
    var p := Get(Before(pc, w, e), e.sid);
    && p.key == Some(t) && e.v.token && p.active && !(e.env.nick.Some? && NickTooLong(pc.hub, e.env.nick.value))
    && MayJoin(w, Some(t), r, e.offered, now) && (r in p.rooms || |p.rooms| < pc.hub.maxRooms)
  }

  /** What ends an invitation that runs until x. */
  ghost predicate Spends(pc: Setup, w: World, e: Happening, now: real, t: Key, r: Text, x: real) {
    || Forgets(w, e, now, r) || Enters(pc, w, e, now, t, r) || Withdraws(pc, w, e, now, t, r)
    || (e.Reload? && e.outcome.Done? && x <= now)
  }

  lemma InviteCommand(pc: Setup, w: World, id: Key, at: Text, cmd: Command, now: real, t: Key, r: Text)
    requires cmd.InviteAdd? || cmd.InviteDel?
    ensures Until(Execute(pc, w, id, at, cmd, now).rooms, r, t) ==
            if cmd.InviteAdd? && Closable(w.rooms, r) && Concerns(pc, w, id, cmd, r, t) then Some(now + Ttl(pc))
            else if cmd.InviteDel? && Concerns(pc, w, id, cmd, r, t) then None
            else Until(w.rooms, r, t)
  {
    InviteLists(pc, w, pc.hub.fold(cmd.name), Resolve(pc.hub, w.hub, cmd.token, None), now, r);
  }

  lemma OtherInvited(pc: Setup, w: World, id: Key, at: Text, cmd: Command, now: real, t: Key, r: Text)
    requires !cmd.InviteAdd? && !cmd.InviteDel?
    ensures Until(Execute(pc, w, id, at, cmd, now).rooms, r, t) == Until(w.rooms, r, t)
  {
    if cmd.BanAdd? || cmd.BanDel? {
      BanLists(pc, w, pc.hub.fold(cmd.name), Resolve(pc.hub, w.hub, cmd.token, Some(pc.hub.fold(cmd.name))), now, r);
    } else {
      QuietLists(pc, w, id, at, cmd, now, r);
    }
  }

  lemma CommandInvited(pc: Setup, w: World, id: Key, at: Text, cmd: Command, now: real, t: Key, r: Text)
    ensures Until(Execute(pc, w, id, at, cmd, now).rooms, r, t) ==
            if cmd.InviteAdd? && Closable(w.rooms, r) && Concerns(pc, w, id, cmd, r, t) then Some(now + Ttl(pc))
            else if cmd.InviteDel? && Concerns(pc, w, id, cmd, r, t) then None
            else Until(w.rooms, r, t)
  {
    if cmd.InviteAdd? || cmd.InviteDel? {
      InviteCommand(pc, w, id, at, cmd, now, t, r);
    } else {
      OtherInvited(pc, w, id, at, cmd, now, t, r);
    }
  }

  /** A JOIN takes away exactly the invitation of whoever enters. */
  lemma JoinInvited(w: World, p: Session, cfg: Config, id: Key, x: Text, offered: Text, now: real, t: Key, r: Text)
    ensures Until(JoinEffects(w, p, cfg, id, x, offered, now).rooms, r, t) ==
            if t == id && r == x && x != "" && ByteLength(x) <= cfg.maxRoomName && MayJoin(w, Some(id), x, offered, now)
               && (x in p.rooms || |p.rooms| < cfg.maxRooms)
            then None else Until(w.rooms, r, t)
  {
    var st := Ensured(w.rooms, x, Some(id));
    SetRoomLists(w, x, st, false, r);
    SetRoomLists(w, x, st.(invited := st.invited - {id}, lastUsed := now), true, r);
  }

  /** Without a command, a message takes away exactly the invitation of whoever enters. */
  lemma EffectsInvited(pc: Setup, w: World, e: Happening, now: real, t: Key, r: Text)
    requires e.Message? && Ran(pc, w, e).None?
    ensures Until(Next(pc, w, e, now).rooms, r, t) == if Enters(pc, w, e, now, t, r) then None else Until(w.rooms, r, t)
  {
    var w1, p := Handled(pc, w, e, now), Get(Before(pc, w, e), e.sid);
    if e.env.kind.Join? && p.key.Some? {
      JoinInvited(w1, p, pc.hub, p.key.value, pc.hub.fold(e.env.room), e.offered, now, t, r);
    }
  }

  /** Exactly these events change an invitation that is there. */
  lemma NextInvited(pc: Setup, w: World, e: Happening, now: real, t: Key, r: Text, x: real)
    requires RegistryOk(w) && Until(w.rooms, r, t) == Some(x)
    ensures Until(Next(pc, w, e, now).rooms, r, t) ==
            if Invites(pc, w, e, now, t, r) then Some(now + Ttl(pc))
            else if Spends(pc, w, e, now, t, r, x) then None else Some(x)
  {
    if Ran(pc, w, e).Some? {
      NextOfCommand(pc, w, e, now);
      CommandInvited(pc, Handled(pc, w, e, now), Sender(pc, w, e), e.env.room, Ran(pc, w, e).value, now, t, r);
    } else if e.Message? {
      EffectsInvited(pc, w, e, now, t, r);
    } else {
      assert RoomSaved(w.rooms, w.registryFile, r);
    }
  }

  /** The event neither renews nor ends the invitation of t to r that runs until x. */
  ghost predicate Leaves(pc: Setup, w: World, e: Happening, now: real, t: Key, r: Text, x: real) {
    !Invites(pc, w, e, now, t, r) && !Spends(pc, w, e, now, t, r, x)
  }

  lemma StepInvited(pc: Setup, ws: seq<World>, es: seq<Happening>, times: seq<real>, start: real, t: Key, r: Text,
                    x: real, i: nat)
    requires IsHistory(pc, ws, es, times) && i < |es| && Started(ws[0], start) && Until(ws[i].rooms, r, t) == Some(x)
    requires Leaves(pc, ws[i], es[i], times[i], t, r, x)
    ensures Until(ws[i + 1].rooms, r, t) == Some(x)
  {
    HistoryOk(pc, ws, es, times, start, i);
    NextInvited(pc, ws[i], es[i], times[i], t, r, x);
  }

  /**
   In every run an invitation lasts until it is used, renewed, withdrawn, found expired by a reload, or forgotten with
   its room.
   */
  lemma InviteLasts(pc: Setup, ws: seq<World>, es: seq<Happening>, times: seq<real>, start: real,
                    t: Key, r: Text, x: real, m: nat, n: nat)
    requires IsHistory(pc, ws, es, times) && m <= n < |ws| && Started(ws[0], start)
    requires Until(ws[m].rooms, r, t) == Some(x)
    requires forall i :: m <= i < n ==> Leaves(pc, ws[i], es[i], times[i], t, r, x)
    ensures Until(ws[n].rooms, r, t) == Some(x)
  {
    var held := seq(|ws|, i requires 0 <= i < |ws| => Until(ws[i].rooms, r, t) == Some(x));
    forall i | m <= i < n && held[i] ensures held[i + 1] {
      StepInvited(pc, ws, es, times, start, t, r, x, i);
    }
    Stays(held, m, n);
  }

  /**
   An /invite by event m - 1 admits t with any key until it runs out, in every run that neither renews nor ends it,
   exactly while t is not banned.
   */
  lemma InviteAdmits(pc: Setup, ws: seq<World>, es: seq<Happening>, times: seq<real>, start: real,
                     t: Key, r: Text, m: nat, n: nat, offered: Text, now: real)
    requires IsHistory(pc, ws, es, times) && 0 < m <= n < |ws| && Started(ws[0], start)
    requires Invites(pc, ws[m - 1], es[m - 1], times[m - 1], t, r) && now < times[m - 1] + Ttl(pc)
    requires forall i :: m <= i < n ==> Leaves(pc, ws[i], es[i], times[i], t, r, times[m - 1] + Ttl(pc))
    ensures MayJoin(ws[n], Some(t), r, offered, now) <==> t !in Bans(ws[n].rooms, r)
  {
    var x := times[m - 1] + Ttl(pc);
    InviteStored(pc, ws[m - 1], es[m - 1], times[m - 1], t, r);
    InviteLasts(pc, ws, es, times, start, t, r, x, m, n);
  }

  lemma InviteStored(pc: Setup, w: World, e: Happening, now: real, t: Key, r: Text)
    requires Invites(pc, w, e, now, t, r)
    ensures Until(Next(pc, w, e, now).rooms, r, t) == Some(now + Ttl(pc))
  {
    NextOfCommand(pc, w, e, now);
    CommandInvited(pc, Handled(pc, w, e, now), Sender(pc, w, e), e.env.room, Ran(pc, w, e).value, now, t, r);
  }

  // ----- where invitations come from -----------------------------------------------------------------

  /** The invitation was in the file at the start, or one of the first n events gave it. */
  ghost predicate Given(pc: Setup, ws: seq<World>, es: seq<Happening>, times: seq<real>, t: Key, r: Text, x: real,
                        n: nat)
    requires IsHistory(pc, ws, es, times) && n < |ws|
  {
    || Until(ws[0].registryFile, r, t) == Some(x)
    || exists i :: 0 <= i < n && Invites(pc, ws[i], es[i], times[i], t, r) && x == times[i] + Ttl(pc)
  }

  /** Memory and file hold no invitation that they did not hold, unless the event gives it. */
  lemma NextGiven(pc: Setup, w: World, e: Happening, now: real, t: Key, r: Text, x: real)
    requires RegistryOk(w)
    requires Until(Next(pc, w, e, now).rooms, r, t) == Some(x) && !(Invites(pc, w, e, now, t, r) && x == now + Ttl(pc))
    ensures Until(w.rooms, r, t) == Some(x) || Until(w.registryFile, r, t) == Some(x)
  {
    if Until(w.rooms, r, t).Some? {
      NextInvited(pc, w, e, now, t, r, Until(w.rooms, r, t).value);
    } else if Ran(pc, w, e).Some? {
      NextOfCommand(pc, w, e, now);
      CommandInvited(pc, Handled(pc, w, e, now), Sender(pc, w, e), e.env.room, Ran(pc, w, e).value, now, t, r);
    } else if e.Message? {
      EffectsInvited(pc, w, e, now, t, r);
    }
  }

  predicate Wrote(w: World, w': World) {
    w'.registryFile == w.registryFile || w'.registryFile == Saved(w'.rooms)
  }

  lemma RoomCommandFile(pc: Setup, w: World, r: Text, cmd: Command, now: real)
    ensures Wrote(w, RoomCommand(pc, w, r, cmd, now))
  {
  }

  lemma ExecuteFile(pc: Setup, w: World, id: Key, at: Text, cmd: Command, now: real)
    ensures Wrote(w, Execute(pc, w, id, at, cmd, now))
  {
    if cmd.Kick? || cmd.Give? || cmd.Mode? || cmd.BanAdd? || cmd.BanDel? || cmd.InviteAdd? || cmd.InviteDel? {
      RoomCommandFile(pc, w, pc.hub.fold(cmd.name), cmd, now);
    }
  }

  lemma EffectsFile(pc: Setup, w: World, p: Session, env: Envelope, v: Verdict, offered: Text, cmd: Option<Command>,
                    now: real)
    ensures Wrote(w, Effects(pc, w, p, env, v, offered, cmd, now))
  {
    if env.kind.Content? && p.key.Some? && cmd.Some? { ExecuteFile(pc, w, p.key.value, env.room, cmd.value, now); }
  }

  lemma NextFile(pc: Setup, w: World, e: Happening, now: real)
    ensures Wrote(w, Next(pc, w, e, now))
  {
    match e
    case Message(sid, _, _, env, v, offered, cmd) =>
      EffectsFile(pc, Handled(pc, w, e, now), Get(Before(pc, w, e), sid), env, v, offered, cmd, now);
    case _ =>
  }

  ghost predicate AllGiven(pc: Setup, ws: seq<World>, es: seq<Happening>, times: seq<real>, t: Key, r: Text, n: nat)
    requires IsHistory(pc, ws, es, times) && n < |ws|
  {
    && (Until(ws[n].rooms, r, t).Some? ==> Given(pc, ws, es, times, t, r, Until(ws[n].rooms, r, t).value, n))
    && (Until(ws[n].registryFile, r, t).Some? ==>
          Given(pc, ws, es, times, t, r, Until(ws[n].registryFile, r, t).value, n))
  }

  lemma GivenStays(pc: Setup, ws: seq<World>, es: seq<Happening>, times: seq<real>, t: Key, r: Text, x: real, n: nat)
    requires IsHistory(pc, ws, es, times) && n < |es|
    requires Given(pc, ws, es, times, t, r, x, n) ||
             (Invites(pc, ws[n], es[n], times[n], t, r) && x == times[n] + Ttl(pc))
    ensures Given(pc, ws, es, times, t, r, x, n + 1)
  {
  }

  lemma StepOrigin(pc: Setup, ws: seq<World>, es: seq<Happening>, times: seq<real>, start: real, t: Key, r: Text,
                   n: nat)
    requires IsHistory(pc, ws, es, times) && n < |es| && Started(ws[0], start)
    ensures Wrote(ws[n], ws[n + 1])
    ensures var here := Until(ws[n + 1].rooms, r, t);
            here.Some? ==>
              here == Until(ws[n].rooms, r, t) || here == Until(ws[n].registryFile, r, t)
              || (Invites(pc, ws[n], es[n], times[n], t, r) && here.value == times[n] + Ttl(pc))
  {
    HistoryOk(pc, ws, es, times, start, n);
    NextFile(pc, ws[n], es[n], times[n]);
    var here := Until(ws[n + 1].rooms, r, t);
    if here.Some? && !(Invites(pc, ws[n], es[n], times[n], t, r) && here.value == times[n] + Ttl(pc)) {
      NextGiven(pc, ws[n], es[n], times[n], t, r, here.value);
    }
  }

  lemma StepGiven(pc: Setup, ws: seq<World>, es: seq<Happening>, times: seq<real>, start: real, t: Key, r: Text, n: nat)
    requires IsHistory(pc, ws, es, times) && n < |es| && Started(ws[0], start) && AllGiven(pc, ws, es, times, t, r, n)
    ensures AllGiven(pc, ws, es, times, t, r, n + 1)
  {
    StepOrigin(pc, ws, es, times, start, t, r, n);
    var here, there := Until(ws[n + 1].rooms, r, t), Until(ws[n].registryFile, r, t);
    if here.Some? { GivenStays(pc, ws, es, times, t, r, here.value, n); }
    if there.Some? { GivenStays(pc, ws, es, times, t, r, there.value, n); }
  }

  /** In every run each invitation was in the file at the start or was given by an operator's /invite. */
  lemma {:induction false} InvitesAreGiven(pc: Setup, ws: seq<World>, es: seq<Happening>, times: seq<real>, start: real,
                                           t: Key, r: Text, n: nat)
    requires IsHistory(pc, ws, es, times) && n < |ws| && Started(ws[0], start)
    ensures AllGiven(pc, ws, es, times, t, r, n)
  {
    if n > 0 {
      InvitesAreGiven(pc, ws, es, times, start, t, r, n - 1);
      StepGiven(pc, ws, es, times, start, t, r, n - 1);
    }
  }

  /**
   In every run whoever enters an invite-only room has rank there, or was given an invitation that has not run out.
   */
  lemma InviteOnlyHolds(pc: Setup, ws: seq<World>, es: seq<Happening>, times: seq<real>, start: real, t: Key, r: Text,
                        n: nat)
    requires IsHistory(pc, ws, es, times) && n < |es| && Started(ws[0], start)
    requires Enters(pc, ws[n], es[n], times[n], t, r) && r in ws[n].rooms && ws[n].rooms[r].modes.inviteOnly
    ensures || t in ws[n].trusted || t in ws[n].rooms[r].ops || ws[n].rooms[r].founder in {None, Some(t)}
            || exists x: real :: x > times[n] && Given(pc, ws, es, times, t, r, x, n)
  {
    InvitesAreGiven(pc, ws, es, times, start, t, r, n);
  }
}
