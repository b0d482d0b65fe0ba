/**
 The gorrcd room registry (internal/gorrcd/rooms.go, rooms_mut.go): room states, what a JOIN or a message
 needs, and the mutators behind the operator commands.
 */
module Rooms {
  import opened Bytes
  import opened Hub

  datatype Modes = Modes(moderated: bool, inviteOnly: bool, topicOpsOnly: bool, noOutside: bool, priv: bool, key: Text)

  datatype RoomState = RoomState(
    founder: Option<Key>, registered: bool, topic: Text, modes: Modes, ops: set<Key>, voiced: set<Key>,
    bans: set<Key>, invited: map<Key, real>, lastUsed: real)

  type Registry = map<Text, RoomState>

  function Fresh(founder: Option<Key>): RoomState {
    RoomState(founder, false, "", Modes(false, false, false, false, false, ""),
              if founder.Some? then {founder.value} else {}, {}, {}, map[], 0.0)
  }

  /** ensureLocked: a room without a founder takes the one offered, who becomes operator. */
  function Ensured(reg: Registry, room: Text, founder: Option<Key>): RoomState {
    if room !in reg then Fresh(founder)
    else if reg[room].founder.None? && founder.Some? then
      reg[room].(founder := founder, ops := reg[room].ops + {founder.value})
    else reg[room]
  }

  function Bans(reg: Registry, room: Text): set<Key> {
    if room in reg then reg[room].bans else {}
  }

  predicate IsOp(reg: Registry, room: Text, id: Key, serverOp: bool) {
    serverOp || (room in reg && (reg[room].founder == Some(id) || id in reg[room].ops))
  }

  predicate IsInvited(st: RoomState, id: Key, now: real) {
    id in st.invited && st.invited[id] > now
  }

  /** AllowJoin, on the room state after the founder has been settled. */
  predicate JoinAllowed(st: RoomState, id: Key, offered: Text, serverOp: bool, now: real) {
    var pass := serverOp || st.founder == Some(id) || id in st.ops || IsInvited(st, id, now);
    id !in st.bans && (st.modes.inviteOnly ==> pass) && (st.modes.key == "" || pass || offered == st.modes.key)
  }

  predicate ContentAllowed(reg: Registry, room: Text, id: Key, member: bool, serverOp: bool) {
    if room !in reg then member
    else
      var st := reg[room];
      id !in st.bans && (member || !st.modes.noOutside) &&
      (!st.modes.moderated || IsOp(reg, room, id, serverOp) || id in st.voiced)
  }

  /** The rooms that writeLocked puts into the file. */
  function Saved(reg: Registry): Registry {
    map room | room in reg && reg[room].registered :: reg[room]
  }

  /** What parsing gives back for a room written earlier: its founder is an operator, old invites are gone. */
  function Parsed(st: RoomState, now: real): RoomState {
    st.(registered := true, ops := st.ops + (if st.founder.Some? then {st.founder.value} else {}),
        invited := Unexpired(st.invited, now), lastUsed := if st.lastUsed > 0.0 then st.lastUsed else 0.0)
  }

  function Unexpired(invited: map<Key, real>, now: real): map<Key, real> {
    map id | id in invited && invited[id] > now :: invited[id]
  }

  function Loaded(file: Registry, now: real): Registry {
    map room | room in file :: Parsed(file[room], now)
  }

  datatype Flag = Moderated | InviteOnly | TopicOpsOnly | NoOutside | Private | RoomKey | Unknown

  /** SetFlag; None for its error answers. */
  function Flagged(m: Modes, flag: Flag, on: bool, key: Text): Option<Modes> {
    match flag
    case Moderated => Some(m.(moderated := on))
    case InviteOnly => Some(m.(inviteOnly := on))
    case TopicOpsOnly => Some(m.(topicOpsOnly := on))
    case NoOutside => Some(m.(noOutside := on))
    case Private => Some(m.(priv := on))
    case RoomKey => if on && key == "" then None else Some(m.(key := if on then key else ""))
    case Unknown => None
  }

  function LastUse(st: RoomState, started: real): real {
    if st.lastUsed == 0.0 then started else st.lastUsed
  }

  predicate Prunable(st: RoomState, occupied: bool, after: real, started: real, now: real) {
    st.registered && !occupied && now - LastUse(st, started) >= after
  }

  function Pruned(reg: Registry, occupied: set<Text>, after: real, started: real, now: real): Registry {
    map room | room in reg && !Prunable(reg[room], room in occupied, after, started, now) :: reg[room]
  }

  // ----- the registry object ------------------------------------------------------

  class RoomRegistry {
    var rooms: Registry
    var file: Registry

    constructor (loaded: Registry)
      ensures rooms == loaded && file == loaded
    {
      rooms, file := loaded, loaded;
    }

    method Write()
      modifies this`file
      ensures file == Saved(rooms)
    {
      var out: Registry := map[];
      var todo := rooms.Keys;
      while todo != {}
        invariant todo <= rooms.Keys && rooms == old(rooms)
        invariant out == map room | room in rooms && room !in todo && rooms[room].registered :: rooms[room]
        decreases todo
      {
        var room :| room in todo;
        if rooms[room].registered { out := out[room := rooms[room]]; }
        todo := todo - {room};
      }
      file := out;
    }

    method AllowJoin(room: Text, id: Key, offered: Text, serverOp: bool, now: real) returns (ok: bool)
      modifies this`rooms
      ensures rooms == old(rooms)[room := Ensured(old(rooms), room, Some(id))]
      ensures ok == JoinAllowed(rooms[room], id, offered, serverOp, now)
    {
      var st := Ensured(rooms, room, Some(id));
      rooms := rooms[room := st];
      var isOp := serverOp || st.founder == Some(id);
      if !isOp { isOp := id in st.ops; }
      var invited := id in st.invited && st.invited[id] > now;
      if id in st.bans { return false; }
      if st.modes.inviteOnly && !isOp && !invited { return false; }
      if st.modes.key != "" && !isOp && !invited && offered != st.modes.key { return false; }
      return true;
    }

    method AllowContent(room: Text, id: Key, member: bool, serverOp: bool) returns (ok: bool)
      ensures ok == ContentAllowed(rooms, room, id, member, serverOp)
    {
      if room !in rooms { return member; }
      var st := rooms[room];
      if id in st.bans { return false; }
      if !member && st.modes.noOutside { return false; }
      if st.modes.moderated && !IsOp(rooms, room, id, serverOp) && id !in st.voiced { return false; }
      return true;
    }

    method PruneUnused(after: real, occupied: set<Text>, started: real, now: real) returns (gone: set<Text>)
      modifies this
      ensures rooms == Pruned(old(rooms), occupied, after, started, now)
      ensures gone == old(rooms).Keys - rooms.Keys
      ensures file == if gone == {} then old(file) else Saved(rooms)
    {
      gone := {};
      var todo := rooms.Keys;
      while todo != {}
        invariant todo <= rooms.Keys && rooms == old(rooms) && file == old(file)
        invariant gone == set room | room in rooms && room !in todo &&
                  Prunable(rooms[room], room in occupied, after, started, now)
        decreases todo
      {
        var room :| room in todo;
        todo := todo - {room};
        if rooms[room].registered && room !in occupied {
          var last := rooms[room].lastUsed;
          if last == 0.0 { last := started; }
          if now - last >= after { gone := gone + {room}; }
        }
      }
      rooms := rooms - gone;
      if gone != {} { Write(); }
    }
  }
}
