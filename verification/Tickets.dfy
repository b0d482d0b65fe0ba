/**
 LXMF tickets (pkg/lxmf/tickets.go, messenger.go, message.go): A issues a ticket to B, B remembers it
 and later stamps messages to A with it instead of doing proof of work. Times are seconds as reals.
 */
module Tickets {
  import opened Bytes
  import opened StampScore

  type Hash = seq<byte>
  type Ticket = seq<byte>

  const TICKET_LENGTH := 16
  const DAY := 86400.0
  const EXPIRY := 21.0 * DAY
  const GRACE := 5.0 * DAY
  const RENEW := 14.0 * DAY
  const INTERVAL := 1.0 * DAY
  const TICKET_SCORE := 0x100
  const ROUNDS_MESSAGE := 3000

  datatype Remembered = Remembered(expires: real, ticket: Ticket)

  datatype Book = Book(outbound: map<Hash, Remembered>, inbound: map<Hash, map<Ticket, real>>,
                       lastDeliveries: map<Hash, real>)

  const EMPTY_BOOK := Book(map[], map[], map[])

  // ----- the book ------------------------------------------------------------

  function Issued(b: Book, dest: Hash): map<Ticket, real> {
    if dest in b.inbound then b.inbound[dest] else map[]
  }

  predicate Recent(b: Book, dest: Hash, now: real) {
    dest in b.lastDeliveries && now - b.lastDeliveries[dest] < INTERVAL
  }

  predicate Renewable(b: Book, dest: Hash, t: Ticket, now: real) {
    t in Issued(b, dest) && Issued(b, dest)[t] - now > RENEW
  }

  /**
   generateTicket: nothing soon after a delivery, else some ticket that is still good for long, else a
   new one from `drawn`. Which of several good tickets is returned depends on map order.
   */
  ghost predicate Generates(b: Book, dest: Hash, now: real, drawn: Ticket, r: Option<Remembered>, after: Book) {
    if Recent(b, dest, now) then r.None? && after == b
    else if exists t :: Renewable(b, dest, t, now) then
      after == b && r.Some? && Renewable(b, dest, r.value.ticket, now) &&
      r.value.expires == Issued(b, dest)[r.value.ticket]
    else
      r == Some(Remembered(now + EXPIRY, drawn)) &&
      after == b.(inbound := b.inbound[dest := Issued(b, dest)[drawn := now + EXPIRY]])
  }

  function Remember(b: Book, source: Hash, expires: real, ticket: Ticket): Book {
    if |ticket| != TICKET_LENGTH then b else b.(outbound := b.outbound[source := Remembered(expires, ticket)])
  }

  /** rememberTicketField: an already expired ticket is not remembered. */
  function RememberField(b: Book, source: Hash, expires: real, ticket: Ticket, now: real): Book {
    if expires <= now then b else Remember(b, source, expires, ticket)
  }

  function OutboundTicket(b: Book, dest: Hash, now: real): Option<Ticket> {
    if dest in b.outbound && b.outbound[dest].expires > now then Some(b.outbound[dest].ticket) else None
  }

  function InboundTickets(b: Book, source: Hash, now: real): set<Ticket> {
    set t | t in Issued(b, source) && now < Issued(b, source)[t]
  }

  function LiveTickets(m: map<Ticket, real>, now: real): map<Ticket, real> {
    map t | t in m && !(now > m[t] + GRACE) :: m[t]
  }

  function LiveOutbound(m: map<Hash, Remembered>, now: real): map<Hash, Remembered> {
    map h | h in m && !(now > m[h].expires) :: m[h]
  }

  function LiveInbound(m: map<Hash, map<Ticket, real>>, now: real): map<Hash, map<Ticket, real>> {
    map h | h in m && LiveTickets(m[h], now) != map[] :: LiveTickets(m[h], now)
  }

  /** cleanLocked: outbound tickets go at expiry, inbound tickets after a grace period. */
  function Clean(b: Book, now: real): Book {
    b.(outbound := LiveOutbound(b.outbound, now), inbound := LiveInbound(b.inbound, now))
  }

  class TicketBook {
    var book: Book

    constructor ()
      ensures book == EMPTY_BOOK
    {
      book := EMPTY_BOOK;
    }

    method GenerateTicket(dest: Hash, now: real, drawn: Ticket) returns (r: Option<Remembered>)
      modifies this
      ensures Generates(old(book), dest, now, drawn, r, book)
    {
      if Recent(book, dest, now) { return None; }
      var tickets := Issued(book, dest);
      var rest := tickets.Keys;
      while rest != {}
        invariant book == old(book) && rest <= tickets.Keys
        invariant forall t :: t in tickets && t !in rest ==> !Renewable(book, dest, t, now)
        decreases rest
      {
        var t :| t in rest;
        if tickets[t] - now > RENEW {
          return Some(Remembered(tickets[t], t));
        }
        rest := rest - {t};
      }
      var expires := now + EXPIRY;
      book := book.(inbound := book.inbound[dest := tickets[drawn := expires]]);
      return Some(Remembered(expires, drawn));
    }

    method InboundList(source: Hash, now: real) returns (out: seq<Ticket>)
      ensures (set t | t in out) == InboundTickets(book, source, now)
    {
      out := [];
      var tickets := Issued(book, source);
      var rest := tickets.Keys;
      while rest != {}
        invariant rest <= tickets.Keys
        invariant forall t :: t in out <==> t in tickets && t !in rest && now < tickets[t]
        decreases rest
      {
        var t :| t in rest;
        if now < tickets[t] { out := out + [t]; }
        rest := rest - {t};
      }
    }

    method CleanOutbound(now: real)
      modifies this
      ensures book == old(book).(outbound := LiveOutbound(old(book).outbound, now))
    {
      var out: map<Hash, Remembered> := map[];
      var rest := book.outbound.Keys;
      while rest != {}
        invariant rest <= book.outbound.Keys && book == old(book)
        invariant out == map h | h in book.outbound && h !in rest && !(now > book.outbound[h].expires) ::
                    book.outbound[h]
        decreases rest
      {
        var h :| h in rest;
        if !(now > book.outbound[h].expires) { out := out[h := book.outbound[h]]; }
        rest := rest - {h};
      }
      book := book.(outbound := out);
    }

    method CleanInbound(now: real)
      modifies this
      ensures book == old(book).(inbound := LiveInbound(old(book).inbound, now))
    {
      var inb: map<Hash, map<Ticket, real>> := map[];
      var rest := book.inbound.Keys;
      while rest != {}
        invariant rest <= book.inbound.Keys && book == old(book)
        invariant inb == map h | h in book.inbound && h !in rest && LiveTickets(book.inbound[h], now) != map[] ::
                    LiveTickets(book.inbound[h], now)
        decreases rest
      {
        var h :| h in rest;
        var live := LiveTickets(book.inbound[h], now);
        if live != map[] { inb := inb[h := live]; }
        rest := rest - {h};
      }
      book := book.(inbound := inb);
    }

    method CleanBook(now: real)
      modifies this
      ensures book == Clean(old(book), now)
    {
      CleanOutbound(now);
      CleanInbound(now);
    }
  }

  // ----- stamping and validating ---------------------------------------------

  function TicketStamp(c: Crypto, ticket: Ticket, id: Digest): seq<byte> {
    c.sha(ticket + id)[..16]
  }

  /** ValidateStamp: any ticket of the right length that gives the stamp wins, else proof of work. */
  ghost predicate Validates(c: Crypto, id: Digest, stamp: seq<byte>, cost: int, tickets: set<Ticket>,
                            valid: bool, value: nat) {
    if stamp != [] && exists t :: t in tickets && |t| == TICKET_LENGTH && TicketStamp(c, t, id) == stamp then
      valid && value == TICKET_SCORE
    else if stamp == [] then !valid
    else
      var wb := c.workblock(id, ROUNDS_MESSAGE);
      valid == StampValid(c, stamp, cost, wb) && (valid ==> value == StampValue(c, wb, stamp))
  }

  method ValidateStamp(c: Crypto, id: Digest, stamp: seq<byte>, cost: int, tickets: seq<Ticket>)
    returns (valid: bool, value: nat)
    ensures Validates(c, id, stamp, cost, (set t | t in tickets), valid, value)
  {
    value := 0;
    if |tickets| > 0 && |stamp| > 0 {
      var i := 0;
      while i < |tickets|
        invariant 0 <= i <= |tickets|
        invariant forall j :: 0 <= j < i && |tickets[j]| == TICKET_LENGTH ==> TicketStamp(c, tickets[j], id) != stamp
      {
        if |tickets[i]| == TICKET_LENGTH && TicketStamp(c, tickets[i], id) == stamp {
          return true, TICKET_SCORE;
        }
        i := i + 1;
      }
    }
    if |stamp| == 0 { return false, 0; }
    var wb := c.workblock(id, ROUNDS_MESSAGE);
    if !StampValid(c, stamp, cost, wb) { return false, 0; }
    return true, StampValue(c, wb, stamp);
  }

  // ----- the two-party protocol ----------------------------------------------

  /** A and B with their clocks, and the tickets that A has put into messages to B. */
  datatype Sys = Sys(a: Book, b: Book, nowA: real, nowB: real, toB: set<Remembered>)

  datatype Act =
    | TickA(d: real)
    | TickB(d: real)
    | IssueA(dest: Hash, drawn: Ticket, r: Option<Remembered>, after: Book)
    | IssueB(dest: Hash, drawn: Ticket, r: Option<Remembered>, after: Book)
    | ReceiveB(m: Remembered)
    | OtherToB(source: Hash, expires: real, ticket: Ticket)
    | OtherToA(source: Hash, expires: real, ticket: Ticket)
    | CleanA
    | CleanB

  ghost predicate Enabled(s: Sys, act: Act, hashA: Hash) {
    match act
    case TickA(d) => d >= 0.0
    case TickB(d) => d >= 0.0
    case IssueA(dest, drawn, r, after) => |drawn| == TICKET_LENGTH && Generates(s.a, dest, s.nowA, drawn, r, after)
    case IssueB(dest, drawn, r, after) => |drawn| == TICKET_LENGTH && Generates(s.b, dest, s.nowB, drawn, r, after)
    case ReceiveB(m) => m in s.toB
    case OtherToB(source, _, _) => source != hashA
    case _ => true
  }

  function Apply(s: Sys, act: Act, hashA: Hash, hashB: Hash): Sys {
    match act
    case TickA(d) => s.(nowA := s.nowA + d)
    case TickB(d) => s.(nowB := s.nowB + d)
    case IssueA(dest, _, r, after) =>
      s.(a := after, toB := if dest == hashB && r.Some? then s.toB + {r.value} else s.toB)
    case IssueB(_, _, _, after) => s.(b := after)
    case ReceiveB(m) => s.(b := RememberField(s.b, hashA, m.expires, m.ticket, s.nowB))
    case OtherToB(source, expires, ticket) => s.(b := RememberField(s.b, source, expires, ticket, s.nowB))
    case OtherToA(source, expires, ticket) => s.(a := RememberField(s.a, source, expires, ticket, s.nowA))
    case CleanA => s.(a := Clean(s.a, s.nowA))
    case CleanB => s.(b := Clean(s.b, s.nowB))
  }

  /** A still knows the ticket at least as long as it promised, unless the promise has run out. */
  ghost predicate Honoured(s: Sys, hashB: Hash, m: Remembered) {
    && |m.ticket| == TICKET_LENGTH
    && (s.nowA >= m.expires || (m.ticket in Issued(s.a, hashB) && Issued(s.a, hashB)[m.ticket] >= m.expires))
  }

  /** Every ticket in the book has the right length and no expiry lies beyond one full lifetime. */
  ghost predicate WellIssued(b: Book, now: real) {
    forall h: Hash, t: Ticket :: t in Issued(b, h) ==> IssuedOk(Issued(b, h)[t], t, now)
  }

  predicate IssuedOk(expires: real, t: Ticket, now: real) {
    expires <= now + EXPIRY && |t| == TICKET_LENGTH
  }

  ghost predicate Inv(s: Sys, hashA: Hash, hashB: Hash) {
    && (forall m :: m in s.toB ==> Honoured(s, hashB, m))
    && (hashA in s.b.outbound ==> s.b.outbound[hashA] in s.toB)
    && WellIssued(s.a, s.nowA)
  }

  /** A ticket once issued keeps its expiry or gains a later one when more are issued. */
  lemma GenerateKeeps(b: Book, dest: Hash, now: real, drawn: Ticket, r: Option<Remembered>, after: Book, h: Hash,
                      t: Ticket)
    requires WellIssued(b, now) && |drawn| == TICKET_LENGTH && Generates(b, dest, now, drawn, r, after)
    ensures t in Issued(after, h) ==> IssuedOk(Issued(after, h)[t], t, now)
    ensures t in Issued(b, h) ==> t in Issued(after, h) && Issued(after, h)[t] >= Issued(b, h)[t]
  {
    if t in Issued(b, h) {
      assert IssuedOk(Issued(b, h)[t], t, now);
    }
  }

  lemma IssueKeeps(s: Sys, act: Act, hashA: Hash, hashB: Hash)
    requires Inv(s, hashA, hashB) && act.IssueA? && Enabled(s, act, hashA)
    ensures Inv(Apply(s, act, hashA, hashB), hashA, hashB)
  {
    var s' := Apply(s, act, hashA, hashB);
    forall h: Hash, t: Ticket | t in Issued(s'.a, h) ensures IssuedOk(Issued(s'.a, h)[t], t, s'.nowA) {
      GenerateKeeps(s.a, act.dest, s.nowA, act.drawn, act.r, act.after, h, t);
    }
    forall m | m in s'.toB ensures Honoured(s', hashB, m) {
      if m in s.toB {
        assert Honoured(s, hashB, m);
        GenerateKeeps(s.a, act.dest, s.nowA, act.drawn, act.r, act.after, hashB, m.ticket);
      } else {
        assert Some(m) == act.r;
        if m.ticket in Issued(s.a, hashB) { assert IssuedOk(Issued(s.a, hashB)[m.ticket], m.ticket, s.nowA); }
      }
    }
  }

  /** Cleaning drops a ticket only after its grace period. */
  lemma CleanIssued(b: Book, now: real, h: Hash, t: Ticket)
    ensures t in Issued(Clean(b, now), h) <==> t in Issued(b, h) && now <= Issued(b, h)[t] + GRACE
    ensures t in Issued(Clean(b, now), h) ==> Issued(Clean(b, now), h)[t] == Issued(b, h)[t]
  {
    if h in b.inbound {
      var live := LiveTickets(b.inbound[h], now);
      assert t in live ==> live != map[];
    }
  }

  lemma CleanKeeps(s: Sys, hashA: Hash, hashB: Hash)
    requires Inv(s, hashA, hashB)
    ensures Inv(Apply(s, CleanA, hashA, hashB), hashA, hashB)
  {
    var s' := Apply(s, CleanA, hashA, hashB);
    forall h: Hash, t: Ticket | t in Issued(s'.a, h) ensures IssuedOk(Issued(s'.a, h)[t], t, s'.nowA) {
      CleanIssued(s.a, s.nowA, h, t);
      assert IssuedOk(Issued(s.a, h)[t], t, s.nowA);
    }
    forall m | m in s'.toB ensures Honoured(s', hashB, m) {
      assert Honoured(s, hashB, m);
      CleanIssued(s.a, s.nowA, hashB, m.ticket);
    }
  }

  lemma StepKeeps(s: Sys, act: Act, hashA: Hash, hashB: Hash)
    requires Inv(s, hashA, hashB) && Enabled(s, act, hashA)
    ensures Inv(Apply(s, act, hashA, hashB), hashA, hashB)
  {
    if act.IssueA? { IssueKeeps(s, act, hashA, hashB); }
    else if act.CleanA? { CleanKeeps(s, hashA, hashB); }
    else {
      var s' := Apply(s, act, hashA, hashB);
      assert s'.a.inbound == s.a.inbound && s'.nowA >= s.nowA;
      forall h: Hash, t: Ticket | t in Issued(s'.a, h) ensures IssuedOk(Issued(s'.a, h)[t], t, s'.nowA) {
        assert IssuedOk(Issued(s.a, h)[t], t, s.nowA);
      }
      forall m | m in s'.toB ensures Honoured(s', hashB, m) { assert Honoured(s, hashB, m); }
    }
  }

  /** Both books are new and nothing has been sent. */
  predicate Starts(s: Sys) {
    s.a == EMPTY_BOOK && s.b == EMPTY_BOOK && s.toB == {}
  }

  ghost predicate IsRun(states: seq<Sys>, acts: seq<Act>, hashA: Hash, hashB: Hash) {
    && |states| == |acts| + 1
    && forall i :: 0 <= i < |acts| ==>
         Enabled(states[i], acts[i], hashA) && states[i + 1] == Apply(states[i], acts[i], hashA, hashB)
  }

  lemma {:induction false} RunKeeps(states: seq<Sys>, acts: seq<Act>, hashA: Hash, hashB: Hash, i: nat, j: nat)
    requires IsRun(states, acts, hashA, hashB) && Starts(states[0]) && i <= j < |states|
    ensures Inv(states[j], hashA, hashB) && states[i].toB <= states[j].toB
    decreases j
  {
    if j > 0 {
      RunKeeps(states, acts, hashA, hashB, if i < j then i else j - 1, j - 1);
      StepKeeps(states[j - 1], acts[j - 1], hashA, hashB);
    }
  }

  /**
   A message B stamps at time i with the ticket it remembers for A validates at A with the ticket
   score at any later time j of the run before the ticket's expiry, whatever the required cost and
   whatever was issued, received or cleaned in between.
   */
  lemma TicketHonoured(states: seq<Sys>, acts: seq<Act>, hashA: Hash, hashB: Hash, i: nat, j: nat,
                       c: Crypto, id: Digest, cost: int, valid: bool, value: nat)
    requires IsRun(states, acts, hashA, hashB) && Starts(states[0]) && i <= j < |states|
    requires OutboundTicket(states[i].b, hashA, states[i].nowB).Some?
    requires states[j].nowA < states[i].b.outbound[hashA].expires
    requires Validates(c, id, TicketStamp(c, states[i].b.outbound[hashA].ticket, id), cost,
                       InboundTickets(states[j].a, hashB, states[j].nowA), valid, value)
    ensures valid && value == TICKET_SCORE
  {
    RunKeeps(states, acts, hashA, hashB, i, i);
    RunKeeps(states, acts, hashA, hashB, i, j);
    var m := states[i].b.outbound[hashA];
    assert Honoured(states[j], hashB, m);
    assert m.ticket in InboundTickets(states[j].a, hashB, states[j].nowA);
  }
}
