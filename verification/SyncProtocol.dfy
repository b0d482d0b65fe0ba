/**
 The sync protocol between two nodes as a state machine: A's exchanges with B and the critical sections of A's own
 ingests, B's answers and checks, announcements, link failures and restarts, in any order.
 */
module SyncProtocol {
  import opened Bytes
  import opened StampScore
  import opened MessageStore
  import opened PropagationNode
  import opened PeerSync
  import Chunks

  datatype Code = NoIdentity | Throttled | NoAccess | Other

  /** B's reply to an offer: false, true, a list of ids, or an error code. */
  datatype Answer = NoneWanted | AllWanted | SomeWanted(ids: seq<Tid>) | Refused(code: Code)

  /** The sync attempt of A's peer object, from the offer to the reply; Waiting lasts until the link is torn down. */
  datatype Phase = Idle | Offered(items: seq<Item>) | Answered(items: seq<Item>, answer: Answer) | Waiting

  /** A transfer, and whether the link it went over had a validated peering key. */
  datatype Sent = Sent(batch: seq<seq<byte>>, validated: bool)

  /**
   Both nodes, the transfers A has sent and the ids it has yet to mark for them, and the history the results speak
   about: ids B's store held when answering an offer, ids A transferred to B, ids A received from B, ids A marked
   because they were over B's limit as recorded then; and whether B ever refused A's peering key, throttled A for an
   invalid stamp, or rejected a transfer for want of a validated key.
   */
  datatype Sys = Sys(a: Node, rec: Record, phase: Phase, linkOk: bool, wire: seq<Sent>, due: set<Tid>, b: Node,
                     held: set<Tid>, sent: set<Tid>, received: set<Tid>, big: set<Tid>,
                     keyRefused: bool, throttled: bool, multiRefused: bool)

  /** How B disposes of one valid message: stored or not, and what eviction keeps. */
  datatype Choice = Choice(stored: bool, kept: set<Tid>)

  datatype Act =
    | Local(s: Step)
    | Receive(i: nat, data: seq<byte>, from: Option<PeerId>, now: int)
    | Announce(r: Record)
    | MakeKey(key: seq<byte>)
    | SendOffer(keys: seq<Tid>, order: seq<Tid>)
    | AnswerOffer(refusal: Option<Code>)
    | TakeAnswer(sendOk: bool)
    | MarkSent(keys: seq<Tid>)
    | Conclude(i: nat, now: int, choices: seq<Choice>)
    | ChangeB(b: Node)
    | LinkDown

  function MinOf(r: Record): int {
    MinCost(r.stampCost, r.stampFlex)
  }

  function PeeringWork(w: World): seq<byte> {
    w.c.workblock(w.idB + w.idA, ROUNDS_PEERING)
  }

  predicate KeyReady(r: Record) {
    r.peeringCost > 0 && r.key.Some? && r.keyValue >= r.peeringCost
  }

  /** Messages from the network enter by Receive; other ingests of A, such as paper messages, are not stored. */
  ghost predicate Allowed(w: World, s: Sys, act: Act) {
    match act
    case Local(step) =>
      && Enabled(s.a, step) && !(step.Mark? && step.p == w.peerB)
      && (step.Begin? ==> !step.job.storable && step.job.from.None?)
    case Receive(i, _, from, _) => i !in s.a.jobs && (from.Some? ==> from.value in s.a.peers)
    case Announce(r) => r.key == s.rec.key && r.keyValue == s.rec.keyValue
    case MakeKey(key) => |key| == STAMP_SIZE && s.rec.peeringCost > 0 && !KeyReady(s.rec)
    case SendOffer(keys, order) =>
      && s.phase.Idle? && KeyReady(s.rec)
      && s.rec.stampCost >= 0 && s.rec.stampFlex >= 0
      && Elements(keys) == s.a.entries.Keys
      && Candidates(s.a.entries, order, w.peerB, MinOf(s.rec))
    case AnswerOffer(_) => s.phase.Offered?
    case TakeAnswer(_) => s.phase.Answered?
    case MarkSent(keys) => Elements(keys) <= s.due
    case Conclude(i, _, choices) => i < |s.wire| && |choices| >= |s.wire[i].batch|
    case _ => true
  }

  // ----- the steps -----------------------------------------------------------

  function EntryOf(pn: PnEntry, now: int): Entry {
    Entry(pn.lxm, pn.stamp, now, pn.value, [], [])
  }

  /** A validated message starts an ingest at A. */
  function ReceiveAt(w: World, s: Sys, i: nat, pn: PnEntry, from: Option<PeerId>, now: int): Sys
    requires i !in s.a.jobs && (from.Some? ==> from.value in s.a.peers)
  {
    s.(a := Apply(s.a, Begin(i, Job(pn.transientId, EntryOf(pn, now), from, true, Looking))),
       received := if from == Some(w.peerB) then s.received + {pn.transientId} else s.received)
  }

  function Offer(w: World, s: Sys, keys: seq<Tid>, order: seq<Tid>): (Entries, seq<Item>) {
    Select(DropLow(s.a.entries, keys, w.peerB, MinOf(s.rec)), order, w.peerB, s.rec, BATCH_BASE)
  }

  function NewlyMarked(es: Entries, after: Entries, p: PeerId): set<Tid> {
    set t | t in after && p in after[t].handled && !(t in es && p in es[t].handled)
  }

  function Missing(ids: seq<Tid>, es: Entries): seq<Tid> {
    if ids == [] then [] else (if ids[0] in es then [] else [ids[0]]) + Missing(ids[1..], es)
  }

  lemma {:induction false} MissingMembers(ids: seq<Tid>, es: Entries)
    ensures forall t :: t in Missing(ids, es) <==> t in ids && t !in es
  {
    if ids != [] { MissingMembers(ids[1..], es); }
  }

  /** offerRequestHandler after its access checks: the peering key, then the ids B does not have. */
  function Answering(w: World, s: Sys, items: seq<Item>): Sys {
    if s.rec.key.None? || !ValidatePeeringKey(w.c, w.idB + w.idA, s.rec.key.value, w.cfg.peeringCost) then
      s.(phase := Answered(items, Refused(Other)), keyRefused := true)
    else
      var wanted := Missing(Ids(items), s.b.entries);
      s.(phase := Answered(items,
           if wanted == [] then NoneWanted else if |wanted| == |items| then AllWanted else SomeWanted(wanted)),
         linkOk := true, held := s.held + set t | t in Ids(items) && t in s.b.entries)
  }

  function Those(ids: seq<Tid>, within: seq<Tid>, inside: bool): seq<Tid> {
    if ids == [] then []
    else (if ids[0] in within <==> inside then [ids[0]] else []) + Those(ids[1..], within, inside)
  }

  lemma {:induction false} ThoseMembers(ids: seq<Tid>, within: seq<Tid>, inside: bool)
    ensures forall t :: t in Those(ids, within, inside) <==> t in ids && (t in within <==> inside)
  {
    if ids != [] {
      ThoseMembers(ids[1..], within, inside);
      assert ids == [ids[0]] + ids[1..];
    }
  }

  /** The files of the wanted messages; a message that has gone is skipped. */
  function Payloads(es: Entries, keys: seq<Tid>): seq<seq<byte>> {
    if keys == [] then []
    else (if keys[0] in es then [es[keys[0]].lxm + es[keys[0]].stamp] else []) + Payloads(es, keys[1..])
  }

  /** The link is torn down. */
  function HangUp(s: Sys): Sys {
    s.(phase := Idle, linkOk := false)
  }

  /** The files are read and sent; their ids, those of files that had gone included, are to be marked after that. */
  function Transfer(s: Sys, es: Entries, keys: seq<Tid>, sendOk: bool): Sys {
    var batch := Payloads(es, keys);
    if batch == [] || !sendOk then HangUp(s.(a := s.a.(entries := es)))
    else
      s.(a := s.a.(entries := es), wire := s.wire + [Sent(batch, s.linkOk)], due := s.due + Elements(keys),
         sent := s.sent + (set t | t in keys && t in es), phase := Waiting)
  }

  function MarkedSent(w: World, s: Sys, keys: seq<Tid>): Sys {
    s.(a := s.a.(entries := MarkAll(s.a.entries, keys, w.peerB)), due := s.due - Elements(keys))
  }

  /** handleOfferResponse up to the end of the transfer: what B has is marked, what it wants is sent. */
  function Taking(w: World, s: Sys, items: seq<Item>, answer: Answer, sendOk: bool): Sys {
    var ids := Ids(items);
    match answer
    case NoneWanted => HangUp(s.(a := s.a.(entries := MarkAll(s.a.entries, ids, w.peerB))))
    case AllWanted => Transfer(s, s.a.entries, ids, sendOk)
    case SomeWanted(wanted) =>
      Transfer(s, MarkAll(s.a.entries, Those(ids, wanted, false), w.peerB), Those(ids, wanted, true), sendOk)
    case Refused(code) =>
      (match code
       case NoIdentity => s.(phase := Idle)
       case Throttled => s.(phase := Waiting)
       case NoAccess => s.(phase := Waiting, a := s.a.(peers := s.a.peers - {w.peerB}))
       case Other => HangUp(s))
  }

  /** B takes the valid messages of a transfer one by one; they come from A if A is its peer. */
  function TakeBatch(w: World, n: Node, valid: seq<PnEntry>, now: int, choices: seq<Choice>): Node
    requires |choices| >= |valid|
    decreases |valid|
  {
    if valid == [] then n
    else
      var from := if w.peerA in n.peers then Some(w.peerA) else None;
      var job := Job(valid[0].transientId, EntryOf(valid[0], now), from, choices[0].stored, Looking);
      TakeBatch(w, Ingested(n, job, choices[0].kept), valid[1..], now, choices[1..])
  }

  /** propagationResourceConcluded: several messages need a validated key, every message a valid stamp. */
  function Concluding(w: World, s: Sys, sent: Sent, now: int, choices: seq<Choice>): Sys
    requires |choices| >= |sent.batch|
  {
    if |sent.batch| > 1 && !sent.validated then s.(multiRefused := true)
    else
      var valid := Chunks.ValidEntries(w.c, sent.batch, MinCost(w.cfg.stampCost, w.cfg.stampFlex));
      ValidAtMost(w, sent.batch);
      s.(b := TakeBatch(w, s.b, valid, now, choices), throttled := s.throttled || |valid| < |sent.batch|)
  }

  function After(w: World, s: Sys, act: Act): Sys
    requires Allowed(w, s, act)
  {
    match act
    case Local(step) =>
      var a := Apply(s.a, step);
      if step.Restart? then HangUp(s.(a := a, due := {})) else s.(a := a)
    case Receive(i, data, from, now) =>
      (match ValidatePnStamp(w.c, data, w.minCostA)
       case None => s
       case Some(pn) => ReceiveAt(w, s, i, pn, from, now))
    case Announce(r) => s.(rec := r)
    case MakeKey(key) => s.(rec := s.rec.(key := Some(key), keyValue := StampValue(w.c, PeeringWork(w), key)))
    case SendOffer(keys, order) =>
      var (es, items) := Offer(w, s, keys, order);
      s.(a := s.a.(entries := es), phase := if items == [] then Idle else Offered(items),
         big := s.big + NewlyMarked(s.a.entries, es, w.peerB))
    case AnswerOffer(refusal) =>
      if refusal.Some? then s.(phase := Answered(s.phase.items, Refused(refusal.value)))
      else Answering(w, s, s.phase.items)
    case TakeAnswer(sendOk) => Taking(w, s, s.phase.items, s.phase.answer, sendOk)
    case MarkSent(keys) => MarkedSent(w, s, keys)
    case Conclude(i, now, choices) => Concluding(w, s, s.wire[i], now, choices)
    case ChangeB(b) => s.(b := b)
    case LinkDown => HangUp(s)
  }

  lemma {:induction false} ValidAtMost(w: World, batch: seq<seq<byte>>)
    ensures |Chunks.ValidEntries(w.c, batch, MinCost(w.cfg.stampCost, w.cfg.stampFlex))| <= |batch|
  {
    if batch != [] { ValidAtMost(w, batch[..|batch| - 1]); }
  }

  // ----- runs --------------------------------------------------------------------

  /** A run: each action is enabled where it happens. */
  ghost predicate IsRun(w: World, states: seq<Sys>, acts: seq<Act>) {
    && |states| == |acts| + 1
    && forall i :: 0 <= i < |acts| ==> Allowed(w, states[i], acts[i]) && states[i + 1] == After(w, states[i], acts[i])
  }

  lemma Extend(w: World, states: seq<Sys>, acts: seq<Act>, act: Act)
    requires IsRun(w, states, acts) && Allowed(w, states[|acts|], act)
    ensures IsRun(w, states + [After(w, states[|acts|], act)], acts + [act])
  {
  }

  /** The exchange is over with at most one transfer more; the record, B and all refusals are as before. */
  ghost predicate Ended(s: Sys, s': Sys) {
    && s'.rec == s.rec && s'.b == s.b && !s'.phase.Offered? && !s'.phase.Answered?
    && s'.keyRefused == s.keyRefused && s'.throttled == s.throttled && s'.multiRefused == s.multiRefused
    && (s'.wire == s.wire || (s'.wire != [] && s'.wire[..|s'.wire| - 1] == s.wire
                              && s'.wire[|s'.wire| - 1].validated == s.linkOk))
  }

  lemma TransferEnds(s: Sys, es: Entries, keys: seq<Tid>, sendOk: bool)
    ensures Ended(s, Transfer(s, es, keys, sendOk))
  {
  }

  lemma TakingEnds(w: World, s: Sys, items: seq<Item>, answer: Answer, sendOk: bool)
    ensures Ended(s, Taking(w, s, items, answer, sendOk))
  {
    var es, ids := s.a.entries, Ids(items);
    if answer.AllWanted? {
      TransferEnds(s, es, ids, sendOk);
    } else if answer.SomeWanted? {
      TransferEnds(s, MarkAll(es, Those(ids, answer.ids, false), w.peerB), Those(ids, answer.ids, true), sendOk);
    }
  }

  /** An answer changes the exchange and the history about it, and nothing else. */
  lemma AnswerEffect(w: World, s: Sys, act: Act)
    requires Allowed(w, s, act) && act.AnswerOffer?
    ensures var s' := After(w, s, act);
            && s'.phase.Answered? && s'.phase.items == s.phase.items
            && s' == s.(phase := s'.phase, linkOk := s'.linkOk, held := s'.held, keyRefused := s'.keyRefused)
  {
  }

  /** Only announcements and new keys change A's record of B. */
  lemma RecordOf(w: World, s: Sys, act: Act)
    requires Allowed(w, s, act)
    ensures After(w, s, act).rec ==
            if act.Announce? then act.r
            else if act.MakeKey? then s.rec.(key := Some(act.key), keyValue := StampValue(w.c, PeeringWork(w), act.key))
            else s.rec
  {
    if act.TakeAnswer? { TakingEnds(w, s, s.phase.items, s.phase.answer, act.sendOk); }
  }

  // ----- what steps change ----------------------------------------------------------

  /** A step moves jobs or begins one; it does not change what a job is about. */
  ghost predicate SameJobs(n: Node, m: Node, begun: Option<Job>) {
    forall i :: i in m.jobs ==> (i in n.jobs && m.jobs[i] == n.jobs[i].(pc := m.jobs[i].pc)) || begun == Some(m.jobs[i])
  }

  lemma StepJobs(n: Node, step: Step)
    requires Enabled(n, step)
    ensures SameJobs(n, Apply(n, step), if step.Begin? then Some(step.job) else None)
  {
  }

  /** Every entry of m has its bytes from n, or is the one added. */
  ghost predicate SameBytes(n: Node, m: Node, added: Option<Job>) {
    forall t :: t in m.entries ==>
      || (t in n.entries &&
          m.entries[t] == n.entries[t].(handled := m.entries[t].handled, unhandled := m.entries[t].unhandled))
      || (added.Some? && t == added.value.t && t !in n.entries &&
          m.entries[t] == added.value.e.(handled := [], unhandled := []))
  }

  ghost function Adding(n: Node, step: Step): Option<Job>
    requires Enabled(n, step)
  {
    if step.Add? then Some(n.jobs[step.i]) else None
  }

  lemma StepBytes(n: Node, step: Step)
    requires Inv(n) && Enabled(n, step)
    ensures SameBytes(n, Apply(n, step), Adding(n, step))
  {
  }

  lemma {:induction false} MarkAllKeeps(es: Entries, ts: seq<Tid>, p: PeerId)
    requires AllListsOk(es)
    ensures AllListsOk(MarkAll(es, ts, p)) && SameMessages(es, MarkAll(es, ts, p))
    ensures forall t, q :: t in es && q in MarkAll(es, ts, p)[t].handled ==> q in es[t].handled || (q == p && t in ts)
    decreases |ts|
  {
    if ts != [] {
      MarkHandledUpdate(es, ts[0], p);
      MarkAllKeeps(MarkHandled(es, ts[0], p), ts[1..], p);
    }
  }

  /** An exchange changes neither which messages A has nor anything but its lists, its peers and the ids to mark. */
  ghost predicate ListsOnly(s: Sys, s': Sys) {
    && s'.a == s.a.(entries := s'.a.entries, peers := s'.a.peers)
    && SameMessages(s.a.entries, s'.a.entries) && Inv(s'.a)
    && !s'.phase.Offered? && !s'.phase.Answered?
  }

  lemma TransferLists(s: Sys, es: Entries, keys: seq<Tid>, sendOk: bool)
    requires AllListsOk(es) && SameMessages(s.a.entries, es)
    ensures ListsOnly(s, Transfer(s, es, keys, sendOk))
  {
  }

  lemma RefusalLists(w: World, s: Sys, items: seq<Item>, code: Code, sendOk: bool)
    requires Inv(s.a)
    ensures ListsOnly(s, Taking(w, s, items, Refused(code), sendOk))
  {
  }

  lemma TakeLists(w: World, s: Sys, items: seq<Item>, answer: Answer, sendOk: bool)
    requires Inv(s.a)
    ensures ListsOnly(s, Taking(w, s, items, answer, sendOk))
  {
    var es, ids := s.a.entries, Ids(items);
    match answer
    case NoneWanted => MarkAllKeeps(es, ids, w.peerB);
    case AllWanted => TransferLists(s, es, ids, sendOk);
    case SomeWanted(wanted) =>
      MarkAllKeeps(es, Those(ids, wanted, false), w.peerB);
      TransferLists(s, MarkAll(es, Those(ids, wanted, false), w.peerB), Those(ids, wanted, true), sendOk);
    case Refused(code) => RefusalLists(w, s, items, code, sendOk);
  }

  /** The steps of an exchange, and B's, change nothing of A's messages but the lists. */
  lemma ListsKept(w: World, s: Sys, act: Act)
    requires Inv(s.a) && Allowed(w, s, act) && !act.Local? && !act.Receive?
    ensures var a := After(w, s, act).a; Inv(a) && SameMessages(s.a.entries, a.entries) && a.jobs == s.a.jobs
  {
    if act.SendOffer? { OfferLists(w, s, act.keys, act.order); }
    else if act.TakeAnswer? { TakeLists(w, s, s.phase.items, s.phase.answer, act.sendOk); }
    else if act.MarkSent? { MarkAllKeeps(s.a.entries, act.keys, w.peerB); }
  }

  lemma NodeListsKept(w: World, s: Sys, act: Act)
    requires Inv(s.a) && Allowed(w, s, act)
    ensures Inv(After(w, s, act).a)
  {
    if act.Local? { StepKeepsInv(s.a, act.s); } else if !act.Receive? { ListsKept(w, s, act); }
  }

  lemma OfferLists(w: World, s: Sys, keys: seq<Tid>, order: seq<Tid>)
    requires Inv(s.a)
    ensures var es := Offer(w, s, keys, order).0; AllListsOk(es) && SameMessages(s.a.entries, es)
  {
    var es1 := DropLow(s.a.entries, keys, w.peerB, MinOf(s.rec));
    DropLowKeeps(s.a.entries, keys, w.peerB, MinOf(s.rec));
    SelectMarks(es1, order, w.peerB, s.rec, BATCH_BASE);
  }

  // ----- what may still be sent ---------------------------------------------------------

  function WantedOf(items: seq<Item>, answer: Answer): seq<Tid> {
    match answer
    case AllWanted => Ids(items)
    case SomeWanted(wanted) => Those(Ids(items), wanted, true)
    case _ => []
  }

  /** The ids that the exchange under way may still send. */
  function OnOffer(phase: Phase): seq<Tid> {
    match phase
    case Offered(items) => Ids(items)
    case Answered(items, answer) => WantedOf(items, answer)
    case _ => []
  }

  /** An ingest stores a message, not stored before, while it may be sent or has yet to be marked. */
  predicate StoresAgain(s: Sys, act: Act) {
    act.Local? && act.s.Add? && act.s.i in s.a.jobs &&
    var t := s.a.jobs[act.s.i].t;
    t !in s.a.entries && t in act.s.kept && (t in OnOffer(s.phase) || t in s.due)
  }

  // ----- an exchange without interruption -------------------------------------------------

  /** handleOfferResponse in one go. */
  function Exchanged(w: World, s: Sys, items: seq<Item>, answer: Answer, sendOk: bool): Sys {
    var s' := Taking(w, s, items, answer, sendOk);
    if |s'.wire| == |s.wire| then s' else HangUp(MarkedSent(w, s', WantedOf(items, answer)))
  }

  /** It is the answer taken, the marks of what was sent, and the link torn down, in a row. */
  lemma ExchangeIsSteps(w: World, s: Sys, sendOk: bool) returns (states: seq<Sys>)
    requires s.phase.Answered?
    ensures var items, answer := s.phase.items, s.phase.answer;
            var acts := if |Taking(w, s, items, answer, sendOk).wire| == |s.wire| then [TakeAnswer(sendOk)]
                        else [TakeAnswer(sendOk), MarkSent(WantedOf(items, answer)), LinkDown];
            IsRun(w, states, acts) && states[0] == s && states[|acts|] == Exchanged(w, s, items, answer, sendOk)
  {
    var s1, keys := After(w, s, TakeAnswer(sendOk)), WantedOf(s.phase.items, s.phase.answer);
    if |s1.wire| == |s.wire| { return [s, s1]; }
    SentIsDue(w, s, s.phase.items, s.phase.answer, sendOk);
    var s2 := MarkedSent(w, s1, keys);
    states := [s, s1, s2, HangUp(s2)];
    var acts := [TakeAnswer(sendOk), MarkSent(keys), LinkDown];
    forall i | 0 <= i < 3 ensures Allowed(w, states[i], acts[i]) && states[i + 1] == After(w, states[i], acts[i]) {
      if i == 0 { } else if i == 1 { } else { }
    }
  }

  lemma SentIsDue(w: World, s: Sys, items: seq<Item>, answer: Answer, sendOk: bool)
    requires |Taking(w, s, items, answer, sendOk).wire| != |s.wire|
    ensures Elements(WantedOf(items, answer)) <= Taking(w, s, items, answer, sendOk).due
  {
  }
}
