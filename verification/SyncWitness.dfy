/**
 Two runs of an exchange in which an id expires while its message is under offer (pkg/lxmf/router_peer.go,
 router_propagation.go, router_persist.go): one gets A throttled, the other marks a message that was never sent.
 */
module SyncWitness {
  import opened Bytes
  import opened StampScore
  import opened MessageStore
  import opened PropagationNode
  import opened PeerSync
  import opened SyncProtocol
  import opened SyncMarks
  import opened SyncStamps

  // ----- runs by their actions ------------------------------------------------------------

  ghost predicate Leads(w: World, s: Sys, acts: seq<Act>, s': Sys) {
    exists states: seq<Sys> :: IsRun(w, states, acts) && states[0] == s && states[|acts|] == s'
  }

  lemma LeadsOne(w: World, s: Sys, act: Act)
    requires Allowed(w, s, act)
    ensures Leads(w, s, [act], After(w, s, act))
  {
    var states := [s, After(w, s, act)];
    assert IsRun(w, states, [act]);
  }

  lemma LeadsNext(w: World, s: Sys, acts: seq<Act>, s1: Sys, act: Act)
    requires Leads(w, s, acts, s1) && Allowed(w, s1, act)
    ensures Leads(w, s, acts + [act], After(w, s1, act))
  {
    var states: seq<Sys> :| IsRun(w, states, acts) && states[0] == s && states[|acts|] == s1;
    Extend(w, states, acts, act);
    var states', acts' := states + [After(w, s1, act)], acts + [act];
    assert states'[0] == s && states'[|acts'|] == After(w, s1, act);
  }

  // ----- the offer, the loss and the new copy ------------------------------------------------

  /** A fitting start: the offer lists t, and `data` is another copy of t that A accepts. */
  ghost predicate Chance(w: World, s: Sys, keys: seq<Tid>, order: seq<Tid>, t: Tid, i: nat, data: seq<byte>) {
    && RecordOk(w, s.rec) && Inv(s.a) && Allowed(w, s, SendOffer(keys, order)) && i !in s.a.jobs
    && t in Ids(Offer(w, s, keys, order).1)
    && ValidatePnStamp(w.c, data, w.minCostA).Some? && ValidatePnStamp(w.c, data, w.minCostA).value.transientId == t
  }

  function CopyOf(w: World, data: seq<byte>, now: int): Job
    requires ValidatePnStamp(w.c, data, w.minCostA).Some?
  {
    var pn := ValidatePnStamp(w.c, data, w.minCostA).value;
    Job(pn.transientId, EntryOf(pn, now), None, true, Looking)
  }

  /** A offers t, the message is evicted, its id expires, and another copy of it arrives and is claimed. */
  function Lead(s: Sys, keys: seq<Tid>, order: seq<Tid>, t: Tid, i: nat, data: seq<byte>, now: int): seq<Act> {
    [SendOffer(keys, order)] + [Local(Discard(s.a.entries.Keys - {t}))] + [Local(Expire(t))] +
    [Receive(i, data, None, now)] + [Local(LookUp(i))] + [Local(Claim(i))]
  }

  function Offering(w: World, s: Sys, keys: seq<Tid>, order: seq<Tid>): Sys {
    var (es, items) := Offer(w, s, keys, order);
    s.(a := s.a.(entries := es), phase := Offered(items), big := s.big + NewlyMarked(s.a.entries, es, w.peerB))
  }

  function Lost(s: Sys, kept: set<Tid>, t: Tid): Sys {
    s.(a := s.a.(entries := Restrict(s.a.entries, kept), processed := s.a.processed - {t}))
  }

  function AtJob(s: Sys, i: nat, job: Job): Sys {
    s.(a := s.a.(jobs := s.a.jobs[i := job]))
  }

  /** The state that this leads to. */
  function Claiming(w: World, s: Sys, keys: seq<Tid>, order: seq<Tid>, t: Tid, i: nat, job: Job): Sys {
    var s3 := Lost(Offering(w, s, keys, order), s.a.entries.Keys - {t}, t);
    s3.(a := s3.a.(jobs := s3.a.jobs[i := job.(pc := Claimed)], processed := s3.a.processed + {t}))
  }

  lemma OfferStep(w: World, s: Sys, keys: seq<Tid>, order: seq<Tid>, t: Tid)
    requires Allowed(w, s, SendOffer(keys, order)) && t in Ids(Offer(w, s, keys, order).1)
    ensures After(w, s, SendOffer(keys, order)) == Offering(w, s, keys, order)
  {
  }

  lemma LoseSteps(w: World, s: Sys, kept: set<Tid>, t: Tid)
    ensures var s1 := After(w, s, Local(Discard(kept))); After(w, s1, Local(Expire(t))) == Lost(s, kept, t)
  {
  }

  lemma ArriveStep(w: World, s: Sys, i: nat, data: seq<byte>, now: int)
    requires i !in s.a.jobs && ValidatePnStamp(w.c, data, w.minCostA).Some?
    ensures Allowed(w, s, Receive(i, data, None, now))
    ensures After(w, s, Receive(i, data, None, now)) == AtJob(s, i, CopyOf(w, data, now))
  {
  }

  lemma ClaimSteps(w: World, s: Sys, i: nat, job: Job)
    requires job.pc == Looking && job.t !in s.a.entries && job.t !in s.a.processed
    ensures var s1 := AtJob(s, i, job);
            && Allowed(w, s1, Local(LookUp(i)))
            && After(w, s1, Local(LookUp(i))) == AtJob(s, i, job.(pc := Gate))
            && Allowed(w, AtJob(s, i, job.(pc := Gate)), Local(Claim(i)))
            && After(w, AtJob(s, i, job.(pc := Gate)), Local(Claim(i))) ==
               s.(a := s.a.(jobs := s.a.jobs[i := job.(pc := Claimed)], processed := s.a.processed + {job.t}))
  {
    var s1, s2 := AtJob(s, i, job), AtJob(s, i, job.(pc := Gate));
    assert s1.a.jobs[i := job.(pc := Gate)] == s2.a.jobs;
    assert s2.a.jobs[i := job.(pc := Claimed)] == s.a.jobs[i := job.(pc := Claimed)];
  }

  lemma LeadRun(w: World, s: Sys, keys: seq<Tid>, order: seq<Tid>, t: Tid, i: nat, data: seq<byte>, now: int)
    requires Chance(w, s, keys, order, t, i, data)
    ensures Leads(w, s, Lead(s, keys, order, t, i, data, now), Claiming(w, s, keys, order, t, i, CopyOf(w, data, now)))
  {
    var kept, job := s.a.entries.Keys - {t}, CopyOf(w, data, now);
    var s1 := Offering(w, s, keys, order);
    LeadsOne(w, s, SendOffer(keys, order));
    OfferStep(w, s, keys, order, t);
    LeadsNext(w, s, [SendOffer(keys, order)], s1, Local(Discard(kept)));
    var s2 := After(w, s1, Local(Discard(kept)));
    var acts2 := [SendOffer(keys, order)] + [Local(Discard(kept))];
    LeadsNext(w, s, acts2, s2, Local(Expire(t)));
    LoseSteps(w, s1, kept, t);
    var s3 := Lost(s1, kept, t);
    ArriveStep(w, s3, i, data, now);
    LeadsNext(w, s, acts2 + [Local(Expire(t))], s3, Receive(i, data, None, now));
    ClaimSteps(w, s3, i, job);
    var acts4 := acts2 + [Local(Expire(t))] + [Receive(i, data, None, now)];
    LeadsNext(w, s, acts4, AtJob(s3, i, job), Local(LookUp(i)));
    LeadsNext(w, s, acts4 + [Local(LookUp(i))], AtJob(s3, i, job.(pc := Gate)), Local(Claim(i)));
  }

  // ----- the ways it ends -------------------------------------------------------------------------

  /** B has lost its store, so it asks for everything. */
  function Emptied(n: Node): Node {
    n.(entries := map[])
  }

  function Asked(s: Sys): Sys
    requires s.phase.Offered?
  {
    s.(b := Emptied(s.b), phase := Answered(s.phase.items, AllWanted), linkOk := true)
  }

  lemma AskSteps(w: World, s: Sys)
    requires RecordOk(w, s.rec) && KeyReady(s.rec) && s.phase.Offered? && s.phase.items != []
    ensures var s1 := After(w, s, ChangeB(Emptied(s.b)));
            s1.phase.Offered? && After(w, s1, AnswerOffer(None)) == Asked(s)
  {
    KeyAccepted(w, s.rec);
    AllMissing(Ids(s.phase.items));
    var none: set<Tid> := set u | u in Ids(s.phase.items) && u in Emptied(s.b).entries;
    assert none == {} && s.held + none == s.held;
  }

  function Storing(s: Sys, i: nat, job: Job, kept: set<Tid>): Sys {
    s.(a := s.a.(jobs := s.a.jobs[i := job.(pc := Marking)],
                 entries := Stored(s.a.entries, job.t, job.e, kept)))
  }

  lemma AddStep(w: World, s: Sys, i: nat, job: Job, kept: set<Tid>)
    requires i in s.a.jobs && s.a.jobs[i] == job.(pc := Claimed) && job.storable && job.t !in s.a.entries
    requires job.t in kept
    ensures Allowed(w, s, Local(Add(i, kept))) && After(w, s, Local(Add(i, kept))) == Storing(s, i, job, kept)
    ensures job.t in Storing(s, i, job, kept).a.entries
    ensures Storing(s, i, job, kept).a.entries[job.t] == job.e.(handled := [], unhandled := [])
  {
  }

  lemma {:induction false} PayloadsShort(es: Entries, keys: seq<Tid>)
    ensures |Payloads(es, keys)| <= |keys|
  {
    if keys != [] { PayloadsShort(es, keys[1..]); }
  }

  /** Sending a copy that B does not accept. */
  lemma SendSteps(w: World, s: Sys, t: Tid, now: int, choices: seq<Choice>)
    requires s.phase.Answered? && s.phase.answer.AllWanted? && s.linkOk && |choices| >= |s.phase.items|
    requires t in Ids(s.phase.items) && t in s.a.entries && !Accepts(w, s.a.entries[t])
    ensures var s1 := After(w, s, TakeAnswer(true));
            Allowed(w, s1, Conclude(|s.wire|, now, choices)) && After(w, s1, Conclude(|s.wire|, now, choices)).throttled
  {
    var es, ids := s.a.entries, Ids(s.phase.items);
    PayloadsHold(es, ids, t);
    PayloadsShort(es, ids);
    var j :| 0 <= j < |Payloads(es, ids)| && Payloads(es, ids)[j] == es[t].lxm + es[t].stamp;
    SomeInvalid(w, Payloads(es, ids), j);
  }

  lemma ChanceStored(w: World, s: Sys, keys: seq<Tid>, order: seq<Tid>, t: Tid)
    requires Inv(s.a) && Allowed(w, s, SendOffer(keys, order)) && t in Ids(Offer(w, s, keys, order).1)
    ensures t in s.a.entries && Offer(w, s, keys, order).0.Keys == s.a.entries.Keys
  {
    var es1 := DropLow(s.a.entries, keys, w.peerB, MinOf(s.rec));
    OfferLists(w, s, keys, order);
    DropLowKeeps(s.a.entries, keys, w.peerB, MinOf(s.rec));
    SelectOffers(es1, order, w.peerB, s.rec, BATCH_BASE);
  }

  lemma ThrottlingTail(w: World, s: Sys, acts: seq<Act>, s2: Sys, t: Tid, now: int,
                       choices: seq<Choice>) returns (s': Sys)
    requires Leads(w, s, acts, s2) && RecordOk(w, s2.rec) && KeyReady(s2.rec) && s2.phase.Offered?
    requires |choices| >= |s2.phase.items| && t in Ids(s2.phase.items) && t in s2.a.entries
    requires !Accepts(w, s2.a.entries[t])
    ensures Leads(w, s, acts + [ChangeB(Emptied(s2.b))] + [AnswerOffer(None)] + [TakeAnswer(true)]
                        + [Conclude(|s2.wire|, now, choices)], s')
    ensures s'.throttled
  {
    AskSteps(w, s2);
    LeadsNext(w, s, acts, s2, ChangeB(Emptied(s2.b)));
    var s3 := After(w, s2, ChangeB(Emptied(s2.b)));
    LeadsNext(w, s, acts + [ChangeB(Emptied(s2.b))], s3, AnswerOffer(None));
    SendSteps(w, Asked(s2), t, now, choices);
    var acts4 := acts + [ChangeB(Emptied(s2.b))] + [AnswerOffer(None)];
    LeadsNext(w, s, acts4, Asked(s2), TakeAnswer(true));
    var s5 := After(w, Asked(s2), TakeAnswer(true));
    LeadsNext(w, s, acts4 + [TakeAnswer(true)], s5, Conclude(|s2.wire|, now, choices));
    s' := After(w, s5, Conclude(|s2.wire|, now, choices));
  }

  /** What stands and what has changed when the new copy is claimed. */
  lemma ClaimingFacts(w: World, s: Sys, keys: seq<Tid>, order: seq<Tid>, t: Tid, i: nat, job: Job)
    requires Inv(s.a) && Allowed(w, s, SendOffer(keys, order)) && t in Ids(Offer(w, s, keys, order).1)
    ensures var s1 := Claiming(w, s, keys, order, t, i, job);
            && s1.rec == s.rec && s1.phase == Offered(Offer(w, s, keys, order).1) && s1.wire == s.wire && s1.b == s.b
            && i in s1.a.jobs && s1.a.jobs[i] == job.(pc := Claimed)
            && s1.a.entries.Keys == s.a.entries.Keys - {t} && t in s.a.entries
  {
    ChanceStored(w, s, keys, order, t);
  }

  /** The new copy is stored. */
  lemma StoredRun(w: World, s: Sys, keys: seq<Tid>, order: seq<Tid>, t: Tid, i: nat, data: seq<byte>, now: int)
    returns (s2: Sys)
    requires Chance(w, s, keys, order, t, i, data)
    ensures Leads(w, s, Lead(s, keys, order, t, i, data, now) + [Local(Add(i, s.a.entries.Keys))], s2)
    ensures s2.rec == s.rec && s2.phase == Offered(Offer(w, s, keys, order).1) && s2.wire == s.wire && s2.b == s.b
    ensures t in s2.a.entries && s2.a.entries[t].lxm + s2.a.entries[t].stamp == data
  {
    var job, kept := CopyOf(w, data, now), s.a.entries.Keys;
    var s1 := Claiming(w, s, keys, order, t, i, job);
    LeadRun(w, s, keys, order, t, i, data, now);
    ClaimingFacts(w, s, keys, order, t, i, job);
    AddStep(w, s1, i, job, kept);
    LeadsNext(w, s, Lead(s, keys, order, t, i, data, now), s1, Local(Add(i, kept)));
    s2 := Storing(s1, i, job, kept);
  }

  /** After that, B asks for everything, A sends it, and B checks it. */
  function ThrottlingActs(s: Sys, keys: seq<Tid>, order: seq<Tid>, t: Tid, i: nat, data: seq<byte>, now: int,
                          choices: seq<Choice>): seq<Act> {
    Lead(s, keys, order, t, i, data, now) + [Local(Add(i, s.a.entries.Keys))] + [ChangeB(Emptied(s.b))] +
    [AnswerOffer(None)] + [TakeAnswer(true)] + [Conclude(|s.wire|, now, choices)]
  }

  /**
   From every start and every offer: the message is evicted, its id expires, a copy with a stamp that is good enough
   for A and not for B is stored, and B throttles A.
   */
  lemma WorseCopyIsThrottled(w: World, s: Sys, keys: seq<Tid>, order: seq<Tid>, t: Tid, i: nat, data: seq<byte>,
                             now: int, choices: seq<Choice>) returns (s': Sys)
    requires Start(w, s) && Chance(w, s, keys, order, t, i, data) && ValidatePnStamp(w.c, data, MinB(w)).None?
    requires |choices| >= |Offer(w, s, keys, order).1|
    ensures Leads(w, s, ThrottlingActs(s, keys, order, t, i, data, now, choices), s') && s'.throttled
  {
    var s2 := StoredRun(w, s, keys, order, t, i, data, now);
    var acts := Lead(s, keys, order, t, i, data, now) + [Local(Add(i, s.a.entries.Keys))];
    s' := ThrottlingTail(w, s, acts, s2, t, now, choices);
  }

  // ----- a mark for what was never sent --------------------------------------------------------------

  /** B asks for everything, A sends the rest, the new copy is stored, and A marks what it was asked for. */
  function MarkingActs(s: Sys, keys: seq<Tid>, order: seq<Tid>, t: Tid, i: nat, data: seq<byte>, now: int): seq<Act> {
    Lead(s, keys, order, t, i, data, now) + [ChangeB(Emptied(s.b))] + [AnswerOffer(None)] + [TakeAnswer(true)] +
    [Local(Add(i, s.a.entries.Keys))] + [MarkSent([t])]
  }

  /** Offering t gives no reason to mark it. */
  lemma OfferIsNoReason(w: World, s: Sys, keys: seq<Tid>, order: seq<Tid>, t: Tid)
    requires Unmarked(w, s) && Allowed(w, s, SendOffer(keys, order)) && t in Ids(Offer(w, s, keys, order).1)
    requires !Justified(s, t)
    ensures !Justified(Offering(w, s, keys, order), t)
  {
    var es1 := DropLow(s.a.entries, keys, w.peerB, MinOf(s.rec));
    var (es, items) := Offer(w, s, keys, order);
    DropLowKeeps(s.a.entries, keys, w.peerB, MinOf(s.rec));
    SelectMarks(es1, order, w.peerB, s.rec, BATCH_BASE);
    SelectOffers(es1, order, w.peerB, s.rec, BATCH_BASE);
    var k :| 0 <= k < |items| && Ids(items)[k] == t;
    SelectSmall(es1, order, w.peerB, s.rec, BATCH_BASE, k);
    assert items[k].size == es1[t].Size() && w.peerB !in es[t].handled;
  }

  /** A sends what it has of the offer; t, which it has not, is to be marked as well. */
  lemma PartialSend(w: World, s: Sys, t: Tid, u: Tid)
    requires s.phase.Answered? && s.phase.answer.AllWanted? && t in Ids(s.phase.items) && u in Ids(s.phase.items)
    requires t !in s.a.entries && u in s.a.entries && !Justified(s, t)
    ensures var s1 := After(w, s, TakeAnswer(true)); t in s1.due && s1.a == s.a && !Justified(s1, t)
  {
    PayloadsHold(s.a.entries, Ids(s.phase.items), u);
  }

  lemma MarkStep(w: World, s: Sys, t: Tid)
    requires t in s.due && t in s.a.entries && !Justified(s, t)
    ensures Allowed(w, s, MarkSent([t])) && WronglyMarked(w, After(w, s, MarkSent([t])), t)
  {
    var keys: seq<Tid> := [t];
    assert Elements(keys) == {t} && keys[1..] == [];
    assert MarkAll(s.a.entries, keys, w.peerB) == MarkAll(MarkHandled(s.a.entries, t, w.peerB), keys[1..], w.peerB);
  }

  /**
   From every start in which nothing is known about t: t is offered with another message, evicted, its id expires, B
   asks for both, A sends only the other, a new copy of t is stored, and A marks t as handled.
   */
  lemma UnsentMarkIsReachable(w: World, s: Sys, keys: seq<Tid>, order: seq<Tid>, t: Tid, u: Tid, i: nat,
                              data: seq<byte>, now: int) returns (s': Sys)
    requires Unmarked(w, s) && Chance(w, s, keys, order, t, i, data) && !Justified(s, t)
    requires u in Ids(Offer(w, s, keys, order).1) && u != t
    ensures Leads(w, s, MarkingActs(s, keys, order, t, i, data, now), s') && WronglyMarked(w, s', t)
  {
    var lead, job := Lead(s, keys, order, t, i, data, now), CopyOf(w, data, now);
    var s1 := Claiming(w, s, keys, order, t, i, job);
    LeadRun(w, s, keys, order, t, i, data, now);
    ClaimingFacts(w, s, keys, order, t, i, job);
    ChanceStored(w, s, keys, order, u);
    OfferIsNoReason(w, s, keys, order, t);
    s' := MarkingTail(w, s, lead, s1, t, u, i, job);
  }

  lemma MarkingTail(w: World, s: Sys, lead: seq<Act>, s1: Sys, t: Tid, u: Tid, i: nat, job: Job) returns (s': Sys)
    requires Leads(w, s, lead, s1) && RecordOk(w, s1.rec) && KeyReady(s1.rec) && s1.phase.Offered? && s1.b == s.b
    requires t in Ids(s1.phase.items) && u in Ids(s1.phase.items) && !Justified(s1, t) && t in s.a.entries
    requires t !in s1.a.entries && u in s1.a.entries
    requires i in s1.a.jobs && s1.a.jobs[i] == job.(pc := Claimed) && job.t == t && job.storable
    ensures Leads(w, s, lead + [ChangeB(Emptied(s.b))] + [AnswerOffer(None)] + [TakeAnswer(true)]
                        + [Local(Add(i, s.a.entries.Keys))] + [MarkSent([t])], s')
    ensures WronglyMarked(w, s', t)
  {
    AskSteps(w, s1);
    LeadsNext(w, s, lead, s1, ChangeB(Emptied(s.b)));
    LeadsNext(w, s, lead + [ChangeB(Emptied(s.b))], After(w, s1, ChangeB(Emptied(s.b))), AnswerOffer(None));
    var acts := lead + [ChangeB(Emptied(s.b))] + [AnswerOffer(None)];
    LeadsNext(w, s, acts, Asked(s1), TakeAnswer(true));
    PartialSend(w, Asked(s1), t, u);
    var s4, kept := After(w, Asked(s1), TakeAnswer(true)), s.a.entries.Keys;
    AddStep(w, s4, i, job, kept);
    LeadsNext(w, s, acts + [TakeAnswer(true)], s4, Local(Add(i, kept)));
    var s5 := Storing(s4, i, job, kept);
    MarkStep(w, s5, t);
    LeadsNext(w, s, acts + [TakeAnswer(true)] + [Local(Add(i, kept))], s5, MarkSent([t]));
    s' := After(w, s5, MarkSent([t]));
  }
}
