/**
 What B checks of A (pkg/lxmf/router_propagation.go) when A's record of B is B's configuration: the peering key and
 the validated link always pass, and B throttles A for a stamp exactly when a step has stored a copy that B asked or
 may ask for and does not accept.
 */
module SyncStamps {
  import opened Bytes
  import opened StampScore
  import opened MessageStore
  import opened PropagationNode
  import opened PeerSync
  import opened SyncProtocol
  import Chunks

  /** B's announcements tell its configuration. */
  predicate Truthful(w: World, act: Act) {
    act.Announce? ==> Agrees(act.r, w.cfg)
  }

  // ----- the peering key ------------------------------------------------------------------

  ghost predicate KeyOk(w: World, r: Record) {
    r.key.Some? ==> |r.key.value| == STAMP_SIZE && r.keyValue == StampValue(w.c, PeeringWork(w), r.key.value)
  }

  ghost predicate RecordOk(w: World, r: Record) {
    Agrees(r, w.cfg) && w.idB != [] && KeyOk(w, r)
  }

  ghost predicate LinkOk(s: Sys) {
    && (s.phase.Offered? ==> KeyReady(s.rec))
    && (s.phase.Answered? && !s.phase.answer.Refused? ==> s.linkOk)
    && (forall i :: 0 <= i < |s.wire| ==> s.wire[i].validated)
    && !s.keyRefused && !s.multiRefused
  }

  /** A key whose score reaches the recorded cost passes B's threshold check on the same material. */
  lemma KeyAccepted(w: World, r: Record)
    requires RecordOk(w, r) && KeyReady(r)
    ensures ValidatePeeringKey(w.c, w.idB + w.idA, r.key.value, w.cfg.peeringCost)
  {
    ScorePassesThreshold(w.c, r.key.value, w.cfg.peeringCost, PeeringWork(w));
  }

  lemma RecordKept(w: World, s: Sys, act: Act)
    requires RecordOk(w, s.rec) && Allowed(w, s, act) && Truthful(w, act)
    ensures RecordOk(w, After(w, s, act).rec)
  {
    RecordOf(w, s, act);
  }

  lemma AnswerLink(w: World, s: Sys, act: Act)
    requires RecordOk(w, s.rec) && LinkOk(s) && Allowed(w, s, act) && act.AnswerOffer?
    ensures LinkOk(After(w, s, act))
  {
    KeyAccepted(w, s.rec);
  }

  lemma TakeLink(w: World, s: Sys, act: Act)
    requires LinkOk(s) && Allowed(w, s, act) && act.TakeAnswer?
    ensures LinkOk(After(w, s, act))
  {
    TakingEnds(w, s, s.phase.items, s.phase.answer, act.sendOk);
    var s' := After(w, s, act);
    if s.phase.answer.Refused? || s.phase.answer.NoneWanted? {
      NothingSent(w, s, s.phase.items, s.phase.answer, act.sendOk);
    }
    forall i | 0 <= i < |s'.wire| ensures s'.wire[i].validated {
      if s'.wire != s.wire && i < |s.wire| { assert s'.wire[i] == s'.wire[..|s'.wire| - 1][i]; }
    }
  }

  /** Every step of either node keeps the key accepted and the link validated. */
  lemma LinkKept(w: World, s: Sys, act: Act)
    requires RecordOk(w, s.rec) && LinkOk(s) && Allowed(w, s, act) && Truthful(w, act)
    ensures LinkOk(After(w, s, act))
  {
    if act.AnswerOffer? { AnswerLink(w, s, act); } else if act.TakeAnswer? { TakeLink(w, s, act); }
  }

  /** The two nodes know each other; nothing is under way. */
  ghost predicate Acquainted(w: World, s: Sys) {
    RecordOk(w, s.rec) && s.phase.Idle? && s.wire == [] && !s.keyRefused && !s.multiRefused
  }

  lemma {:induction false} RunLink(w: World, states: seq<Sys>, acts: seq<Act>, i: nat)
    requires IsRun(w, states, acts) && Acquainted(w, states[0]) && i < |states|
    requires forall k :: 0 <= k < i ==> Truthful(w, acts[k])
    ensures RecordOk(w, states[i].rec) && LinkOk(states[i])
  {
    if i > 0 {
      RunLink(w, states, acts, i - 1);
      RecordKept(w, states[i - 1], acts[i - 1]);
      LinkKept(w, states[i - 1], acts[i - 1]);
    }
  }

  /** In every run B accepts A's peering key and never rejects a transfer for want of one. */
  lemma KeyNeverRefused(w: World, states: seq<Sys>, acts: seq<Act>, i: nat)
    requires IsRun(w, states, acts) && Acquainted(w, states[0]) && i < |states|
    requires forall k :: 0 <= k < i ==> Truthful(w, acts[k])
    ensures !states[i].keyRefused && !states[i].multiRefused
    ensures states[i].phase.Offered? ==>
              && states[i].rec.key.Some?
              && ValidatePeeringKey(w.c, w.idB + w.idA, states[i].rec.key.value, w.cfg.peeringCost)
  {
    RunLink(w, states, acts, i);
    if states[i].phase.Offered? { KeyAccepted(w, states[i].rec); }
  }

  // ----- stamps ------------------------------------------------------------------------------

  function MinB(w: World): int {
    MinCost(w.cfg.stampCost, w.cfg.stampFlex)
  }

  /** B's stamp check accepts the message. */
  predicate Accepts(w: World, e: Entry) {
    ValidatePnStamp(w.c, e.lxm + e.stamp, MinB(w)).Some?
  }

  /** The entry's id, stamp and score belong together, and it is long enough to be sent on. */
  ghost predicate Genuine(w: World, t: Tid, e: Entry) {
    && t == w.c.sha(e.lxm) && |e.stamp| == STAMP_SIZE && |e.lxm| > OVERHEAD
    && e.stampValue == StampValue(w.c, w.c.workblock(t, ROUNDS_PN), e.stamp)
  }

  ghost predicate AllGenuine(w: World, n: Node) {
    && (forall t :: t in n.entries ==> Genuine(w, t, n.entries[t]))
    && (forall i :: i in n.jobs && n.jobs[i].storable ==> Genuine(w, n.jobs[i].t, n.jobs[i].e))
  }

  /** A's store and ingests are genuine, and its record is B's configuration. */
  ghost predicate Sound(w: World, s: Sys) {
    Agrees(s.rec, w.cfg) && Inv(s.a) && AllGenuine(w, s.a)
  }

  lemma StepGenuine(w: World, n: Node, step: Step)
    requires Inv(n) && Enabled(n, step) && AllGenuine(w, n)
    requires step.Begin? && step.job.storable ==> Genuine(w, step.job.t, step.job.e)
    ensures AllGenuine(w, Apply(n, step))
  {
    StepBytes(n, step);
    StepJobs(n, step);
  }

  /** Other lists and the same bytes. */
  lemma SameGenuine(w: World, n: Node, m: Node)
    requires AllGenuine(w, n) && SameMessages(n.entries, m.entries) && m.jobs == n.jobs
    ensures AllGenuine(w, m)
  {
  }

  lemma ReceiveSound(w: World, s: Sys, act: Act)
    requires Sound(w, s) && Allowed(w, s, act) && act.Receive?
    ensures Sound(w, After(w, s, act))
  {
    var r := ValidatePnStamp(w.c, act.data, w.minCostA);
    if r.Some? {
      var step := Begin(act.i, Job(r.value.transientId, EntryOf(r.value, act.now), act.from, true, Looking));
      assert Genuine(w, step.job.t, step.job.e);
      StepGenuine(w, s.a, step);
    }
  }

  lemma LocalSound(w: World, s: Sys, step: Step)
    requires Sound(w, s) && Allowed(w, s, Local(step))
    ensures Sound(w, After(w, s, Local(step)))
  {
    StepKeepsInv(s.a, step);
    StepGenuine(w, s.a, step);
  }

  lemma SoundKept(w: World, s: Sys, act: Act)
    requires Sound(w, s) && Allowed(w, s, act) && Truthful(w, act)
    ensures Sound(w, After(w, s, act))
  {
    if act.Local? {
      LocalSound(w, s, act.s);
    } else if act.Receive? {
      ReceiveSound(w, s, act);
    } else {
      RecordOf(w, s, act);
      ListsKept(w, s, act);
      SameGenuine(w, s.a, After(w, s, act).a);
    }
  }

  lemma {:induction false} RunSound(w: World, states: seq<Sys>, acts: seq<Act>, i: nat)
    requires IsRun(w, states, acts) && Sound(w, states[0]) && i < |states|
    requires forall k :: 0 <= k < i ==> Truthful(w, acts[k])
    ensures Sound(w, states[i])
  {
    if i > 0 {
      RunSound(w, states, acts, i - 1);
      SoundKept(w, states[i - 1], acts[i - 1]);
    }
  }

  // ----- what is on offer and on the wire ------------------------------------------------------

  /** What may still be sent is acceptable, as long as it is stored. */
  ghost predicate OfferOk(w: World, n: Node, phase: Phase) {
    forall t :: t in OnOffer(phase) && t in n.entries ==> Accepts(w, n.entries[t])
  }

  ghost predicate BatchOk(w: World, batch: seq<seq<byte>>) {
    forall j :: 0 <= j < |batch| ==> ValidatePnStamp(w.c, batch[j], MinB(w)).Some?
  }

  ghost predicate StampInv(w: World, s: Sys) {
    OfferOk(w, s.a, s.phase) && !s.throttled && forall i :: 0 <= i < |s.wire| ==> BatchOk(w, s.wire[i].batch)
  }

  /** An ingest stores a copy that B may ask for, or has asked for, and does not accept. */
  ghost predicate StoresBad(w: World, s: Sys, act: Act) {
    StoresAgain(s, act) &&
    var job := s.a.jobs[act.s.i];
    job.t in OnOffer(s.phase) && !Accepts(w, job.e)
  }

  lemma LocalStamps(w: World, s: Sys, step: Step)
    requires Inv(s.a) && StampInv(w, s) && Allowed(w, s, Local(step)) && !StoresBad(w, s, Local(step))
    ensures StampInv(w, After(w, s, Local(step)))
  {
    var m := Apply(s.a, step);
    StepBytes(s.a, step);
    forall t | t in OnOffer(s.phase) && t in m.entries ensures Accepts(w, m.entries[t]) {
      if t in s.a.entries { assert Accepts(w, s.a.entries[t]); }
    }
  }

  /** A genuine message that scores B's requirement is accepted by B. */
  lemma ScoreIsAccepted(w: World, t: Tid, e: Entry)
    requires Genuine(w, t, e) && e.stampValue >= MinB(w)
    ensures Accepts(w, e)
  {
    PnStampAccepts(w.c, e.lxm, e.stamp, MinB(w));
    ScorePassesThreshold(w.c, e.stamp, MinB(w), w.c.workblock(t, ROUNDS_PN));
  }

  lemma OfferStamps(w: World, s: Sys, act: Act)
    requires Sound(w, s) && StampInv(w, s) && Allowed(w, s, act) && act.SendOffer?
    ensures StampInv(w, After(w, s, act))
  {
    var es1 := DropLow(s.a.entries, act.keys, w.peerB, MinOf(s.rec));
    var (es, items) := Offer(w, s, act.keys, act.order);
    OfferLists(w, s, act.keys, act.order);
    SelectOffers(es1, act.order, w.peerB, s.rec, BATCH_BASE);
    forall t | t in Ids(items) ensures Accepts(w, es[t]) {
      assert Offerable(s.a.entries, t, w.peerB, MinOf(s.rec));
      ScoreIsAccepted(w, t, s.a.entries[t]);
    }
  }

  /** The same messages and nothing more on offer. */
  lemma SameOffer(w: World, n: Node, phase: Phase, m: Node, phase': Phase)
    requires OfferOk(w, n, phase) && SameMessages(n.entries, m.entries)
    requires forall t :: t in OnOffer(phase') ==> t in OnOffer(phase)
    ensures OfferOk(w, m, phase')
  {
    forall t | t in OnOffer(phase') && t in m.entries ensures Accepts(w, m.entries[t]) {
      assert Accepts(w, n.entries[t]);
    }
  }

  lemma AnswerStamps(w: World, s: Sys, act: Act)
    requires StampInv(w, s) && Allowed(w, s, act) && act.AnswerOffer?
    ensures StampInv(w, After(w, s, act))
  {
    var s' := After(w, s, act);
    AnswerEffect(w, s, act);
    WantedAmong(s.phase.items, s'.phase.answer);
    SameOffer(w, s.a, s.phase, s'.a, s'.phase);
  }

  lemma WantedAmong(items: seq<Item>, answer: Answer)
    ensures forall t :: t in WantedOf(items, answer) ==> t in Ids(items)
  {
    if answer.SomeWanted? { ThoseMembers(Ids(items), answer.ids, true); }
  }

  /** Files of acceptable messages are acceptable. */
  lemma {:induction false} PayloadsOk(w: World, es: Entries, keys: seq<Tid>)
    requires forall t :: t in keys && t in es ==> Accepts(w, es[t])
    ensures BatchOk(w, Payloads(es, keys))
  {
    if keys != [] {
      PayloadsOk(w, es, keys[1..]);
      assert keys[0] in keys;
    }
  }

  lemma TransferStamps(w: World, s: Sys, es: Entries, keys: seq<Tid>, sendOk: bool)
    requires StampInv(w, s) && SameMessages(s.a.entries, es) && forall t :: t in keys ==> t in OnOffer(s.phase)
    ensures StampInv(w, Transfer(s, es, keys, sendOk))
  {
    forall t | t in keys && t in es ensures Accepts(w, es[t]) { assert Accepts(w, s.a.entries[t]); }
    PayloadsOk(w, es, keys);
    var s' := Transfer(s, es, keys, sendOk);
    forall i | 0 <= i < |s'.wire| ensures BatchOk(w, s'.wire[i].batch) {
      if i < |s.wire| { assert s'.wire[i] == s.wire[i]; }
    }
  }

  lemma TakeStamps(w: World, s: Sys, act: Act)
    requires Inv(s.a) && StampInv(w, s) && Allowed(w, s, act) && act.TakeAnswer?
    ensures StampInv(w, After(w, s, act))
  {
    var es, items, answer := s.a.entries, s.phase.items, s.phase.answer;
    var ids := Ids(items);
    if answer.AllWanted? {
      TransferStamps(w, s, es, ids, act.sendOk);
    } else if answer.SomeWanted? {
      MarkAllKeeps(es, Those(ids, answer.ids, false), w.peerB);
      TransferStamps(w, s, MarkAll(es, Those(ids, answer.ids, false), w.peerB), Those(ids, answer.ids, true),
                     act.sendOk);
    } else {
      NothingSent(w, s, items, answer, act.sendOk);
    }
  }

  lemma NothingSent(w: World, s: Sys, items: seq<Item>, answer: Answer, sendOk: bool)
    requires answer.NoneWanted? || answer.Refused?
    ensures var s' := Taking(w, s, items, answer, sendOk);
            OnOffer(s'.phase) == [] && s'.wire == s.wire && s'.throttled == s.throttled
  {
  }

  lemma MarkStamps(w: World, s: Sys, act: Act)
    requires Inv(s.a) && StampInv(w, s) && Allowed(w, s, act) && act.MarkSent?
    ensures StampInv(w, After(w, s, act))
  {
    MarkAllKeeps(s.a.entries, act.keys, w.peerB);
    SameOffer(w, s.a, s.phase, After(w, s, act).a, s.phase);
  }

  lemma {:induction false} AllValid(w: World, batch: seq<seq<byte>>)
    requires BatchOk(w, batch)
    ensures |Chunks.ValidEntries(w.c, batch, MinB(w))| == |batch|
  {
    if batch != [] { AllValid(w, batch[..|batch| - 1]); }
  }

  lemma ConcludeStamps(w: World, s: Sys, act: Act)
    requires StampInv(w, s) && Allowed(w, s, act) && act.Conclude?
    ensures StampInv(w, After(w, s, act))
  {
    assert BatchOk(w, s.wire[act.i].batch);
    AllValid(w, s.wire[act.i].batch);
  }

  /** Every other step of either node keeps what A has sent and may send acceptable. */
  lemma StampsKept(w: World, s: Sys, act: Act)
    requires Sound(w, s) && StampInv(w, s) && Allowed(w, s, act) && !StoresBad(w, s, act)
    ensures StampInv(w, After(w, s, act))
  {
    if act.Local? { LocalStamps(w, s, act.s); }
    else if act.SendOffer? { OfferStamps(w, s, act); }
    else if act.AnswerOffer? { AnswerStamps(w, s, act); }
    else if act.TakeAnswer? { TakeStamps(w, s, act); }
    else if act.MarkSent? { MarkStamps(w, s, act); }
    else if act.Conclude? { ConcludeStamps(w, s, act); }
  }

  // ----- runs ----------------------------------------------------------------------------------------

  /** A has any store of genuine messages. */
  ghost predicate Start(w: World, s: Sys) {
    Acquainted(w, s) && Inv(s.a) && AllGenuine(w, s.a) && !s.throttled && s.due == {}
  }

  /** Announcements tell the configuration and no step stores a copy that B may ask for and does not accept. */
  ghost predicate Steady(w: World, states: seq<Sys>, acts: seq<Act>, n: nat)
    requires IsRun(w, states, acts) && n <= |acts|
  {
    forall k :: 0 <= k < n ==> Truthful(w, acts[k]) && !StoresBad(w, states[k], acts[k])
  }

  lemma {:induction false} RunStamps(w: World, states: seq<Sys>, acts: seq<Act>, i: nat)
    requires IsRun(w, states, acts) && Sound(w, states[0]) && StampInv(w, states[0]) && i < |states|
    requires Steady(w, states, acts, i)
    ensures StampInv(w, states[i])
  {
    if i > 0 {
      RunStamps(w, states, acts, i - 1);
      RunSound(w, states, acts, i - 1);
      StampsKept(w, states[i - 1], acts[i - 1]);
    }
  }

  /** In every such run B throttles A for no stamp, and every message of every transfer passes B's check. */
  lemma NeverThrottled(w: World, states: seq<Sys>, acts: seq<Act>, i: nat)
    requires IsRun(w, states, acts) && Start(w, states[0]) && i < |states| && Steady(w, states, acts, i)
    ensures !states[i].throttled
    ensures forall k, j :: 0 <= k < |states[i].wire| && 0 <= j < |states[i].wire[k].batch| ==>
              ValidatePnStamp(w.c, states[i].wire[k].batch[j], MinB(w)).Some?
  {
    RunStamps(w, states, acts, i);
    forall k, j | 0 <= k < |states[i].wire| && 0 <= j < |states[i].wire[k].batch|
      ensures ValidatePnStamp(w.c, states[i].wire[k].batch[j], MinB(w)).Some?
    {
      assert BatchOk(w, states[i].wire[k].batch);
    }
  }

  // ----- the step that gets A throttled ----------------------------------------------------------------

  /** The actions lead from s, without a further such step, to A being throttled. */
  ghost predicate Throttles(w: World, s: Sys, acts: seq<Act>)
    decreases |acts|
  {
    if acts == [] then s.throttled
    else
      Allowed(w, s, acts[0]) && Truthful(w, acts[0]) && !StoresBad(w, s, acts[0]) &&
      Throttles(w, After(w, s, acts[0]), acts[1..])
  }

  ghost predicate CanBeThrottled(w: World, s: Sys) {
    exists acts: seq<Act> :: Throttles(w, s, acts)
  }

  lemma ThrottledNow(w: World, s: Sys)
    requires s.throttled
    ensures CanBeThrottled(w, s)
  {
    assert Throttles(w, s, []);
  }

  lemma ThrottledNext(w: World, s: Sys, act: Act)
    requires Allowed(w, s, act) && Truthful(w, act) && !StoresBad(w, s, act) && CanBeThrottled(w, After(w, s, act))
    ensures CanBeThrottled(w, s)
  {
    var acts: seq<Act> :| Throttles(w, After(w, s, act), acts);
    assert ([act] + acts)[1..] == acts;
    assert Throttles(w, s, [act] + acts);
  }

  lemma {:induction false} SomeInvalid(w: World, batch: seq<seq<byte>>, j: nat)
    requires j < |batch| && ValidatePnStamp(w.c, batch[j], MinB(w)).None?
    ensures |Chunks.ValidEntries(w.c, batch, MinB(w))| < |batch|
  {
    var n := |batch| - 1;
    ValidAtMost(w, batch[..n]);
    if j < n { SomeInvalid(w, batch[..n], j); }
  }

  /** Concluding a transfer that holds an unacceptable message gets A throttled. */
  lemma ConcludeThrottles(w: World, s: Sys, i: nat, j: nat)
    requires i < |s.wire| && s.wire[i].validated && j < |s.wire[i].batch|
    requires ValidatePnStamp(w.c, s.wire[i].batch[j], MinB(w)).None?
    ensures CanBeThrottled(w, s)
  {
    var batch := s.wire[i].batch;
    var act := Conclude(i, 0, seq(|batch|, _ => Choice(false, {})));
    SomeInvalid(w, batch, j);
    assert After(w, s, act).throttled;
    ThrottledNow(w, After(w, s, act));
    ThrottledNext(w, s, act);
  }

  lemma {:induction false} PayloadsHold(es: Entries, keys: seq<Tid>, t: Tid)
    requires t in keys && t in es
    ensures es[t].lxm + es[t].stamp in Payloads(es, keys)
  {
    if t != keys[0] { PayloadsHold(es, keys[1..], t); }
  }

  lemma TransferThrottles(w: World, s: Sys, es: Entries, keys: seq<Tid>, t: Tid)
    requires s.linkOk && t in keys && t in es && !Accepts(w, es[t])
    ensures CanBeThrottled(w, Transfer(s, es, keys, true))
  {
    PayloadsHold(es, keys, t);
    var s' := Transfer(s, es, keys, true);
    var j :| 0 <= j < |Payloads(es, keys)| && Payloads(es, keys)[j] == es[t].lxm + es[t].stamp;
    ConcludeThrottles(w, s', |s.wire|, j);
  }

  /** Taking an answer that asks for it. */
  lemma TakeThrottles(w: World, s: Sys, t: Tid)
    requires s.phase.Answered? && s.linkOk && Inv(s.a)
    requires t in OnOffer(s.phase) && t in s.a.entries && !Accepts(w, s.a.entries[t])
    ensures CanBeThrottled(w, s)
  {
    var es, ids := s.a.entries, Ids(s.phase.items);
    match s.phase.answer {
      case AllWanted => TransferThrottles(w, s, es, ids, t);
      case SomeWanted(wanted) =>
        MarkAllKeeps(es, Those(ids, wanted, false), w.peerB);
        TransferThrottles(w, s, MarkAll(es, Those(ids, wanted, false), w.peerB), Those(ids, wanted, true), t);
    }
    ThrottledNext(w, s, TakeAnswer(true));
  }

  lemma {:induction false} AllMissing(ids: seq<Tid>)
    ensures Missing(ids, map[]) == ids
  {
    if ids != [] {
      AllMissing(ids[1..]);
      assert ids == [ids[0]] + ids[1..];
    }
  }

  /** B, with an empty store, answers the offer and asks for everything. */
  lemma OfferThrottles(w: World, s: Sys, t: Tid)
    requires RecordOk(w, s.rec) && LinkOk(s) && s.phase.Offered? && Inv(s.a)
    requires t in OnOffer(s.phase) && t in s.a.entries && !Accepts(w, s.a.entries[t])
    ensures CanBeThrottled(w, s)
  {
    var items := s.phase.items;
    var s1 := After(w, s, ChangeB(s.b.(entries := map[])));
    KeyAccepted(w, s1.rec);
    AllMissing(Ids(items));
    var s2 := After(w, s1, AnswerOffer(None));
    assert s2.phase == Answered(items, AllWanted);
    TakeThrottles(w, s2, t);
    ThrottledNext(w, s1, AnswerOffer(None));
    ThrottledNext(w, s, ChangeB(s.b.(entries := map[])));
  }

  lemma BadIsThrottled(w: World, s: Sys, act: Act)
    requires RecordOk(w, s.rec) && LinkOk(s) && Inv(s.a) && Allowed(w, s, act) && StoresBad(w, s, act)
    ensures CanBeThrottled(w, After(w, s, act))
  {
    var s', job := After(w, s, act), s.a.jobs[act.s.i];
    StepKeepsInv(s.a, act.s);
    assert s'.a.entries[job.t] == job.e.(handled := [], unhandled := []);
    assert !Accepts(w, s'.a.entries[job.t]);
    if s.phase.Offered? { OfferThrottles(w, s', job.t); } else { TakeThrottles(w, s', job.t); }
  }

  lemma {:induction false} NeverLater(w: World, s: Sys, acts: seq<Act>)
    requires Sound(w, s) && StampInv(w, s)
    ensures !Throttles(w, s, acts)
    decreases |acts|
  {
    if acts != [] && Allowed(w, s, acts[0]) && Truthful(w, acts[0]) && !StoresBad(w, s, acts[0]) {
      SoundKept(w, s, acts[0]);
      StampsKept(w, s, acts[0]);
      NeverLater(w, After(w, s, acts[0]), acts[1..]);
    }
  }

  /** After any run without such a step, a step opens the way to throttling if and only if it is one. */
  lemma ThrottledExactly(w: World, states: seq<Sys>, acts: seq<Act>, act: Act)
    requires IsRun(w, states, acts) && Start(w, states[0]) && Steady(w, states, acts, |acts|)
    requires Allowed(w, states[|acts|], act) && Truthful(w, act)
    ensures StoresBad(w, states[|acts|], act) <==> CanBeThrottled(w, After(w, states[|acts|], act))
  {
    var s := states[|acts|];
    RunSound(w, states, acts, |acts|);
    RunStamps(w, states, acts, |acts|);
    if StoresBad(w, s, act) {
      RunLink(w, states, acts, |acts|);
      BadIsThrottled(w, s, act);
    } else {
      SoundKept(w, s, act);
      StampsKept(w, s, act);
      forall more: seq<Act> ensures !Throttles(w, After(w, s, act), more) { NeverLater(w, After(w, s, act), more); }
    }
  }
}
