/**
 Transfers fit (pkg/lxmf/router_peer.go, router_propagation.go): what A sends stays within the limit it planned the
 offer with, and so within what B accepts.
 */
module SyncSizes {
  import opened Bytes
  import opened StampScore
  import opened MsgPack
  import opened MessageStore
  import opened PropagationNode
  import opened PeerSync
  import opened SyncProtocol
  import opened SyncStamps

  function ItemsOf(phase: Phase): seq<Item> {
    if phase.Offered? || phase.Answered? then phase.items else []
  }

  /** What may still be sent has the size that the offer was planned with. */
  ghost predicate SizesOk(es: Entries, items: seq<Item>, ids: seq<Tid>) {
    forall k :: 0 <= k < |items| && items[k].t in ids && items[k].t in es ==> es[items[k].t].Size() == items[k].size
  }

  /** The size is that of a message with this hash. */
  ghost predicate FromMessage(w: World, item: Item) {
    exists lxm: seq<byte> :: w.c.sha(lxm) == item.t && |lxm| + STAMP_SIZE == item.size
  }

  ghost predicate ItemsFit(w: World, r: Record, items: seq<Item>) {
    && (forall k :: 0 <= k < |items| ==> FromMessage(w, items[k]))
    && (items != [] ==> !Overflows(r, BATCH_BASE + Estimate(items)))
  }

  ghost predicate BatchFits(r: Record, batch: seq<seq<byte>>) {
    batch != [] ==> !Overflows(r, BATCH_BASE + BatchEstimate(batch))
  }

  ghost predicate SizeInv(w: World, s: Sys) {
    && ItemsFit(w, s.rec, ItemsOf(s.phase)) && SizesOk(s.a.entries, ItemsOf(s.phase), OnOffer(s.phase))
    && forall i :: 0 <= i < |s.wire| ==> BatchFits(s.rec, s.wire[i].batch)
  }

  /** An ingest stores a copy of another size than the offer was planned with. */
  ghost predicate StoresOther(s: Sys, act: Act) {
    StoresAgain(s, act) &&
    var job, items := s.a.jobs[act.s.i], ItemsOf(s.phase);
    job.t in OnOffer(s.phase) && exists k :: 0 <= k < |items| && items[k].t == job.t && items[k].size != job.e.Size()
  }

  lemma LocalSizes(w: World, s: Sys, step: Step)
    requires Inv(s.a) && SizeInv(w, s) && Allowed(w, s, Local(step)) && !StoresOther(s, Local(step))
    ensures SizeInv(w, After(w, s, Local(step)))
  {
    StepBytes(s.a, step);
    var m, items, ids := Apply(s.a, step), ItemsOf(s.phase), OnOffer(s.phase);
    forall k | 0 <= k < |items| && items[k].t in ids && items[k].t in m.entries
      ensures m.entries[items[k].t].Size() == items[k].size
    {
    }
  }

  lemma OfferFits(w: World, s: Sys, keys: seq<Tid>, order: seq<Tid>)
    requires Sound(w, s) && Allowed(w, s, SendOffer(keys, order))
    ensures var (es, items) := Offer(w, s, keys, order); ItemsFit(w, s.rec, items) && SizesOk(es, items, Ids(items))
  {
    var es1 := DropLow(s.a.entries, keys, w.peerB, MinOf(s.rec));
    var (es, items) := Offer(w, s, keys, order);
    OfferLists(w, s, keys, order);
    DropLowKeeps(s.a.entries, keys, w.peerB, MinOf(s.rec));
    SelectOffers(es1, order, w.peerB, s.rec, BATCH_BASE);
    forall k | 0 <= k < |items| ensures FromMessage(w, items[k]) && items[k].size == es[items[k].t].Size() {
      var e := s.a.entries[items[k].t];
      assert Genuine(w, items[k].t, e) && es1[items[k].t].Size() == e.Size();
      assert w.c.sha(e.lxm) == items[k].t && |e.lxm| + STAMP_SIZE == items[k].size;
    }
  }

  lemma OfferSizesKept(w: World, s: Sys, act: Act)
    requires Sound(w, s) && SizeInv(w, s) && Allowed(w, s, act) && act.SendOffer?
    ensures SizeInv(w, After(w, s, act))
  {
    OfferFits(w, s, act.keys, act.order);
  }

  /** The same messages and nothing more on offer. */
  lemma SameSizes(es: Entries, items: seq<Item>, ids: seq<Tid>, es': Entries, ids': seq<Tid>)
    requires SizesOk(es, items, ids) && SameMessages(es, es') && forall t :: t in ids' ==> t in ids
    ensures SizesOk(es', items, ids')
  {
    forall k | 0 <= k < |items| && items[k].t in ids' && items[k].t in es'
      ensures es'[items[k].t].Size() == items[k].size
    {
      assert es[items[k].t].Size() == items[k].size;
    }
  }

  // ----- the size of what is sent ----------------------------------------------------------------

  /** One more offered item in front: its file, if it is wanted and still there. */
  lemma PayloadsFirst(es: Entries, items: seq<Item>, within: seq<Tid>)
    requires items != []
    ensures var t, rest := items[0].t, Those(Ids(items[1..]), within, true);
            Payloads(es, Those(Ids(items), within, true)) ==
            (if t in within && t in es then [es[t].lxm + es[t].stamp] else []) + Payloads(es, rest)
  {
    var t, ids := items[0].t, Ids(items);
    var keys, rest := Those(ids, within, true), Those(Ids(items[1..]), within, true);
    assert ids[0] == t && ids[1..] == Ids(items[1..]);
    if t in within {
      assert keys == [t] + rest;
      assert keys[0] == t && keys[1..] == rest;
    } else {
      assert keys == [] + rest == rest;
      assert [] + Payloads(es, rest) == Payloads(es, rest);
    }
  }

  /** The files that are sent are among the offered items, so they are within the estimate. */
  lemma {:induction false} PayloadsFit(es: Entries, items: seq<Item>, within: seq<Tid>, batch: seq<seq<byte>>)
    requires batch == Payloads(es, Those(Ids(items), within, true))
    requires SizesOk(es, items, within)
    ensures BatchEstimate(batch) <= Estimate(items)
    decreases |items|
  {
    if items != [] {
      var t, rest := items[0].t, Payloads(es, Those(Ids(items[1..]), within, true));
      PayloadsFirst(es, items, within);
      PayloadsFit(es, items[1..], within, rest);
      if t in within && t in es {
        assert es[items[0].t].Size() == items[0].size;
        assert batch[0] == es[t].lxm + es[t].stamp && batch[1..] == rest;
      } else {
        assert batch == rest;
      }
    }
  }

  lemma {:induction false} AllOfThem(ids: seq<Tid>, within: seq<Tid>)
    requires forall t :: t in ids ==> t in within
    ensures Those(ids, within, true) == ids
  {
    if ids != [] { AllOfThem(ids[1..], within); }
  }

  lemma TransferSizes(w: World, s: Sys, es: Entries, within: seq<Tid>, sendOk: bool)
    requires SizeInv(w, s) && s.phase.Answered? && SizesOk(es, s.phase.items, within)
    ensures SizeInv(w, Transfer(s, es, Those(Ids(s.phase.items), within, true), sendOk))
  {
    var items := s.phase.items;
    var keys := Those(Ids(items), within, true);
    var batch, s' := Payloads(es, keys), Transfer(s, es, keys, sendOk);
    PayloadsFit(es, items, within, batch);
    assert BatchFits(s.rec, batch);
    forall i | 0 <= i < |s'.wire| ensures BatchFits(s.rec, s'.wire[i].batch) {
      if i < |s.wire| { assert s'.wire[i] == s.wire[i]; }
    }
  }

  lemma TakeSizes(w: World, s: Sys, act: Act)
    requires Inv(s.a) && SizeInv(w, s) && Allowed(w, s, act) && act.TakeAnswer?
    ensures SizeInv(w, After(w, s, act))
  {
    var es, items, answer := s.a.entries, s.phase.items, s.phase.answer;
    var ids := Ids(items);
    if answer.AllWanted? {
      AllOfThem(ids, ids);
      TransferSizes(w, s, es, ids, act.sendOk);
    } else if answer.SomeWanted? {
      var marked := MarkAll(es, Those(ids, answer.ids, false), w.peerB);
      MarkAllKeeps(es, Those(ids, answer.ids, false), w.peerB);
      WantedSizes(es, marked, items, answer.ids);
      TransferSizes(w, s, marked, answer.ids, act.sendOk);
    } else {
      NothingSent(w, s, items, answer, act.sendOk);
      TakingEnds(w, s, items, answer, act.sendOk);
    }
  }

  lemma WantedSizes(es: Entries, marked: Entries, items: seq<Item>, wanted: seq<Tid>)
    requires SameMessages(es, marked) && SizesOk(es, items, Those(Ids(items), wanted, true))
    ensures SizesOk(marked, items, wanted)
  {
    ThoseMembers(Ids(items), wanted, true);
    forall k | 0 <= k < |items| && items[k].t in wanted && items[k].t in marked
      ensures marked[items[k].t].Size() == items[k].size
    {
      assert Ids(items)[k] == items[k].t;
      assert es[items[k].t].Size() == items[k].size;
    }
  }

  lemma AnswerSizes(w: World, s: Sys, act: Act)
    requires SizeInv(w, s) && Allowed(w, s, act) && act.AnswerOffer?
    ensures SizeInv(w, After(w, s, act))
  {
    var s' := After(w, s, act);
    AnswerEffect(w, s, act);
    WantedAmong(s.phase.items, s'.phase.answer);
    SameSizes(s.a.entries, s.phase.items, OnOffer(s.phase), s'.a.entries, OnOffer(s'.phase));
  }

  lemma MarkSizes(w: World, s: Sys, act: Act)
    requires Inv(s.a) && SizeInv(w, s) && Allowed(w, s, act) && act.MarkSent?
    ensures SizeInv(w, After(w, s, act))
  {
    MarkAllKeeps(s.a.entries, act.keys, w.peerB);
    SameSizes(s.a.entries, ItemsOf(s.phase), OnOffer(s.phase), After(w, s, act).a.entries, OnOffer(s.phase));
  }

  /** Records that agree with one configuration have one limit. */
  lemma AnnounceSizes(w: World, s: Sys, act: Act)
    requires Agrees(s.rec, w.cfg) && SizeInv(w, s) && Allowed(w, s, act) && act.Announce? && Truthful(w, act)
    ensures SizeInv(w, After(w, s, act))
  {
    assert act.r.syncLimit == s.rec.syncLimit;
    forall i | 0 <= i < |s.wire| ensures BatchFits(act.r, s.wire[i].batch) { assert BatchFits(s.rec, s.wire[i].batch); }
  }

  lemma ReceiveSizes(w: World, s: Sys, act: Act)
    requires SizeInv(w, s) && Allowed(w, s, act) && act.Receive?
    ensures SizeInv(w, After(w, s, act))
  {
    assert After(w, s, act).a.entries == s.a.entries;
  }

  lemma OtherSizes(w: World, s: Sys, act: Act)
    requires SizeInv(w, s) && Allowed(w, s, act) && (act.MakeKey? || act.Conclude? || act.ChangeB? || act.LinkDown?)
    ensures SizeInv(w, After(w, s, act))
  {
    var s' := After(w, s, act);
    assert s'.a == s.a && s'.wire == s.wire && s'.rec.syncLimit == s.rec.syncLimit;
    forall i | 0 <= i < |s.wire| ensures BatchFits(s'.rec, s.wire[i].batch) {
      assert BatchFits(s.rec, s.wire[i].batch);
    }
  }

  lemma SizesKept(w: World, s: Sys, act: Act)
    requires Sound(w, s) && SizeInv(w, s) && Allowed(w, s, act) && Truthful(w, act) && !StoresOther(s, act)
    ensures SizeInv(w, After(w, s, act))
  {
    if act.Local? { LocalSizes(w, s, act.s); }
    else if act.SendOffer? { OfferSizesKept(w, s, act); }
    else if act.AnswerOffer? { AnswerSizes(w, s, act); }
    else if act.TakeAnswer? { TakeSizes(w, s, act); }
    else if act.MarkSent? { MarkSizes(w, s, act); }
    else if act.Announce? { AnnounceSizes(w, s, act); }
    else if act.Receive? { ReceiveSizes(w, s, act); }
    else { OtherSizes(w, s, act); }
  }

  // ----- runs -----------------------------------------------------------------------------------------

  ghost predicate Planned(w: World, states: seq<Sys>, acts: seq<Act>, n: nat)
    requires IsRun(w, states, acts) && n <= |acts|
  {
    forall k :: 0 <= k < n ==> Truthful(w, acts[k]) && !StoresOther(states[k], acts[k])
  }

  lemma {:induction false} RunSizes(w: World, states: seq<Sys>, acts: seq<Act>, i: nat)
    requires IsRun(w, states, acts) && Start(w, states[0]) && i < |states| && Planned(w, states, acts, i)
    ensures SizeInv(w, states[i])
  {
    if i > 0 {
      RunSizes(w, states, acts, i - 1);
      RunSound(w, states, acts, i - 1);
      SizesKept(w, states[i - 1], acts[i - 1]);
    }
  }

  /** In every such run every transfer stays below the recorded sync limit and B accepts its size. */
  lemma TransfersFit(w: World, states: seq<Sys>, acts: seq<Act>, i: nat, k: nat, now: seq<byte>)
    requires IsRun(w, states, acts) && Start(w, states[0]) && i < |states| && Planned(w, states, acts, i)
    requires k < |states[i].wire| && states[i].wire[k].batch != []
    requires Encodable(BatchValue(now, states[i].wire[k].batch))
    ensures var size, r := |Encode(BatchValue(now, states[i].wire[k].batch))|, states[i].rec;
            (r.syncLimit >= 0.0 ==> size as real < r.syncLimit * 1000.0) && AcceptsSize(w.cfg, size)
  {
    RunSizes(w, states, acts, i);
    RunSound(w, states, acts, i);
    var s := states[i];
    assert BatchFits(s.rec, s.wire[k].batch);
    EstimateBoundsWire(now, s.wire[k].batch);
    WithinRecordIsAccepted(s.rec, w.cfg, |Encode(BatchValue(now, s.wire[k].batch))|);
  }

  /** A copy of another size needs two messages of different length with one hash. */
  lemma OtherIsCollision(w: World, states: seq<Sys>, acts: seq<Act>, act: Act)
    requires IsRun(w, states, acts) && Start(w, states[0]) && Planned(w, states, acts, |acts|)
    requires Allowed(w, states[|acts|], act) && StoresOther(states[|acts|], act)
    ensures exists x: seq<byte>, y: seq<byte> :: w.c.sha(x) == w.c.sha(y) && |x| != |y|
  {
    RunSizes(w, states, acts, |acts|);
    RunSound(w, states, acts, |acts|);
    var s := states[|acts|];
    var job, items := s.a.jobs[act.s.i], ItemsOf(s.phase);
    var k :| 0 <= k < |items| && items[k].t == job.t && items[k].size != job.e.Size();
    assert FromMessage(w, items[k]) && Genuine(w, job.t, job.e);
    var lxm: seq<byte> :| w.c.sha(lxm) == items[k].t && |lxm| + STAMP_SIZE == items[k].size;
    assert w.c.sha(lxm) == w.c.sha(job.e.lxm) && |lxm| != |job.e.lxm|;
  }
}
