/**
 Why a message under offer is not stored a second time (pkg/lxmf/router_propagation.go, router_persist.go): the cache
 of processed ids remembers it. What can go wrong in an exchange needs an id to expire while it is in use, or a
 sender that asks for weaker stamps than the receiver.
 */
module SyncCache {
  import opened StampScore
  import opened MessageStore
  import opened PropagationNode
  import opened PeerSync
  import opened SyncProtocol
  import opened SyncMarks
  import opened SyncStamps
  import opened SyncSizes

  predicate ClaimedAt(n: Node, i: nat) {
    i in n.jobs && n.jobs[i].pc == Claimed
  }

  /** Stored and claimed ids are remembered, an id is claimed once, and a claimed id is not stored. */
  ghost predicate Once(n: Node) {
    && n.entries.Keys <= n.processed
    && (forall i :: ClaimedAt(n, i) ==> n.jobs[i].t in n.processed && n.jobs[i].t !in n.entries)
    && (forall i, j :: ClaimedAt(n, i) && ClaimedAt(n, j) && n.jobs[i].t == n.jobs[j].t ==> i == j)
  }

  /** The id is remembered and nobody is about to store its message. */
  ghost predicate Kept(n: Node, t: Tid) {
    t in n.processed && forall i :: ClaimedAt(n, i) ==> n.jobs[i].t != t
  }

  /** The id may still be sent, or has yet to be marked. */
  predicate Underway(s: Sys, t: Tid) {
    t in OnOffer(s.phase) || t in s.due
  }

  ghost predicate OnceInv(s: Sys) {
    Once(s.a) && forall t :: Underway(s, t) ==> Kept(s.a, t)
  }

  ghost predicate InUse(n: Node, t: Tid) {
    t in n.entries || exists i :: ClaimedAt(n, i) && n.jobs[i].t == t
  }

  /** An id leaves the cache while its message is stored, being stored, under offer, or yet to be marked. */
  ghost predicate ExpiresInUse(s: Sys, act: Act) {
    act.Local? && act.s.Expire? && (InUse(s.a, act.s.t) || Underway(s, act.s.t))
  }

  lemma StepOnce(n: Node, step: Step)
    requires Once(n) && Enabled(n, step) && (step.Expire? ==> !InUse(n, step.t))
    ensures Once(Apply(n, step))
  {
  }

  lemma StepKept(n: Node, step: Step, t: Tid)
    requires Kept(n, t) && Enabled(n, step) && step != Expire(t)
    ensures Kept(Apply(n, step), t)
  {
    var m := Apply(n, step);
    forall i | ClaimedAt(m, i) ensures m.jobs[i].t != t {
      assert i in n.jobs && m.jobs[i].t == n.jobs[i].t;
      assert ClaimedAt(n, i) || step == Claim(i);
    }
  }

  lemma SameKeysOnce(n: Node, m: Node)
    requires Once(n) && m.entries.Keys == n.entries.Keys && m.jobs == n.jobs && m.processed == n.processed
    ensures Once(m) && forall t :: Kept(n, t) ==> Kept(m, t)
  {
    forall i | ClaimedAt(m, i) ensures m.jobs[i].t in m.processed && m.jobs[i].t !in m.entries {
      assert ClaimedAt(n, i);
    }
    forall t | Kept(n, t) ensures Kept(m, t) {
      forall i | ClaimedAt(m, i) ensures m.jobs[i].t != t { assert ClaimedAt(n, i); }
    }
  }

  lemma LocalOnce(w: World, s: Sys, act: Act)
    requires OnceInv(s) && Allowed(w, s, act) && act.Local? && !ExpiresInUse(s, act)
    ensures OnceInv(After(w, s, act)) && !StoresAgain(s, act)
  {
    StepOnce(s.a, act.s);
    var s' := After(w, s, act);
    forall t | Underway(s', t) ensures Kept(s'.a, t) {
      assert Underway(s, t);
      StepKept(s.a, act.s, t);
    }
    if act.s.Add? {
      assert ClaimedAt(s.a, act.s.i);
      assert Underway(s, s.a.jobs[act.s.i].t) ==> Kept(s.a, s.a.jobs[act.s.i].t);
    }
  }

  lemma ReceiveOnce(w: World, s: Sys, act: Act)
    requires OnceInv(s) && Allowed(w, s, act) && act.Receive?
    ensures OnceInv(After(w, s, act))
  {
    var r := ValidatePnStamp(w.c, act.data, w.minCostA);
    if r.Some? {
      var step := Begin(act.i, Job(r.value.transientId, EntryOf(r.value, act.now), act.from, true, Looking));
      StepOnce(s.a, step);
      forall t | Underway(s, t) ensures Kept(Apply(s.a, step), t) { StepKept(s.a, step, t); }
    }
  }

  /** Only an offer puts ids under way, and they are stored. */
  lemma UnderwayFrom(w: World, s: Sys, act: Act, t: Tid)
    requires Inv(s.a) && Allowed(w, s, act) && !act.Local? && !act.Receive? && Underway(After(w, s, act), t)
    ensures Underway(s, t) || t in s.a.entries
  {
    if act.SendOffer? {
      OfferedIsStored(w, s, act.keys, act.order);
    } else if act.AnswerOffer? {
      AnswerEffect(w, s, act);
      WantedAmong(s.phase.items, After(w, s, act).phase.answer);
    } else if act.TakeAnswer? {
      TakeUnderway(w, s, s.phase.items, s.phase.answer, act.sendOk, t);
    } else {
      OtherUnderway(w, s, act, t);
    }
  }

  lemma OfferedIsStored(w: World, s: Sys, keys: seq<Tid>, order: seq<Tid>)
    requires Inv(s.a) && Allowed(w, s, SendOffer(keys, order))
    ensures forall t :: t in Ids(Offer(w, s, keys, order).1) ==> t in s.a.entries
  {
    var es1 := DropLow(s.a.entries, keys, w.peerB, MinOf(s.rec));
    DropLowKeeps(s.a.entries, keys, w.peerB, MinOf(s.rec));
    SelectOffers(es1, order, w.peerB, s.rec, BATCH_BASE);
  }

  lemma TakeUnderway(w: World, s: Sys, items: seq<Item>, answer: Answer, sendOk: bool, t: Tid)
    requires s.phase == Answered(items, answer) && Underway(Taking(w, s, items, answer, sendOk), t)
    ensures Underway(s, t)
  {
    TakingEnds(w, s, items, answer, sendOk);
  }

  lemma OtherUnderway(w: World, s: Sys, act: Act, t: Tid)
    requires Allowed(w, s, act) && !act.Local? && !act.Receive? && !act.SendOffer? && !act.AnswerOffer?
    requires !act.TakeAnswer?
    requires Underway(After(w, s, act), t)
    ensures Underway(s, t)
  {
  }

  lemma ExchangeOnce(w: World, s: Sys, act: Act)
    requires OnceInv(s) && Inv(s.a) && Allowed(w, s, act) && !act.Local? && !act.Receive?
    ensures OnceInv(After(w, s, act))
  {
    var s' := After(w, s, act);
    ListsKept(w, s, act);
    SameProcessed(w, s, act);
    SameKeysOnce(s.a, s'.a);
    forall t | Underway(s', t) ensures Kept(s'.a, t) {
      UnderwayFrom(w, s, act, t);
      if !Underway(s, t) { StoredIsKept(s.a, t); }
    }
  }

  lemma StoredIsKept(n: Node, t: Tid)
    requires Once(n) && t in n.entries
    ensures Kept(n, t)
  {
    forall i | ClaimedAt(n, i) ensures n.jobs[i].t != t {}
  }

  lemma SameProcessed(w: World, s: Sys, act: Act)
    requires Inv(s.a) && Allowed(w, s, act) && !act.Local? && !act.Receive?
    ensures After(w, s, act).a.processed == s.a.processed
  {
    if act.TakeAnswer? { TakeLists(w, s, s.phase.items, s.phase.answer, act.sendOk); }
  }

  lemma OnceKept(w: World, s: Sys, act: Act)
    requires OnceInv(s) && Inv(s.a) && Allowed(w, s, act) && !ExpiresInUse(s, act)
    ensures OnceInv(After(w, s, act)) && !StoresAgain(s, act)
  {
    if act.Local? { LocalOnce(w, s, act); }
    else if act.Receive? { ReceiveOnce(w, s, act); }
    else { ExchangeOnce(w, s, act); }
  }

  /**
   As long as no id expires while it is in use, no step stores a message that may be sent or is yet to be marked; so
   no step makes a mark wrong, gets A throttled or changes the size of a transfer.
   */
  lemma {:induction false} InUseIsKept(w: World, states: seq<Sys>, acts: seq<Act>, n: nat)
    requires IsRun(w, states, acts) && Inv(states[0].a) && Once(states[0].a) && n < |states|
    requires states[0].phase.Idle? && states[0].due == {}
    requires forall k :: 0 <= k < n ==> !ExpiresInUse(states[k], acts[k])
    ensures OnceInv(states[n]) && Inv(states[n].a)
    ensures forall k :: 0 <= k < n ==>
              !StoresUnsent(states[k], acts[k]) && !StoresBad(w, states[k], acts[k]) && !StoresOther(states[k], acts[k])
  {
    if n > 0 {
      InUseIsKept(w, states, acts, n - 1);
      OnceKept(w, states[n - 1], acts[n - 1]);
      NodeListsKept(w, states[n - 1], acts[n - 1]);
    }
  }

  // ----- a sender at least as strict as the receiver -----------------------------------------------

  /** What A is storing passed its own stamp check. */
  ghost predicate Checked(w: World, n: Node) {
    forall i :: i in n.jobs && n.jobs[i].storable ==>
      ValidatePnStamp(w.c, n.jobs[i].e.lxm + n.jobs[i].e.stamp, w.minCostA).Some?
  }

  lemma ReceiveChecked(w: World, s: Sys, act: Act)
    requires Checked(w, s.a) && Allowed(w, s, act) && act.Receive?
    ensures Checked(w, After(w, s, act).a)
  {
    var r := ValidatePnStamp(w.c, act.data, w.minCostA);
    if r.Some? { assert EntryOf(r.value, act.now).lxm + EntryOf(r.value, act.now).stamp == act.data; }
  }

  lemma LocalChecked(w: World, s: Sys, step: Step)
    requires Checked(w, s.a) && Allowed(w, s, Local(step))
    ensures Checked(w, Apply(s.a, step))
  {
    StepJobs(s.a, step);
  }

  lemma CheckedKept(w: World, s: Sys, act: Act)
    requires Inv(s.a) && Checked(w, s.a) && Allowed(w, s, act)
    ensures Checked(w, After(w, s, act).a)
  {
    if act.Local? { LocalChecked(w, s, act.s); }
    else if act.Receive? { ReceiveChecked(w, s, act); }
    else { ListsKept(w, s, act); }
  }

  lemma StrictIsGood(w: World, s: Sys, act: Act)
    requires Checked(w, s.a) && w.minCostA >= MinB(w) && Allowed(w, s, act)
    ensures !StoresBad(w, s, act)
  {
    if act.Local? && act.s.Add? {
      var e := s.a.jobs[act.s.i].e;
      PnStampMonotone(w.c, e.lxm + e.stamp, MinB(w), w.minCostA);
    }
  }

  /** A node that asks for stamps at least as good as B does is never throttled, whatever expires. */
  lemma {:induction false} StrictIsSteady(w: World, states: seq<Sys>, acts: seq<Act>, n: nat)
    requires IsRun(w, states, acts) && Inv(states[0].a) && Checked(w, states[0].a) && n < |states|
    requires w.minCostA >= MinB(w)
    ensures Inv(states[n].a) && Checked(w, states[n].a)
    ensures forall k :: 0 <= k < n ==> !StoresBad(w, states[k], acts[k])
  {
    if n > 0 {
      StrictIsSteady(w, states, acts, n - 1);
      NodeListsKept(w, states[n - 1], acts[n - 1]);
      CheckedKept(w, states[n - 1], acts[n - 1]);
      StrictIsGood(w, states[n - 1], acts[n - 1]);
    }
  }
}
