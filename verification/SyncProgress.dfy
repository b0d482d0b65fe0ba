/**
 What an exchange achieves (pkg/lxmf/router_peer.go, router_propagation.go): B knows what it was sent and has it settled
 for A, and A has the whole offer marked.
 */
module SyncProgress {
  import opened Bytes
  import opened StampScore
  import opened MessageStore
  import opened PropagationNode
  import opened PeerSync
  import opened SyncProtocol
  import opened SyncStamps

  // ----- at B ----------------------------------------------------------------------------

  /** When B concludes a transfer, every message in it is known to B from then on. */
  lemma {:induction false} ConcludedIsKnown(w: World, n: Node, valid: seq<PnEntry>, now: int, choices: seq<Choice>,
                                            pn: PnEntry)
    requires |choices| >= |valid| && (pn in valid || pn.transientId in n.processed)
    requires Inv(n) && n.entries.Keys <= n.processed
    ensures pn.transientId in TakeBatch(w, n, valid, now, choices).processed
    decreases |valid|
  {
    if valid != [] {
      var from := if w.peerA in n.peers then Some(w.peerA) else None;
      var job := Job(valid[0].transientId, EntryOf(valid[0], now), from, choices[0].stored, Looking);
      var m := Ingested(n, job, choices[0].kept);
      IngestedKeeps(n, job, choices[0].kept);
      if pn in valid && pn != valid[0] { assert pn in valid[1..]; }
      ConcludedIsKnown(w, m, valid[1..], now, choices[1..], pn);
    }
  }

  /** A message of a transfer from a peer is settled for that peer at B, so B never offers it back. */
  lemma {:induction false} ConcludedIsSettled(w: World, n: Node, valid: seq<PnEntry>, now: int, choices: seq<Choice>,
                                              pn: PnEntry)
    requires |choices| >= |valid| && Inv(n) && n.entries.Keys <= n.processed && w.peerA in n.peers
    requires !Pending(n, pn.transientId) && (pn in valid || Settled(n, pn.transientId, w.peerA))
    ensures Settled(TakeBatch(w, n, valid, now, choices), pn.transientId, w.peerA)
    decreases |valid|
  {
    if valid != [] {
      var job := Job(valid[0].transientId, EntryOf(valid[0], now), Some(w.peerA), choices[0].stored, Looking);
      var m := Ingested(n, job, choices[0].kept);
      IngestedKeeps(n, job, choices[0].kept);
      if pn == valid[0] || Settled(n, pn.transientId, w.peerA) {
        IngestedSettles(n, job, choices[0].kept, pn.transientId, w.peerA);
      }
      if pn in valid && pn != valid[0] { assert pn in valid[1..]; }
      assert m.jobs == n.jobs && m.peers == n.peers;
      ConcludedIsSettled(w, m, valid[1..], now, choices[1..], pn);
    }
  }

  lemma IngestedSettles(n: Node, job: Job, kept: set<Tid>, t: Tid, p: PeerId)
    requires Inv(n) && n.entries.Keys <= n.processed && job.from == Some(p) && !Pending(n, t)
    requires job.t == t || Settled(n, t, p)
    ensures Settled(Ingested(n, job, kept), t, p)
  {
    var m := Propagate(n, job.t, job.e, job.storable, kept);
    MarkHandledUpdate(m.entries, job.t, p);
  }

  lemma IngestedKeeps(n: Node, job: Job, kept: set<Tid>)
    requires Inv(n) && n.entries.Keys <= n.processed
    ensures var m := Ingested(n, job, kept);
            Inv(m) && m.entries.Keys <= m.processed && job.t in m.processed && n.processed <= m.processed
  {
    var m := Propagate(n, job.t, job.e, job.storable, kept);
    if job.from.Some? { MarkHandledUpdate(m.entries, job.t, job.from.value); }
  }

  // ----- at A ----------------------------------------------------------------------------

  lemma {:induction false} MarkAllMarks(es: Entries, ts: seq<Tid>, p: PeerId, t: Tid, q: PeerId)
    requires t in es && (q in es[t].handled || (q == p && t in ts))
    ensures t in MarkAll(es, ts, p) && q in MarkAll(es, ts, p)[t].handled
    decreases |ts|
  {
    if ts != [] {
      MarkAllMarks(MarkHandled(es, ts[0], p), ts[1..], p, t, q);
    }
  }

  /** t's bytes are in the transfer that s' adds to the wire of s. */
  ghost predicate Sends(s: Sys, s': Sys, t: Tid) {
    && t in s.a.entries && |s'.wire| == |s.wire| + 1
    && s.a.entries[t].lxm + s.a.entries[t].stamp in s'.wire[|s.wire|].batch
  }

  ghost predicate Handles(w: World, s: Sys, t: Tid) {
    t in s.a.entries && w.peerB in s.a.entries[t].handled
  }

  /** A transfer that goes through sends every wanted message that is stored. */
  lemma TransferSends(s: Sys, es: Entries, keys: seq<Tid>, t: Tid)
    requires SameMessages(s.a.entries, es) && t in keys && t in es
    ensures var s' := Transfer(s, es, keys, true); Sends(s, s', t) && s'.a.entries == es
  {
    PayloadsHold(es, keys, t);
  }

  lemma WantedIsSent(w: World, s: Sys, items: seq<Item>, answer: Answer, t: Tid)
    requires Inv(s.a) && t in WantedOf(items, answer) && t in s.a.entries
    ensures Sends(s, Taking(w, s, items, answer, true), t)
  {
    var es, ids := s.a.entries, Ids(items);
    if answer.AllWanted? {
      TransferSends(s, es, ids, t);
    } else {
      MarkAllKeeps(es, Those(ids, answer.ids, false), w.peerB);
      TransferSends(s, MarkAll(es, Those(ids, answer.ids, false), w.peerB), Those(ids, answer.ids, true), t);
    }
  }

  lemma UnwantedIsMarked(w: World, s: Sys, items: seq<Item>, answer: Answer, t: Tid)
    requires Inv(s.a) && !answer.Refused? && t in Ids(items) && t !in WantedOf(items, answer) && t in s.a.entries
    ensures Handles(w, Taking(w, s, items, answer, true), t)
  {
    var es, ids := s.a.entries, Ids(items);
    if answer.NoneWanted? {
      MarkAllMarks(es, ids, w.peerB, t, w.peerB);
    } else {
      ThoseMembers(ids, answer.ids, true);
      ThoseMembers(ids, answer.ids, false);
      MarkAllMarks(es, Those(ids, answer.ids, false), w.peerB, t, w.peerB);
    }
  }

  /**
   A completed exchange settles the whole offer: whichever answer B gave, every offered message A still stores is
   handled for B afterwards, and what B wanted is in the transfer.
   */
  lemma ExchangeSettles(w: World, s: Sys, items: seq<Item>, answer: Answer, t: Tid)
    requires Inv(s.a) && !answer.Refused? && t in Ids(items) && t in s.a.entries
    ensures var s' := Exchanged(w, s, items, answer, true);
            Handles(w, s', t) && (t in WantedOf(items, answer) ==> Sends(s, s', t))
  {
    var s1 := Taking(w, s, items, answer, true);
    TakeLists(w, s, items, answer, true);
    if t in WantedOf(items, answer) {
      WantedIsSent(w, s, items, answer, t);
      MarkAllMarks(s1.a.entries, WantedOf(items, answer), w.peerB, t, w.peerB);
    } else {
      UnwantedIsMarked(w, s, items, answer, t);
      MarkAllMarks(s1.a.entries, WantedOf(items, answer), w.peerB, t, w.peerB);
    }
  }
}
