/** The loops of Peer.sendOffer, Peer.handleOfferResponse and offerRequestHandler, on mutable state. */
module PeerHandlers {
  import opened Bytes
  import opened MessageStore
  import opened PropagationNode
  import opened PeerSync
  import opened SyncProtocol

  function DropIfLow(es: Entries, k: Tid, p: PeerId, minCost: int): Entries {
    if k in es && p in es[k].unhandled && es[k].stampValue < minCost then RemoveUnhandled(es, k, p) else es
  }

  lemma {:induction false} DropLowAppend(es: Entries, keys: seq<Tid>, k: Tid, p: PeerId, minCost: int)
    ensures DropLow(es, keys + [k], p, minCost) == DropIfLow(DropLow(es, keys, p, minCost), k, p, minCost)
    decreases |keys|
  {
    if keys == [] {
      assert keys + [k] == [k] && [k][1..] == [];
    } else {
      assert (keys + [k])[0] == keys[0] && (keys + [k])[1..] == keys[1..] + [k];
      DropLowAppend(DropIfLow(es, keys[0], p, minCost), keys[1..], k, p, minCost);
    }
  }

  lemma {:induction false} DropLowOther(es: Entries, keys: seq<Tid>, k: Tid, p: PeerId, minCost: int)
    requires k !in keys && k in es
    ensures k in DropLow(es, keys, p, minCost) && DropLow(es, keys, p, minCost)[k] == es[k]
    decreases |keys|
  {
    if keys != [] {
      DropLowOther(DropIfLow(es, keys[0], p, minCost), keys[1..], k, p, minCost);
    }
  }

  /** After i candidates, what is left to do completes what has been done to the whole selection. */
  ghost predicate SelectProgress(es: Entries, order: seq<Tid>, p: PeerId, r: Record, i: nat,
                                 now: Entries, offer: seq<Item>, cumulative: int)
  {
    i <= |order| &&
    var rest := Select(now, order[i..], p, r, cumulative);
    Select(es, order, p, r, BATCH_BASE) == (rest.0, offer + rest.1)
  }

  lemma SelectDone(es: Entries, order: seq<Tid>, p: PeerId, r: Record, cumulative: int, offer: seq<Item>)
    requires cumulative == BATCH_BASE && offer == []
    ensures SelectProgress(es, order, p, r, 0, es, offer, cumulative)
  {
    assert order[0..] == order;
    var rest := Select(es, order, p, r, cumulative);
    assert [] + rest.1 == rest.1;
  }

  lemma SelectNext(es: Entries, order: seq<Tid>, p: PeerId, r: Record, i: nat,
                   now: Entries, offer: seq<Item>, cumulative: int)
    requires i < |order| && order[i] in now && SelectProgress(es, order, p, r, i, now, offer, cumulative)
    ensures var one := SelectOne(now, order[i], p, r, cumulative);
            SelectProgress(es, order, p, r, i + 1, one.0, offer + one.1, one.2) && one.0.Keys == now.Keys
  {
    var one := SelectOne(now, order[i], p, r, cumulative);
    assert order[i..][0] == order[i] && order[i..][1..] == order[i + 1..];
    var rest := Select(one.0, order[i + 1..], p, r, one.2);
    assert offer + (one.1 + rest.1) == (offer + one.1) + rest.1;
  }

  /** A transfer with its marks, uninterrupted. */
  lemma SentThenMarked(w: World, s: Sys, es: Entries, keys: seq<Tid>)
    requires Payloads(es, keys) != []
    ensures var s' := Transfer(s, es, keys, true);
            && s'.wire == s.wire + [Sent(Payloads(es, keys), s.linkOk)]
            && HangUp(MarkedSent(w, s', keys)) ==
               s.(a := s.a.(entries := MarkAll(es, keys, w.peerB)), phase := Idle, linkOk := false, wire := s'.wire,
                  due := s'.due - Elements(keys), sent := s'.sent)
  {
  }

  /** Where the peer object stands after a response: idle without a link, ready on its link, or stuck on it. */
  datatype State = Idling | Ready | Stuck

  class Peer {
    const store: MessageStore
    const id: PeerId
    var rec: Record
    var lastOffer: seq<Item>
    var offered: nat
    var outgoing: nat
    var state: State
    var dropped: bool

    constructor (store: MessageStore, id: PeerId, rec: Record)
      ensures this.store == store && this.id == id && this.rec == rec && lastOffer == [] && offered == outgoing == 0
      ensures state == Idling && !dropped
    {
      this.store, this.id, this.rec, lastOffer, offered, outgoing := store, id, rec, [], 0, 0;
      state, dropped := Idling, false;
    }

    /** First loop of sendOffer: drop what scores too little, collect the rest. */
    method CollectQueued() returns (candidates: set<Tid>, ghost keys: seq<Tid>)
      requires AllListsOk(store.entries)
      modifies store
      ensures Elements(keys) == old(store.entries).Keys
      ensures store.entries == DropLow(old(store.entries), keys, id, MinOf(rec))
      ensures forall t :: t in candidates <==> Offerable(old(store.entries), t, id, MinOf(rec))
    {
      var snapshot, minCost := store.entries, MinOf(rec);
      var rest := snapshot.Keys;
      candidates, keys := {}, [];
      while rest != {}
        invariant rest <= snapshot.Keys && Elements(keys) == snapshot.Keys - rest
        invariant store.entries == DropLow(snapshot, keys, id, minCost)
        invariant forall t :: t in candidates <==> t !in rest && Offerable(snapshot, t, id, minCost)
        decreases rest
      {
        var k :| k in rest;
        assert k !in Elements(keys);
        DropLowAppend(snapshot, keys, k, id, minCost);
        DropLowOther(snapshot, keys, k, id, minCost);
        assert Elements(keys + [k]) == Elements(keys) + {k};
        if id in snapshot[k].unhandled {
          if snapshot[k].stampValue < minCost {
            store.RemoveUnhandledPeer(k, id);
          } else {
            candidates := candidates + {k};
          }
        }
        keys, rest := keys + [k], rest - {k};
      }
    }

    /** One candidate of the second loop: mark it, skip it, or offer it. */
    method Consider(t: Tid, cumulative: int) returns (c: int)
      requires t in store.entries
      modifies this`lastOffer, store
      ensures var one := SelectOne(old(store.entries), t, id, rec, cumulative);
              store.entries == one.0 && lastOffer == old(lastOffer) + one.1 && c == one.2
    {
      c := cumulative;
      var size := store.entries[t].Size();
      if TooBig(rec, size) {
        store.MarkHandledPeer(t, id);
      } else if !Overflows(rec, cumulative + size + PER_MESSAGE) {
        c := cumulative + size + PER_MESSAGE;
        lastOffer := lastOffer + [Item(t, size)];
      }
    }

    /** The second loop of sendOffer, over the candidates in their order. */
    method SelectFitting(order: seq<Tid>)
      requires forall t :: t in order ==> t in store.entries
      modifies this`lastOffer, store
      ensures (store.entries, lastOffer) == Select(old(store.entries), order, id, rec, BATCH_BASE)
    {
      ghost var es := store.entries;
      var cumulative := BATCH_BASE;
      lastOffer := [];
      SelectDone(es, order, id, rec, cumulative, []);
      for i := 0 to |order|
        invariant SelectProgress(es, order, id, rec, i, store.entries, lastOffer, cumulative)
        invariant store.entries.Keys == es.Keys
      {
        SelectNext(es, order, id, rec, i, store.entries, lastOffer, cumulative);
        cumulative := Consider(order[i], cumulative);
      }
      assert order[|order|..] == [] && lastOffer + [] == lastOffer;
    }

    /** sendOffer up to the request: what it drops, marks and offers is Select over DropLow. */
    method SendOffer(clock: Tid -> int) returns (ghost keys: seq<Tid>, ghost order: seq<Tid>)
      requires AllListsOk(store.entries)
      modifies this`lastOffer, store
      ensures Elements(keys) == old(store.entries).Keys
      ensures Candidates(old(store.entries), order, id, MinOf(rec))
      ensures (store.entries, lastOffer) ==
              Select(DropLow(old(store.entries), keys, id, MinOf(rec)), order, id, rec, BATCH_BASE)
    {
      var snapshot := store.entries;
      var candidates;
      candidates, keys := CollectQueued();
      var weights := Weights(snapshot, clock, store.prioritised);
      var sorted := SortByWeight(candidates, t => -weights(t));
      order := sorted;
      assert forall t :: t in order <==> t in Elements(order);
      DropLowKeeps(snapshot, keys, id, MinOf(rec));
      SelectFitting(sorted);
    }

    method MarkEach(ts: seq<Tid>)
      modifies store
      ensures store.entries == MarkAll(old(store.entries), ts, id)
    {
      for i := 0 to |ts|
        invariant MarkAll(old(store.entries), ts, id) == MarkAll(store.entries, ts[i..], id)
      {
        assert ts[i..][0] == ts[i] && ts[i..][1..] == ts[i + 1..];
        store.MarkHandledPeer(ts[i], id);
      }
    }

    method ReadPayloads(keys: seq<Tid>) returns (batch: seq<seq<byte>>)
      ensures batch == Payloads(store.entries, keys)
    {
      batch := [];
      for i := 0 to |keys|
        invariant Payloads(store.entries, keys) == batch + Payloads(store.entries, keys[i..])
      {
        assert keys[i..][0] == keys[i] && keys[i..][1..] == keys[i + 1..];
        if keys[i] in store.entries {
          var e := store.entries[keys[i]];
          ghost var more := Payloads(store.entries, keys[i + 1..]);
          assert batch + ([e.lxm + e.stamp] + more) == (batch + [e.lxm + e.stamp]) + more;
          batch := batch + [e.lxm + e.stamp];
        }
      }
    }

    /** The object's fields after a response are those of the protocol state. */
    ghost predicate Mirrors(s: Sys) reads this, store {
      && store.entries == s.a.entries && (dropped <==> id !in s.a.peers)
      && (state == Stuck <==> s.phase.Waiting?) && (state == Idling ==> !s.linkOk)
    }

    /** Reads the wanted files, sends them, and only then marks them. */
    method TransferWanted(wanted: seq<Tid>, sendOk: bool, ghost w: World, ghost s: Sys) returns (sent: seq<seq<byte>>)
      requires w.peerB == id && !dropped && id in s.a.peers
      modifies this`state, this`offered, this`outgoing, store
      ensures var s' := Transfer(s, old(store.entries), wanted, sendOk);
              && s'.wire == (if sent == [] then s.wire else s.wire + [Sent(sent, s.linkOk)])
              && Mirrors(if sent == [] then s' else HangUp(MarkedSent(w, s', wanted)))
      ensures outgoing == old(outgoing) + if sent == [] then 0 else |wanted|
    {
      sent := [];
      var batch := ReadPayloads(wanted);
      state := Idling;
      if batch == [] {
        offered := offered + |lastOffer|;
        return;
      }
      if !sendOk { return; }
      sent := batch;
      SentThenMarked(w, s, store.entries, wanted);
      MarkEach(wanted);
      offered := offered + |lastOffer|;
      outgoing := outgoing + |wanted|;
    }

    method HandleErrorCode(code: Code, ghost w: World, ghost s: Sys, ghost items: seq<Item>, ghost sendOk: bool)
      requires w.peerB == id && s.a.entries == store.entries && !dropped && id in s.a.peers
      modifies this`state, this`dropped
      ensures Mirrors(Taking(w, s, items, Refused(code), sendOk))
    {
      match code {
        case NoIdentity => state := Ready;
        case Throttled => state := Stuck;
        case NoAccess =>
          dropped := true;
          state := Stuck;
        case Other => state := Idling;
      }
    }

    /**
     handleOfferResponse: ids B has are marked at once, wanted ids only after their files were sent; an error code
     retries on the link, waits, gives the peer up, or hangs up. `sendOk` says whether the link took the resource.
     */
    method HandleOfferResponse(answer: Answer, sendOk: bool, ghost w: World, ghost s: Sys)
      returns (sent: seq<seq<byte>>)
      requires w.peerB == id && s.a.entries == store.entries && !dropped && id in s.a.peers
      modifies this, store
      ensures rec == old(rec) && lastOffer == old(lastOffer)
      ensures Mirrors(Exchanged(w, s, lastOffer, answer, sendOk))
      ensures Exchanged(w, s, lastOffer, answer, sendOk).wire ==
              if sent == [] then s.wire else s.wire + [Sent(sent, s.linkOk)]
      ensures outgoing == old(outgoing) + if sent == [] then 0 else |WantedOf(lastOffer, answer)|
    {
      sent := [];
      var ids := Ids(lastOffer);
      match answer {
        case NoneWanted =>
          MarkEach(ids);
          offered := offered + |lastOffer|;
          state := Idling;
        case Refused(code) =>
          HandleErrorCode(code, w, s, lastOffer, sendOk);
        case AllWanted =>
          sent := TransferWanted(ids, sendOk, w, s);
        case SomeWanted(list) =>
          MarkEach(Those(ids, list, false));
          sent := TransferWanted(Those(ids, list, true), sendOk, w, s);
      }
    }
  }

  lemma {:induction false} MissingAppend(es: Entries, ids: seq<Tid>, t: Tid)
    ensures Missing(ids + [t], es) == Missing(ids, es) + if t in es then [] else [t]
  {
    if ids == [] {
      assert ids + [t] == [t] && [t][1..] == [];
    } else {
      assert (ids + [t])[0] == ids[0] && (ids + [t])[1..] == ids[1..] + [t];
      MissingAppend(es, ids[1..], t);
    }
  }

  /** The loop of offerRequestHandler: the offered ids that are not in the store. */
  method WantedIds(es: Entries, ids: seq<Tid>) returns (wanted: seq<Tid>)
    ensures wanted == Missing(ids, es)
  {
    wanted := [];
    for i := 0 to |ids|
      invariant wanted == Missing(ids[..i], es)
    {
      MissingAppend(es, ids[..i], ids[i]);
      assert ids[..i + 1] == ids[..i] + [ids[i]];
      if ids[i] !in es {
        wanted := wanted + [ids[i]];
      }
    }
    assert ids[..|ids|] == ids;
  }
}
