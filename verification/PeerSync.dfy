/**
 Peer synchronisation between two propagation nodes A and B (pkg/lxmf/router_peer.go and
 router_propagation.go). A offers ids to B, reads the answer, transfers messages and marks them
 handled; B checks the peering key, the stamps and the transfer size. Link calls may fail at any
 point, B's store may change at any point, and a transfer may arrive any number of times or never.
 */
module PeerSync {
  import opened Bytes
  import opened StampScore
  import opened MsgPack
  import opened MessageStore
  import opened PropagationNode

  const PER_MESSAGE := 16
  const BATCH_BASE := 24

  /** What A keeps about B: B's announced costs and limits, and A's peering key for B. */
  datatype Record = Record(stampCost: int, stampFlex: int, peeringCost: int, transferLimit: real, syncLimit: real,
                           key: Option<seq<byte>>, keyValue: int)

  /** B's own configuration; sizes in kilobytes. */
  datatype Config = Config(stampCost: int, stampFlex: int, peeringCost: int, transferKB: real, syncKB: real)

  /**
   The fixed surroundings of a run: hash functions, identity hashes, each node's id as a peer, A's stamp requirement.
   */
  datatype World = World(c: Crypto, idA: seq<byte>, idB: seq<byte>, peerA: PeerId, peerB: PeerId, cfg: Config,
                         minCostA: int)

  function MinCost(cost: int, flex: int): int {
    Max(0, cost - flex)
  }

  /** Go's conversion of a float to an int. */
  function Trunc(x: real): int {
    if x >= 0.0 then x.Floor else -((-x).Floor)
  }

  /** A's record is what B announces: costs unchanged, limits cut to whole kilobytes. */
  predicate Agrees(r: Record, cfg: Config) {
    && r.stampCost == cfg.stampCost && r.stampFlex == cfg.stampFlex && r.peeringCost == cfg.peeringCost
    && r.transferLimit == Trunc(cfg.transferKB) as real
    && r.syncLimit == if Trunc(cfg.syncKB) < 0 then r.transferLimit else Trunc(cfg.syncKB) as real
  }

  // ----- building the offer --------------------------------------------------

  datatype Item = Item(t: Tid, size: nat)

  predicate TooBig(r: Record, size: nat) {
    r.transferLimit >= 0.0 && (size + PER_MESSAGE) as real > r.transferLimit * 1000.0
  }

  predicate Overflows(r: Record, cumulative: int) {
    r.syncLimit >= 0.0 && cumulative as real >= r.syncLimit * 1000.0
  }

  /** The first loop of sendOffer: queued messages below B's stamp requirement leave the queue. */
  function DropLow(es: Entries, keys: seq<Tid>, p: PeerId, minCost: int): Entries {
    if keys == [] then es
    else
      var k := keys[0];
      var low := k in es && p in es[k].unhandled && es[k].stampValue < minCost;
      DropLow(if low then RemoveUnhandled(es, k, p) else es, keys[1..], p, minCost)
  }

  /** One candidate: an oversized message is marked handled, one that overflows is left for later. */
  function SelectOne(es: Entries, t: Tid, p: PeerId, r: Record, cumulative: int): (Entries, seq<Item>, int)
    requires t in es
  {
    var size := es[t].Size();
    if TooBig(r, size) then (MarkHandled(es, t, p), [], cumulative)
    else if Overflows(r, cumulative + size + PER_MESSAGE) then (es, [], cumulative)
    else (es, [Item(t, size)], cumulative + size + PER_MESSAGE)
  }

  /** The second loop: the candidates in order, each against what the ones before it left. */
  function Select(es: Entries, order: seq<Tid>, p: PeerId, r: Record, cumulative: int): (Entries, seq<Item>)
    decreases |order|
  {
    if order == [] then (es, [])
    else if order[0] !in es then Select(es, order[1..], p, r, cumulative)
    else
      var (es', item, c) := SelectOne(es, order[0], p, r, cumulative);
      var (after, items) := Select(es', order[1..], p, r, c);
      (after, item + items)
  }

  predicate Offerable(es: Entries, t: Tid, p: PeerId, minCost: int) {
    t in es && p in es[t].unhandled && es[t].stampValue >= minCost
  }

  /** The ids that reach the second loop, in some order (the code sorts them by weight). */
  ghost predicate Candidates(es: Entries, order: seq<Tid>, p: PeerId, minCost: int) {
    && NoDup(order)
    && (forall t :: t in order <==> Offerable(es, t, p, minCost))
  }

  function Ids(items: seq<Item>): seq<Tid> {
    seq(|items|, i requires 0 <= i < |items| => items[i].t)
  }

  function Estimate(items: seq<Item>): nat {
    if items == [] then 0 else items[0].size + PER_MESSAGE + Estimate(items[1..])
  }

  /** Same messages, other lists: no entry appears, disappears or changes its bytes. */
  ghost predicate SameMessages(es: Entries, after: Entries) {
    && after.Keys == es.Keys
    && forall t :: t in es ==> after[t] == es[t].(handled := after[t].handled, unhandled := after[t].unhandled)
  }

  lemma {:induction false} DropLowKeeps(es: Entries, keys: seq<Tid>, p: PeerId, minCost: int)
    requires AllListsOk(es)
    ensures var after := DropLow(es, keys, p, minCost);
            AllListsOk(after) && SameMessages(es, after) && forall t :: t in es ==> after[t].handled == es[t].handled
    decreases |keys|
  {
    if keys != [] {
      var k := keys[0];
      var low := k in es && p in es[k].unhandled && es[k].stampValue < minCost;
      RemoveUnhandledUpdate(es, k, p);
      DropLowKeeps(if low then RemoveUnhandled(es, k, p) else es, keys[1..], p, minCost);
    }
  }

  /** It takes out of the queue exactly the messages that score too little for this peer. */
  lemma {:induction false} DropLowExact(es: Entries, keys: seq<Tid>, p: PeerId, minCost: int, t: Tid, q: PeerId)
    requires AllListsOk(es) && t in es
    ensures t in DropLow(es, keys, p, minCost)
    ensures q in DropLow(es, keys, p, minCost)[t].unhandled <==>
            q in es[t].unhandled && !(q == p && t in keys && es[t].stampValue < minCost)
    decreases |keys|
  {
    if keys != [] {
      var k := keys[0];
      var low := k in es && p in es[k].unhandled && es[k].stampValue < minCost;
      RemoveUnhandledUpdate(es, k, p);
      DropLowExact(if low then RemoveUnhandled(es, k, p) else es, keys[1..], p, minCost, t, q);
    }
  }

  /** The second loop changes lists only, and marks p only where the message is too big. */
  ghost predicate MarksSpec(es: Entries, after: Entries, p: PeerId, r: Record) {
    && AllListsOk(after) && SameMessages(es, after)
    && forall t, q :: t in es && q in after[t].handled ==> q in es[t].handled || (q == p && TooBig(r, es[t].Size()))
  }

  /** The offer lists messages of the store once each, with their sizes, and stays within the limit. */
  ghost predicate OfferSpec(es: Entries, order: seq<Tid>, r: Record, cumulative: int, items: seq<Item>) {
    && (forall i :: 0 <= i < |items| ==>
          items[i].t in order && items[i].t in es && items[i].size == es[items[i].t].Size())
    && NoDup(Ids(items))
    && (items != [] ==> !Overflows(r, cumulative + Estimate(items)))
  }

  lemma {:induction false} SelectMarks(es: Entries, order: seq<Tid>, p: PeerId, r: Record, cumulative: int)
    requires AllListsOk(es)
    ensures MarksSpec(es, Select(es, order, p, r, cumulative).0, p, r)
    decreases |order|
  {
    if order != [] {
      if order[0] !in es {
        SelectMarks(es, order[1..], p, r, cumulative);
      } else {
        var (es', item, c) := SelectOne(es, order[0], p, r, cumulative);
        MarkHandledUpdate(es, order[0], p);
        assert MarksSpec(es, es', p, r);
        SelectMarks(es', order[1..], p, r, c);
        MarksCompose(es, es', Select(es', order[1..], p, r, c).0, p, r);
      }
    }
  }

  lemma MarksCompose(es: Entries, mid: Entries, after: Entries, p: PeerId, r: Record)
    requires MarksSpec(es, mid, p, r) && MarksSpec(mid, after, p, r)
    ensures MarksSpec(es, after, p, r)
  {
    forall t | t in es ensures mid[t].Size() == es[t].Size() { }
  }

  lemma {:induction false} SelectOffers(es: Entries, order: seq<Tid>, p: PeerId, r: Record, cumulative: int)
    requires NoDup(order)
    ensures OfferSpec(es, order, r, cumulative, Select(es, order, p, r, cumulative).1)
    decreases |order|
  {
    if order != [] {
      var t, rest := order[0], order[1..];
      assert order == [t] + rest && t !in rest;
      if t !in es {
        SelectOffers(es, rest, p, r, cumulative);
      } else {
        var (es', item, c) := SelectOne(es, t, p, r, cumulative);
        var items := Select(es', rest, p, r, c).1;
        SelectOffers(es', rest, p, r, c);
        OfferSizes(es, es', rest, r, c, items);
        if item == [] {
          assert item + items == items;
          assert OfferSpec(es, order, r, cumulative, items);
        } else {
          OfferPrepend(es, order, r, cumulative, items);
        }
      }
    }
  }

  /** Marks do not change sizes. */
  lemma OfferSizes(es: Entries, es': Entries, order: seq<Tid>, r: Record, c: int, items: seq<Item>)
    requires es'.Keys == es.Keys && forall t :: t in es ==> es'[t].Size() == es[t].Size()
    requires OfferSpec(es', order, r, c, items)
    ensures OfferSpec(es, order, r, c, items)
  {
  }

  lemma OfferPrepend(es: Entries, order: seq<Tid>, r: Record, cumulative: int, items: seq<Item>)
    requires order != [] && order[0] in es && order[0] !in order[1..]
    requires !Overflows(r, cumulative + es[order[0]].Size() + PER_MESSAGE)
    requires OfferSpec(es, order[1..], r, cumulative + es[order[0]].Size() + PER_MESSAGE, items)
    ensures OfferSpec(es, order, r, cumulative, [Item(order[0], es[order[0]].Size())] + items)
  {
    var t := order[0];
    var all := [Item(t, es[t].Size())] + items;
    assert all[1..] == items;
    assert Ids(all) == [t] + Ids(items);
    forall i | 0 <= i < |items| ensures Ids(items)[i] != t { assert items[i].t in order[1..]; }
  }

  /** The second loop loses no entry and no mark. */
  lemma {:induction false} SelectKeepsMarks(es: Entries, order: seq<Tid>, p: PeerId, r: Record, cumulative: int,
                                            t: Tid, q: PeerId)
    requires t in es && q in es[t].handled
    ensures var after := Select(es, order, p, r, cumulative).0; t in after && q in after[t].handled
    decreases |order|
  {
    if order != [] {
      if order[0] !in es {
        SelectKeepsMarks(es, order[1..], p, r, cumulative, t, q);
      } else {
        var one := SelectOne(es, order[0], p, r, cumulative);
        SelectKeepsMarks(one.0, order[1..], p, r, one.2, t, q);
      }
    }
  }

  /**
   The offer is maximal: a candidate that is not offered is over the message limit, and then marked, or would
   still overflow the limit on top of the whole offer.
   */
  lemma {:induction false} SelectComplete(es: Entries, order: seq<Tid>, p: PeerId, r: Record, cumulative: int, t: Tid)
    requires t in order && t in es
    ensures var (after, items) := Select(es, order, p, r, cumulative);
            || t in Ids(items)
            || (TooBig(r, es[t].Size()) && t in after && p in after[t].handled)
            || Overflows(r, cumulative + Estimate(items) + es[t].Size() + PER_MESSAGE)
    decreases |order|
  {
    var u, rest := order[0], order[1..];
    if u !in es {
      SelectComplete(es, rest, p, r, cumulative, t);
    } else {
      var one := SelectOne(es, u, p, r, cumulative);
      var next := Select(one.0, rest, p, r, one.2);
      IdsCons(one.1, next.1);
      if t != u || t in rest {
        SelectComplete(one.0, rest, p, r, one.2, t);
      } else if TooBig(r, es[t].Size()) {
        SelectKeepsMarks(one.0, rest, p, r, one.2, t, p);
      } else if !Overflows(r, cumulative + es[t].Size() + PER_MESSAGE) {
        assert Ids(one.1)[0] == t;
      }
    }
  }

  /** What is offered is within the message limit. */
  lemma {:induction false} SelectSmall(es: Entries, order: seq<Tid>, p: PeerId, r: Record, cumulative: int, k: nat)
    requires k < |Select(es, order, p, r, cumulative).1|
    ensures !TooBig(r, Select(es, order, p, r, cumulative).1[k].size)
    decreases |order|
  {
    if order[0] !in es {
      SelectSmall(es, order[1..], p, r, cumulative, k);
    } else {
      var one := SelectOne(es, order[0], p, r, cumulative);
      if k >= |one.1| { SelectSmall(one.0, order[1..], p, r, one.2, k - |one.1|); }
    }
  }

  lemma IdsCons(item: seq<Item>, items: seq<Item>)
    requires |item| <= 1
    ensures forall t :: t in Ids(item + items) <==> t in Ids(item) || t in Ids(items)
    ensures Estimate(item + items) == Estimate(item) + Estimate(items)
  {
    if item == [] {
      assert item + items == items;
    } else {
      assert (item + items)[1..] == items && item[1..] == [];
      assert Ids(item + items) == Ids(item) + Ids(items);
    }
  }

  // ----- the size of a transfer ----------------------------------------------

  function Bins(batch: seq<seq<byte>>): seq<Value> {
    if batch == [] then [] else [Bin(batch[0])] + Bins(batch[1..])
  }

  /** The transferred resource: [time, [message, ...]]. */
  function BatchValue(now: seq<byte>, batch: seq<seq<byte>>): Value {
    Arr([Float(now), Arr(Bins(batch))])
  }

  function BatchEstimate(batch: seq<seq<byte>>): nat {
    if batch == [] then 0 else |batch[0]| + PER_MESSAGE + BatchEstimate(batch[1..])
  }

  lemma BinLength(m: seq<byte>)
    requires Encodable(Bin(m))
    ensures |Encode(Bin(m))| <= |m| + 5
  {
    assert EncodeBody(Bin(m)) == m;
  }

  lemma {:induction false} BinsLength(batch: seq<seq<byte>>)
    requires AllEncodable(Bins(batch))
    ensures |EncodeAll(Bins(batch))| <= BatchEstimate(batch)
  {
    if batch != [] {
      var vs := Bins(batch);
      assert vs[0] == Bin(batch[0]) && vs[1..] == Bins(batch[1..]);
      BinLength(batch[0]);
      BinsLength(batch[1..]);
    }
  }

  lemma EncodeTwo(v: Value, w: Value)
    requires Encodable(Arr([v, w]))
    ensures Encodable(v) && Encodable(w) && |Encode(Arr([v, w]))| == 1 + |Encode(v)| + |Encode(w)|
  {
    var items := [v, w];
    EncodableEach(items);
    assert items[0] == v && items[1] == w;
    assert items[1..] == [w] && [w][1..] == [];
    assert EncodeAll([w]) == Encode(w) + [];
    assert EncodeBody(Arr(items)) == Encode(v) + EncodeAll([w]);
  }

  /** The estimate of sendOffer bounds the MessagePack size of the transfer. */
  lemma EstimateBoundsWire(now: seq<byte>, batch: seq<seq<byte>>)
    requires Encodable(BatchValue(now, batch))
    ensures |Encode(BatchValue(now, batch))| <= BATCH_BASE + BatchEstimate(batch)
  {
    var list := Arr(Bins(batch));
    EncodeTwo(Float(now), list);
    assert EncodeBody(list) == EncodeAll(Bins(batch)) && EncodeBody(Float(now)) == now;
    BinsLength(batch);
  }

  /** propagationResourceAdvertised: a positive limit in whole bytes is enforced. */
  predicate AcceptsSize(cfg: Config, size: int) {
    var limit := Trunc(cfg.syncKB * 1000.0);
    !(limit > 0 && size > limit)
  }

  lemma WithinRecordIsAccepted(r: Record, cfg: Config, size: nat)
    requires Agrees(r, cfg) && (r.syncLimit >= 0.0 ==> size as real < r.syncLimit * 1000.0)
    ensures AcceptsSize(cfg, size)
  {
    if cfg.syncKB >= 0.0 {
      var k := cfg.syncKB.Floor;
      assert k as real * 1000.0 <= cfg.syncKB * 1000.0;
      assert size < k * 1000;
    }
  }
}
