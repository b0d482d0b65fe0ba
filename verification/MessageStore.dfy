/**
 The propagation node's message store (pkg/lxmf/router_store.go): the index by transient id with its
 handled and unhandled peer lists, and eviction to a size limit. An entry holds the bytes of its file,
 so index and files agree by construction.
 */
module MessageStore {
  import opened Bytes

  type Tid = seq<byte>
  type PeerId = seq<byte>

  datatype Entry = Entry(lxm: seq<byte>, stamp: seq<byte>, receivedAt: int, stampValue: nat,
                         handled: seq<PeerId>, unhandled: seq<PeerId>)
  {
    function Size(): nat {
      |lxm| + |stamp|
    }
  }

  type Entries = map<Tid, Entry>

  // ----- peer lists ----------------------------------------------------------

  ghost predicate NoDup<T(!new)>(s: seq<T>) {
    forall i, j :: 0 <= i < j < |s| ==> s[i] != s[j]
  }

  /** A peer is listed at most once, and never both as handled and as unhandled. */
  ghost predicate ListsOk(e: Entry) {
    NoDup(e.handled) && NoDup(e.unhandled) && forall p :: p in e.handled ==> p !in e.unhandled
  }

  function DropFirst(s: seq<PeerId>, p: PeerId): (r: seq<PeerId>)
    ensures p !in s ==> r == s
  {
    if s == [] then [] else if s[0] == p then s[1..] else [s[0]] + DropFirst(s[1..], p)
  }

  lemma {:induction false} DropFirstRemoves(s: seq<PeerId>, p: PeerId)
    requires NoDup(s)
    ensures NoDup(DropFirst(s, p))
    ensures forall q :: q in DropFirst(s, p) <==> q in s && q != p
  {
    if s != [] {
      var r := s[1..];
      assert s == [s[0]] + r && s[0] !in r;
      DropFirstRemoves(r, p);
    }
  }

  function AddUnhandled(es: Entries, t: Tid, p: PeerId): Entries {
    if t !in es || p in es[t].handled || p in es[t].unhandled then es
    else es[t := es[t].(unhandled := es[t].unhandled + [p])]
  }

  function RemoveUnhandled(es: Entries, t: Tid, p: PeerId): Entries {
    if t !in es then es else es[t := es[t].(unhandled := DropFirst(es[t].unhandled, p))]
  }

  function MarkHandled(es: Entries, t: Tid, p: PeerId): Entries {
    if t !in es then es
    else
      var e := es[t].(unhandled := DropFirst(es[t].unhandled, p));
      es[t := if p in e.handled then e else e.(handled := e.handled + [p])]
  }

  ghost predicate AllListsOk(es: Entries) {
    forall t :: t in es ==> ListsOk(es[t])
  }

  /** A list update keeps every list well formed and touches no other entry, pair or file. */
  ghost predicate ListUpdate(es: Entries, after: Entries, t: Tid, p: PeerId) {
    && AllListsOk(after)
    && after.Keys == es.Keys
    && (forall u :: u in es && u != t ==> after[u] == es[u])
    && (t in es ==>
          && after[t] == es[t].(handled := after[t].handled, unhandled := after[t].unhandled)
          && (forall q :: q in es[t].handled ==> q in after[t].handled)
          && (forall q :: q != p ==> (q in after[t].handled <==> q in es[t].handled))
          && (forall q :: q != p ==> (q in after[t].unhandled <==> q in es[t].unhandled)))
  }

  lemma AddUnhandledUpdate(es: Entries, t: Tid, p: PeerId)
    requires AllListsOk(es)
    ensures ListUpdate(es, AddUnhandled(es, t, p), t, p)
    ensures t in es ==> (p in AddUnhandled(es, t, p)[t].unhandled <==> p !in es[t].handled)
    ensures t in es ==> AddUnhandled(es, t, p)[t].handled == es[t].handled
  {
  }

  lemma RemoveUnhandledUpdate(es: Entries, t: Tid, p: PeerId)
    requires AllListsOk(es)
    ensures ListUpdate(es, RemoveUnhandled(es, t, p), t, p)
    ensures t in es ==> p !in RemoveUnhandled(es, t, p)[t].unhandled
    ensures t in es ==> RemoveUnhandled(es, t, p)[t].handled == es[t].handled
  {
    if t in es { DropFirstRemoves(es[t].unhandled, p); }
  }

  lemma MarkHandledUpdate(es: Entries, t: Tid, p: PeerId)
    requires AllListsOk(es)
    ensures ListUpdate(es, MarkHandled(es, t, p), t, p)
    ensures t in es ==> p in MarkHandled(es, t, p)[t].handled && p !in MarkHandled(es, t, p)[t].unhandled
  {
    if t in es { DropFirstRemoves(es[t].unhandled, p); }
  }

  // ----- sizes and weights ---------------------------------------------------

  ghost function Total(es: Entries): nat {
    if es == map[] then 0
    else
      var t :| t in es;
      es[t].Size() + Total(es - {t})
  }

  lemma {:induction false} TotalRemove(es: Entries, t: Tid)
    requires t in es
    ensures Total(es) == es[t].Size() + Total(es - {t})
    decreases |es|
  {
    var u :| u in es && Total(es) == es[u].Size() + Total(es - {u});
    if u != t {
      TotalRemove(es - {u}, t);
      TotalRemove(es - {t}, u);
      assert es - {u} - {t} == es - {t} - {u};
    }
  }

  /** Cull weight: size, aged beyond four days, a tenth for prioritised destinations. */
  function Weight(e: Entry, now: int, prioritised: set<seq<byte>>): real {
    var days := (now - e.receivedAt) as real / 345600.0;
    var age := if days > 1.0 then days else 1.0;
    var priority := if |e.lxm| >= 16 && e.lxm[..16] in prioritised then 0.1 else 1.0;
    priority * age * e.Size() as real
  }

  function Weights(es: Entries, clock: Tid -> int, prioritised: set<seq<byte>>): Tid -> real {
    t => if t in es then Weight(es[t], clock(t), prioritised) else 0.0
  }

  /** Nothing kept weighs more than anything evicted. */
  ghost predicate HeaviestGone(es: Entries, after: Entries, weight: Tid -> real) {
    forall x, y :: x in es && x !in after && y in after ==> weight(x) >= weight(y)
  }

  /** Among the evicted, `last` is lightest, and with it the store would still be over the limit. */
  ghost predicate LastNeeded(es: Entries, after: Entries, limit: int, weight: Tid -> real, last: Tid) {
    && last in es && last !in after
    && (forall x :: x in es && x !in after ==> weight(x) >= weight(last))
    && Total(after) + es[last].Size() > limit
  }

  /**
   What eviction to `limit` must be: the store fits, nothing kept weighs more than anything evicted,
   and without the last, lightest victim the store would still be too big.
   */
  ghost predicate MinimalEviction(es: Entries, after: Entries, limit: int, weight: Tid -> real) {
    && after.Keys <= es.Keys
    && (forall t :: t in after ==> after[t] == es[t])
    && Total(after) <= limit
    && HeaviestGone(es, after, weight)
    && (after.Keys == es.Keys || exists last :: LastNeeded(es, after, limit, weight, last))
  }

  ghost predicate Ordered(order: seq<Tid>, weight: Tid -> real) {
    forall i, j :: 0 <= i < j < |order| ==> weight(order[i]) >= weight(order[j])
  }

  function Elements<T>(s: seq<T>): set<T> {
    set x | x in s
  }

  method Heaviest(keys: set<Tid>, weight: Tid -> real) returns (h: Tid)
    requires keys != {}
    ensures h in keys && forall t :: t in keys ==> weight(h) >= weight(t)
  {
    h :| h in keys;
    var rest := keys;
    while rest != {}
      invariant rest <= keys && h in keys
      invariant forall t :: t in keys && t !in rest ==> weight(h) >= weight(t)
      decreases rest
    {
      var t :| t in rest;
      if weight(t) > weight(h) { h := t; }
      rest := rest - {t};
    }
  }

  /** sort.Slice by descending weight; entries of equal weight come in any order. */
  method SortByWeight(keys: set<Tid>, weight: Tid -> real) returns (order: seq<Tid>)
    ensures Elements(order) == keys && NoDup(order) && Ordered(order, weight)
  {
    order := [];
    var rest := keys;
    while rest != {}
      invariant rest <= keys && Elements(order) == keys - rest
      invariant NoDup(order) && Ordered(order, weight)
      invariant forall t, u :: t in order && u in rest ==> weight(t) >= weight(u)
      decreases rest
    {
      var h := Heaviest(rest, weight);
      assert Elements(order + [h]) == Elements(order) + {h};
      order, rest := order + [h], rest - {h};
    }
  }

  /** The eviction loop: heaviest first, until enough is freed. */
  method Evict(es: Entries, total: nat, limit: int, weight: Tid -> real, order: seq<Tid>) returns (after: Entries,
               cleaned: int)
    requires limit > 0 && total == Total(es) > limit
    requires Elements(order) == es.Keys && NoDup(order) && Ordered(order, weight)
    ensures MinimalEviction(es, after, limit, weight)
    ensures cleaned == Total(es) - Total(after)
  {
    var needed := total - limit;
    after, cleaned := es, 0;
    assert es != map[];
    var some :| some in es;
    assert some in order;
    var i := 0;
    while i < |order| && cleaned < needed
      invariant 0 <= i <= |order| && (i == 0 ==> cleaned == 0)
      invariant after == es - Elements(order[..i])
      invariant Total(after) == Total(es) - cleaned
      invariant i > 0 ==> cleaned - es[order[i - 1]].Size() < needed
    {
      var t := order[i];
      EvictStep(es, after, order, i);
      cleaned := cleaned + after[t].Size();
      after := after - {t};
      i := i + 1;
    }
    EvictedPrefix(es, after, limit, weight, order, i, cleaned);
  }

  lemma EvictStep(es: Entries, after: Entries, order: seq<Tid>, i: nat)
    requires Elements(order) == es.Keys && NoDup(order) && i < |order|
    requires after == es - Elements(order[..i])
    ensures order[i] in after && after[order[i]] == es[order[i]]
    ensures after - {order[i]} == es - Elements(order[..i + 1])
    ensures Total(after - {order[i]}) == Total(after) - es[order[i]].Size()
  {
    assert order[i] in order;
    assert order[i] !in order[..i];
    assert Elements(order[..i + 1]) == Elements(order[..i]) + {order[i]};
    TotalRemove(after, order[i]);
  }

  class MessageStore {
    var entries: Entries
    const limitBytes: int
    const prioritised: set<seq<byte>>

    constructor (limitBytes: int, prioritised: set<seq<byte>>)
      ensures entries == map[] && this.limitBytes == limitBytes && this.prioritised == prioritised
    {
      entries, this.limitBytes, this.prioritised := map[], limitBytes, prioritised;
    }

    method TotalBytes() returns (n: nat)
      ensures n == Total(entries)
    {
      n := 0;
      var rest := entries;
      while rest != map[]
        invariant n + Total(rest) == Total(entries)
        decreases |rest|
      {
        var t :| t in rest;
        TotalRemove(rest, t);
        n, rest := n + rest[t].Size(), rest - {t};
      }
    }

    /** enforceLimitLocked; `clock(t)` is the time read while weighing entry t. */
    method EnforceLimit(clock: Tid -> int) returns (cleaned: int)
      modifies this
      ensures limitBytes <= 0 ==> entries == old(entries) && cleaned == 0
      ensures limitBytes > 0 ==>
                MinimalEviction(old(entries), entries, limitBytes, Weights(old(entries), clock, prioritised))
      ensures cleaned == Total(old(entries)) - Total(entries)
    {
      if limitBytes <= 0 { return 0; }
      var total := TotalBytes();
      if total <= limitBytes { return 0; }
      var weight := Weights(entries, clock, prioritised);
      var order := SortByWeight(entries.Keys, weight);
      entries, cleaned := Evict(entries, total, limitBytes, weight, order);
    }

    method Add(sha: seq<byte> -> Digest, lxm: seq<byte>, stamp: seq<byte>, value: nat, now: int, clock: Tid -> int)
      returns (ok: bool)
      modifies this
      ensures !ok ==> |lxm| < 16 && entries == old(entries)
      ensures ok && sha(lxm) in old(entries) ==> entries == old(entries)
      ensures ok && sha(lxm) !in old(entries) ==>
                var grown := old(entries)[sha(lxm) := Entry(lxm, stamp, now, value, [], [])];
                if limitBytes <= 0 then entries == grown
                else MinimalEviction(grown, entries, limitBytes, Weights(grown, clock, prioritised))
      ensures limitBytes > 0 && Total(old(entries)) <= limitBytes ==> Total(entries) <= limitBytes
    {
      if |lxm| < 16 { return false; }
      var t := sha(lxm);
      if t in entries { return true; }
      entries := entries[t := Entry(lxm, stamp, now, value, [], [])];
      var _ := EnforceLimit(clock);
      return true;
    }

    method Remove(t: Tid)
      modifies this
      ensures entries == old(entries) - {t}
    {
      if t !in entries { return; }
      entries := entries - {t};
    }

    method AddUnhandledPeer(t: Tid, p: PeerId)
      modifies this
      ensures entries == AddUnhandled(old(entries), t, p)
    {
      if t !in entries { return; }
      var e := entries[t];
      if p in e.handled || p in e.unhandled { return; }
      entries := entries[t := e.(unhandled := e.unhandled + [p])];
    }

    method RemoveUnhandledPeer(t: Tid, p: PeerId)
      modifies this
      ensures entries == RemoveUnhandled(old(entries), t, p)
    {
      if t !in entries { return; }
      var e := entries[t];
      var list := CutFirst(e.unhandled, p);
      entries := entries[t := e.(unhandled := list)];
    }

    method MarkHandledPeer(t: Tid, p: PeerId)
      modifies this
      ensures entries == MarkHandled(old(entries), t, p)
    {
      if t !in entries { return; }
      var e := entries[t];
      var list := CutFirst(e.unhandled, p);
      e := e.(unhandled := list);
      if p !in e.handled {
        e := e.(handled := e.handled + [p]);
      }
      entries := entries[t := e];
    }
  }

  /** The search-and-splice loop shared by the two list removals. */
  method CutFirst(s: seq<PeerId>, p: PeerId) returns (r: seq<PeerId>)
    ensures r == DropFirst(s, p)
  {
    for i := 0 to |s|
      invariant DropFirst(s, p) == s[..i] + DropFirst(s[i..], p)
    {
      DropFirstStep(s, i, p);
      if s[i] == p {
        return s[..i] + s[i + 1..];
      }
    }
    return s;
  }

  lemma DropFirstStep(s: seq<PeerId>, i: nat, p: PeerId)
    requires i < |s|
    ensures s[..i] + DropFirst(s[i..], p) ==
            if s[i] == p then s[..i] + s[i + 1..] else s[..i + 1] + DropFirst(s[i + 1..], p)
  {
    var t := s[i..];
    assert t[0] == s[i] && t[1..] == s[i + 1..];
    assert s[..i] + ([s[i]] + DropFirst(t[1..], p)) == s[..i + 1] + DropFirst(t[1..], p);
  }

  /** In a list ordered by weight, what stands in the first i places outweighs what does not. */
  lemma HeavierThanRest(order: seq<Tid>, weight: Tid -> real, i: nat, x: Tid, y: Tid)
    requires Ordered(order, weight) && i <= |order|
    requires x in order[..i] && y in order[i..]
    ensures weight(x) >= weight(y)
  {
    var a :| 0 <= a < i && order[..i][a] == x;
    var b :| 0 <= b < |order| - i && order[i..][b] == y;
    assert weight(order[a]) >= weight(order[i + b]);
  }

  lemma PrefixGone(es: Entries, after: Entries, weight: Tid -> real, order: seq<Tid>, i: nat)
    requires Elements(order) == es.Keys && Ordered(order, weight) && i <= |order|
    requires after == es - Elements(order[..i])
    ensures HeaviestGone(es, after, weight)
  {
    assert order == order[..i] + order[i..];
    forall x, y | x in es && x !in after && y in after ensures weight(x) >= weight(y) {
      assert y in order;
      HeavierThanRest(order, weight, i, x, y);
    }
  }

  lemma LightestLast(es: Entries, after: Entries, limit: int, weight: Tid -> real, order: seq<Tid>, i: nat)
    requires Elements(order) == es.Keys && Ordered(order, weight) && 0 < i <= |order|
    requires after == es - Elements(order[..i])
    requires Total(after) + es[order[i - 1]].Size() > limit
    ensures LastNeeded(es, after, limit, weight, order[i - 1])
  {
    var last := order[i - 1];
    assert order[..i] == order[..i - 1] + [last] && last in order[i - 1..];
    forall x | x in es && x !in after ensures weight(x) >= weight(last) {
      assert x in order[..i];
      if x != last { HeavierThanRest(order, weight, i - 1, x, last); }
    }
  }

  /** Cutting a weight-ordered list just when enough is freed is a minimal eviction. */
  lemma EvictedPrefix(es: Entries, after: Entries, limit: int, weight: Tid -> real, order: seq<Tid>, i: nat,
                      cleaned: int)
    requires limit > 0 && Total(es) > limit
    requires Elements(order) == es.Keys && Ordered(order, weight) && 0 < i <= |order|
    requires after == es - Elements(order[..i])
    requires Total(after) == Total(es) - cleaned
    requires i == |order| || cleaned >= Total(es) - limit
    requires cleaned - es[order[i - 1]].Size() < Total(es) - limit
    ensures MinimalEviction(es, after, limit, weight)
  {
    if i == |order| {
      assert order[..i] == order;
      assert after == map[];
    }
    PrefixGone(es, after, weight, order, i);
    LightestLast(es, after, limit, weight, order, i);
  }
}
