/**
 One propagation node over whole runs: ingests, eviction, the distribution queue, peering and un-peering, expiry of
 the processed-id cache, and a stop followed by a start (pkg/lxmf/router_propagation.go, router_peer.go,
 router_persist.go). A step is one critical section, so any interleaving of handlers is a run.
 */
module PropagationNode {
  import opened Bytes
  import opened MessageStore
  import opened StampScore

  /** Where an ingest stands between its critical sections. */
  datatype Pc = Looking | Gate | Claimed | Marking

  /**
   One message being ingested. `from` is the peer it came from, if known; `storable` says whether it may be
   stored, that is, it is not for local delivery, propagation is enabled and it has a stamp.
   */
  datatype Job = Job(t: Tid, e: Entry, from: Option<PeerId>, storable: bool, pc: Pc)

  datatype Node = Node(entries: Entries, processed: set<Tid>, peers: set<PeerId>, jobs: map<nat, Job>)

  datatype Step =
    | Begin(i: nat, job: Job)
    | LookUp(i: nat)
    | Claim(i: nat)
    | GiveUp(i: nat)
    | Add(i: nat, kept: set<Tid>)
    | Finish(i: nat)
    | Expire(t: Tid)
    | Discard(kept: set<Tid>)
    | Queue(t: Tid, p: PeerId)
    | Drop(t: Tid, p: PeerId)
    | Mark(t: Tid, p: PeerId)
    | AddPeer(p: PeerId)
    | Unpeer(p: PeerId)
    | Restart(order: seq<PeerId>)

  function Restrict(es: Entries, kept: set<Tid>): Entries {
    map t | t in es && t in kept :: es[t]
  }

  function Stored(es: Entries, t: Tid, e: Entry, kept: set<Tid>): Entries {
    if t in es then es else Restrict(es[t := e.(handled := [], unhandled := [])], kept)
  }

  /**
   lxmfPropagation for one validated message without interruption. A known id is ignored; a new one is remembered and
   then either delivered locally, refused, or stored (`stored`), and storing may evict down to `kept`.
   */
  function Propagate(n: Node, t: Tid, e: Entry, stored: bool, kept: set<Tid>): Node {
    if t in n.entries || t in n.processed then n
    else
      n.(processed := n.processed + {t},
         entries := if stored then Stored(n.entries, t, e, kept) else n.entries)
  }

  // ----- stop and start ------------------------------------------------------

  /** What a peer file keeps of the store: the ids handled and the ids queued for that peer. */
  datatype PeerFile = PeerFile(peer: PeerId, handled: seq<Tid>, unhandled: seq<Tid>)

  ghost predicate IsFileOf(f: PeerFile, es: Entries, p: PeerId) {
    && f.peer == p
    && (forall t :: t in f.handled <==> t in es && p in es[t].handled)
    && (forall t :: t in f.unhandled <==> t in es && p in es[t].unhandled)
  }

  function MarkAll(es: Entries, ts: seq<Tid>, p: PeerId): Entries {
    if ts == [] then es else MarkAll(MarkHandled(es, ts[0], p), ts[1..], p)
  }

  function QueueAll(es: Entries, ts: seq<Tid>, p: PeerId): Entries {
    if ts == [] then es else QueueAll(AddUnhandled(es, ts[0], p), ts[1..], p)
  }

  /** peerFromBytes: handled ids first, then unhandled ids. */
  function LoadPeer(es: Entries, f: PeerFile): Entries {
    QueueAll(MarkAll(es, f.handled, f.peer), f.unhandled, f.peer)
  }

  function LoadAll(es: Entries, files: seq<PeerFile>): Entries
    decreases |files|
  {
    if files == [] then es else LoadAll(LoadPeer(es, files[0]), files[1..])
  }

  /** The index rebuilt from message files has empty peer lists. */
  function Cleared(es: Entries): Entries {
    map t | t in es :: es[t].(handled := [], unhandled := [])
  }

  function Keep(order: seq<PeerId>, list: seq<PeerId>): seq<PeerId> {
    if order == [] then []
    else (if order[0] in list then [order[0]] else []) + Keep(order[1..], list)
  }

  lemma {:induction false} KeepMembers(order: seq<PeerId>, list: seq<PeerId>)
    ensures forall p :: p in Keep(order, list) <==> p in order && p in list
  {
    if order != [] {
      KeepMembers(order[1..], list);
      assert order == [order[0]] + order[1..];
    }
  }

  /** A stop and a start: lists survive for the peers that had a file, in the order the files load. */
  function Reloaded(es: Entries, order: seq<PeerId>): Entries {
    map t | t in es :: es[t].(handled := Keep(order, es[t].handled), unhandled := Keep(order, es[t].unhandled))
  }

  function WithHandled(e: Entry, on: bool, p: PeerId): Entry {
    if on then e.(handled := e.handled + [p]) else e
  }

  function WithUnhandled(e: Entry, on: bool, p: PeerId): Entry {
    if on then e.(unhandled := e.unhandled + [p]) else e
  }

  lemma {:induction false} MarkAllAt(base: Entries, done: set<Tid>, ts: seq<Tid>, p: PeerId, es: Entries)
    requires es.Keys == base.Keys
    requires forall t :: t in base ==> p !in base[t].handled && p !in base[t].unhandled
    requires forall t :: t in base ==> es[t] == WithHandled(base[t], t in done, p)
    ensures MarkAll(es, ts, p).Keys == base.Keys
    ensures forall t :: t in base ==> MarkAll(es, ts, p)[t] == WithHandled(base[t], t in done || t in ts, p)
    decreases ts
  {
    if ts != [] {
      MarkAllAt(base, done + {ts[0]}, ts[1..], p, MarkHandled(es, ts[0], p));
    }
  }

  lemma {:induction false} QueueAllAt(base: Entries, done: set<Tid>, ts: seq<Tid>, p: PeerId, es: Entries)
    requires es.Keys == base.Keys
    requires forall t :: t in base ==> p !in base[t].unhandled
    requires forall t :: t in base && (t in done || t in ts) ==> p !in base[t].handled
    requires forall t :: t in base ==> es[t] == WithUnhandled(base[t], t in done, p)
    ensures QueueAll(es, ts, p).Keys == base.Keys
    ensures forall t :: t in base ==> QueueAll(es, ts, p)[t] == WithUnhandled(base[t], t in done || t in ts, p)
    decreases ts
  {
    if ts != [] {
      QueueAllAt(base, done + {ts[0]}, ts[1..], p, AddUnhandled(es, ts[0], p));
    }
  }

  lemma {:induction false} KeepAppend(order: seq<PeerId>, p: PeerId, list: seq<PeerId>)
    ensures Keep(order + [p], list) == Keep(order, list) + if p in list then [p] else []
  {
    if order == [] {
      assert order + [p] == [p] && [p][1..] == [];
    } else {
      assert (order + [p])[0] == order[0] && (order + [p])[1..] == order[1..] + [p];
      KeepAppend(order[1..], p, list);
    }
  }

  /** The lists of one entry after loading the file of p on top of `order`. */
  lemma LoadedEntry(e: Entry, order: seq<PeerId>, p: PeerId, base: Entry)
    requires base == e.(handled := Keep(order, e.handled), unhandled := Keep(order, e.unhandled))
    ensures WithUnhandled(WithHandled(base, p in e.handled, p), p in e.unhandled, p)
            == e.(handled := Keep(order + [p], e.handled), unhandled := Keep(order + [p], e.unhandled))
  {
    KeepAppend(order, p, e.handled);
    KeepAppend(order, p, e.unhandled);
  }

  /** Loading one more saved peer extends the restored lists by exactly that peer. */
  lemma LoadPeerRestores(es: Entries, order: seq<PeerId>, f: PeerFile)
    requires AllListsOk(es) && IsFileOf(f, es, f.peer) && f.peer !in order
    ensures LoadPeer(Reloaded(es, order), f) == Reloaded(es, order + [f.peer])
  {
    var base, p := Reloaded(es, order), f.peer;
    forall t | t in base ensures p !in base[t].handled && p !in base[t].unhandled {
      KeepMembers(order, es[t].handled);
      KeepMembers(order, es[t].unhandled);
    }
    MarkAllAt(base, {}, f.handled, p, base);
    var marked := MarkAll(base, f.handled, p);
    forall t | t in es ensures marked[t] == WithHandled(base[t], p in es[t].handled, p) {
      assert t in f.handled <==> p in es[t].handled;
    }
    QueueAllAt(marked, {}, f.unhandled, p, marked);
    var loaded, goal := QueueAll(marked, f.unhandled, p), Reloaded(es, order + [p]);
    forall t | t in es ensures loaded[t] == goal[t] {
      assert t in f.unhandled <==> p in es[t].unhandled;
      LoadedEntry(es[t], order, p, base[t]);
    }
  }

  lemma NotEarlier(done: seq<PeerId>, order: seq<PeerId>)
    requires NoDup(done + order) && order != []
    ensures order[0] !in done && done + order == (done + [order[0]]) + order[1..]
  {
    var all := done + order;
    assert all[|done|] == order[0] && forall i :: 0 <= i < |done| ==> all[i] == done[i];
  }

  ghost predicate FilesOf(files: seq<PeerFile>, es: Entries, order: seq<PeerId>) {
    |files| == |order| && forall i :: 0 <= i < |order| ==> IsFileOf(files[i], es, order[i])
  }

  lemma {:induction false} LoadRest(es: Entries, done: seq<PeerId>, order: seq<PeerId>, files: seq<PeerFile>)
    requires AllListsOk(es) && NoDup(done + order) && FilesOf(files, es, order)
    ensures LoadAll(Reloaded(es, done), files) == Reloaded(es, done + order)
    decreases |order|
  {
    if order == [] {
      assert done + order == done;
    } else {
      NotEarlier(done, order);
      assert IsFileOf(files[0], es, order[0]);
      LoadPeerRestores(es, done, files[0]);
      assert FilesOf(files[1..], es, order[1..]) by {
        forall i | 0 <= i < |order| - 1 ensures IsFileOf(files[1..][i], es, order[1..][i]) {
          assert IsFileOf(files[i + 1], es, order[i + 1]);
        }
      }
      LoadRest(es, done + [order[0]], order[1..], files[1..]);
    }
  }

  /** Saving every peer and loading the files into an index rebuilt with empty lists gives Reloaded. */
  lemma RestartRestores(es: Entries, order: seq<PeerId>, files: seq<PeerFile>)
    requires AllListsOk(es) && NoDup(order) && FilesOf(files, es, order)
    ensures LoadAll(Cleared(es), files) == Reloaded(es, order)
  {
    assert [] + order == order;
    assert Reloaded(es, []) == Cleared(es);
    LoadRest(es, [], order, files);
  }

  /** toBytes: the id lists of one peer's file, collected from the index. */
  method SavePeer(es: Entries, p: PeerId) returns (f: PeerFile)
    ensures IsFileOf(f, es, p)
  {
    f := PeerFile(p, [], []);
    var rest := es.Keys;
    while rest != {}
      invariant rest <= es.Keys && f.peer == p
      invariant forall t :: t in f.handled <==> t in es && t !in rest && p in es[t].handled
      invariant forall t :: t in f.unhandled <==> t in es && t !in rest && p in es[t].unhandled
      decreases rest
    {
      var t :| t in rest;
      if p in es[t].handled { f := f.(handled := f.handled + [t]); }
      if p in es[t].unhandled { f := f.(unhandled := f.unhandled + [t]); }
      rest := rest - {t};
    }
  }

  // ----- steps and runs ------------------------------------------------------

  predicate AtPc(n: Node, i: nat, pc: Pc) {
    i in n.jobs && n.jobs[i].pc == pc
  }

  function Goto(n: Node, i: nat, pc: Pc): map<nat, Job>
    requires i in n.jobs
  {
    n.jobs[i := n.jobs[i].(pc := pc)]
  }

  /** A stop saves one file per current peer; a job moves on from where it stands. */
  ghost predicate Enabled(n: Node, s: Step) {
    match s
    case Begin(i, job) => i !in n.jobs && job.pc == Looking && (job.from.Some? ==> job.from.value in n.peers)
    case LookUp(i) => AtPc(n, i, Looking)
    case Claim(i) => AtPc(n, i, Gate)
    case GiveUp(i) => AtPc(n, i, Claimed)
    case Add(i, _) => AtPc(n, i, Claimed) && n.jobs[i].storable
    case Finish(i) => AtPc(n, i, Marking)
    case Restart(order) => NoDup(order) && Elements(order) == n.peers
    case _ => true
  }

  function Apply(n: Node, s: Step): Node
    requires Enabled(n, s)
  {
    match s
    case Begin(i, job) => n.(jobs := n.jobs[i := job])
    case LookUp(i) => n.(jobs := Goto(n, i, if n.jobs[i].t in n.entries then Marking else Gate))
    case Claim(i) =>
      if n.jobs[i].t in n.processed then n.(jobs := Goto(n, i, Marking))
      else n.(jobs := Goto(n, i, Claimed), processed := n.processed + {n.jobs[i].t})
    case GiveUp(i) => n.(jobs := Goto(n, i, Marking))
    case Add(i, kept) => n.(jobs := Goto(n, i, Marking), entries := Stored(n.entries, n.jobs[i].t, n.jobs[i].e, kept))
    case Finish(i) =>
      n.(jobs := n.jobs - {i},
         entries := if n.jobs[i].from.Some? then MarkHandled(n.entries, n.jobs[i].t, n.jobs[i].from.value)
                    else n.entries)
    case Expire(t) => n.(processed := n.processed - {t})
    case Discard(kept) => n.(entries := Restrict(n.entries, kept))
    case Queue(t, p) => n.(entries := AddUnhandled(n.entries, t, p))
    case Drop(t, p) => n.(entries := RemoveUnhandled(n.entries, t, p))
    case Mark(t, p) => n.(entries := MarkHandled(n.entries, t, p))
    case AddPeer(p) => n.(peers := n.peers + {p})
    case Unpeer(p) => n.(peers := n.peers - {p})
    case Restart(order) => n.(entries := Reloaded(n.entries, order), jobs := map[])
  }

  ghost predicate Inv(n: Node) {
    AllListsOk(n.entries)
  }

  lemma {:induction false} KeepNoDup(order: seq<PeerId>, list: seq<PeerId>)
    requires NoDup(order)
    ensures NoDup(Keep(order, list))
  {
    if order != [] {
      assert order == [order[0]] + order[1..] && order[0] !in order[1..];
      KeepMembers(order[1..], list);
      KeepNoDup(order[1..], list);
    }
  }

  lemma ReloadedLists(es: Entries, order: seq<PeerId>)
    requires AllListsOk(es) && NoDup(order)
    ensures AllListsOk(Reloaded(es, order))
  {
    forall t | t in es ensures ListsOk(Reloaded(es, order)[t]) {
      KeepNoDup(order, es[t].handled);
      KeepNoDup(order, es[t].unhandled);
      KeepMembers(order, es[t].handled);
      KeepMembers(order, es[t].unhandled);
    }
  }

  /** Every step keeps the peer lists of every entry duplicate-free and disjoint. */
  lemma StepKeepsInv(n: Node, s: Step)
    requires Inv(n) && Enabled(n, s)
    ensures Inv(Apply(n, s))
  {
    match s
    case Finish(i) => if n.jobs[i].from.Some? { MarkHandledUpdate(n.entries, n.jobs[i].t, n.jobs[i].from.value); }
    case Queue(t, p) => AddUnhandledUpdate(n.entries, t, p);
    case Drop(t, p) => RemoveUnhandledUpdate(n.entries, t, p);
    case Mark(t, p) => MarkHandledUpdate(n.entries, t, p);
    case Restart(order) => ReloadedLists(n.entries, order);
    case _ =>
  }

  // ----- when a pair is settled ------------------------------------------------

  /** Some ingest of t stands between its claim and its storing. */
  ghost predicate Pending(n: Node, t: Tid) {
    exists i :: i in n.jobs && n.jobs[i].t == t && n.jobs[i].pc == Claimed && n.jobs[i].storable
  }

  /**
   The pair is settled: while the message is stored the peer is listed as handled, while it is not stored its id
   is remembered, and nobody is about to store it.
   */
  ghost predicate Settled(n: Node, t: Tid, p: PeerId) {
    && (t in n.entries ==> p in n.entries[t].handled)
    && (t in n.entries || t in n.processed)
    && !Pending(n, t)
  }

  predicate Evicts(n: Node, kept: set<Tid>, t: Tid) {
    t in n.entries && t !in kept && t !in n.processed
  }

  /** The steps that end a settled pair. */
  ghost predicate Ends(n: Node, s: Step, t: Tid, p: PeerId)
    requires Enabled(n, s)
  {
    match s
    case Expire(u) => u == t && t !in n.entries
    case Discard(kept) => Evicts(n, kept, t)
    case Add(i, kept) => n.jobs[i].t !in n.entries && Evicts(n, kept, t)
    case Claim(i) => n.jobs[i].t == t && n.jobs[i].storable && t !in n.processed
    case Restart(_) => t in n.entries && p !in n.peers
    case _ => false
  }

  lemma RestartSettled(n: Node, order: seq<PeerId>, t: Tid, p: PeerId)
    requires Inv(n) && Enabled(n, Restart(order)) && Settled(n, t, p)
    ensures Settled(Apply(n, Restart(order)), t, p) <==> t !in n.entries || p in n.peers
  {
    var n' := Apply(n, Restart(order));
    if t in n.entries { KeepMembers(order, n.entries[t].handled); }
    assert p in order <==> p in Elements(order);
    assert !Pending(n', t);
  }

  /** Moving one job changes what is pending only for its own id. */
  lemma PendingMoves(n: Node, m: Node, i: nat, pc: Pc, t: Tid)
    requires i in n.jobs && m.jobs == Goto(n, i, pc) && !Pending(n, t)
    ensures Pending(m, t) <==> n.jobs[i].t == t && n.jobs[i].storable && pc == Claimed
  {
    if n.jobs[i].t == t && n.jobs[i].storable && pc == Claimed {
      assert i in m.jobs && m.jobs[i].t == t && m.jobs[i].pc == Claimed && m.jobs[i].storable;
    }
  }

  /** A settled pair stays settled through every step but exactly those that end it. */
  lemma SettledStays(n: Node, s: Step, t: Tid, p: PeerId)
    requires Inv(n) && Enabled(n, s) && Settled(n, t, p)
    ensures Settled(Apply(n, s), t, p) <==> !Ends(n, s, t, p)
  {
    var n' := Apply(n, s);
    match s
    case Begin(i, job) => assert !Pending(n', t) by { NothingBegins(n, i, job, t); }
    case LookUp(i) => PendingMoves(n, n', i, n'.jobs[i].pc, t);
    case Claim(i) => PendingMoves(n, n', i, n'.jobs[i].pc, t);
    case GiveUp(i) => PendingMoves(n, n', i, Marking, t);
    case Add(i, kept) =>
      PendingMoves(n, n', i, Marking, t);
      assert n.jobs[i].t != t;
    case Finish(i) =>
      assert !Pending(n', t) by { NothingFinishes(n, i, t); }
      if n.jobs[i].from.Some? { MarkHandledUpdate(n.entries, n.jobs[i].t, n.jobs[i].from.value); }
    case Queue(u, q) => AddUnhandledUpdate(n.entries, u, q);
    case Drop(u, q) => RemoveUnhandledUpdate(n.entries, u, q);
    case Mark(u, q) => MarkHandledUpdate(n.entries, u, q);
    case Restart(order) => RestartSettled(n, order, t, p);
    case _ =>
  }

  lemma NothingBegins(n: Node, i: nat, job: Job, t: Tid)
    requires i !in n.jobs && job.pc == Looking && !Pending(n, t)
    ensures !Pending(n.(jobs := n.jobs[i := job]), t)
  {
  }

  lemma NothingFinishes(n: Node, i: nat, t: Tid)
    requires !Pending(n, t)
    ensures forall es :: !Pending(n.(jobs := n.jobs - {i}, entries := es), t)
  {
  }

  /**
   Handling a peer's own copy settles the pair exactly when no other ingest of the message stands between its
   claim and its storing, and the message is stored or remembered.
   */
  lemma BecomesSettled(n: Node, i: nat, p: PeerId)
    requires Inv(n) && Enabled(n, Finish(i)) && n.jobs[i].from == Some(p)
    ensures var t := n.jobs[i].t;
            Settled(Apply(n, Finish(i)), t, p) <==> !Pending(n, t) && (t in n.entries || t in n.processed)
  {
    var t, n' := n.jobs[i].t, Apply(n, Finish(i));
    MarkHandledUpdate(n.entries, t, p);
    if j :| j in n.jobs && n.jobs[j].t == t && n.jobs[j].pc == Claimed && n.jobs[j].storable {
      assert j in n'.jobs && n'.jobs[j] == n.jobs[j];
    }
  }

  // ----- runs --------------------------------------------------------------------

  function Run(n: Node, steps: seq<Step>): Node
    requires AllEnabled(n, steps)
    decreases |steps|
  {
    if steps == [] then n else Run(Apply(n, steps[0]), steps[1..])
  }

  ghost predicate AllEnabled(n: Node, steps: seq<Step>)
    decreases |steps|
  {
    steps == [] || (Enabled(n, steps[0]) && AllEnabled(Apply(n, steps[0]), steps[1..]))
  }

  ghost predicate NeverEnds(n: Node, steps: seq<Step>, t: Tid, p: PeerId)
    requires AllEnabled(n, steps)
    decreases |steps|
  {
    steps == [] || (!Ends(n, steps[0], t, p) && NeverEnds(Apply(n, steps[0]), steps[1..], t, p))
  }

  lemma {:induction false} RunKeepsInv(n: Node, steps: seq<Step>)
    requires Inv(n) && AllEnabled(n, steps)
    ensures Inv(Run(n, steps))
    decreases |steps|
  {
    if steps != [] {
      StepKeepsInv(n, steps[0]);
      RunKeepsInv(Apply(n, steps[0]), steps[1..]);
    }
  }

  /**
   A settled message is never queued for its peer again, through flushes, concurrent ingests, eviction, expiry,
   un-peering, re-peering and restarts, in every run without a step that ends the pair.
   */
  lemma {:induction false} NeverOfferedBack(n: Node, steps: seq<Step>, t: Tid, p: PeerId)
    requires Inv(n) && AllEnabled(n, steps) && Settled(n, t, p) && NeverEnds(n, steps, t, p)
    ensures Settled(Run(n, steps), t, p)
    ensures t in Run(n, steps).entries ==> p !in Run(n, steps).entries[t].unhandled
    decreases |steps|
  {
    if steps != [] {
      StepKeepsInv(n, steps[0]);
      SettledStays(n, steps[0], t, p);
      NeverOfferedBack(Apply(n, steps[0]), steps[1..], t, p);
    }
  }

  ghost predicate Path(ns: seq<Node>, steps: seq<Step>) {
    && |ns| == |steps| + 1
    && forall k :: 0 <= k < |steps| ==> Enabled(ns[k], steps[k]) && ns[k + 1] == Apply(ns[k], steps[k])
  }

  lemma {:induction false} PathIsRun(ns: seq<Node>, steps: seq<Step>)
    requires Path(ns, steps)
    ensures AllEnabled(ns[0], steps) && Run(ns[0], steps) == ns[|steps|]
    decreases |steps|
  {
    if steps != [] {
      assert Path(ns[1..], steps[1..]);
      PathIsRun(ns[1..], steps[1..]);
    }
  }

  /** The message is queued for the peer at the end of the run. */
  ghost predicate Offers(n: Node, steps: seq<Step>, t: Tid, p: PeerId) {
    AllEnabled(n, steps) && var m := Run(n, steps); t in m.entries && p in m.entries[t].unhandled
  }

  /** A stored message that is not handled for p gets queued when p is a peer and the store is synced to it. */
  lemma QueueOffers(ns: seq<Node>, steps: seq<Step>, t: Tid, p: PeerId)
    requires Path(ns, steps) && t in ns[|steps|].entries && p !in ns[|steps|].entries[t].handled
    ensures Offers(ns[0], steps + [AddPeer(p), Queue(t, p)], t, p)
  {
    var n := ns[|steps|];
    var n1 := Apply(n, AddPeer(p));
    var n2 := Apply(n1, Queue(t, p));
    var all, path := steps + [AddPeer(p), Queue(t, p)], ns + [n1, n2];
    assert Path(path, all);
    PathIsRun(path, all);
  }

  lemma {:induction false} FreshJob(s: set<nat>) returns (b: nat)
    ensures forall i :: i in s ==> i < b
  {
    b := 0;
    if s != {} {
      var x :| x in s;
      var c := FreshJob(s - {x});
      b := if x < c then c else x + 1;
      assert forall i :: i in s ==> i == x || i in s - {x};
    }
  }

  /** An id neither stored nor remembered is taken in when a copy of the message arrives. */
  lemma ForgottenIsStored(n: Node, t: Tid, e: Entry) returns (ns: seq<Node>, steps: seq<Step>)
    requires t !in n.entries && t !in n.processed
    ensures Path(ns, steps) && ns[0] == n
    ensures t in ns[|steps|].entries && ns[|steps|].entries[t] == e.(handled := [], unhandled := [])
  {
    var i := FreshJob(n.jobs.Keys);
    var job := Job(t, e, None, true, Looking);
    var n1 := Apply(n, Begin(i, job));
    var n2 := Apply(n1, LookUp(i));
    var n3 := Apply(n2, Claim(i));
    var n4 := Apply(n3, Add(i, n.entries.Keys + {t}));
    steps, ns := [Begin(i, job), LookUp(i), Claim(i), Add(i, n.entries.Keys + {t})], [n, n1, n2, n3, n4];
  }

  /** A pending ingest stores the message without any mark, if need be after its old entry was evicted. */
  lemma PendingIsStored(n: Node, t: Tid) returns (ns: seq<Node>, steps: seq<Step>)
    requires Pending(n, t)
    ensures Path(ns, steps) && ns[0] == n && t in ns[|steps|].entries && ns[|steps|].entries[t].handled == []
  {
    var i :| i in n.jobs && n.jobs[i].t == t && n.jobs[i].pc == Claimed && n.jobs[i].storable;
    var cut := Discard(n.entries.Keys - {t});
    var n1 := Apply(n, cut);
    var add := Add(i, n.entries.Keys + {t});
    var n2 := Apply(n1, add);
    steps, ns := [cut, add], [n, n1, n2];
  }

  /** Settled is exact: from every other state some run queues the message for the peer. */
  lemma UnsettledIsOffered(n: Node, t: Tid, p: PeerId, e: Entry) returns (steps: seq<Step>)
    requires !Settled(n, t, p)
    ensures Offers(n, steps, t, p)
  {
    var ns;
    if Pending(n, t) {
      ns, steps := PendingIsStored(n, t);
    } else if t in n.entries {
      ns, steps := [n], [];
    } else {
      ns, steps := ForgottenIsStored(n, t, e);
    }
    QueueOffers(ns, steps, t, p);
    steps := steps + [AddPeer(p), Queue(t, p)];
  }

  // ----- the three ways a pair ends, as runs -----------------------------------

  lemma PathJoin(a: seq<Node>, s: seq<Step>, b: seq<Node>, u: seq<Step>)
    requires Path(a, s) && Path(b, u) && a[|s|] == b[0]
    ensures Path(a + b[1..], s + u) && (a + b[1..])[|s + u|] == b[|u|] && (a + b[1..])[0] == a[0]
  {
    var ns, steps := a + b[1..], s + u;
    forall k | 0 <= k < |steps| ensures Enabled(ns[k], steps[k]) && ns[k + 1] == Apply(ns[k], steps[k]) {
      if k >= |s| { assert steps[k] == u[k - |s|] && ns[k] == b[k - |s|] && ns[k + 1] == b[k - |s| + 1]; }
    }
  }

  function Copy(t: Tid, e: Entry, p: PeerId): Job {
    Job(t, e, Some(p), true, Looking)
  }

  lemma ClaimPath(n: Node, t: Tid, e: Entry, q: PeerId, i: nat) returns (ns: seq<Node>)
    requires t !in n.entries && t !in n.processed && q in n.peers && i !in n.jobs
    ensures Path(ns, [Begin(i, Copy(t, e, q)), LookUp(i), Claim(i)]) && ns[0] == n
    ensures ns[3] == n.(jobs := n.jobs[i := Copy(t, e, q).(pc := Claimed)], processed := n.processed + {t})
  {
    var n1 := Apply(n, Begin(i, Copy(t, e, q)));
    var n2 := Apply(n1, LookUp(i));
    var n3 := Apply(n2, Claim(i));
    ns := [n, n1, n2, n3];
  }

  /** A copy that arrives while its id is remembered but not stored leaves no trace. */
  lemma IgnoredPath(n: Node, t: Tid, e: Entry, p: PeerId, j: nat) returns (ns: seq<Node>)
    requires t !in n.entries && t in n.processed && p in n.peers && j !in n.jobs
    ensures Path(ns, [Begin(j, Copy(t, e, p)), LookUp(j), Claim(j), Finish(j)]) && ns[0] == n && ns[4] == n
  {
    var n1 := Apply(n, Begin(j, Copy(t, e, p)));
    var n2 := Apply(n1, LookUp(j));
    var n3 := Apply(n2, Claim(j));
    FinishIs(n, n3, j, Copy(t, e, p));
    var n4 := Apply(n3, Finish(j));
    ns := [n, n1, n2, n3, n4];
  }

  /**
   Two peers deliver one message at the same time. The copy from p is ignored while the other is claimed but not
   yet stored, so its mark finds no entry, and the message is then queued for p, which sent it.
   */
  lemma ConcurrentCopyIsOffered(n: Node, t: Tid, e: Entry, p: PeerId, q: PeerId, i: nat, j: nat)
    requires t !in n.entries && t !in n.processed && p in n.peers && q in n.peers
    requires i !in n.jobs && j !in n.jobs && i != j
    ensures Offers(n, [Begin(i, Copy(t, e, q)), LookUp(i), Claim(i)]
                      + [Begin(j, Copy(t, e, p)), LookUp(j), Claim(j), Finish(j)]
                      + [Add(i, n.entries.Keys + {t})] + [AddPeer(p), Queue(t, p)], t, p)
  {
    var s1, s2 := [Begin(i, Copy(t, e, q)), LookUp(i), Claim(i)],
                  [Begin(j, Copy(t, e, p)), LookUp(j), Claim(j), Finish(j)];
    var add := Add(i, n.entries.Keys + {t});
    var a := ClaimPath(n, t, e, q, i);
    var b := IgnoredPath(a[3], t, e, p, j);
    PathJoin(a, s1, b, s2);
    var c := [b[4], Apply(b[4], add)];
    PathJoin(a + b[1..], s1 + s2, c, [add]);
    QueueOffers(a + b[1..] + c[1..], s1 + s2 + [add], t, p);
  }

  /** An evicted message whose id expires from the cache is taken from anyone and queued for its old peer. */
  lemma ExpiredIsOffered(n: Node, t: Tid, p: PeerId, e: Entry) returns (steps: seq<Step>)
    requires Settled(n, t, p)
    ensures |steps| > 2 && steps[..2] == [Discard(n.entries.Keys - {t}), Expire(t)] && Offers(n, steps, t, p)
  {
    var cut := Discard(n.entries.Keys - {t});
    var n1 := Apply(n, cut);
    var n2 := Apply(n1, Expire(t));
    var ns, more := ForgottenIsStored(n2, t, e);
    var path, first := [n, n1] + ns, [cut, Expire(t)] + more;
    assert Path(path, first);
    QueueOffers(path, first, t, p);
    steps := first + [AddPeer(p), Queue(t, p)];
  }

  /** A stop and start keeps a settled pair settled exactly when the peer is current or the message gone. */
  lemma RestartKeepsSettledIff(n: Node, order: seq<PeerId>, t: Tid, p: PeerId)
    requires Inv(n) && Enabled(n, Restart(order)) && Settled(n, t, p)
    ensures Settled(Apply(n, Restart(order)), t, p) <==> t !in n.entries || p in n.peers
  {
    SettledStays(n, Restart(order), t, p);
  }

  /** Un-peered at the stop, peered again afterwards: the store sync queues the message for its origin. */
  lemma ForgottenIsOfferedBack(n: Node, order: seq<PeerId>, t: Tid, p: PeerId)
    requires Inv(n) && Settled(n, t, p) && t in n.entries && p !in n.peers && Enabled(n, Restart(order))
    ensures Offers(n, [Restart(order), AddPeer(p), Queue(t, p)], t, p)
  {
    var n1 := Apply(n, Restart(order));
    assert p !in order by { assert p in order <==> p in Elements(order); }
    KeepMembers(order, n.entries[t].handled);
    QueueOffers([n, n1], [Restart(order)], t, p);
    assert [Restart(order)] + [AddPeer(p), Queue(t, p)] == [Restart(order), AddPeer(p), Queue(t, p)];
  }

  // ----- one ingest without interruption ----------------------------------------

  /** The steps of one ingest in a row are one call of lxmfPropagation followed by the origin's mark. */
  lemma IngestIsSteps(n: Node, i: nat, job: Job, kept: set<Tid>) returns (steps: seq<Step>)
    requires Enabled(n, Begin(i, job))
    ensures AllEnabled(n, steps)
    ensures Run(n, steps) == Ingested(n, job, kept)
  {
    var ns, before := ReachMarking(n, i, job, kept);
    var m := ns[|before|];
    FinishIs(Propagate(n, job.t, job.e, job.storable, kept), m, i, job);
    var m' := Apply(m, Finish(i));
    PathJoin(ns, before, [m, m'], [Finish(i)]);
    steps := before + [Finish(i)];
    PathIsRun(ns + [m, m'][1..], steps);
  }

  lemma ReachMarking(n: Node, i: nat, job: Job, kept: set<Tid>) returns (ns: seq<Node>, steps: seq<Step>)
    requires Enabled(n, Begin(i, job))
    ensures Path(ns, steps) && ns[0] == n
    ensures var m := Propagate(n, job.t, job.e, job.storable, kept);
            ns[|steps|] == m.(jobs := m.jobs[i := job.(pc := Marking)])
  {
    var n1 := Apply(n, Begin(i, job));
    var n2 := Apply(n1, LookUp(i));
    if job.t in n.entries {
      steps, ns := [Begin(i, job), LookUp(i)], [n, n1, n2];
    } else {
      var n3 := Apply(n2, Claim(i));
      if job.t in n.processed {
        steps, ns := [Begin(i, job), LookUp(i), Claim(i)], [n, n1, n2, n3];
      } else {
        var put := if job.storable then Add(i, kept) else GiveUp(i);
        var n4 := Apply(n3, put);
        steps, ns := [Begin(i, job), LookUp(i), Claim(i), put], [n, n1, n2, n3, n4];
      }
    }
  }

  function Ingested(n: Node, job: Job, kept: set<Tid>): Node {
    var m := Propagate(n, job.t, job.e, job.storable, kept);
    if job.from.Some? then m.(entries := MarkHandled(m.entries, job.t, job.from.value)) else m
  }

  lemma FinishIs(n: Node, m: Node, i: nat, job: Job)
    requires i !in n.jobs && m == n.(jobs := n.jobs[i := job.(pc := Marking)])
    ensures Enabled(m, Finish(i))
    ensures Apply(m, Finish(i)) ==
            if job.from.Some? then n.(entries := MarkHandled(n.entries, job.t, job.from.value)) else n
  {
    assert n.jobs[i := job.(pc := Marking)] - {i} == n.jobs;
  }

  // ----- the loops that queue ------------------------------------------------

  datatype QueueItem = QueueItem(t: Tid, from: Option<PeerId>)

  /** Some queued item asks for t to be distributed to p. */
  ghost predicate Wanted(queue: seq<QueueItem>, peers: set<PeerId>, t: Tid, p: PeerId) {
    p in peers && exists i :: 0 <= i < |queue| && queue[i].t == t && queue[i].from != Some(p)
  }

  /** The unhandled lists grew by exactly the wanted pairs that are not handled; all else is the same. */
  ghost predicate QueuedExactly(es: Entries, after: Entries, wanted: iset<(Tid, PeerId)>) {
    && AllListsOk(after) && after.Keys == es.Keys
    && (forall t :: t in es ==> after[t] == es[t].(unhandled := after[t].unhandled))
    && (forall t, p :: t in es ==>
          (p in after[t].unhandled <==> p in es[t].unhandled || (p !in es[t].handled && (t, p) in wanted)))
  }

  lemma QueueOne(es: Entries, mid: Entries, wanted: iset<(Tid, PeerId)>, t: Tid, p: PeerId)
    requires AllListsOk(es) && QueuedExactly(es, mid, wanted)
    ensures QueuedExactly(es, AddUnhandled(mid, t, p), wanted + iset{(t, p)})
  {
    AddUnhandledUpdate(mid, t, p);
  }

  /** A store that only lost entries is the old one restricted to what it kept. */
  lemma KeptOnly(es: Entries, after: Entries)
    requires after.Keys <= es.Keys && forall t :: t in after ==> after[t] == es[t]
    ensures after == Restrict(es, after.Keys)
  {
  }

  class Router {
    const store: MessageStore
    var peers: set<PeerId>
    var queue: seq<QueueItem>
    var processed: set<Tid>

    constructor (store: MessageStore)
      ensures this.store == store && peers == {} && queue == [] && processed == {}
    {
      this.store, peers, queue, processed := store, {}, [], {};
    }

    function View(): Node reads this, store {
      Node(store.entries, processed, peers, map[])
    }

    /**
     lxmfPropagation: `delivered` says whether the message was for this node and could be decrypted. What is
     stored is also queued for distribution, with the peer it came from.
     */
    method LxmfPropagation(sha: seq<byte> -> Digest, lxm: seq<byte>, stamp: seq<byte>, value: nat, from: Option<PeerId>,
                           delivered: bool, enabled: bool, now: int, clock: Tid -> int) returns (accepted: bool)
      modifies this, store
      ensures |lxm| < OVERHEAD ==> !accepted && View() == old(View()) && queue == old(queue)
      ensures |lxm| >= OVERHEAD ==>
                && View() ==
                   Propagate(old(View()), sha(lxm), Entry(lxm, stamp, now, value, [], []), accepted && !delivered,
                             store.entries.Keys)
                && (accepted <==> sha(lxm) !in old(store.entries) && sha(lxm) !in old(processed)
                                  && (delivered || (enabled && stamp != [])))
      ensures queue == old(queue) + (if accepted && !delivered then [QueueItem(sha(lxm), from)] else [])
    {
      if |lxm| < OVERHEAD { return false; }
      var t := sha(lxm);
      if t in store.entries || t in processed { return false; }
      processed := processed + {t};
      if delivered { return true; }
      if !enabled || stamp == [] { return false; }
      ghost var grown := store.entries[t := Entry(lxm, stamp, now, value, [], [])];
      var ok := store.Add(sha, lxm, stamp, value, now, clock);
      KeptOnly(grown, store.entries);
      queue := queue + [QueueItem(t, from)];
      return true;
    }

    /** One queued item to every current peer but its origin. */
    method Distribute(item: QueueItem)
      requires AllListsOk(store.entries)
      modifies store
      ensures QueuedExactly(old(store.entries), store.entries,
                            iset p | p in peers && item.from != Some(p) :: (item.t, p))
    {
      var rest := peers;
      ghost var done: iset<(Tid, PeerId)> := iset{};
      while rest != {}
        invariant rest <= peers
        invariant done == iset p | p in peers - rest && item.from != Some(p) :: (item.t, p)
        invariant QueuedExactly(old(store.entries), store.entries, done)
        decreases rest
      {
        var p :| p in rest;
        if item.from != Some(p) {
          QueueOne(old(store.entries), store.entries, done, item.t, p);
          store.AddUnhandledPeer(item.t, p);
          done := done + iset{(item.t, p)};
        }
        rest := rest - {p};
      }
    }

    /** flushPeerDistribution: a message is never queued for the peer it came from. */
    method FlushPeerDistribution()
      requires AllListsOk(store.entries)
      modifies this, store
      ensures queue == [] && peers == old(peers)
      ensures QueuedExactly(old(store.entries), store.entries,
                            iset t, p | Wanted(old(queue), old(peers), t, p) :: (t, p))
    {
      var items := queue;
      queue := [];
      for i := 0 to |items|
        invariant peers == old(peers) && queue == []
        invariant QueuedExactly(old(store.entries), store.entries,
                                iset t, p | Wanted(items[..i], peers, t, p) :: (t, p))
      {
        ghost var before := store.entries;
        Distribute(items[i]);
        Compose(old(store.entries), before, store.entries, items, i, peers);
      }
      assert items[..|items|] == items;
    }

    /** queuePeerStoreSync: everything the peer has not handled is queued for it, nothing else. */
    method QueuePeerStoreSync(p: PeerId)
      requires AllListsOk(store.entries)
      modifies store
      ensures QueuedExactly(old(store.entries), store.entries, iset t | t in old(store.entries) :: (t, p))
    {
      var snapshot := store.entries;
      var rest := snapshot.Keys;
      ghost var done: iset<(Tid, PeerId)> := iset{};
      while rest != {}
        invariant rest <= snapshot.Keys
        invariant forall t, q :: (t, q) in done ==> q == p && t in snapshot
        invariant forall t :: t in snapshot && t !in rest && p !in snapshot[t].handled ==> (t, p) in done
        invariant QueuedExactly(snapshot, store.entries, done)
        decreases rest
      {
        var t :| t in rest;
        if p !in snapshot[t].handled {
          QueueOne(snapshot, store.entries, done, t, p);
          store.AddUnhandledPeer(t, p);
          done := done + iset{(t, p)};
        }
        rest := rest - {t};
      }
    }
  }

  lemma Compose(es: Entries, mid: Entries, after: Entries, items: seq<QueueItem>, i: nat, peers: set<PeerId>)
    requires i < |items| && AllListsOk(es)
    requires QueuedExactly(es, mid, iset t, p | Wanted(items[..i], peers, t, p) :: (t, p))
    requires QueuedExactly(mid, after, iset p | p in peers && items[i].from != Some(p) :: (items[i].t, p))
    ensures QueuedExactly(es, after, iset t, p | Wanted(items[..i + 1], peers, t, p) :: (t, p))
  {
    forall t, p ensures Wanted(items[..i + 1], peers, t, p) <==>
                        Wanted(items[..i], peers, t, p) || (p in peers && items[i].t == t && items[i].from != Some(p)) {
      assert items[..i + 1] == items[..i] + [items[i]];
      if p in peers && items[i].t == t && items[i].from != Some(p) { assert items[..i + 1][i] == items[i]; }
      if Wanted(items[..i], peers, t, p) {
        var j :| 0 <= j < i && items[..i][j].t == t && items[..i][j].from != Some(p);
        assert items[..i + 1][j] == items[..i][j];
      }
    }
  }
}
