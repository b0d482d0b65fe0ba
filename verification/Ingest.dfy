/**
 Concurrent ingest (lxmfPropagation in pkg/lxmf/router_propagation.go and the duplicate check of
 onPacket in pkg/lxmf/messenger.go). Threads interleave between any two critical sections; the one
 atomic action that matters is the check-and-set on the remembered ids.
 */
module Ingest {
  type Id = seq<int>

  /**
   Where a thread stands between its critical sections. Unlike the jobs of PropagationNode, which carry a message into
   the store and its lists, a thread has an id only: it also stands for the messenger's gate, which has no store, and
   it takes storing and queueing as two steps, so that the effects of every kind can be counted.
   */
  datatype Pc = Start | Gate | Claimed | Stored | Done

  datatype Thread = Thread(id: Id, pc: Pc)

  /** Shared state, the threads, and how often each thing has happened to each id. */
  datatype Sys = Sys(threads: map<nat, Thread>, store: set<Id>, remembered: set<Id>,
                     claims: multiset<Id>, delivered: multiset<Id>, stored: multiset<Id>, queued: multiset<Id>,
                     expired: multiset<Id>)

  /** Note is noteDelivered, which remembers an id of a message that arrived directly, without a check. */
  datatype Act =
    | Spawn(i: nat, id: Id)
    | SpawnAtGate(i: nat, id: Id)
    | CheckStore(i: nat)
    | CheckAndSet(i: nat)
    | Deliver(i: nat)
    | GiveUp(i: nat)
    | AddToStore(i: nat)
    | Enqueue(i: nat)
    | Evict(id: Id)
    | Note(id: Id)
    | Expire(id: Id)

  predicate At(s: Sys, i: nat, pc: Pc) {
    i in s.threads && s.threads[i].pc == pc
  }

  predicate Enabled(s: Sys, act: Act) {
    match act
    case Spawn(i, _) => i !in s.threads
    case SpawnAtGate(i, _) => i !in s.threads
    case CheckStore(i) => At(s, i, Start)
    case CheckAndSet(i) => At(s, i, Gate)
    case Deliver(i) => At(s, i, Claimed)
    case GiveUp(i) => At(s, i, Claimed)
    case AddToStore(i) => At(s, i, Claimed)
    case Enqueue(i) => At(s, i, Stored)
    case Evict(_) => true
    case Note(_) => true
    case Expire(id) => id in s.remembered
  }

  function Goto(s: Sys, i: nat, pc: Pc): map<nat, Thread>
    requires i in s.threads
  {
    s.threads[i := s.threads[i].(pc := pc)]
  }

  function Apply(s: Sys, act: Act): Sys
    requires Enabled(s, act)
  {
    match act
    case Spawn(i, id) => s.(threads := s.threads[i := Thread(id, Start)])
    case SpawnAtGate(i, id) => s.(threads := s.threads[i := Thread(id, Gate)])
    case CheckStore(i) => s.(threads := Goto(s, i, if s.threads[i].id in s.store then Done else Gate))
    case CheckAndSet(i) =>
      var id := s.threads[i].id;
      if id in s.remembered then s.(threads := Goto(s, i, Done))
      else s.(threads := Goto(s, i, Claimed), remembered := s.remembered + {id}, claims := s.claims + multiset{id})
    case Deliver(i) => s.(threads := Goto(s, i, Done), delivered := s.delivered + multiset{s.threads[i].id})
    case GiveUp(i) => s.(threads := Goto(s, i, Done))
    case AddToStore(i) =>
      var id := s.threads[i].id;
      s.(threads := Goto(s, i, Stored), store := s.store + {id}, stored := s.stored + multiset{id})
    case Enqueue(i) => s.(threads := Goto(s, i, Done), queued := s.queued + multiset{s.threads[i].id})
    case Evict(id) => s.(store := s.store - {id})
    case Note(id) => s.(remembered := s.remembered + {id})
    case Expire(id) => s.(remembered := s.remembered - {id}, expired := s.expired + multiset{id})
  }

  // ----- the invariant -------------------------------------------------------

  /** The threads that work on id and stand at pc. */
  function Those(s: Sys, id: Id, pc: Pc): set<nat> {
    set i | i in s.threads && s.threads[i] == Thread(id, pc)
  }

  function One(b: bool): nat {
    if b then 1 else 0
  }

  /** For one id: passes of the gate are paid by expiries, and effects are paid by passes. */
  ghost predicate Balanced(s: Sys, id: Id) {
    && s.claims[id] <= s.expired[id] + One(id in s.remembered)
    && s.delivered[id] + s.stored[id] + |Those(s, id, Claimed)| <= s.claims[id]
    && s.queued[id] + |Those(s, id, Stored)| <= s.stored[id]
  }

  /** Moving thread i from `from` to `to` shifts exactly that thread between the two sets. */
  lemma MoveThread(s: Sys, s': Sys, i: nat, to: Pc, id: Id, pc: Pc)
    requires i in s.threads && s'.threads == Goto(s, i, to)
    ensures |Those(s', id, pc)| ==
            |Those(s, id, pc)| - One(s.threads[i] == Thread(id, pc)) + One(s.threads[i].id == id && to == pc)
  {
    var rest := Those(s, id, pc) - {i};
    assert s.threads[i] == Thread(id, pc) ==> Those(s, id, pc) == rest + {i};
    assert s.threads[i] != Thread(id, pc) ==> Those(s, id, pc) == rest;
    assert s.threads[i].id == id && to == pc ==> Those(s', id, pc) == rest + {i};
    assert !(s.threads[i].id == id && to == pc) ==> Those(s', id, pc) == rest;
  }

  lemma StepBalanced(s: Sys, act: Act, id: Id)
    requires Enabled(s, act) && Balanced(s, id)
    ensures Balanced(Apply(s, act), id)
  {
    var s' := Apply(s, act);
    match act
    case Spawn(i, _) =>
      assert Those(s', id, Claimed) == Those(s, id, Claimed) && Those(s', id, Stored) == Those(s, id, Stored);
    case SpawnAtGate(i, _) =>
      assert Those(s', id, Claimed) == Those(s, id, Claimed) && Those(s', id, Stored) == Those(s, id, Stored);
    case Evict(_) =>
      assert Those(s', id, Claimed) == Those(s, id, Claimed) && Those(s', id, Stored) == Those(s, id, Stored);
    case Note(_) =>
      assert Those(s', id, Claimed) == Those(s, id, Claimed) && Those(s', id, Stored) == Those(s, id, Stored);
    case Expire(_) =>
      assert Those(s', id, Claimed) == Those(s, id, Claimed) && Those(s', id, Stored) == Those(s, id, Stored);
    case _ =>
      MoveThread(s, s', act.i, s'.threads[act.i].pc, id, Claimed);
      MoveThread(s, s', act.i, s'.threads[act.i].pc, id, Stored);
  }

  ghost predicate IsRun(states: seq<Sys>, acts: seq<Act>) {
    && |states| == |acts| + 1
    && forall k :: 0 <= k < |acts| ==> Enabled(states[k], acts[k]) && states[k + 1] == Apply(states[k], acts[k])
  }

  /** No thread is past the gate and nothing has been counted yet; store and cache are arbitrary. */
  ghost predicate Initial(s: Sys) {
    && (forall i :: i in s.threads ==> s.threads[i].pc == Start || s.threads[i].pc == Gate)
    && s.claims == s.delivered == s.stored == s.queued == s.expired == multiset{}
  }

  lemma {:induction false} RunBalanced(states: seq<Sys>, acts: seq<Act>, k: nat, id: Id)
    requires IsRun(states, acts) && Initial(states[0]) && k < |states|
    ensures Balanced(states[k], id)
  {
    if k == 0 {
      assert Those(states[0], id, Claimed) == {} && Those(states[0], id, Stored) == {};
    } else {
      RunBalanced(states, acts, k - 1, id);
      StepBalanced(states[k - 1], acts[k - 1], id);
    }
  }

  /**
   Single acceptance: under every interleaving an id is stored or delivered at most once more than
   its cache entry has expired, and it is queued for distribution at most as often as it is stored.
   */
  lemma AcceptedOnce(states: seq<Sys>, acts: seq<Act>, k: nat, id: Id)
    requires IsRun(states, acts) && Initial(states[0]) && k < |states|
    ensures var s := states[k];
            s.stored[id] + s.delivered[id] <= 1 + s.expired[id] && s.queued[id] <= s.stored[id]
  {
    RunBalanced(states, acts, k, id);
  }

  /** Remembered at s, id is still remembered at s' with no pass of the gate in between, or it has expired meanwhile. */
  predicate Ignores(s: Sys, s': Sys, id: Id) {
    && s.expired[id] <= s'.expired[id]
    && (id in s.remembered && s'.expired[id] == s.expired[id] ==> id in s'.remembered && s'.claims[id] == s.claims[id])
  }

  lemma StepIgnores(s: Sys, act: Act, id: Id)
    requires Enabled(s, act)
    ensures Ignores(s, Apply(s, act), id)
  {
  }

  lemma {:induction false} IgnoresChain(states: seq<Sys>, j: nat, k: nat, id: Id)
    requires j <= k < |states| && forall i :: j <= i < k ==> Ignores(states[i], states[i + 1], id)
    ensures Ignores(states[j], states[k], id)
    decreases k
  {
    if j < k { IgnoresChain(states, j, k - 1, id); }
  }

  /** From when an id is remembered, by the gate or by a note, until it expires, it is not accepted again. */
  lemma RememberedIsIgnored(states: seq<Sys>, acts: seq<Act>, j: nat, k: nat, id: Id)
    requires IsRun(states, acts) && j <= k < |states|
    ensures Ignores(states[j], states[k], id)
  {
    forall i | j <= i < k ensures Ignores(states[i], states[i + 1], id) { StepIgnores(states[i], acts[i], id); }
    IgnoresChain(states, j, k, id);
  }

  /** An id already remembered at the start, and not expired since, is not accepted at all. */
  lemma KnownIsIgnored(states: seq<Sys>, acts: seq<Act>, k: nat, id: Id)
    requires IsRun(states, acts) && Initial(states[0]) && k < |states|
    requires id in states[0].remembered && states[k].expired[id] == 0
    ensures states[k].stored[id] == states[k].delivered[id] == states[k].queued[id] == 0
  {
    RememberedIsIgnored(states, acts, 0, k, id);
    RunBalanced(states, acts, k, id);
  }
}
