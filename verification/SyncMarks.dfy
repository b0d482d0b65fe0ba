/**
 What A's handled marks about B mean (pkg/lxmf/router_peer.go): over every run, whatever A's record of B says, and
 exactly which step can make one of them wrong.
 */
module SyncMarks {
  import opened Bytes
  import opened StampScore
  import opened MessageStore
  import opened PropagationNode
  import opened PeerSync
  import opened SyncProtocol

  /** Why A may stop offering t to B. */
  ghost predicate Justified(s: Sys, t: Tid) {
    t in s.held || t in s.sent || t in s.received || t in s.big
  }

  ghost predicate MarksOk(w: World, s: Sys) {
    forall t :: t in s.a.entries && w.peerB in s.a.entries[t].handled ==> Justified(s, t)
  }

  /** A message being ingested from B was received from B. */
  ghost predicate JobsOk(w: World, s: Sys) {
    forall i :: i in s.a.jobs && s.a.jobs[i].from == Some(w.peerB) ==> s.a.jobs[i].t in s.received
  }

  /** What B's reply commits to: everything it does not ask for was in its store. */
  ghost predicate AnswerOk(s: Sys) {
    s.phase.Answered? ==>
      match s.phase.answer
      case NoneWanted => forall t :: t in Ids(s.phase.items) ==> t in s.held
      case SomeWanted(wanted) => forall t :: t in Ids(s.phase.items) && t !in wanted ==> t in s.held
      case _ => true
  }

  /** What is stored and will be marked may be. */
  ghost predicate DueOk(s: Sys) {
    forall t :: t in s.due && t in s.a.entries ==> Justified(s, t)
  }

  ghost predicate MarksInv(w: World, s: Sys) {
    Inv(s.a) && MarksOk(w, s) && JobsOk(w, s) && AnswerOk(s) && DueOk(s)
  }

  /** A wanted message had gone when A read the files, and is stored again before A marks what it was asked for. */
  ghost predicate StoresUnsent(s: Sys, act: Act) {
    StoresAgain(s, act) && s.a.jobs[act.s.i].t in s.due && !Justified(s, s.a.jobs[act.s.i].t)
  }

  // ----- A's own steps -------------------------------------------------------------------

  /** p is newly listed as handled at most for t. */
  ghost predicate MarksOnly(n: Node, m: Node, p: PeerId, t: Option<Tid>) {
    forall u :: u in m.entries && p in m.entries[u].handled ==>
      (u in n.entries && p in n.entries[u].handled) || t == Some(u)
  }

  /** The id for which a step of A's node marks B, if any. */
  function MarkedBy(n: Node, step: Step, p: PeerId): Option<Tid> {
    if step.Finish? && step.i in n.jobs && n.jobs[step.i].from == Some(p) then Some(n.jobs[step.i].t) else None
  }

  lemma StepMarks(n: Node, step: Step, p: PeerId)
    requires Inv(n) && Enabled(n, step) && !(step.Mark? && step.p == p)
    ensures MarksOnly(n, Apply(n, step), p, MarkedBy(n, step, p))
  {
    match step
    case Finish(i) => if n.jobs[i].from.Some? { MarkHandledUpdate(n.entries, n.jobs[i].t, n.jobs[i].from.value); }
    case Queue(t, q) => AddUnhandledUpdate(n.entries, t, q);
    case Drop(t, q) => RemoveUnhandledUpdate(n.entries, t, q);
    case Mark(t, q) => MarkHandledUpdate(n.entries, t, q);
    case Restart(order) => forall t | t in n.entries { KeepMembers(order, n.entries[t].handled); }
    case _ =>
  }

  lemma LocalDue(w: World, s: Sys, step: Step)
    requires MarksInv(w, s) && Allowed(w, s, Local(step)) && !StoresUnsent(s, Local(step))
    ensures DueOk(After(w, s, Local(step)))
  {
    var s' := After(w, s, Local(step));
    StepBytes(s.a, step);
    forall t | t in s'.due && t in s'.a.entries ensures Justified(s', t) {
      if t in s.a.entries { assert Justified(s, t); }
    }
  }

  lemma LocalMarks(w: World, s: Sys, step: Step)
    requires MarksInv(w, s) && Allowed(w, s, Local(step)) && !StoresUnsent(s, Local(step))
    ensures MarksInv(w, After(w, s, Local(step)))
  {
    var m := Apply(s.a, step);
    StepKeepsInv(s.a, step);
    StepMarks(s.a, step, w.peerB);
    StepJobs(s.a, step);
    LocalDue(w, s, step);
    NodeMarks(w, s, m, MarkedBy(s.a, step, w.peerB), if step.Begin? then Some(step.job) else None);
  }

  lemma NodeMarks(w: World, s: Sys, m: Node, t: Option<Tid>, begun: Option<Job>)
    requires MarksInv(w, s) && Inv(m) && MarksOnly(s.a, m, w.peerB, t) && SameJobs(s.a, m, begun)
    requires t.Some? ==> t.value in s.received
    requires begun.Some? ==> begun.value.from != Some(w.peerB)
    ensures MarksOk(w, s.(a := m)) && JobsOk(w, s.(a := m)) && AnswerOk(s.(a := m))
  {
  }

  lemma ReceiveAtMarks(w: World, s: Sys, i: nat, pn: PnEntry, from: Option<PeerId>, now: int)
    requires MarksInv(w, s) && i !in s.a.jobs && (from.Some? ==> from.value in s.a.peers)
    ensures MarksInv(w, ReceiveAt(w, s, i, pn, from, now))
  {
    var s' := ReceiveAt(w, s, i, pn, from, now);
    assert s'.a.entries == s.a.entries && s'.phase == s.phase && s'.held == s.held && s'.received >= s.received;
    MoreReasons(w, s, s');
  }

  /** With the same marks and more reasons the marks stay justified. */
  lemma MoreReasons(w: World, s: Sys, s': Sys)
    requires MarksOk(w, s) && DueOk(s) && s'.a.entries.Keys == s.a.entries.Keys && s'.due <= s.due
    requires forall t :: t in s'.a.entries && w.peerB in s'.a.entries[t].handled ==> w.peerB in s.a.entries[t].handled
    requires s'.held >= s.held && s'.sent >= s.sent && s'.received >= s.received && s'.big >= s.big
    ensures MarksOk(w, s') && DueOk(s')
  {
    forall t | t in s'.a.entries && w.peerB in s'.a.entries[t].handled ensures Justified(s', t) {
      assert Justified(s, t);
    }
    forall t | t in s'.due && t in s'.a.entries ensures Justified(s', t) { assert Justified(s, t); }
  }

  lemma ReceiveMarks(w: World, s: Sys, act: Act)
    requires MarksInv(w, s) && Allowed(w, s, act) && act.Receive?
    ensures MarksInv(w, After(w, s, act))
  {
    var r := ValidatePnStamp(w.c, act.data, w.minCostA);
    if r.Some? { ReceiveAtMarks(w, s, act.i, r.value, act.from, act.now); }
  }

  // ----- the exchange -------------------------------------------------------------------------

  lemma OfferMarks(w: World, s: Sys, act: Act)
    requires MarksInv(w, s) && Allowed(w, s, act) && act.SendOffer?
    ensures MarksInv(w, After(w, s, act))
  {
    OfferLists(w, s, act.keys, act.order);
    var s' := After(w, s, act);
    forall t | t in s'.due && t in s'.a.entries ensures Justified(s', t) { assert Justified(s, t); }
  }

  /** B holds every offered id that it does not ask for. */
  lemma AnswerHolds(w: World, s: Sys, items: seq<Item>)
    ensures AnswerOk(Answering(w, s, items))
  {
    var ids, s' := Ids(items), Answering(w, s, items);
    MissingMembers(ids, s.b.entries);
    assert forall t :: t in ids && t !in Missing(ids, s.b.entries) ==> t in s.b.entries;
  }

  lemma AnswerMarks(w: World, s: Sys, act: Act)
    requires MarksInv(w, s) && Allowed(w, s, act) && act.AnswerOffer?
    ensures MarksInv(w, After(w, s, act))
  {
    AnswerEffect(w, s, act);
    if act.refusal.None? { AnswerHolds(w, s, s.phase.items); }
    MoreReasons(w, s, After(w, s, act));
  }

  /** Marking ids with a reason for each. */
  lemma MarkingKeeps(w: World, s: Sys, ts: seq<Tid>, s': Sys)
    requires Inv(s.a) && MarksOk(w, s) && JobsOk(w, s) && DueOk(s) && s'.due <= s.due
    requires s'.a == s.a.(entries := MarkAll(s.a.entries, ts, w.peerB))
    requires s'.held == s.held && s'.sent == s.sent && s'.received == s.received && s'.big == s.big
    requires forall t :: t in ts && t in s.a.entries ==> Justified(s, t)
    ensures Inv(s'.a) && MarksOk(w, s') && JobsOk(w, s') && DueOk(s')
  {
    MarkAllKeeps(s.a.entries, ts, w.peerB);
    forall t | t in s'.due && t in s'.a.entries ensures Justified(s', t) { assert Justified(s, t); }
  }

  /** What is sent may be marked, and what had gone is not stored. */
  lemma TransferMarks(w: World, s: Sys, keys: seq<Tid>, sendOk: bool)
    requires Inv(s.a) && MarksOk(w, s) && JobsOk(w, s) && DueOk(s)
    ensures MarksInv(w, Transfer(s, s.a.entries, keys, sendOk))
  {
    var s' := Transfer(s, s.a.entries, keys, sendOk);
    assert s'.a == s.a && s'.sent >= s.sent;
    forall t | t in s'.due && t in s'.a.entries ensures Justified(s', t) {
      if t in s.due { assert Justified(s, t); }
    }
    forall t | t in s'.a.entries && w.peerB in s'.a.entries[t].handled ensures Justified(s', t) {
      assert Justified(s, t);
    }
  }

  lemma TakeSomeMarks(w: World, s: Sys, items: seq<Item>, wanted: seq<Tid>, sendOk: bool)
    requires Inv(s.a) && MarksOk(w, s) && JobsOk(w, s) && DueOk(s)
    requires forall t :: t in Ids(items) && t !in wanted ==> t in s.held
    ensures MarksInv(w, Taking(w, s, items, SomeWanted(wanted), sendOk))
  {
    var unwanted := Those(Ids(items), wanted, false);
    var mid := s.(a := s.a.(entries := MarkAll(s.a.entries, unwanted, w.peerB)));
    ThoseMembers(Ids(items), wanted, false);
    MarkingKeeps(w, s, unwanted, mid);
    TransferMarks(w, mid, Those(Ids(items), wanted, true), sendOk);
    assert Taking(w, s, items, SomeWanted(wanted), sendOk) ==
           Transfer(mid, mid.a.entries, Those(Ids(items), wanted, true), sendOk);
  }

  lemma TakeNoneMarks(w: World, s: Sys, items: seq<Item>, sendOk: bool)
    requires Inv(s.a) && MarksOk(w, s) && JobsOk(w, s) && DueOk(s) && forall t :: t in Ids(items) ==> t in s.held
    ensures MarksInv(w, Taking(w, s, items, NoneWanted, sendOk))
  {
    MarkingKeeps(w, s, Ids(items), Taking(w, s, items, NoneWanted, sendOk));
  }

  lemma TakeRefusalMarks(w: World, s: Sys, items: seq<Item>, code: Code, sendOk: bool)
    requires Inv(s.a) && MarksOk(w, s) && JobsOk(w, s) && DueOk(s)
    ensures MarksInv(w, Taking(w, s, items, Refused(code), sendOk))
  {
    MoreReasons(w, s, Taking(w, s, items, Refused(code), sendOk));
  }

  lemma TakeMarks(w: World, s: Sys, act: Act)
    requires MarksInv(w, s) && Allowed(w, s, act) && act.TakeAnswer?
    ensures MarksInv(w, After(w, s, act))
  {
    var items := s.phase.items;
    match s.phase.answer
    case NoneWanted => TakeNoneMarks(w, s, items, act.sendOk);
    case AllWanted => TransferMarks(w, s, Ids(items), act.sendOk);
    case SomeWanted(wanted) => TakeSomeMarks(w, s, items, wanted, act.sendOk);
    case Refused(code) => TakeRefusalMarks(w, s, items, code, act.sendOk);
  }

  lemma OtherMarks(w: World, s: Sys, act: Act)
    requires MarksInv(w, s) && Allowed(w, s, act)
    requires act.Announce? || act.MakeKey? || act.Conclude? || act.ChangeB? || act.LinkDown?
    ensures MarksInv(w, After(w, s, act))
  {
    MoreReasons(w, s, After(w, s, act));
  }

  /** Every other step of either node, announcements included, keeps the marks justified. */
  lemma StepMarksKept(w: World, s: Sys, act: Act)
    requires MarksInv(w, s) && Allowed(w, s, act) && !StoresUnsent(s, act)
    ensures MarksInv(w, After(w, s, act))
  {
    if act.Local? { LocalMarks(w, s, act.s); }
    else if act.Receive? { ReceiveMarks(w, s, act); }
    else if act.SendOffer? { OfferMarks(w, s, act); }
    else if act.AnswerOffer? { AnswerMarks(w, s, act); }
    else if act.TakeAnswer? { TakeMarks(w, s, act); }
    else if act.MarkSent? { MarkingKeeps(w, s, act.keys, After(w, s, act)); }
    else { OtherMarks(w, s, act); }
  }

  // ----- runs --------------------------------------------------------------------------------------

  /** A may have any store, none of it marked for B and nothing under way with B. */
  ghost predicate Unmarked(w: World, s: Sys) {
    && Inv(s.a) && (forall t :: t in s.a.entries ==> w.peerB !in s.a.entries[t].handled)
    && (forall i :: i in s.a.jobs ==> s.a.jobs[i].from != Some(w.peerB))
    && s.phase.Idle? && s.due == {}
  }

  /** None of the first n actions stores a message between its reading and its mark. */
  ghost predicate Undisturbed(w: World, states: seq<Sys>, acts: seq<Act>, n: nat)
    requires IsRun(w, states, acts) && n <= |acts|
  {
    forall k :: 0 <= k < n ==> !StoresUnsent(states[k], acts[k])
  }

  lemma {:induction false} RunMarks(w: World, states: seq<Sys>, acts: seq<Act>, i: nat)
    requires IsRun(w, states, acts) && MarksInv(w, states[0]) && i < |states| && Undisturbed(w, states, acts, i)
    ensures MarksInv(w, states[i])
  {
    if i > 0 {
      RunMarks(w, states, acts, i - 1);
      StepMarksKept(w, states[i - 1], acts[i - 1]);
    }
  }

  /**
   In every such run, whatever A's record of B says and however announcements change it, a message A lists as
   handled for B was in B's store when B answered, or was transferred to B, or came from B, or was over B's
   per-message limit as recorded when it was marked.
   */
  lemma HandledMarksSound(w: World, states: seq<Sys>, acts: seq<Act>, i: nat, t: Tid)
    requires IsRun(w, states, acts) && Unmarked(w, states[0]) && i < |states| && Undisturbed(w, states, acts, i)
    requires t in states[i].a.entries && w.peerB in states[i].a.entries[t].handled
    ensures Justified(states[i], t)
  {
    RunMarks(w, states, acts, i);
  }

  /** What an offer adds to that last set was over the limit of the record in use. */
  lemma BigIsTooBig(w: World, s: Sys, keys: seq<Tid>, order: seq<Tid>, t: Tid)
    requires Inv(s.a) && Allowed(w, s, SendOffer(keys, order))
    requires t in After(w, s, SendOffer(keys, order)).big && t !in s.big
    ensures t in s.a.entries && TooBig(s.rec, s.a.entries[t].Size())
  {
    var es1 := DropLow(s.a.entries, keys, w.peerB, MinOf(s.rec));
    DropLowKeeps(s.a.entries, keys, w.peerB, MinOf(s.rec));
    SelectMarks(es1, order, w.peerB, s.rec, BATCH_BASE);
  }

  // ----- the step that makes a mark wrong ---------------------------------------------------------------

  ghost predicate WronglyMarked(w: World, s: Sys, t: Tid) {
    t in s.a.entries && w.peerB in s.a.entries[t].handled && !Justified(s, t)
  }

  /** Some run from s without a further such step marks a message wrongly. */
  ghost predicate CanMarkWrongly(w: World, s: Sys) {
    exists states: seq<Sys>, acts: seq<Act>, t: Tid ::
      && IsRun(w, states, acts) && states[0] == s && Undisturbed(w, states, acts, |acts|)
      && WronglyMarked(w, states[|acts|], t)
  }

  lemma UnsentIsMarked(w: World, s: Sys, act: Act)
    requires Allowed(w, s, act) && StoresUnsent(s, act)
    ensures CanMarkWrongly(w, After(w, s, act))
  {
    var s1, t := After(w, s, act), s.a.jobs[act.s.i].t;
    var keys: seq<Tid> := [t];
    var mark := MarkSent(keys);
    assert Elements(keys) == {t} && keys[1..] == [];
    var s2 := After(w, s1, mark);
    assert MarkAll(s1.a.entries, keys, w.peerB) == MarkAll(MarkHandled(s1.a.entries, t, w.peerB), keys[1..], w.peerB);
    assert WronglyMarked(w, s2, t);
    var states, acts := [s1, s2], [mark];
    assert IsRun(w, states, acts) && states[0] == s1 && states[|acts|] == s2 && Undisturbed(w, states, acts, |acts|);
  }

  /** After any run without such a step, a step opens the way to a wrong mark if and only if it is one. */
  lemma WrongMarkExactly(w: World, states: seq<Sys>, acts: seq<Act>, act: Act)
    requires IsRun(w, states, acts) && Unmarked(w, states[0]) && Undisturbed(w, states, acts, |acts|)
    requires Allowed(w, states[|acts|], act)
    ensures StoresUnsent(states[|acts|], act) <==> CanMarkWrongly(w, After(w, states[|acts|], act))
  {
    var s := states[|acts|];
    if StoresUnsent(s, act) {
      UnsentIsMarked(w, s, act);
    } else {
      RunMarks(w, states, acts, |acts|);
      StepMarksKept(w, s, act);
      NeverWrong(w, After(w, s, act));
    }
  }

  lemma NeverWrong(w: World, s: Sys)
    requires MarksInv(w, s)
    ensures !CanMarkWrongly(w, s)
  {
    forall states: seq<Sys>, acts: seq<Act>, t: Tid
      | IsRun(w, states, acts) && states[0] == s && Undisturbed(w, states, acts, |acts|)
      ensures !WronglyMarked(w, states[|acts|], t)
    {
      RunMarks(w, states, acts, |acts|);
    }
  }
}
