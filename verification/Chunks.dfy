/**
 The chunked goroutine workers of pkg/lxmf/batch_validate.go and pkg/lxmf/workblock.go. Which worker
 runs next is chosen freely at every write, so the results hold for every interleaving.
 */
module Chunks {
  import opened Bytes
  import opened StampScore

  datatype Range = Range(start: nat, end: nat)

  function WorkerCount(procs: nat, n: nat): nat {
    Max(Min(procs, n), 1)
  }

  function ChunkSize(n: nat, workers: nat): nat
    requires workers > 0
  {
    (n + workers - 1) / workers
  }

  /** Worker w owns [w*chunk, min(w*chunk + chunk, n)). */
  predicate IsRange(r: Range, w: nat, chunk: nat, n: nat) {
    r.start == w * chunk && r.start < n && r.end == Min(r.start + chunk, n)
  }

  ghost predicate Partition(ranges: seq<Range>, chunk: nat, n: nat) {
    && (forall w :: 0 <= w < |ranges| ==> IsRange(ranges[w], w, chunk, n))
    && n <= |ranges| * chunk
  }

  lemma ChunksReachEnd(n: nat, workers: nat)
    requires workers > 0
    ensures n <= workers * ChunkSize(n, workers)
    ensures n > 0 ==> ChunkSize(n, workers) > 0
  {
    var c := ChunkSize(n, workers);
    assert n + workers - 1 == workers * c + (n + workers - 1) % workers;
  }

  /** The loop that starts the goroutines: it stops at the first empty range. */
  method StartWorkers(n: nat, workers: nat) returns (ranges: seq<Range>)
    requires workers > 0
    ensures |ranges| <= workers
    ensures Partition(ranges, ChunkSize(n, workers), n)
  {
    var chunk := ChunkSize(n, workers);
    ChunksReachEnd(n, workers);
    ranges := [];
    for w := 0 to workers
      invariant |ranges| == w
      invariant forall i :: 0 <= i < w ==> IsRange(ranges[i], i, chunk, n)
    {
      var start := w * chunk;
      if start >= n { break; }
      ranges := ranges + [Range(start, Min(start + chunk, n))];
    }
  }

  /** Every index lies in exactly one worker's range. */
  lemma EachIndexOwnedOnce(ranges: seq<Range>, chunk: nat, n: nat, i: nat)
    requires Partition(ranges, chunk, n) && i < n
    ensures exists w :: 0 <= w < |ranges| && ranges[w].start <= i < ranges[w].end
    ensures forall v, w :: 0 <= v < w < |ranges| && ranges[v].start <= i < ranges[v].end ==>
              i < ranges[w].start
  {
    assert chunk > 0;
    var w := i / chunk;
    assert i == w * chunk + i % chunk;
    assert w * chunk < |ranges| * chunk;
    assert w < |ranges| by {
      if w >= |ranges| { MulLeq(|ranges|, w, chunk); }
    }
    assert IsRange(ranges[w], w, chunk, n);
    forall v, u | 0 <= v < u < |ranges| && ranges[v].start <= i < ranges[v].end
      ensures i < ranges[u].start
    {
      assert IsRange(ranges[v], v, chunk, n) && IsRange(ranges[u], u, chunk, n);
      MulLeq(v + 1, u, chunk);
      assert (v + 1) * chunk == v * chunk + chunk;
    }
  }

  ghost function Remaining(ranges: seq<Range>, pos: seq<nat>): int
    requires |ranges| == |pos|
  {
    if ranges == [] then 0
    else ranges[0].end - pos[0] + Remaining(ranges[1..], pos[1..])
  }

  lemma {:induction false} RemainingUpdate(ranges: seq<Range>, pos: seq<nat>, w: nat, p: nat)
    requires |ranges| == |pos| && w < |pos|
    ensures Remaining(ranges, pos[w := p]) == Remaining(ranges, pos) + pos[w] - p
  {
    if w == 0 {
      assert pos[w := p][1..] == pos[1..];
    } else {
      RemainingUpdate(ranges[1..], pos[1..], w - 1, p);
      assert pos[w := p][1..] == pos[1..][w - 1 := p];
    }
  }

  ghost predicate Within(ranges: seq<Range>, pos: seq<nat>) {
    |ranges| == |pos| && forall w :: 0 <= w < |pos| ==> ranges[w].start <= pos[w] <= ranges[w].end
  }

  lemma {:induction false} RemainingNonNegative(ranges: seq<Range>, pos: seq<nat>)
    requires Within(ranges, pos)
    ensures Remaining(ranges, pos) >= 0
  {
    if ranges != [] {
      assert ranges[0].start <= pos[0] <= ranges[0].end;
      RemainingNonNegative(ranges[1..], pos[1..]);
    }
  }

  ghost predicate FilledTo<T(!new)>(item: nat -> Option<T>, out: seq<T>, start: nat, end: nat) {
    end <= |out| && forall i: nat :: start <= i < end ==> item(i) == Some(out[i])
  }

  /** Everything before a worker's position is written. */
  ghost predicate Filled<T(!new)>(ranges: seq<Range>, pos: seq<nat>, item: nat -> Option<T>, out: seq<T>) {
    |ranges| == |pos| && forall w :: 0 <= w < |pos| ==> FilledTo(item, out, ranges[w].start, pos[w])
  }

  lemma FilledToStep<T(!new)>(item: nat -> Option<T>, out: seq<T>, start: nat, end: nat, p: nat, v: T)
    requires FilledTo(item, out, start, end) && p < |out| && item(p) == Some(v)
    ensures FilledTo(item, out[p := v], start, if p == end then end + 1 else end)
  {
    var out' := out[p := v];
    forall i: nat | start <= i < (if p == end then end + 1 else end) ensures item(i) == Some(out'[i]) {
      if i != p { assert item(i) == Some(out[i]); }
    }
  }

  lemma FilledStep<T(!new)>(ranges: seq<Range>, pos: seq<nat>, item: nat -> Option<T>, out: seq<T>, w: nat, v: T)
    requires Filled(ranges, pos, item, out) && w < |pos| && pos[w] < |out| && item(pos[w]) == Some(v)
    ensures Filled(ranges, pos[w := pos[w] + 1], item, out[pos[w] := v])
  {
    forall u | 0 <= u < |pos| ensures FilledTo(item, out[pos[w] := v], ranges[u].start, pos[w := pos[w] + 1][u]) {
      FilledToStep(item, out, ranges[u].start, pos[u], pos[w], v);
    }
  }

  lemma FilledAll<T(!new)>(ranges: seq<Range>, chunk: nat, pos: seq<nat>, item: nat -> Option<T>, out: seq<T>, i: nat)
    requires Partition(ranges, chunk, |out|) && Filled(ranges, pos, item, out) && i < |out|
    requires forall w :: 0 <= w < |pos| ==> pos[w] >= ranges[w].end
    ensures item(i) == Some(out[i])
  {
    EachIndexOwnedOnce(ranges, chunk, |out|, i);
    var w :| 0 <= w < |ranges| && ranges[w].start <= i < ranges[w].end;
    assert pos[w] >= ranges[w].end && FilledTo(item, out, ranges[w].start, pos[w]);
  }

  /**
   All workers, interleaved one write at a time. A worker whose item fails records the failure and
   stops; the others go on. The outcome does not depend on the schedule.
   */
  method RunWorkers<T(!new)>(n: nat, procs: nat, item: nat -> Option<T>, blank: T) returns (out: seq<T>, failed: bool)
    ensures failed <==> exists i :: 0 <= i < n && item(i).None?
    ensures |out| == n
    ensures !failed ==> forall i :: 0 <= i < n ==> item(i) == Some(out[i])
  {
    var ranges := StartWorkers(n, WorkerCount(procs, n));
    ghost var chunk := ChunkSize(n, WorkerCount(procs, n));
    out := seq(n, _ => blank);
    failed := false;
    var pos: seq<nat> := seq(|ranges|, w requires 0 <= w < |ranges| => ranges[w].start);
    RemainingNonNegative(ranges, pos);
    while exists w :: 0 <= w < |pos| && pos[w] < ranges[w].end
      invariant Within(ranges, pos) && |out| == n
      invariant failed ==> exists i :: 0 <= i < n && item(i).None?
      invariant !failed ==> Filled(ranges, pos, item, out)
      invariant Remaining(ranges, pos) >= 0
      decreases Remaining(ranges, pos)
    {
      var w :| 0 <= w < |pos| && pos[w] < ranges[w].end;
      var i := pos[w];
      assert IsRange(ranges[w], w, chunk, n);
      var next := i + 1;
      match item(i) {
        case Some(v) =>
          if !failed { FilledStep(ranges, pos, item, out, w, v); }
          out := out[i := v];
        case None =>
          failed := true;
          next := ranges[w].end;
      }
      RemainingUpdate(ranges, pos, w, next);
      pos := pos[w := next];
      RemainingNonNegative(ranges, pos);
    }
    if !failed {
      forall i: nat | i < n ensures item(i) == Some(out[i]) { FilledAll(ranges, chunk, pos, item, out, i); }
    }
  }

  // ----- the three users -----------------------------------------------------

  datatype Candidate = Candidate(material: seq<byte>, stamp: seq<byte>)

  /** One candidate of validateStampBatchCPU: malformed candidates keep the array's false. */
  predicate CandidateMeets(c: Crypto, cand: Candidate, cost: int, rounds: nat) {
    |cand.stamp| == STAMP_SIZE && cand.material != [] &&
    MeetsCost(c, cand.stamp, cost, c.workblock(cand.material, rounds))
  }

  method ValidateStampBatch(c: Crypto, cands: seq<Candidate>, cost: int, rounds: nat, procs: nat)
    returns (out: seq<bool>)
    ensures |out| == |cands|
    ensures forall i :: 0 <= i < |cands| ==> (out[i] <==> CandidateMeets(c, cands[i], cost, rounds))
  {
    var item := (i: nat) => if i < |cands| then Some(CandidateMeets(c, cands[i], cost, rounds)) else Some(false);
    var failed;
    out, failed := RunWorkers(|cands|, procs, item, false);
    forall i | 0 <= i < |cands| ensures out[i] <==> CandidateMeets(c, cands[i], cost, rounds) {
      assert item(i) == Some(out[i]);
    }
  }

  /** The sequential meaning of ValidatePNStamps: the valid entries, in input order. */
  function ValidEntries(c: Crypto, messages: seq<seq<byte>>, cost: int): seq<PnEntry> {
    if messages == [] then []
    else
      var n := |messages| - 1;
      var r := ValidatePnStamp(c, messages[n], cost);
      ValidEntries(c, messages[..n], cost) + if r.Some? then [r.value] else []
  }

  method ValidatePnStamps(c: Crypto, messages: seq<seq<byte>>, cost: int, procs: nat) returns (out: seq<PnEntry>)
    ensures out == ValidEntries(c, messages, cost)
  {
    out := [];
    if messages == [] { return; }
    var item := (i: nat) => if i < |messages| then Some(ValidatePnStamp(c, messages[i], cost)) else Some(None);
    var slots, failed := RunWorkers(|messages|, procs, item, None);
    for i := 0 to |slots|
      invariant out == ValidEntries(c, messages[..i], cost)
    {
      assert item(i) == Some(slots[i]);
      assert messages[..i + 1][..i] == messages[..i];
      if slots[i].Some? {
        out := out + [slots[i].value];
      }
    }
    assert messages[..|messages|] == messages;
  }

  const ROUND_SIZE := 256

  type Block = b: seq<byte> | |b| == ROUND_SIZE witness Zeros(ROUND_SIZE)

  function Joined(blocks: seq<Block>): seq<byte> {
    if blocks == [] then [] else blocks[0] + Joined(blocks[1..])
  }

  lemma {:induction false} JoinedSlot(blocks: seq<Block>, i: nat)
    requires i < |blocks|
    ensures |Joined(blocks)| == ROUND_SIZE * |blocks|
    ensures Joined(blocks)[ROUND_SIZE * i..ROUND_SIZE * (i + 1)] == blocks[i]
  {
    var rest := blocks[1..];
    if rest == [] {
      assert Joined(blocks) == blocks[0] + [];
    } else {
      JoinedSlot(rest, if i == 0 then 0 else i - 1);
      if i > 0 {
        assert Joined(blocks)[ROUND_SIZE * i..ROUND_SIZE * (i + 1)] ==
               Joined(rest)[ROUND_SIZE * (i - 1)..ROUND_SIZE * i];
      }
    }
  }

  /** stampWorkblockCPU: one buffer with the output of round i at byte 256 i, or an error if any round fails. */
  method StampWorkblock(rounds: nat, derive: nat -> Option<Block>, procs: nat) returns (r: Option<seq<byte>>)
    ensures r.Some? <==> forall i :: 0 <= i < rounds ==> derive(i).Some?
    ensures r.Some? ==> |r.value| == ROUND_SIZE * rounds
    ensures r.Some? ==> forall i :: 0 <= i < rounds ==> derive(i) == Some(r.value[ROUND_SIZE * i..ROUND_SIZE * (i + 1)])
  {
    var out: seq<Block>, failed := RunWorkers<Block>(rounds, procs, derive, Zeros(ROUND_SIZE));
    if failed { return None; }
    r := Some(Joined(out));
    if rounds > 0 { JoinedSlot(out, 0); }
    forall i | 0 <= i < rounds
      ensures derive(i) == Some(r.value[ROUND_SIZE * i..ROUND_SIZE * (i + 1)])
    {
      JoinedSlot(out, i);
    }
  }
}
