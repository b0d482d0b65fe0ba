/**
 lxstamp_batch_validate of the OpenCL kernel (pkg/lxmf/gpu_kernel.go) from end to end: it absorbs the rounds of the
 workblock, finishes the hash by its own code, and decides.
 */
module StampKernel {
  import opened Bytes
  import opened StampScore
  import opened Sha256Tail
  import Chunks

  /** The hash function of the stamp checks is SHA-256 with this compression function and start state. */
  ghost predicate IsSha256(c: Crypto, f: Compress, iv: State) {
    forall m: seq<byte> :: c.sha(m) == Sha256(f, iv, m)
  }

  /** One round of 256 bytes, four blocks. */
  method AbsorbRound(f: Compress, s: State, chunk: Chunks.Block) returns (h: State)
    ensures h == Fold(f, s, chunk, 4)
  {
    h := s;
    for k := 0 to 4
      invariant h == Fold(f, s, chunk[..64 * k], k)
    {
      var block: Block := chunk[64 * k..64 * k + 64];
      assert chunk[..64 * (k + 1)] == chunk[..64 * k] + block;
      FoldAppend(f, s, chunk[..64 * k], k, block, 1);
      FoldOne(f, h, block);
      h := f(h, block);
    }
    assert chunk[..256] == chunk;
  }

  lemma {:induction false} JoinedAppend(chunks: seq<Chunks.Block>, chunk: Chunks.Block)
    ensures Chunks.Joined(chunks + [chunk]) == Chunks.Joined(chunks) + chunk
    ensures |Chunks.Joined(chunks)| == 256 * |chunks|
  {
    if chunks == [] {
      assert chunks + [chunk] == [chunk] && [chunk][1..] == [];
    } else {
      assert (chunks + [chunk])[0] == chunks[0] && (chunks + [chunk])[1..] == chunks[1..] + [chunk];
      JoinedAppend(chunks[1..], chunk);
    }
  }

  method AbsorbRounds(f: Compress, iv: State, chunks: seq<Chunks.Block>) returns (h: State)
    ensures |Chunks.Joined(chunks)| == 64 * (4 * |chunks|)
    ensures h == Fold(f, iv, Chunks.Joined(chunks), 4 * |chunks|)
  {
    h := iv;
    for r := 0 to |chunks|
      invariant |Chunks.Joined(chunks[..r])| == 64 * (4 * r)
      invariant h == Fold(f, iv, Chunks.Joined(chunks[..r]), 4 * r)
    {
      assert chunks[..r + 1] == chunks[..r] + [chunks[r]];
      JoinedAppend(chunks[..r], chunks[r]);
      FoldAppend(f, iv, Chunks.Joined(chunks[..r]), 4 * r, chunks[r], 4);
      h := AbsorbRound(f, h, chunks[r]);
    }
    assert chunks[..|chunks|] == chunks;
  }

  method HashStamp(f: Compress, iv: State, chunks: seq<Chunks.Block>, stamp: seq<byte>) returns (hash: Digest)
    requires |stamp| == STAMP_SIZE
    ensures hash == Sha256(f, iv, Chunks.Joined(chunks) + stamp)
  {
    var h := AbsorbRounds(f, iv, chunks);
    var fin := new byte[96](_ => 0);
    var n := CopyInto(fin, 0, stamp);
    assert stamp[..n] == stamp && fin[..32] == fin[..][..32] == stamp;
    hash := KernelFinalize(f, h, fin, 32, 8 * (256 * |chunks| + 32));
    FinishIsStandard(f, iv, Chunks.Joined(chunks), 4 * |chunks|, stamp);
  }

  /** The kernel accepts a candidate with at most 64 bytes of material exactly when the portable check does. */
  method BatchValidate(f: Compress, iv: State, material: seq<byte>, chunks: seq<Chunks.Block>, stamp: seq<byte>,
                       cost: nat,
                       ghost c: Crypto) returns (ok: bool)
    requires |stamp| == STAMP_SIZE && IsSha256(c, f, iv) && c.workblock(material, |chunks|) == Chunks.Joined(chunks)
    ensures ok <==> |material| <= 64 && Chunks.CandidateMeets(c, Chunks.Candidate(material, stamp), cost, |chunks|)
  {
    if |material| == 0 || |material| > 64 { return false; }
    var hash := HashStamp(f, iv, chunks, stamp);
    ok := KernelVerdict(hash, cost);
    MeetsCostIsScore(c, stamp, cost, Chunks.Joined(chunks));
  }
}
