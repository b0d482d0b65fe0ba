/**
 Proof-of-work stamps (pkg/lxmf/stamper.go): the leading-zero score, the threshold test,
 and the acceptance test of the OpenCL batch kernel (pkg/lxmf/gpu_kernel.go).
 */
module StampScore {
  import opened Bytes

  const STAMP_SIZE := 32
  const OVERHEAD := 112
  const ROUNDS_PN := 1000
  const ROUNDS_PEERING := 25

  /** SHA-256 and the HKDF workblock expansion, kept abstract. */
  datatype Crypto = Crypto(sha: seq<byte> -> Digest, workblock: (seq<byte>, nat) -> seq<byte>)

  // ----- leading zeros -------------------------------------------------------

  predicate BitSet(b: byte, bit: nat) {
    (b / Pow2(bit)) % 2 != 0
  }

  /** Zero bits of b from position `bits - 1` downwards, before the first one bit. */
  function ByteZeros(b: byte, bits: nat): nat {
    if bits == 0 || BitSet(b, bits - 1) then 0 else 1 + ByteZeros(b, bits - 1)
  }

  function LeadingZeros(s: seq<byte>): nat {
    if s == [] then 0
    else if s[0] == 0 then 8 + LeadingZeros(s[1..])
    else ByteZeros(s[0], 8)
  }

  lemma TopBit(b: nat, p: nat)
    requires 0 < p && b < 2 * p
    ensures b / p == if b < p then 0 else 1
  {
    if b >= p {
      assert b == 1 * p + (b - p);
    }
  }

  lemma {:induction false} ByteZerosThreshold(b: byte, bits: nat, c: nat)
    requires b < Pow2(bits) && c <= bits
    ensures ByteZeros(b, bits) >= c <==> b < Pow2(bits - c)
    ensures ByteZeros(b, bits) <= bits
    ensures b > 0 ==> ByteZeros(b, bits) < bits
  {
    if bits > 0 {
      var p := Pow2(bits - 1);
      TopBit(b, p);
      if b >= p {
        if c > 0 { Pow2Monotone(bits - c, bits - 1); }
      } else {
        ByteZerosThreshold(b, bits - 1, if c == 0 then 0 else c - 1);
      }
    }
  }

  /** Score and size agree: a hash has c leading zero bits exactly when it is below 2^(8n - c). */
  lemma {:induction false} ScoreIsThreshold(s: seq<byte>, c: nat)
    requires c <= 8 * |s|
    ensures LeadingZeros(s) >= c <==> Num(s) < Pow2(8 * |s| - c)
    ensures LeadingZeros(s) <= 8 * |s|
  {
    if s != [] {
      var rest := s[1..];
      var p := Pow2(8 * (|s| - 1));
      NumBound(rest);
      Pow2Eight();
      if s[0] == 0 {
        ScoreIsThreshold(rest, if c <= 8 then 0 else c - 8);
        if c <= 8 { Pow2Monotone(8 * (|s| - 1), 8 * |s| - c); }
      } else if c <= 8 {
        ByteZerosThreshold(s[0], 8, c);
        Pow2Add(8 - c, 8 * (|s| - 1));
        DigitBelow(s[0], Pow2(8 - c), p, Num(rest));
      } else {
        ByteZerosThreshold(s[0], 8, 8);
        Pow2Monotone(8 * |s| - c, 8 * (|s| - 1));
        MulLeq(1, s[0], p);
      }
    }
  }

  /** The score of a hash, as StampValue computes it: whole zero bytes, then bit by bit. */
  method HashScore(sum: seq<byte>) returns (value: nat)
    ensures value == LeadingZeros(sum)
  {
    value := 0;
    for i := 0 to |sum|
      invariant LeadingZeros(sum) == value + LeadingZeros(sum[i..])
    {
      if sum[i] == 0 {
        value := value + 8;
        assert sum[i..][1..] == sum[i + 1..];
      } else {
        var bit := 8;
        while bit > 0
          invariant 0 <= bit <= 8
          invariant LeadingZeros(sum) == value + ByteZeros(sum[i], bit)
        {
          bit := bit - 1;
          if BitSet(sum[i], bit) { return; }
          value := value + 1;
        }
        return;
      }
    }
  }

  // ----- the threshold -------------------------------------------------------

  /** bytes.Compare(a, b) <= 0 for strings of one length. */
  predicate LexLeq(a: seq<byte>, b: seq<byte>)
    requires |a| == |b|
  {
    a == [] || a[0] < b[0] || (a[0] == b[0] && LexLeq(a[1..], b[1..]))
  }

  lemma {:induction false} LexIsNumeric(a: seq<byte>, b: seq<byte>)
    requires |a| == |b|
    ensures LexLeq(a, b) <==> Num(a) <= Num(b)
  {
    if a != [] {
      LexIsNumeric(a[1..], b[1..]);
      NumBound(a[1..]);
      NumBound(b[1..]);
      var p := Pow2(8 * (|a| - 1));
      if a[0] < b[0] {
        DigitBelow(a[0], b[0], p, Num(a[1..]));
      } else if a[0] > b[0] {
        DigitBelow(b[0], a[0], p, Num(b[1..]));
      }
    }
  }

  /** The comparison loop both kernels run over hash and target. */
  method KernelBelowTarget(hash: Digest, target: Digest) returns (ok: bool)
    ensures ok <==> LexLeq(hash, target)
  {
    ok := true;
    for i := 0 to 32
      invariant LexLeq(hash, target) <==> LexLeq(hash[i..], target[i..])
      invariant ok
    {
      assert hash[i..][1..] == hash[i + 1..] && target[i..][1..] == target[i + 1..];
      if hash[i] < target[i] { return; }
      if hash[i] > target[i] { return false; }
    }
  }

  /** stampTarget: one bit set at position 256 - cost, counted from the least significant end. */
  function StampTarget(cost: int): Digest {
    var zero := Zeros(32);
    if cost >= 256 then zero
    else
      var pos := 256 - cost;
      var byteIdx := 31 - pos / 8;
      if byteIdx < 0 then zero else
        Pow2Monotone(pos % 8, 7);
        Pow2Eight();
        zero[byteIdx := Pow2(pos % 8)]
  }

  lemma {:induction false} NumOneByte(n: nat, i: nat, v: byte)
    requires i < n
    ensures Num(Zeros(n)[i := v]) == v * Pow2(8 * (n - 1 - i))
  {
    var s := Zeros(n)[i := v];
    if i == 0 {
      assert s[1..] == Zeros(n - 1);
      NumZeros(n - 1);
    } else {
      assert s[1..] == Zeros(n - 1)[i - 1 := v];
      NumOneByte(n - 1, i - 1, v);
    }
  }

  lemma {:induction false} NumZeros(n: nat)
    ensures Num(Zeros(n)) == 0
  {
    if n > 0 {
      assert Zeros(n)[1..] == Zeros(n - 1);
      NumZeros(n - 1);
    }
  }

  /** The target of every cost from 1 to 255 is the number 2^(256 - cost); from 256 on it is 0. */
  lemma TargetIsPowerOfTwo(cost: int)
    requires cost >= 1
    ensures Num(StampTarget(cost)) == if cost < 256 then Pow2(256 - cost) else 0
  {
    if cost < 256 {
      var pos := 256 - cost;
      var byteIdx := 31 - pos / 8;
      Pow2Monotone(pos % 8, 7);
      Pow2Eight();
      NumOneByte(32, byteIdx, Pow2(pos % 8));
      Pow2Add(pos % 8, 8 * (pos / 8));
    } else {
      NumZeros(32);
    }
  }

  // ----- the validity tests --------------------------------------------------

  function StampValue(c: Crypto, workblock: seq<byte>, stamp: seq<byte>): nat {
    if stamp == [] then 0 else LeadingZeros(c.sha(workblock + stamp))
  }

  predicate StampValid(c: Crypto, stamp: seq<byte>, cost: int, workblock: seq<byte>) {
    cost <= 0 ||
    (|stamp| == STAMP_SIZE && cost <= 256 && LexLeq(c.sha(workblock + stamp), StampTarget(cost)))
  }

  predicate MeetsCost(c: Crypto, stamp: seq<byte>, cost: int, workblock: seq<byte>) {
    StampValid(c, stamp, cost, workblock) &&
    if cost <= 0 then |stamp| == STAMP_SIZE else StampValue(c, workblock, stamp) >= cost
  }

  /** MeetsCost is the score test alone, at every cost. */
  lemma MeetsCostIsScore(c: Crypto, stamp: seq<byte>, cost: int, workblock: seq<byte>)
    ensures MeetsCost(c, stamp, cost, workblock) <==>
            |stamp| == STAMP_SIZE && StampValue(c, workblock, stamp) >= cost
  {
    if cost >= 1 && |stamp| == STAMP_SIZE {
      ScoreIsThreshold(c.sha(workblock + stamp), if cost <= 256 then cost else 256);
      LexIsNumeric(c.sha(workblock + stamp), StampTarget(cost));
      TargetIsPowerOfTwo(cost);
    }
  }

  /** The threshold test accepts what the score accepts plus the single hash value 2^(256 - cost). */
  lemma ThresholdIsScoreOrBoundary(c: Crypto, stamp: seq<byte>, cost: int, workblock: seq<byte>)
    requires 1 <= cost <= 256 && |stamp| == STAMP_SIZE
    ensures StampValid(c, stamp, cost, workblock) <==>
            StampValue(c, workblock, stamp) >= cost ||
            (cost < 256 && Num(c.sha(workblock + stamp)) == Pow2(256 - cost))
  {
    ScoreIsThreshold(c.sha(workblock + stamp), cost);
    LexIsNumeric(c.sha(workblock + stamp), StampTarget(cost));
    TargetIsPowerOfTwo(cost);
  }

  /** A score that reaches the cost always passes the receiver's threshold test. */
  lemma ScorePassesThreshold(c: Crypto, stamp: seq<byte>, cost: int, workblock: seq<byte>)
    requires |stamp| == STAMP_SIZE && StampValue(c, workblock, stamp) >= cost
    ensures StampValid(c, stamp, cost, workblock)
  {
    MeetsCostIsScore(c, stamp, cost, workblock);
  }

  /**
   The last part of lxstamp_batch_validate on its hash: cost 0 accepts, else threshold loop, score loop, conjunction.
   */
  method KernelVerdict(hash: Digest, cost: nat) returns (ok: bool)
    ensures ok <==> LeadingZeros(hash) >= cost
  {
    if cost == 0 { return true; }
    var below := KernelBelowTarget(hash, StampTarget(cost));
    var value := HashScore(hash);
    ok := below && value >= cost;
    ScoreIsThreshold(hash, if cost <= 256 then cost else 256);
    LexIsNumeric(hash, StampTarget(cost));
    TargetIsPowerOfTwo(cost);
  }

  // ----- propagation stamps and peering keys ---------------------------------

  datatype PnEntry = PnEntry(transientId: seq<byte>, lxm: seq<byte>, value: nat, stamp: seq<byte>)

  function ValidatePnStamp(c: Crypto, data: seq<byte>, cost: int): (r: Option<PnEntry>)
    ensures r.Some? ==> r.value.lxm + r.value.stamp == data && |r.value.stamp| == STAMP_SIZE
  {
    if |data| <= OVERHEAD + STAMP_SIZE then None
    else
      var cut := |data| - STAMP_SIZE;
      var lxm, stamp := data[..cut], data[cut..];
      var tid := c.sha(lxm);
      var wb := c.workblock(tid, ROUNDS_PN);
      if StampValid(c, stamp, cost, wb) then Some(PnEntry(tid, lxm, StampValue(c, wb, stamp), stamp))
      else None
  }

  /** The hash that decides about a propagation stamp. */
  function PnHash(c: Crypto, lxm: seq<byte>, stamp: seq<byte>): Digest {
    c.sha(c.workblock(c.sha(lxm), ROUNDS_PN) + stamp)
  }

  /**
   A message followed by a stamp is accepted exactly when it is long enough and the hash is low enough for the cost.
   */
  lemma PnStampAccepts(c: Crypto, lxm: seq<byte>, stamp: seq<byte>, cost: int)
    requires |stamp| == STAMP_SIZE
    ensures var z := LeadingZeros(PnHash(c, lxm, stamp));
            ValidatePnStamp(c, lxm + stamp, cost) ==
            if |lxm| > OVERHEAD && cost <= 256 &&
               (z >= cost || (0 < cost < 256 && Num(PnHash(c, lxm, stamp)) == Pow2(256 - cost)))
            then Some(PnEntry(c.sha(lxm), lxm, z, stamp)) else None
  {
    assert (lxm + stamp)[..|lxm|] == lxm && (lxm + stamp)[|lxm|..] == stamp;
    if 1 <= cost <= 256 { ThresholdIsScoreOrBoundary(c, stamp, cost, c.workblock(c.sha(lxm), ROUNDS_PN)); }
  }

  /** A stamp good enough for a cost is good enough for every lower cost. */
  lemma StampMonotone(c: Crypto, stamp: seq<byte>, low: int, high: int, workblock: seq<byte>)
    requires low <= high && StampValid(c, stamp, high, workblock)
    ensures StampValid(c, stamp, low, workblock)
  {
    if low > 0 {
      var hash := c.sha(workblock + stamp);
      LexIsNumeric(hash, StampTarget(high));
      LexIsNumeric(hash, StampTarget(low));
      TargetIsPowerOfTwo(high);
      TargetIsPowerOfTwo(low);
      if high < 256 { Pow2Monotone(256 - high, 256 - low); }
    }
  }

  lemma PnStampMonotone(c: Crypto, data: seq<byte>, low: int, high: int)
    requires low <= high && ValidatePnStamp(c, data, high).Some?
    ensures ValidatePnStamp(c, data, low).Some?
  {
    var cut := |data| - STAMP_SIZE;
    StampMonotone(c, data[cut..], low, high, c.workblock(c.sha(data[..cut]), ROUNDS_PN));
  }

  predicate ValidatePeeringKey(c: Crypto, peeringId: seq<byte>, key: seq<byte>, cost: int) {
    peeringId != [] && StampValid(c, key, cost, c.workblock(peeringId, ROUNDS_PEERING))
  }
}
