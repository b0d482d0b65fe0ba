/**
 The hand-written end of SHA-256 (pkg/lxmf/midstate.go, sha256_fast.go and sha256_finalize in
 gpu_kernel.go) against the padding and block processing of FIPS 180-4, sections 5.1.1 and 6.2.2.
 The compression function is a parameter: every result holds for any compression function.
 */
module Sha256Tail {
  import opened Bytes

  type Word = w: int | 0 <= w < 0x1_0000_0000
  type State = s: seq<Word> | |s| == 8 witness seq(8, _ => 0)
  type Block = b: seq<byte> | |b| == 64 witness seq(64, _ => 0)
  type Compress = (State, Block) -> State

  const MAX_BITS := 0x1_0000_0000_0000_0000

  // ----- FIPS 180-4 ----------------------------------------------------------

  /** Section 6.2.2: run the k blocks of m through the compression function in order. */
  function Fold(f: Compress, h: State, m: seq<byte>, k: nat): State
    requires |m| == 64 * k
    decreases k
  {
    if k == 0 then h else Fold(f, f(h, m[..64]), m[64..], k - 1)
  }

  /** The number of blocks of a padded message: room for one byte 0x80 and eight length bytes. */
  function Blocks(len: nat): (k: nat)
    ensures 64 * k - 64 < len + 9 <= 64 * k
  {
    (len + 72) / 64
  }

  /** Section 5.1.1: a one bit, the fewest zero bits that fill a block, the length as 64 bits. */
  function Padding(len: nat): (p: seq<byte>)
    ensures len + |p| == 64 * Blocks(len)
  {
    [0x80] + Zeros(64 * Blocks(len) - len - 9) + BigEndian(8 * len, 8)
  }

  function DigestOf(h: State, words: nat): (d: seq<byte>)
    requires words <= 8
    ensures |d| == 4 * words
  {
    if words == 0 then [] else DigestOf(h, words - 1) + BigEndian(h[words - 1], 4)
  }

  function Sha256(f: Compress, iv: State, m: seq<byte>): Digest {
    DigestOf(Fold(f, iv, m + Padding(|m|), Blocks(|m|)), 8)
  }

  lemma {:induction false} FoldAppend(f: Compress, h: State, a: seq<byte>, i: nat, b: seq<byte>, j: nat)
    requires |a| == 64 * i && |b| == 64 * j
    ensures Fold(f, h, a + b, i + j) == Fold(f, Fold(f, h, a, i), b, j)
    decreases i
  {
    if i == 0 {
      assert a + b == b;
    } else {
      assert (a + b)[..64] == a[..64] && (a + b)[64..] == a[64..] + b;
      FoldAppend(f, f(h, a[..64]), a[64..], i - 1, b, j);
    }
  }

  lemma FoldOne(f: Compress, h: State, b: Block)
    ensures Fold(f, h, b, 1) == f(h, b)
  {
    assert b[..64] == b;
  }

  lemma FoldTwo(f: Compress, h: State, b1: Block, b2: Block)
    ensures Fold(f, h, b1 + b2, 2) == f(f(h, b1), b2)
  {
    FoldAppend(f, h, b1, 1, b2, 1);
    FoldOne(f, h, b1);
    FoldOne(f, f(h, b1), b2);
  }

  // ----- finishing from a state at a block boundary --------------------------

  function EndBlocks(n: nat): nat {
    if n < 56 then 1 else 2
  }

  /** The block or two blocks that end a message of `bits` bits whose last part is t. */
  function Ending(t: seq<byte>, bits: nat): (e: seq<byte>)
    requires |t| < 64
    ensures |e| == 64 * EndBlocks(|t|)
  {
    t + [0x80] + Zeros(64 * EndBlocks(|t|) - |t| - 9) + BigEndian(bits, 8)
  }

  function Finish(f: Compress, h: State, t: seq<byte>, bits: nat): State {
    var k := |t| / 64;
    Fold(f, Fold(f, h, t[..64 * k], k), Ending(t[64 * k..], bits), EndBlocks(|t| - 64 * k))
  }

  lemma FinishParts(f: Compress, iv: State, p: seq<byte>, i: nat, w: seq<byte>, j: nat, last: seq<byte>)
    requires |p| == 64 * i && |w| == 64 * j && |last| < 64
    ensures var m := p + w + last;
            Fold(f, Fold(f, Fold(f, iv, p, i), w, j), Ending(last, 8 * |m|), EndBlocks(|last|))
            == Fold(f, iv, m + Padding(|m|), Blocks(|m|))
  {
    var m := p + w + last;
    var e := Ending(last, 8 * |m|);
    assert Blocks(|m|) == i + j + EndBlocks(|last|);
    assert m + Padding(|m|) == (p + w) + e;
    FoldAppend(f, iv, p + w, i + j, e, EndBlocks(|last|));
    FoldAppend(f, iv, p, i, w, j);
  }

  lemma FinishIsFold(f: Compress, iv: State, p: seq<byte>, i: nat, t: seq<byte>)
    requires |p| == 64 * i
    ensures Finish(f, Fold(f, iv, p, i), t, 8 * (|p| + |t|)) == Fold(f, iv, p + t + Padding(|p + t|), Blocks(|p + t|))
  {
    var k := |t| / 64;
    var whole, last := t[..64 * k], t[64 * k..];
    assert p + whole + last == p + t && |last| == |t| - 64 * k;
    FinishParts(f, iv, p, i, whole, k, last);
  }

  /** Finishing the state of a whole-block prefix gives the standard hash of prefix and tail. */
  lemma FinishIsStandard(f: Compress, iv: State, p: seq<byte>, i: nat, t: seq<byte>)
    requires |p| == 64 * i
    ensures DigestOf(Finish(f, Fold(f, iv, p, i), t, 8 * (|p| + |t|)), 8) == Sha256(f, iv, p + t)
  {
    FinishIsFold(f, iv, p, i, t);
  }

  // ----- midstate.go and sha256_fast.go --------------------------------------

  datatype Midstate = Midstate(h: State, rem: seq<byte>, prefixLen: nat)

  function MidstateOf(f: Compress, iv: State, prefix: seq<byte>): (ms: Midstate)
    ensures |ms.rem| < 64
  {
    var k := |prefix| / 64;
    Midstate(Fold(f, iv, prefix[..64 * k], k), prefix[64 * k..], |prefix|)
  }

  method MidstateOfPrefix(f: Compress, iv: State, prefix: seq<byte>) returns (ms: Midstate)
    ensures ms == MidstateOf(f, iv, prefix)
  {
    var n := |prefix| / 64;
    var h := iv;
    for k := 0 to n
      invariant h == Fold(f, iv, prefix[..64 * k], k)
    {
      var block := prefix[64 * k..64 * k + 64];
      assert prefix[..64 * (k + 1)] == prefix[..64 * k] + block;
      FoldAppend(f, iv, prefix[..64 * k], k, block, 1);
      FoldOne(f, h, block);
      h := f(h, block);
    }
    ms := Midstate(h, prefix[64 * n..], |prefix|);
  }

  /** Go's copy: as many bytes as fit, written at `at`. */
  method CopyInto(dst: array<byte>, at: nat, src: seq<byte>) returns (n: nat)
    requires at <= dst.Length
    modifies dst
    ensures n == if |src| < dst.Length - at then |src| else dst.Length - at
    ensures dst[..] == old(dst[..at]) + src[..n] + old(dst[at + n..])
  {
    n := if |src| < dst.Length - at then |src| else dst.Length - at;
    forall i | 0 <= i < n { dst[at + i] := src[i]; }
  }

  method Digested(h: State) returns (out: Digest)
    ensures out == DigestOf(h, 8)
  {
    var d: seq<byte> := [];
    for i := 0 to 8
      invariant d == DigestOf(h, i)
    {
      d := d + BigEndian(h[i], 4);
    }
    out := d;
  }

  /** The loop over the whole blocks in a work buffer; `off` is where the last part begins. */
  method AbsorbBlocks(f: Compress, s: State, buf: array<byte>, n: nat) returns (h: State, off: nat)
    requires n <= buf.Length
    ensures off == 64 * (n / 64)
    ensures h == Fold(f, s, buf[..off], n / 64)
  {
    h, off := s, 0;
    ghost var k := 0;
    while n - off >= 64
      invariant off == 64 * k <= n
      invariant h == Fold(f, s, buf[..off], k)
    {
      assert buf[..off + 64] == buf[..off] + buf[off..off + 64];
      FoldAppend(f, s, buf[..off], k, buf[off..off + 64], 1);
      FoldOne(f, h, buf[off..off + 64]);
      h := f(h, buf[off..off + 64]);
      off := off + 64;
      k := k + 1;
    }
  }

  /** What the last block, rewritten in place, must hold for the run to equal Fold over Ending. */
  lemma EndingBlocks(f: Compress, h: State, t: seq<byte>, bits: nat, first: Block, cleared: Block, final: Block)
    requires |t| < 64
    requires first == t + [0x80] + Zeros(63 - |t|)
    requires if |t| < 56 then cleared == first else cleared[..56] == Zeros(56)
    requires final == cleared[..56] + BigEndian(bits, 8)
    ensures Fold(f, h, Ending(t, bits), EndBlocks(|t|)) == f(if |t| < 56 then h else f(h, first), final)
  {
    if |t| < 56 {
      assert final == Ending(t, bits);
      FoldOne(f, h, final);
    } else {
      assert first + final == Ending(t, bits);
      FoldTwo(f, h, first, final);
    }
  }

  /** The end of hashMidstateStamp: one block buffer, cleared as a whole when the length does not fit. */
  method FinishBlock(f: Compress, s: State, last: seq<byte>, bits: nat) returns (h: State)
    requires |last| < 64
    ensures h == Fold(f, s, Ending(last, bits), EndBlocks(|last|))
  {
    h := s;
    var block := new byte[64](_ => 0);
    var remn := CopyInto(block, 0, last);
    block[remn] := 0x80;
    ghost var first := block[..];
    assert first == last + [0x80] + Zeros(63 - remn);
    if remn >= 56 {
      h := f(h, block[..]);
      forall i | 0 <= i < 64 { block[i] := 0; }
      assert block[..][..56] == Zeros(56);
    }
    ghost var cleared := block[..];
    var _ := CopyInto(block, 56, BigEndian(bits, 8));
    EndingBlocks(f, s, last, bits, first, cleared, block[..]);
    h := f(h, block[..]);
  }

  method Assemble(rem: seq<byte>, stamp: seq<byte>) returns (buf: array<byte>, n: nat)
    requires |rem| + |stamp| <= 128
    ensures fresh(buf) && n <= buf.Length && buf[..n] == rem + stamp
  {
    buf := new byte[128](_ => 0);
    n := CopyInto(buf, 0, rem);
    assert rem[..n] == rem && buf[..n] == buf[..][..n] == rem;
    var m := CopyInto(buf, n, stamp);
    assert stamp[..m] == stamp && buf[..n + m] == buf[..][..n + m] == rem + stamp;
    n := n + m;
  }

  /** The buffer work of hashMidstateStamp: remainder and stamp in one buffer, blocks, ending. */
  method HashFrom(f: Compress, s: State, rem: seq<byte>, stamp: seq<byte>, bits: nat) returns (h: State)
    requires |rem| + |stamp| <= 128
    ensures h == Finish(f, s, rem + stamp, bits)
  {
    var buf, n := Assemble(rem, stamp);
    ghost var t := rem + stamp;
    var off;
    h, off := AbsorbBlocks(f, s, buf, n);
    assert buf[..off] == t[..off] && buf[off..n] == t[off..];
    h := FinishBlock(f, h, buf[off..n], bits);
  }

  lemma MidstateFinish(f: Compress, iv: State, prefix: seq<byte>, stamp: seq<byte>)
    ensures var ms := MidstateOf(f, iv, prefix);
            DigestOf(Finish(f, ms.h, ms.rem + stamp, 8 * (|prefix| + |stamp|)), 8) == Sha256(f, iv, prefix + stamp)
  {
    var k := |prefix| / 64;
    assert prefix[..64 * k] + (prefix[64 * k..] + stamp) == prefix + stamp;
    FinishIsStandard(f, iv, prefix[..64 * k], k, prefix[64 * k..] + stamp);
  }

  /**
   hashMidstateStamp equals SHA-256 of prefix followed by stamp. The work buffer holds 128 bytes, so
   remainder and stamp together may take up to 128; the remainder is below 64, hence every stamp of at
   most 64 bytes fits. The length field is 64 bits wide, as in the standard.
   */
  method HashMidstateStamp(f: Compress, ms: Midstate, stamp: seq<byte>, ghost iv: State, ghost prefix: seq<byte>)
    returns (out: Digest)
    requires ms == MidstateOf(f, iv, prefix)
    requires |ms.rem| + |stamp| <= 128
    requires 8 * (|prefix| + |stamp|) < MAX_BITS
    ensures out == Sha256(f, iv, prefix + stamp)
  {
    var bitLen := (ms.prefixLen + |stamp|) * 8 % MAX_BITS;
    var h := HashFrom(f, ms.h, ms.rem, stamp, bitLen);
    out := Digested(h);
    MidstateFinish(f, iv, prefix, stamp);
  }

  // ----- sha256_finalize in the OpenCL kernel --------------------------------

  /** The kernel writes the length byte by byte, from the end of the block. */
  method KernelPutLength(block: array<byte>, bitlen: nat)
    requires block.Length == 64
    modifies block
    ensures block[..] == old(block[..56]) + BigEndian(bitlen, 8)
  {
    for i := 0 to 8
      invariant block[..56] == old(block[..56])
      invariant block[64 - i..] == BigEndian(bitlen, 8)[8 - i..]
    {
      BigEndianAt(bitlen, 8, i);
      block[63 - i] := (bitlen / Pow2(8 * i)) % 256;
    }
    assert block[..] == block[..56] + block[56..];
  }

  method KernelFirstBlock(block: array<byte>, last: seq<byte>)
    requires block.Length == 64 && |last| < 64
    modifies block
    ensures block[..] == last + [0x80] + Zeros(63 - |last|)
  {
    var remn := |last|;
    for i := 0 to remn
      invariant block[..i] == last[..i]
    {
      block[i] := last[i];
    }
    block[remn] := 0x80;
    assert block[..remn + 1] == last + [0x80] + Zeros(0);
    for i := remn + 1 to 64
      invariant block[..i] == last + [0x80] + Zeros(i - remn - 1)
    {
      block[i] := 0;
    }
    assert block[..] == block[..64];
  }

  /** The kernel's own finish: explicit byte loops, and only 56 bytes cleared between the blocks. */
  method KernelFinishBlock(f: Compress, s: State, last: seq<byte>, bitlen: nat) returns (h: State)
    requires |last| < 64
    ensures h == Fold(f, s, Ending(last, bitlen), EndBlocks(|last|))
  {
    h := s;
    var block := new byte[64];
    KernelFirstBlock(block, last);
    ghost var first := block[..];
    if |last| >= 56 {
      h := f(h, block[..]);
      for i := 0 to 56
        invariant block[..i] == Zeros(i)
      {
        block[i] := 0;
      }
      assert block[..][..56] == block[..56];
    }
    ghost var cleared := block[..];
    assert block[..56] == cleared[..56];
    KernelPutLength(block, bitlen);
    EndingBlocks(f, s, last, bitlen, first, cleared, block[..]);
    h := f(h, block[..]);
  }

  method KernelFinalize(f: Compress, s: State, buf: array<byte>, n: nat, bitlen: nat) returns (out: Digest)
    requires n <= buf.Length
    ensures out == DigestOf(Finish(f, s, buf[..n], bitlen), 8)
  {
    var h, off := AbsorbBlocks(f, s, buf, n);
    ghost var t := buf[..n];
    assert t[..off] == buf[..off] && t[off..] == buf[off..n];
    h := KernelFinishBlock(f, h, buf[off..n], bitlen);
    out := Digested(h);
  }
}
