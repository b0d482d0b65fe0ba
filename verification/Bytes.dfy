/** Bytes, powers of two and big-endian numbers, shared by the stamp, hash and MessagePack models. */
module Bytes {
  type byte = b: int | 0 <= b < 256

  /** A SHA-256 digest. */
  type Digest = d: seq<byte> | |d| == 32 witness seq(32, _ => 0)

  datatype Option<+T> = None | Some(value: T)

  function Min(a: int, b: int): int {
    if a < b then a else b
  }

  function Max(a: int, b: int): int {
    if a < b then b else a
  }

  function Zeros(n: nat): (z: seq<byte>)
    ensures |z| == n && forall i :: 0 <= i < n ==> z[i] == 0
  {
    seq(n, _ => 0)
  }

  function Pow2(n: nat): (p: nat)
    ensures p > 0
  {
    if n == 0 then 1 else 2 * Pow2(n - 1)
  }

  lemma {:induction false} Pow2Add(m: nat, n: nat)
    ensures Pow2(m + n) == Pow2(m) * Pow2(n)
  {
    if m > 0 {
      Pow2Add(m - 1, n);
      calc {
        Pow2(m + n);
        2 * (Pow2(m - 1) * Pow2(n));
        (2 * Pow2(m - 1)) * Pow2(n);
      }
    }
  }

  lemma {:induction false} Pow2Monotone(m: nat, n: nat)
    requires m <= n
    ensures Pow2(m) <= Pow2(n)
    decreases n
  {
    if m < n { Pow2Monotone(m, n - 1); }
  }

  lemma Pow2Eight()
    ensures Pow2(8) == 256
  {
    assert Pow2(3) == 8;
    assert Pow2(6) == 64;
  }

  /** The number a byte string denotes, most significant byte first. */
  function Num(s: seq<byte>): nat {
    if s == [] then 0 else s[0] * Pow2(8 * (|s| - 1)) + Num(s[1..])
  }

  lemma {:induction false} NumBound(s: seq<byte>)
    ensures Num(s) < Pow2(8 * |s|)
  {
    if s != [] {
      NumBound(s[1..]);
      var p := Pow2(8 * (|s| - 1));
      Pow2Add(8, 8 * (|s| - 1));
      Pow2Eight();
      MulLeq(s[0], 255, p);
    }
  }

  lemma MulLeq(a: int, b: int, p: nat)
    requires a <= b
    ensures a * p <= b * p
  {
  }

  /** With remainders below p, a*p + r is below b*p exactly when a is below b. */
  lemma DigitBelow(a: int, b: int, p: nat, r: nat)
    requires r < p
    ensures a * p + r < b * p <==> a < b
  {
    if a < b {
      MulLeq(a + 1, b, p);
      assert (a + 1) * p == a * p + p;
    } else {
      MulLeq(b, a, p);
    }
  }

  /** The n low bytes of v, most significant first. */
  function BigEndian(v: nat, n: nat): (s: seq<byte>)
    ensures |s| == n
  {
    if n == 0 then [] else BigEndian(v / 256, n - 1) + [v % 256]
  }

  /** Dropping a byte and then shifting is shifting by one byte more. */
  lemma ShiftByteFirst(v: nat, p: nat)
    requires p > 0
    ensures v / (256 * p) == (v / 256) / p
  {
    var q, r := v / (256 * p), v % (256 * p);
    var pq := p * q;
    assert v == 256 * pq + r by {
      assert (256 * p) * q == 256 * pq;
    }
    assert v / 256 == pq + r / 256;
    QuotientUnique(v / 256, p, q, r / 256);
  }

  lemma QuotientUnique(v: nat, d: nat, q: nat, r: nat)
    requires d > 0 && r < d && v == d * q + r
    ensures v / d == q
  {
    var q' := v / d;
    assert v == d * q' + v % d;
    if q' < q {
      MulLeq(q' + 1, q, d);
    } else if q < q' {
      MulLeq(q + 1, q', d);
    }
  }

  /** Byte i from the end of a big-endian number is the number shifted right by 8i bits. */
  lemma {:induction false} BigEndianAt(v: nat, n: nat, i: nat)
    requires i < n
    ensures BigEndian(v, n)[n - 1 - i] == (v / Pow2(8 * i)) % 256
  {
    if i > 0 {
      BigEndianAt(v / 256, n - 1, i - 1);
      Pow2Add(8, 8 * (i - 1));
      Pow2Eight();
      ShiftByteFirst(v, Pow2(8 * (i - 1)));
    }
  }

  lemma {:induction false} NumAppend(s: seq<byte>, b: byte)
    ensures Num(s + [b]) == 256 * Num(s) + b
  {
    if s == [] {
      assert s + [b] == [b];
      assert [b][1..] == [];
    } else {
      assert (s + [b])[1..] == s[1..] + [b];
      NumAppend(s[1..], b);
      Pow2Add(8, 8 * (|s| - 1));
      Pow2Eight();
      assert s[0] * (256 * Pow2(8 * (|s| - 1))) == 256 * (s[0] * Pow2(8 * (|s| - 1)));
    }
  }

  lemma {:induction false} NumBigEndian(v: nat, n: nat)
    requires v < Pow2(8 * n)
    ensures Num(BigEndian(v, n)) == v
  {
    if n > 0 {
      Pow2Add(8, 8 * (n - 1));
      Pow2Eight();
      NumBigEndian(v / 256, n - 1);
      NumAppend(BigEndian(v / 256, n - 1), v % 256);
    }
  }
}
