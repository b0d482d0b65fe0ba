/**
 The part of MessagePack that LXMF payloads use: compact integers, 64-bit floats, the bin, str,
 array and map families, and the decoder limits of msgpackMapCtx in pkg/lxmf/message.go.
 A map is kept as the flat list key, value, key, value, ... in wire order.
 */
module MsgPack {
  import opened Bytes

  datatype Value =
    | Nil
    | Bool(b: bool)
    | Int(i: int)
    | Float(bits: seq<byte>)
    | Str(s: seq<byte>)
    | Bin(s: seq<byte>)
    | Arr(items: seq<Value>)
    | Map(flat: seq<Value>)

  /** The type and length at the front of an encoded value. */
  datatype Head =
    | HNil | HBool(b: bool) | HInt(i: int) | HFloat | HStr(n: nat) | HBin(n: nat) | HArr(n: nat) | HMap(n: nat)

  const MAX_MAP_DEPTH := 16
  const MAX_MAP_PAIRS := 1024
  const U32 := 0x1_0000_0000
  const U64 := 0x1_0000_0000_0000_0000

  // ----- heads ---------------------------------------------------------------

  ghost predicate HeadOk(h: Head) {
    match h
    case HInt(i) => -0x8000_0000_0000_0000 <= i < U64
    case HStr(n) => n < U32
    case HBin(n) => n < U32
    case HArr(n) => n < U32
    case HMap(n) => n < U32
    case _ => true
  }

  /** A tag followed by v in as many bytes as the width says. */
  function Tagged(tag: byte, v: nat, width: nat): (s: seq<byte>)
    ensures |s| == 1 + width && s[0] == tag && s[1..] == BigEndian(v, width)
  {
    [tag] + BigEndian(v, width)
  }

  function EncodeInt(i: int): (s: seq<byte>)
    requires -0x8000_0000_0000_0000 <= i < U64
    ensures 1 <= |s| <= 9
  {
    if 0 <= i < 128 then [i]
    else if -32 <= i < 0 then [256 + i]
    else if 0 <= i then
      if i < 0x100 then Tagged(0xcc, i, 1)
      else if i < 0x1_0000 then Tagged(0xcd, i, 2)
      else if i < U32 then Tagged(0xce, i, 4)
      else Tagged(0xcf, i, 8)
    else
      if i >= -0x80 then Tagged(0xd0, 0x100 + i, 1)
      else if i >= -0x8000 then Tagged(0xd1, 0x1_0000 + i, 2)
      else if i >= -0x8000_0000 then Tagged(0xd2, U32 + i, 4)
      else Tagged(0xd3, U64 + i, 8)
  }

  function EncodeHead(h: Head): (s: seq<byte>)
    requires HeadOk(h)
    ensures 1 <= |s| <= if h.HInt? then 9 else 5
  {
    match h
    case HNil => [0xc0]
    case HBool(b) => [if b then 0xc3 else 0xc2]
    case HInt(i) => EncodeInt(i)
    case HFloat => [0xcb]
    case HStr(n) =>
      if n < 32 then [0xa0 + n]
      else if n < 0x100 then Tagged(0xd9, n, 1)
      else if n < 0x1_0000 then Tagged(0xda, n, 2)
      else Tagged(0xdb, n, 4)
    case HBin(n) =>
      if n < 0x100 then Tagged(0xc4, n, 1)
      else if n < 0x1_0000 then Tagged(0xc5, n, 2)
      else Tagged(0xc6, n, 4)
    case HArr(n) =>
      if n < 16 then [0x90 + n]
      else if n < 0x1_0000 then Tagged(0xdc, n, 2)
      else Tagged(0xdd, n, 4)
    case HMap(n) =>
      if n < 16 then [0x80 + n]
      else if n < 0x1_0000 then Tagged(0xde, n, 2)
      else Tagged(0xdf, n, 4)
  }

  /** The number of bytes after the tag that belong to the head. */
  function HeadWidth(tag: byte): nat {
    if tag in {0xc4, 0xcc, 0xd0, 0xd9} then 1
    else if tag in {0xc5, 0xcd, 0xd1, 0xda, 0xdc, 0xde} then 2
    else if tag in {0xc6, 0xce, 0xd2, 0xdb, 0xdd, 0xdf} then 4
    else if tag in {0xcf, 0xd3} then 8
    else 0
  }

  /** One more than the largest number in `width` bytes. */
  function Cap(width: nat): nat {
    if width == 0 then 1 else if width == 1 then 0x100 else if width == 2 then 0x1_0000
    else if width == 4 then U32 else U64
  }

  /** Two's complement reading of v in `width` bytes. */
  function Signed(v: nat, width: nat): int {
    if v < Cap(width) / 2 then v else v - Cap(width)
  }

  function HeadOf(tag: byte, v: nat): Option<Head> {
    if tag < 0x80 then Some(HInt(tag))
    else if tag < 0x90 then Some(HMap(tag - 0x80))
    else if tag < 0xa0 then Some(HArr(tag - 0x90))
    else if tag < 0xc0 then Some(HStr(tag - 0xa0))
    else if tag == 0xc0 then Some(HNil)
    else if tag == 0xc2 then Some(HBool(false))
    else if tag == 0xc3 then Some(HBool(true))
    else if 0xc4 <= tag <= 0xc6 then Some(HBin(v))
    else if tag == 0xcb then Some(HFloat)
    else if 0xcc <= tag <= 0xcf then Some(HInt(v))
    else if 0xd0 <= tag <= 0xd3 then Some(HInt(Signed(v, HeadWidth(tag))))
    else if 0xd9 <= tag <= 0xdb then Some(HStr(v))
    else if tag == 0xdc || tag == 0xdd then Some(HArr(v))
    else if tag == 0xde || tag == 0xdf then Some(HMap(v))
    else if tag >= 0xe0 then Some(HInt(tag - 256))
    else None
  }

  function DecodeHead(s: seq<byte>): (r: Option<(Head, seq<byte>)>)
    ensures r.Some? ==> |r.value.1| < |s|
  {
    if s == [] then None
    else
      var w := HeadWidth(s[0]);
      if |s| < 1 + w then None
      else
        match HeadOf(s[0], Num(s[1..1 + w]))
        case None => None
        case Some(h) => Some((h, s[1 + w..]))
  }

  lemma Squared(half: nat, p: nat)
    requires Pow2(half) == p
    ensures Pow2(2 * half) == p * p
  {
    Pow2Add(half, half);
  }

  lemma CapIsPower(width: nat)
    requires width in {0, 1, 2, 4, 8}
    ensures Cap(width) == Pow2(8 * width)
  {
    Pow2Eight();
    if width >= 2 { Squared(8, 0x100); }
    if width >= 4 { Squared(16, 0x1_0000); }
    if width == 8 { Squared(32, U32); }
  }

  lemma DecodeTagged(tag: byte, v: nat, width: nat, rest: seq<byte>)
    requires HeadWidth(tag) == width && v < Cap(width) && HeadOf(tag, v).Some?
    ensures DecodeHead(Tagged(tag, v, width) + rest) == Some((HeadOf(tag, v).value, rest))
  {
    var s := Tagged(tag, v, width) + rest;
    assert s[1..1 + width] == BigEndian(v, width) && s[1 + width..] == rest;
    CapIsPower(width);
    NumBigEndian(v, width);
  }

  lemma DecodeSingle(tag: byte, rest: seq<byte>)
    requires HeadWidth(tag) == 0 && HeadOf(tag, 0).Some?
    ensures DecodeHead([tag] + rest) == Some((HeadOf(tag, 0).value, rest))
  {
    var s := [tag] + rest;
    assert s[1..1] == [] && s[1..] == rest;
  }

  lemma NatRoundTrip(i: nat, rest: seq<byte>)
    requires i < U64
    ensures DecodeHead(EncodeInt(i) + rest) == Some((HInt(i), rest))
  {
    if i < 128 { DecodeSingle(i, rest); }
    else if i < 0x100 { DecodeTagged(0xcc, i, 1, rest); }
    else if i < 0x1_0000 { DecodeTagged(0xcd, i, 2, rest); }
    else if i < U32 { DecodeTagged(0xce, i, 4, rest); }
    else { DecodeTagged(0xcf, i, 8, rest); }
  }

  lemma NegativeRoundTrip(i: int, rest: seq<byte>)
    requires -0x8000_0000_0000_0000 <= i < 0
    ensures DecodeHead(EncodeInt(i) + rest) == Some((HInt(i), rest))
  {
    if i >= -32 { DecodeSingle(256 + i, rest); }
    else if i >= -0x80 { DecodeTagged(0xd0, 0x100 + i, 1, rest); }
    else if i >= -0x8000 { DecodeTagged(0xd1, 0x1_0000 + i, 2, rest); }
    else if i >= -0x8000_0000 { DecodeTagged(0xd2, U32 + i, 4, rest); }
    else { DecodeTagged(0xd3, U64 + i, 8, rest); }
  }

  lemma BytesHeadRoundTrip(h: Head, rest: seq<byte>)
    requires HeadOk(h) && (h.HStr? || h.HBin?)
    ensures DecodeHead(EncodeHead(h) + rest) == Some((h, rest))
  {
    var n := h.n;
    if h.HStr? && n < 32 { DecodeSingle(0xa0 + n, rest); }
    else if n < 0x100 { DecodeTagged(if h.HStr? then 0xd9 else 0xc4, n, 1, rest); }
    else if n < 0x1_0000 { DecodeTagged(if h.HStr? then 0xda else 0xc5, n, 2, rest); }
    else { DecodeTagged(if h.HStr? then 0xdb else 0xc6, n, 4, rest); }
  }

  lemma NestHeadRoundTrip(h: Head, rest: seq<byte>)
    requires HeadOk(h) && (h.HArr? || h.HMap?)
    ensures DecodeHead(EncodeHead(h) + rest) == Some((h, rest))
  {
    var n := h.n;
    if n < 16 { DecodeSingle((if h.HArr? then 0x90 else 0x80) + n, rest); }
    else if n < 0x1_0000 { DecodeTagged(if h.HArr? then 0xdc else 0xde, n, 2, rest); }
    else { DecodeTagged(if h.HArr? then 0xdd else 0xdf, n, 4, rest); }
  }

  lemma HeadRoundTrip(h: Head, rest: seq<byte>)
    requires HeadOk(h)
    ensures DecodeHead(EncodeHead(h) + rest) == Some((h, rest))
  {
    if h.HInt? {
      if h.i >= 0 { NatRoundTrip(h.i, rest); } else { NegativeRoundTrip(h.i, rest); }
    } else if h.HStr? || h.HBin? {
      BytesHeadRoundTrip(h, rest);
    } else if h.HArr? || h.HMap? {
      NestHeadRoundTrip(h, rest);
    } else {
      DecodeSingle(EncodeHead(h)[0], rest);
    }
  }

  // ----- values --------------------------------------------------------------

  function HeadFor(v: Value): Head {
    match v
    case Nil => HNil
    case Bool(b) => HBool(b)
    case Int(i) => HInt(i)
    case Float(_) => HFloat
    case Str(s) => HStr(|s|)
    case Bin(s) => HBin(|s|)
    case Arr(items) => HArr(|items|)
    case Map(flat) => HMap(|flat| / 2)
  }

  ghost predicate Encodable(v: Value)
    decreases v, 1
  {
    HeadOk(HeadFor(v)) &&
    match v
    case Float(bits) => |bits| == 8
    case Arr(items) => AllEncodable(items)
    case Map(flat) => |flat| % 2 == 0 && AllEncodable(flat)
    case _ => true
  }

  ghost predicate AllEncodable(vs: seq<Value>)
    decreases vs, 0
  {
    vs == [] || (Encodable(vs[0]) && AllEncodable(vs[1..]))
  }

  lemma {:induction false} EncodableEach(vs: seq<Value>)
    ensures AllEncodable(vs) <==> forall i :: 0 <= i < |vs| ==> Encodable(vs[i])
  {
    if vs != [] {
      EncodableEach(vs[1..]);
      assert forall i :: 1 <= i < |vs| ==> vs[i] == vs[1..][i - 1];
    }
  }

  function Encode(v: Value): seq<byte>
    requires Encodable(v)
    decreases v, 2
  {
    EncodeHead(HeadFor(v)) + EncodeBody(v)
  }

  function EncodeBody(v: Value): seq<byte>
    requires Encodable(v)
    decreases v, 1
  {
    match v
    case Float(bits) => bits
    case Str(s) => s
    case Bin(s) => s
    case Arr(items) => EncodeAll(items)
    case Map(flat) => EncodeAll(flat)
    case _ => []
  }

  function EncodeAll(vs: seq<Value>): seq<byte>
    requires AllEncodable(vs)
    decreases vs, 0
  {
    if vs == [] then [] else Encode(vs[0]) + EncodeAll(vs[1..])
  }

  /** Values Go can use as a map key once decoded. */
  predicate Comparable(v: Value) {
    !v.Bin? && !v.Arr? && !v.Map?
  }

  predicate KeysComparable(flat: seq<Value>) {
    forall i :: 0 <= i < |flat| && i % 2 == 0 ==> Comparable(flat[i])
  }

  /** DecodeInterface with the map limits; `depth` maps are open around the value. */
  function Decode(s: seq<byte>, depth: nat): (r: Option<(Value, seq<byte>)>)
    ensures r.Some? ==> |r.value.1| < |s|
    decreases |s|, 0, 0
  {
    match DecodeHead(s)
    case None => None
    case Some((h, t)) =>
      match h
      case HNil => Some((Nil, t))
      case HBool(b) => Some((Bool(b), t))
      case HInt(i) => Some((Int(i), t))
      case HFloat => if |t| < 8 then None else Some((Float(t[..8]), t[8..]))
      case HStr(n) => if |t| < n then None else Some((Str(t[..n]), t[n..]))
      case HBin(n) => if |t| < n then None else Some((Bin(t[..n]), t[n..]))
      case HArr(n) =>
        (match DecodeMany(t, n, depth)
         case None => None
         case Some((vs, u)) => Some((Arr(vs), u)))
      case HMap(n) =>
        if depth >= MAX_MAP_DEPTH || n > MAX_MAP_PAIRS then None
        else
          match DecodeMany(t, 2 * n, depth + 1)
          case None => None
          case Some((vs, u)) => if KeysComparable(vs) then Some((Map(vs), u)) else None
  }

  function DecodeMany(s: seq<byte>, n: nat, depth: nat): (r: Option<(seq<Value>, seq<byte>)>)
    ensures r.Some? ==> |r.value.0| == n && |r.value.1| <= |s|
    decreases |s|, 1, n
  {
    if n == 0 then Some(([], s))
    else
      match Decode(s, depth)
      case None => None
      case Some((v, t)) =>
        match DecodeMany(t, n - 1, depth)
        case None => None
        case Some((vs, u)) => Some(([v] + vs, u))
  }

  /** What the decoder's map limits allow. */
  predicate WithinLimits(v: Value, depth: nat)
    decreases v, 1
  {
    match v
    case Arr(items) => AllWithinLimits(items, depth)
    case Map(flat) =>
      depth < MAX_MAP_DEPTH && |flat| / 2 <= MAX_MAP_PAIRS && KeysComparable(flat) && AllWithinLimits(flat, depth + 1)
    case _ => true
  }

  predicate AllWithinLimits(vs: seq<Value>, depth: nat)
    decreases vs, 0
  {
    vs == [] || (WithinLimits(vs[0], depth) && AllWithinLimits(vs[1..], depth))
  }

  lemma {:induction false} LimitsEach(vs: seq<Value>, depth: nat)
    ensures AllWithinLimits(vs, depth) <==> forall i :: 0 <= i < |vs| ==> WithinLimits(vs[i], depth)
  {
    if vs != [] {
      LimitsEach(vs[1..], depth);
      assert forall i :: 1 <= i < |vs| ==> vs[i] == vs[1..][i - 1];
    }
  }

  /** Decoding an encoded value gives it back, and exactly when it is within the limits. */
  lemma {:induction false} RoundTrip(v: Value, depth: nat, rest: seq<byte>)
    requires Encodable(v)
    ensures Decode(Encode(v) + rest, depth) == if WithinLimits(v, depth) then Some((v, rest)) else None
    decreases v, 1
  {
    match v
    case Arr(items) =>
      ManyRoundTrip(items, depth, rest);
      NestRoundTrip(v, items, depth, depth, rest);
    case Map(flat) =>
      ManyRoundTrip(flat, depth + 1, rest);
      NestRoundTrip(v, flat, depth, depth + 1, rest);
    case _ => LeafRoundTrip(v, depth, rest);
  }

  lemma NestRoundTrip(v: Value, vs: seq<Value>, depth: nat, inside: nat, rest: seq<byte>)
    requires Encodable(v) && ((v == Arr(vs) && inside == depth) || (v == Map(vs) && inside == depth + 1))
    requires DecodeMany(EncodeAll(vs) + rest, |vs|, inside) ==
             if AllWithinLimits(vs, inside) then Some((vs, rest)) else None
    ensures Decode(Encode(v) + rest, depth) == if WithinLimits(v, depth) then Some((v, rest)) else None
  {
    HeadThenBody(v, rest);
    if v.Map? { assert 2 * (|vs| / 2) == |vs|; }
  }

  lemma HeadThenBody(v: Value, rest: seq<byte>)
    requires Encodable(v)
    ensures DecodeHead(Encode(v) + rest) == Some((HeadFor(v), EncodeBody(v) + rest))
  {
    assert Encode(v) + rest == EncodeHead(HeadFor(v)) + (EncodeBody(v) + rest);
    HeadRoundTrip(HeadFor(v), EncodeBody(v) + rest);
  }

  lemma LeafRoundTrip(v: Value, depth: nat, rest: seq<byte>)
    requires Encodable(v) && !v.Arr? && !v.Map?
    ensures Decode(Encode(v) + rest, depth) == Some((v, rest))
  {
    HeadThenBody(v, rest);
    var t := EncodeBody(v) + rest;
    var n := |EncodeBody(v)|;
    assert t[..n] == EncodeBody(v) && t[n..] == rest;
  }

  lemma {:induction false} ManyRoundTrip(vs: seq<Value>, depth: nat, rest: seq<byte>)
    requires AllEncodable(vs)
    ensures DecodeMany(EncodeAll(vs) + rest, |vs|, depth) ==
            if AllWithinLimits(vs, depth) then Some((vs, rest)) else None
    decreases vs, 0
  {
    if vs == [] {
      assert EncodeAll(vs) + rest == rest;
    } else {
      assert EncodeAll(vs) + rest == Encode(vs[0]) + (EncodeAll(vs[1..]) + rest);
      RoundTrip(vs[0], depth, EncodeAll(vs[1..]) + rest);
      ManyRoundTrip(vs[1..], depth, rest);
      assert [vs[0]] + vs[1..] == vs;
    }
  }

  lemma {:induction false} ManyAppend(vs: seq<Value>, ws: seq<Value>)
    requires AllEncodable(vs) && AllEncodable(ws)
    ensures AllEncodable(vs + ws) && EncodeAll(vs + ws) == EncodeAll(vs) + EncodeAll(ws)
  {
    if vs == [] {
      assert vs + ws == ws;
    } else {
      assert (vs + ws)[0] == vs[0] && (vs + ws)[1..] == vs[1..] + ws;
      ManyAppend(vs[1..], ws);
    }
  }

  // ----- decoding looks only at the bytes it consumes ------------------------

  lemma HeadExtends(s: seq<byte>, x: seq<byte>)
    requires DecodeHead(s).Some?
    ensures DecodeHead(s + x) == Some((DecodeHead(s).value.0, DecodeHead(s).value.1 + x))
  {
    var w := HeadWidth(s[0]);
    assert (s + x)[1..1 + w] == s[1..1 + w] && (s + x)[1 + w..] == s[1 + w..] + x;
  }

  lemma {:induction false} DecodeExtends(s: seq<byte>, depth: nat, x: seq<byte>)
    requires Decode(s, depth).Some?
    ensures Decode(s + x, depth) == Some((Decode(s, depth).value.0, Decode(s, depth).value.1 + x))
    decreases |s|, 0, 0
  {
    HeadExtends(s, x);
    var (h, t) := DecodeHead(s).value;
    match h
    case HArr(n) => ManyExtends(t, n, depth, x);
    case HMap(n) => ManyExtends(t, 2 * n, depth + 1, x);
    case HFloat => assert (t + x)[..8] == t[..8] && (t + x)[8..] == t[8..] + x;
    case HStr(n) => assert (t + x)[..n] == t[..n] && (t + x)[n..] == t[n..] + x;
    case HBin(n) => assert (t + x)[..n] == t[..n] && (t + x)[n..] == t[n..] + x;
    case _ =>
  }

  lemma {:induction false} ManyExtends(s: seq<byte>, n: nat, depth: nat, x: seq<byte>)
    requires DecodeMany(s, n, depth).Some?
    ensures DecodeMany(s + x, n, depth) == Some((DecodeMany(s, n, depth).value.0, DecodeMany(s, n, depth).value.1 + x))
    decreases |s|, 1, n
  {
    if n > 0 {
      DecodeExtends(s, depth, x);
      ManyExtends(Decode(s, depth).value.1, n - 1, depth, x);
    }
  }
}
