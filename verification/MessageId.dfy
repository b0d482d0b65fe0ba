/**
 LXMF message packing and the message id (pkg/lxmf/message.go). The id is the hash over the payload
 without its stamp, and the receiver recovers those bytes from the wire without re-encoding them.
 */
module MessageId {
  import opened Bytes
  import opened MsgPack

  const HASH_LEN := 16
  const SIGNATURE_LEN := 64

  datatype Message = Message(
    dest: seq<byte>, source: seq<byte>, timestamp: seq<byte>,
    title: Option<seq<byte>>, content: Option<seq<byte>>, fields: seq<Value>, stamp: seq<byte>)

  datatype Packed = Packed(hash: Digest, signedPart: seq<byte>, wire: seq<byte>)

  datatype Unpacked = Unpacked(
    timestamp: Value, title: Option<seq<byte>>, content: Option<seq<byte>>, fields: seq<Value>, stamp: seq<byte>,
    signature: seq<byte>, hash: Digest, signedPart: seq<byte>)

  // ----- packing -------------------------------------------------------------

  function BytesValue(b: Option<seq<byte>>): Value {
    if b.Some? then Bin(b.value) else Nil
  }

  /** payloadList: the four hashed elements, and the stamp when there is one. */
  function PayloadList(m: Message, includeStamp: bool): seq<Value> {
    [Float(m.timestamp), BytesValue(m.title), BytesValue(m.content), Map(m.fields)] +
    if includeStamp && m.stamp != [] then [Bin(m.stamp)] else []
  }

  /** Sizes that fit MessagePack lengths; nothing else is asked of a message. */
  ghost predicate Packable(m: Message) {
    && |m.timestamp| == 8 && |m.stamp| < U32
    && Encodable(BytesValue(m.title)) && Encodable(BytesValue(m.content)) && Encodable(Map(m.fields))
  }

  lemma PayloadEncodable(m: Message, includeStamp: bool)
    requires Packable(m)
    ensures AllEncodable(PayloadList(m, includeStamp)) && Encodable(Arr(PayloadList(m, includeStamp)))
  {
    EncodableEach(PayloadList(m, includeStamp));
  }

  function EncodePayload(m: Message, includeStamp: bool): seq<byte>
    requires Packable(m)
  {
    PayloadEncodable(m, includeStamp);
    Encode(Arr(PayloadList(m, includeStamp)))
  }

  /** The encodings of the four hashed elements, without the array head. */
  function FourElements(m: Message): seq<byte>
    requires Packable(m)
  {
    PayloadEncodable(m, false);
    EncodeAll(PayloadList(m, false))
  }

  function Hashed(m: Message): seq<byte>
    requires Packable(m)
  {
    m.dest + m.source + EncodePayload(m, false)
  }

  /** Pack: lengths are checked, the hashed part is signed, and only the wire form carries the stamp. */
  function Pack(sha: seq<byte> -> Digest, sign: seq<byte> -> seq<byte>, m: Message): Option<Packed>
    requires Packable(m)
  {
    if |m.dest| != HASH_LEN || |m.source| != HASH_LEN then None
    else
      var sum := sha(Hashed(m));
      var signedPart := Hashed(m) + sum;
      var signature := sign(signedPart);
      if |signature| != SIGNATURE_LEN then None
      else Some(Packed(sum, signedPart, m.dest + m.source + signature + EncodePayload(m, true)))
  }

  // ----- unpacking -----------------------------------------------------------

  /** decodePayloadAndSplit: the elements, and the bytes the id is computed over. */
  function SplitPayload(data: seq<byte>): Option<(seq<Value>, seq<byte>)> {
    match DecodeHead(data)
    case Some((HArr(n), t)) =>
      if n < 4 || n > 15 then None
      else
        (match DecodeMany(t, 4, 0)
         case None => None
         case Some((vs, u)) =>
           var hashed := if n == 4 then data else [0x94] + t[..|t| - |u|];
           match DecodeMany(u, n - 4, 0)
           case None => None
           case Some((ws, w)) => if w != [] || n > 5 then None else Some((vs + ws, hashed)))
    case _ => None
  }

  /** The decoder loop of decodePayloadAndSplit: n values from s, in order. */
  method DecodeLoop(s: seq<byte>, n: nat) returns (r: Option<(seq<Value>, seq<byte>)>)
    ensures r == DecodeMany(s, n, 0)
  {
    var vs, t := [], s;
    if DecodeMany(s, n, 0).Some? { assert [] + DecodeMany(s, n, 0).value.0 == DecodeMany(s, n, 0).value.0; }
    for i := 0 to n
      invariant match DecodeMany(t, n - i, 0)
                case None => DecodeMany(s, n, 0).None?
                case Some((ws, u)) => DecodeMany(s, n, 0) == Some((vs + ws, u))
    {
      match Decode(t, 0) {
        case None => return None;
        case Some((v, u)) =>
          ghost var ws := DecodeMany(u, n - i - 1, 0);
          if ws.Some? { assert vs + ([v] + ws.value.0) == (vs + [v]) + ws.value.0; }
          vs, t := vs + [v], u;
      }
    }
    assert vs + [] == vs;
    return Some((vs, t));
  }

  method DecodePayloadAndSplit(data: seq<byte>) returns (r: Option<(seq<Value>, seq<byte>)>)
    ensures r == SplitPayload(data)
  {
    var head := DecodeHead(data);
    if head.None? || !head.value.0.HArr? { return None; }
    var n, t := head.value.0.n, head.value.1;
    if n < 4 || n > 15 { return None; }
    var front := DecodeLoop(t, 4);
    if front.None? { return None; }
    var hashed := data;
    if n != 4 {
      hashed := [0x94] + t[..|t| - |front.value.1|];
    }
    var back := DecodeLoop(front.value.1, n - 4);
    if back.None? || back.value.1 != [] || (n != 4 && n != 5) { return None; }
    return Some((front.value.0 + back.value.0, hashed));
  }

  function AsBytes(v: Value): Option<Option<seq<byte>>> {
    match v
    case Nil => Some(None)
    case Bin(s) => Some(Some(s))
    case Str(s) => Some(Some(s))
    case _ => None
  }

  predicate HexDigit(b: byte) {
    48 <= b <= 57 || 97 <= b <= 102 || 65 <= b <= 70
  }

  /** asByteKey accepts a number below 256, a one-byte string, or "0x" and hex digits. */
  predicate FieldKeyOk(v: Value) {
    match v
    case Int(i) => 0 <= i < 256
    case Str(s) =>
      |s| == 1 ||
      (|s| >= 3 && s[0] == 48 && (s[1] == 120 || s[1] == 88) && forall i :: 2 <= i < |s| ==> HexDigit(s[i]))
    case _ => false
  }

  /** asFields and normalizeFieldValue: every nested map needs byte keys as well. */
  predicate FieldValueOk(v: Value)
    decreases v, 1
  {
    match v
    case Arr(items) => FieldValuesOk(items)
    case Map(flat) => FieldMapOk(flat)
    case _ => true
  }

  predicate FieldValuesOk(vs: seq<Value>)
    decreases vs, 0
  {
    vs == [] || (FieldValueOk(vs[0]) && FieldValuesOk(vs[1..]))
  }

  predicate FieldMapOk(flat: seq<Value>)
    decreases flat, 0
  {
    |flat| < 2 || (FieldKeyOk(flat[0]) && FieldValueOk(flat[1]) && FieldMapOk(flat[2..]))
  }

  function HexDigitValue(b: byte): nat
    requires HexDigit(b)
  {
    if b <= 57 then b - 48 else if b >= 97 then b - 87 else b - 55
  }

  /** parseHexByte: one byte shifted left for each digit, so only the last two digits remain. */
  function HexByte(s: seq<byte>): byte
    requires forall i :: 0 <= i < |s| ==> HexDigit(s[i])
  {
    if s == [] then 0 else (16 * HexByte(s[..|s| - 1]) + HexDigitValue(s[|s| - 1])) % 256
  }

  function KeyByte(v: Value): byte
    requires FieldKeyOk(v)
  {
    if v.Int? then v.i else if |v.s| == 1 then v.s[0] else HexByte(v.s[2..])
  }

  /** The field map that the receiver gets, as a list of byte keys and normalised values. */
  function NormalValue(v: Value): Value
    requires FieldValueOk(v)
    decreases v, 1
  {
    match v
    case Arr(items) => Arr(NormalValues(items))
    case Map(flat) => Map(NormalMap(flat))
    case _ => v
  }

  function NormalValues(vs: seq<Value>): seq<Value>
    requires FieldValuesOk(vs)
    decreases vs, 0
  {
    if vs == [] then [] else [NormalValue(vs[0])] + NormalValues(vs[1..])
  }

  function NormalMap(flat: seq<Value>): seq<Value>
    requires FieldMapOk(flat)
    decreases flat, 0
  {
    if |flat| < 2 then [] else [Int(KeyByte(flat[0])), NormalValue(flat[1])] + NormalMap(flat[2..])
  }

  /** What a sender's map[byte]any encodes to: keys are numbers below 256, in nested maps as well. */
  predicate ByteKeyed(v: Value)
    decreases v, 1
  {
    match v
    case Arr(items) => ByteKeyedAll(items)
    case Map(flat) => ByteKeyedMap(flat)
    case _ => true
  }

  predicate ByteKeyedAll(vs: seq<Value>)
    decreases vs, 0
  {
    vs == [] || (ByteKeyed(vs[0]) && ByteKeyedAll(vs[1..]))
  }

  predicate ByteKeyedMap(flat: seq<Value>)
    decreases flat, 0
  {
    flat == [] || (|flat| >= 2 && flat[0].Int? && 0 <= flat[0].i < 256 && ByteKeyed(flat[1]) && ByteKeyedMap(flat[2..]))
  }

  /** Values with byte keys throughout are accepted and left as they are. */
  lemma {:induction false} ByteKeyedIsNormal(v: Value)
    requires ByteKeyed(v)
    ensures FieldValueOk(v) && NormalValue(v) == v
    decreases v, 1
  {
    match v
    case Arr(items) => ByteKeyedAllNormal(items);
    case Map(flat) => ByteKeyedMapNormal(flat);
    case _ =>
  }

  lemma {:induction false} ByteKeyedAllNormal(vs: seq<Value>)
    requires ByteKeyedAll(vs)
    ensures FieldValuesOk(vs) && NormalValues(vs) == vs
    decreases vs, 0
  {
    if vs != [] {
      ByteKeyedIsNormal(vs[0]);
      ByteKeyedAllNormal(vs[1..]);
    }
  }

  lemma {:induction false} ByteKeyedMapNormal(flat: seq<Value>)
    requires ByteKeyedMap(flat)
    ensures FieldMapOk(flat) && NormalMap(flat) == flat
    decreases flat, 0
  {
    if flat != [] {
      ByteKeyedIsNormal(flat[1]);
      ByteKeyedMapNormal(flat[2..]);
      assert flat == [flat[0], flat[1]] + flat[2..];
    }
  }

  /** Whatever was accepted has byte keys throughout once it is normalised. */
  lemma {:induction false} NormalIsByteKeyed(v: Value)
    requires FieldValueOk(v)
    ensures ByteKeyed(NormalValue(v))
    decreases v, 1
  {
    match v
    case Arr(items) => NormalAllByteKeyed(items);
    case Map(flat) => NormalMapByteKeyed(flat);
    case _ =>
  }

  lemma {:induction false} NormalAllByteKeyed(vs: seq<Value>)
    requires FieldValuesOk(vs)
    ensures ByteKeyedAll(NormalValues(vs))
    decreases vs, 0
  {
    if vs != [] {
      NormalIsByteKeyed(vs[0]);
      NormalAllByteKeyed(vs[1..]);
      assert NormalValues(vs)[1..] == NormalValues(vs[1..]);
    }
  }

  lemma {:induction false} NormalMapByteKeyed(flat: seq<Value>)
    requires FieldMapOk(flat)
    ensures ByteKeyedMap(NormalMap(flat))
    decreases flat, 0
  {
    if |flat| >= 2 {
      NormalIsByteKeyed(flat[1]);
      NormalMapByteKeyed(flat[2..]);
      assert NormalMap(flat)[2..] == NormalMap(flat[2..]);
    }
  }

  /** UnpackFromBytes up to signature verification. */
  function Unpack(sha: seq<byte> -> Digest, dest: seq<byte>, inner: seq<byte>): Option<Unpacked> {
    if |dest| != HASH_LEN || |inner| < HASH_LEN + SIGNATURE_LEN then None
    else
      var source := inner[..HASH_LEN];
      var signature := inner[HASH_LEN..HASH_LEN + SIGNATURE_LEN];
      match SplitPayload(inner[HASH_LEN + SIGNATURE_LEN..])
      case None => None
      case Some((vs, hashed)) =>
        if |vs| < 4 || !(vs[0].Float? || vs[0].Int?) || !(vs[3].Nil? || (vs[3].Map? && FieldMapOk(vs[3].flat)))
        then None
        else
          var title, content := AsBytes(vs[1]), AsBytes(vs[2]);
          var stamp := if |vs| > 4 then AsBytes(vs[4]) else Some(None);
          if title.None? || content.None? || stamp.None? then None
          else
            var sum := sha(dest + source + hashed);
            Some(Unpacked(
                   vs[0], title.value, content.value, if vs[3].Map? then NormalMap(vs[3].flat) else [],
                   if stamp.value.Some? then stamp.value.value else [], signature, sum, dest + source + hashed + sum))
  }

  // ----- the id does not depend on the stamp ---------------------------------

  lemma ShortArray(vs: seq<Value>)
    requires AllEncodable(vs) && |vs| < 16
    ensures Encodable(Arr(vs)) && Encode(Arr(vs)) == [0x90 + |vs|] + EncodeAll(vs)
  {
    assert HeadFor(Arr(vs)) == HArr(|vs|);
  }

  lemma FourAndStamp(m: Message)
    requires Packable(m)
    ensures EncodePayload(m, false) == [0x94] + FourElements(m)
    ensures EncodePayload(m, true) ==
            if m.stamp == [] then [0x94] + FourElements(m) else [0x95] + FourElements(m) + Encode(Bin(m.stamp))
  {
    PayloadEncodable(m, false);
    PayloadEncodable(m, true);
    ShortArray(PayloadList(m, false));
    ShortArray(PayloadList(m, true));
    if m.stamp == [] {
      assert PayloadList(m, true) == PayloadList(m, false);
    } else {
      var one := [Bin(m.stamp)];
      EncodableEach(one);
      ManyAppend(PayloadList(m, false), one);
      assert one[1..] == [] && EncodeAll(one) == Encode(one[0]) + [];
      assert PayloadList(m, true) == PayloadList(m, false) + one;
    }
  }

  lemma StampDecodes(stamp: seq<byte>)
    requires |stamp| < U32
    ensures DecodeMany(Encode(Bin(stamp)), 1, 0) == Some(([Bin(stamp)], []))
  {
    assert Encode(Bin(stamp)) + [] == Encode(Bin(stamp));
    RoundTrip(Bin(stamp), 0, []);
    assert [Bin(stamp)] + [] == [Bin(stamp)];
  }

  /** Splitting a payload whose four elements are followed by `tail`, which holds `more` elements. */
  lemma SplitAt(more: nat, body: seq<byte>, tail: seq<byte>)
    requires more <= 1 && DecodeMany(body + tail, 4, 0).Some? && DecodeMany(body + tail, 4, 0).value.1 == tail
    requires DecodeMany(tail, more, 0).Some? && DecodeMany(tail, more, 0).value.1 == []
    ensures SplitPayload([0x94 + more] + (body + tail)) ==
            Some((DecodeMany(body + tail, 4, 0).value.0 + DecodeMany(tail, more, 0).value.0,
                  if more == 0 then [0x94] + (body + tail) else [0x94] + body))
  {
    DecodeSingle(0x94 + more, body + tail);
    var t := body + tail;
    assert t[..|t| - |tail|] == body;
  }

  /** Whatever the wire bytes are: adding or changing a stamp leaves the hashed bytes alone. */
  lemma RestampKeepsHashed(body: seq<byte>, stamp: seq<byte>)
    requires DecodeMany(body, 4, 0).Some? && DecodeMany(body, 4, 0).value.1 == []
    requires |stamp| < U32
    ensures SplitPayload([0x94] + body) == Some((DecodeMany(body, 4, 0).value.0, [0x94] + body))
    ensures SplitPayload([0x95] + body + Encode(Bin(stamp))) ==
            Some((DecodeMany(body, 4, 0).value.0 + [Bin(stamp)], [0x94] + body))
  {
    var vs, x := DecodeMany(body, 4, 0).value.0, Encode(Bin(stamp));
    assert body + [] == body && vs + [] == vs;
    SplitAt(0, body, []);
    ManyExtends(body, 4, 0, x);
    assert [] + x == x;
    StampDecodes(stamp);
    SplitAt(1, body, x);
    assert [0x95] + body + x == [0x95] + (body + x);
  }

  lemma SplitAccepted(m: Message)
    requires Packable(m) && WithinLimits(Map(m.fields), 0)
    ensures SplitPayload(EncodePayload(m, true)) == Some((PayloadList(m, true), EncodePayload(m, false)))
  {
    var list, four := PayloadList(m, false), FourElements(m);
    FourAndStamp(m);
    PayloadEncodable(m, false);
    LimitsEach(list, 0);
    ManyRoundTrip(list, 0, []);
    assert four + [] == four;
    RestampKeepsHashed(four, m.stamp);
    assert PayloadList(m, true) == if m.stamp == [] then list else list + [Bin(m.stamp)];
  }

  lemma SplitFails(data: seq<byte>, more: nat, t: seq<byte>)
    requires data == [0x94 + more] + t && more <= 1 && DecodeMany(t, 4, 0).None?
    ensures SplitPayload(data).None?
  {
    DecodeSingle(0x94 + more, t);
  }

  lemma FourRejected(m: Message, tail: seq<byte>)
    requires Packable(m) && !WithinLimits(Map(m.fields), 0)
    ensures DecodeMany(FourElements(m) + tail, 4, 0).None?
  {
    var list := PayloadList(m, false);
    PayloadEncodable(m, false);
    LimitsEach(list, 0);
    assert list[3] == Map(m.fields);
    ManyRoundTrip(list, 0, tail);
  }

  /** What follows the array head of the wire payload. */
  lemma AfterHead(m: Message) returns (more: nat, tail: seq<byte>)
    requires Packable(m)
    ensures more <= 1 && EncodePayload(m, true) == [0x94 + more] + (FourElements(m) + tail)
  {
    FourAndStamp(m);
    if m.stamp == [] {
      assert FourElements(m) + [] == FourElements(m);
      return 0, [];
    }
    tail := Encode(Bin(m.stamp));
    assert [0x95] + FourElements(m) + tail == [0x95] + (FourElements(m) + tail);
    return 1, tail;
  }

  lemma SplitRejected(m: Message)
    requires Packable(m) && !WithinLimits(Map(m.fields), 0)
    ensures SplitPayload(EncodePayload(m, true)).None?
  {
    var more, tail := AfterHead(m);
    FourRejected(m, tail);
    SplitFails(EncodePayload(m, true), more, FourElements(m) + tail);
  }

  /**
   Unpacking a packed message succeeds exactly when the decoder accepts its fields, and then it
   recomputes the id and the signed bytes that Pack produced and returns every part of the message.
   */
  lemma UnpackOfPack(sha: seq<byte> -> Digest, sign: seq<byte> -> seq<byte>, m: Message)
    requires Packable(m) && Pack(sha, sign, m).Some?
    ensures var p := Pack(sha, sign, m).value;
            Unpack(sha, m.dest, p.wire[HASH_LEN..]) ==
            if WithinLimits(Map(m.fields), 0) && FieldMapOk(m.fields)
            then Some(Unpacked(Float(m.timestamp), m.title, m.content, NormalMap(m.fields), m.stamp,
                               sign(p.signedPart), p.hash, p.signedPart))
            else None
  {
    var p := Pack(sha, sign, m).value;
    var signature := sign(p.signedPart);
    var inner := p.wire[HASH_LEN..];
    assert inner == m.source + signature + EncodePayload(m, true);
    assert inner[..HASH_LEN] == m.source;
    assert inner[HASH_LEN..HASH_LEN + SIGNATURE_LEN] == signature;
    assert inner[HASH_LEN + SIGNATURE_LEN..] == EncodePayload(m, true);
    if WithinLimits(Map(m.fields), 0) { SplitAccepted(m); } else { SplitRejected(m); }
  }

  /** A message whose fields have byte keys, as the sender's maps do, comes back with exactly those fields. */
  lemma FieldsComeBack(sha: seq<byte> -> Digest, sign: seq<byte> -> seq<byte>, m: Message)
    requires Packable(m) && Pack(sha, sign, m).Some? && ByteKeyedMap(m.fields)
    ensures var u := Unpack(sha, m.dest, Pack(sha, sign, m).value.wire[HASH_LEN..]);
            (u.Some? <==> WithinLimits(Map(m.fields), 0)) && (u.Some? ==> u.value.fields == m.fields)
  {
    UnpackOfPack(sha, sign, m);
    ByteKeyedMapNormal(m.fields);
  }

  /** The same message with any two stamps has one id and one signed part, packed and unpacked. */
  lemma IdIgnoresStamp(sha: seq<byte> -> Digest, sign: seq<byte> -> seq<byte>, m: Message, stamp: seq<byte>)
    requires Packable(m) && Packable(m.(stamp := stamp)) && Pack(sha, sign, m).Some?
    ensures var p, q := Pack(sha, sign, m), Pack(sha, sign, m.(stamp := stamp));
            q.Some? && p.value.hash == q.value.hash && p.value.signedPart == q.value.signedPart &&
            var u, v := Unpack(sha, m.dest, p.value.wire[HASH_LEN..]), Unpack(sha, m.dest, q.value.wire[HASH_LEN..]);
            (u.Some? <==> v.Some?) &&
            (u.Some? ==> u.value.hash == v.value.hash == p.value.hash && v.value.stamp == stamp)
  {
    assert PayloadList(m, false) == PayloadList(m.(stamp := stamp), false);
    UnpackOfPack(sha, sign, m);
    UnpackOfPack(sha, sign, m.(stamp := stamp));
  }
}
