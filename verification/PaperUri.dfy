/**
 Paper messages (pkg/lxmf/paper.go, router_propagation.go): an lxm:// URI carries the payload in the URL-safe
 base64 alphabet of RFC 4648 section 5 without padding; reading restores the padding (section 3.2).
 */
module PaperUri {
  import opened Bytes

  const SCHEME := "lxm://"
  const QR_CAPACITY := 2953
  const PAPER_MDU := ((QR_CAPACITY - |SCHEME|) * 6) / 8

  // ----- base64 ----------------------------------------------------------------------

  function Char64(n: nat): char
    requires n < 64
  {
    if n < 26 then 'A' + n as char
    else if n < 52 then 'a' + (n - 26) as char
    else if n < 62 then '0' + (n - 52) as char
    else if n == 62 then '-' else '_'
  }

  function Value64(c: char): (v: Option<nat>)
    ensures v.Some? ==> v.value < 64
  {
    if 'A' <= c <= 'Z' then Some((c - 'A') as nat)
    else if 'a' <= c <= 'z' then Some((c - 'a') as nat + 26)
    else if '0' <= c <= '9' then Some((c - '0') as nat + 52)
    else if c == '-' then Some(62)
    else if c == '_' then Some(63)
    else None
  }

  lemma CharBack(n: nat)
    requires n < 64
    ensures Value64(Char64(n)) == Some(n)
  {
  }

  function First(a: byte): nat { a / 4 }
  function Second(a: byte, b: byte): nat { (a % 4) * 16 + b / 16 }
  function Third(b: byte, c: byte): nat { (b % 16) * 4 + c / 64 }
  function Fourth(c: byte): nat { c % 64 }

  /** EncodeToString, padding included. */
  function Encode(bs: seq<byte>): string
    decreases |bs|
  {
    if bs == [] then ""
    else if |bs| == 1 then [Char64(First(bs[0])), Char64(Second(bs[0], 0)), '=', '=']
    else if |bs| == 2 then [Char64(First(bs[0])), Char64(Second(bs[0], bs[1])), Char64(Third(bs[1], 0)), '=']
    else
      [Char64(First(bs[0])), Char64(Second(bs[0], bs[1])), Char64(Third(bs[1], bs[2])), Char64(Fourth(bs[2]))] +
      Encode(bs[3..])
  }

  /** DecodeString: line breaks are skipped, the last group may be padded, surplus bits are ignored. */
  function Decode(s: string): Option<seq<byte>> {
    DecodeGroups(WithoutBreaks(s))
  }

  function WithoutBreaks(s: string): string {
    if s == [] then "" else (if s[0] == '\n' || s[0] == '\r' then "" else [s[0]]) + WithoutBreaks(s[1..])
  }

  function DecodeGroups(s: string): Option<seq<byte>>
    decreases |s|
  {
    if s == [] then Some([])
    else if |s| < 4 then None
    else
      var p, q := Value64(s[0]), Value64(s[1]);
      if p.None? || q.None? then None
      else
        var a := p.value * 4 + q.value / 16;
        if s[2] == '=' then (if s[3] == '=' && |s| == 4 then Some([a]) else None)
        else
          var r := Value64(s[2]);
          if r.None? then None
          else
            var b := (q.value % 16) * 16 + r.value / 4;
            if s[3] == '=' then (if |s| == 4 then Some([a, b]) else None)
            else
              var t, rest := Value64(s[3]), DecodeGroups(s[4..]);
              if t.None? || rest.None? then None else Some([a, b, (r.value % 4) * 64 + t.value] + rest.value)
  }

  predicate Plain(c: char) {
    Value64(c).Some?
  }

  lemma CharsPlain(n: nat)
    requires n < 64
    ensures Plain(Char64(n)) && Char64(n) != '=' && Char64(n) != '/' && Char64(n) != '\n' && Char64(n) != '\r'
  {
    CharBack(n);
  }

  // ----- one group ---------------------------------------------------------------------

  lemma GroupBack(a: byte, b: byte, c: byte)
    ensures First(a) * 4 + Second(a, b) / 16 == a
    ensures (Second(a, b) % 16) * 16 + Third(b, c) / 4 == b
    ensures (Third(b, c) % 4) * 64 + Fourth(c) == c
    ensures First(a) < 64 && Second(a, b) < 64 && Third(b, c) < 64 && Fourth(c) < 64
  {
  }

  lemma DecodeFull(bs: seq<byte>, rest: string)
    requires |bs| == 3 && DecodeGroups(rest).Some?
    ensures var g := [Char64(First(bs[0])), Char64(Second(bs[0], bs[1])), Char64(Third(bs[1], bs[2])),
                      Char64(Fourth(bs[2]))];
            DecodeGroups(g + rest) == Some(bs + DecodeGroups(rest).value)
  {
    var a, b, c := bs[0], bs[1], bs[2];
    GroupBack(a, b, c);
    CharBack(First(a));
    CharBack(Second(a, b));
    CharBack(Third(b, c));
    CharBack(Fourth(c));
    CharsPlain(Third(b, c));
    CharsPlain(Fourth(c));
    var g := [Char64(First(a)), Char64(Second(a, b)), Char64(Third(b, c)), Char64(Fourth(c))];
    assert (g + rest)[4..] == rest && (g + rest)[..4] == g;
    assert bs == [a, b, c];
  }

  lemma {:induction false} DecodeEncode(bs: seq<byte>)
    ensures DecodeGroups(Encode(bs)) == Some(bs)
    decreases |bs|
  {
    if |bs| == 0 {
    } else if |bs| < 3 {
      var b: byte := if |bs| == 2 then bs[1] else 0;
      GroupBack(bs[0], b, 0);
      CharBack(First(bs[0]));
      CharBack(Second(bs[0], b));
      CharBack(Third(b, 0));
      CharsPlain(Third(b, 0));
      assert bs == if |bs| == 1 then [bs[0]] else [bs[0], bs[1]];
    } else {
      DecodeEncode(bs[3..]);
      DecodeFull(bs[..3], Encode(bs[3..]));
      assert bs[..3] + bs[3..] == bs;
    }
  }

  // ----- padding -----------------------------------------------------------------------------

  /** strings.TrimRight of one character. */
  function TrimRight(s: string, c: char): string {
    if s != [] && s[|s| - 1] == c then TrimRight(s[..|s| - 1], c) else s
  }

  function Repeat(c: char, n: nat): string {
    seq(n, _ => c)
  }

  function Pad(s: string): string {
    s + Repeat('=', if |s| % 4 == 0 then 0 else 4 - |s| % 4)
  }

  lemma {:induction false} TrimRepeated(s: string, c: char, n: nat)
    requires s == [] || s[|s| - 1] != c
    ensures TrimRight(s + Repeat(c, n), c) == s
    decreases n
  {
    if n == 0 {
      assert s + Repeat(c, 0) == s;
    } else {
      var t := s + Repeat(c, n);
      assert t[..|t| - 1] == s + Repeat(c, n - 1);
      TrimRepeated(s, c, n - 1);
    }
  }

  /** The encoded text without its padding. */
  function Body(bs: seq<byte>): string
    decreases |bs|
  {
    if bs == [] then ""
    else if |bs| == 1 then [Char64(First(bs[0])), Char64(Second(bs[0], 0))]
    else if |bs| == 2 then [Char64(First(bs[0])), Char64(Second(bs[0], bs[1])), Char64(Third(bs[1], 0))]
    else
      [Char64(First(bs[0])), Char64(Second(bs[0], bs[1])), Char64(Third(bs[1], bs[2])), Char64(Fourth(bs[2]))] +
      Body(bs[3..])
  }

  lemma {:induction false} BodyPlain(bs: seq<byte>)
    ensures forall i :: 0 <= i < |Body(bs)| ==> Plain(Body(bs)[i])
    ensures bs != [] ==> Body(bs) != []
    decreases |bs|
  {
    if bs != [] {
      var b: byte := if |bs| > 1 then bs[1] else 0;
      var c: byte := if |bs| > 2 then bs[2] else 0;
      GroupBack(bs[0], b, c);
      CharsPlain(First(bs[0]));
      CharsPlain(Second(bs[0], b));
      CharsPlain(Third(b, c));
      CharsPlain(Fourth(c));
      if |bs| >= 3 { BodyPlain(bs[3..]); }
    }
  }

  lemma PadPrefix(g: string, rest: string)
    requires |g| == 4
    ensures Pad(g + rest) == g + Pad(rest)
  {
    assert |g + rest| % 4 == |rest| % 4;
    assert (g + rest) + Repeat('=', |Pad(rest)| - |rest|) == g + (rest + Repeat('=', |Pad(rest)| - |rest|));
  }

  lemma {:induction false} PadBody(bs: seq<byte>)
    ensures Pad(Body(bs)) == Encode(bs)
    decreases |bs|
  {
    if |bs| >= 3 {
      var g := [Char64(First(bs[0])), Char64(Second(bs[0], bs[1])), Char64(Third(bs[1], bs[2])), Char64(Fourth(bs[2]))];
      var rest := Body(bs[3..]);
      PadBody(bs[3..]);
      PadPrefix(g, rest);
    } else if |bs| == 1 {
      assert Repeat('=', 2) == ['=', '='];
    } else if |bs| == 2 {
      assert Repeat('=', 1) == ['='];
    } else {
      assert Repeat('=', 0) == [];
    }
  }

  lemma TrimEncoded(bs: seq<byte>)
    ensures TrimRight(Encode(bs), '=') == Body(bs)
  {
    PadBody(bs);
    BodyPlain(bs);
    var s := Body(bs);
    if s != [] { assert Plain(s[|s| - 1]); }
    TrimRepeated(s, '=', if |s| % 4 == 0 then 0 else 4 - |s| % 4);
  }

  lemma {:induction false} BodyLength(bs: seq<byte>)
    ensures |Body(bs)| == (4 * |bs| + 2) / 3
    decreases |bs|
  {
    if |bs| >= 3 { BodyLength(bs[3..]); }
  }

  lemma {:induction false} NoBreaks(s: string)
    requires forall i :: 0 <= i < |s| ==> s[i] != '\n' && s[i] != '\r'
    ensures WithoutBreaks(s) == s
  {
    if s != [] {
      NoBreaks(s[1..]);
      assert [s[0]] + s[1..] == s;
    }
  }

  // ----- the URI --------------------------------------------------------------------------------

  function PaperURI(payload: seq<byte>): Option<string> {
    if payload == [] || |payload| > PAPER_MDU then None
    else Some(SCHEME + TrimRight(Encode(payload), '='))
  }

  function DecodePaperURI(uri: string): Option<seq<byte>> {
    if !(SCHEME <= uri) || |uri| == |SCHEME| then None
    else
      var data := Decode(Pad(TrimRight(uri[|SCHEME|..], '=')));
      if data.None? || |data.value| > PAPER_MDU then None else data
  }

  /** Decoding undoes encoding, also when any padding has been put back. */
  lemma PaperRoundTrip(payload: seq<byte>, extra: nat)
    requires 0 < |payload| <= PAPER_MDU
    ensures PaperURI(payload).Some? && DecodePaperURI(PaperURI(payload).value + Repeat('=', extra)) == Some(payload)
  {
    var body := Body(payload);
    TrimEncoded(payload);
    BodyPlain(payload);
    var uri := SCHEME + body + Repeat('=', extra);
    assert uri[..|SCHEME|] == SCHEME && uri[|SCHEME|..] == body + Repeat('=', extra);
    assert Plain(body[|body| - 1]);
    TrimRepeated(body, '=', extra);
    PadBody(payload);
    forall i | 0 <= i < |Encode(payload)| ensures Encode(payload)[i] != '\n' && Encode(payload)[i] != '\r' {
      if i < |body| { assert Pad(body)[i] == body[i] && Plain(body[i]); } else { assert Pad(body)[i] == '='; }
    }
    NoBreaks(Encode(payload));
    DecodeEncode(payload);
  }

  /** Every payload up to the limit fits a QR code, and the limit cannot be raised. */
  lemma PaperFits(payload: seq<byte>)
    requires payload != []
    ensures |SCHEME + Body(payload)| <= QR_CAPACITY <==> |payload| <= PAPER_MDU
    ensures PaperURI(payload).Some? ==> PaperURI(payload).value == SCHEME + Body(payload)
  {
    TrimEncoded(payload);
    BodyLength(payload);
  }

  // ----- reading a scanned URI -------------------------------------------------------------------

  function LowerAscii(c: char): char {
    if 'A' <= c <= 'Z' then c - 'A' + 'a' else c
  }

  function Lowered(s: string): string {
    seq(|s|, i requires 0 <= i < |s| => LowerAscii(s[i]))
  }

  function WithoutSlashes(s: string): string {
    if s == [] then "" else (if s[0] == '/' then "" else [s[0]]) + WithoutSlashes(s[1..])
  }

  /** The decoding step of IngestLXMURI. */
  function IngestPayload(uri: string): Option<seq<byte>> {
    if !(SCHEME <= Lowered(uri)) then None
    else
      var data := DecodePaperURI(SCHEME + WithoutSlashes(uri[|SCHEME|..]));
      if data == Some([]) then None else data
  }

  lemma {:induction false} NoSlashes(s: string)
    requires '/' !in s
    ensures WithoutSlashes(s) == s
  {
    if s != [] {
      NoSlashes(s[1..]);
      assert [s[0]] + s[1..] == s;
    }
  }

  /** Slashes put anywhere into the body and any case of the scheme do not change what ingest reads. */
  lemma IngestReadsSame(payload: seq<byte>, scheme: string, body: string)
    requires 0 < |payload| <= PAPER_MDU
    requires Lowered(scheme) == SCHEME && SCHEME + WithoutSlashes(body) == PaperURI(payload).value
    ensures IngestPayload(scheme + body) == Some(payload)
  {
    var uri := scheme + body;
    assert |scheme| == |Lowered(scheme)|;
    assert Lowered(uri)[..|SCHEME|] == Lowered(scheme);
    assert uri[|SCHEME|..] == body;
    PaperRoundTrip(payload, 0);
    assert PaperURI(payload).value + Repeat('=', 0) == PaperURI(payload).value;
  }

  /** Among them the URI itself, since its body holds no slash. */
  lemma PaperIngests(payload: seq<byte>)
    requires 0 < |payload| <= PAPER_MDU
    ensures IngestPayload(PaperURI(payload).value) == Some(payload)
  {
    var body := Body(payload);
    PaperFits(payload);
    BodyPlain(payload);
    assert !Plain('/') && '/' !in body;
    NoSlashes(body);
    assert Lowered(SCHEME) == SCHEME;
    IngestReadsSame(payload, SCHEME, body);
  }
}
