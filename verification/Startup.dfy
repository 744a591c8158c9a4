/**
The startup message: parameters written one after another with NUL bytes between them,
and read back. Text is held as the bytes of its UTF-8 form.
*/
module Startup {
  import opened Common
  import opened Bytes

  type Text = seq<byte>
  type Params = map<Text, Text>

  datatype Pair = Pair(key: Text, value: Text)

  datatype Error = Truncated | TooShort | ValueMissing | KeyNotUtf8 | ValueNotUtf8 | UnknownCode(code: nat)

  datatype Result<T> = Ok(value: T) | Err(error: Error)

  datatype FrontendMessage =
    | SslRequest
    | CancelRequest(pid: nat, secret: nat)
    | StartupMessage(params: Params)

  const PROTOCOL_V3: nat := 196608
  const SSL_REQUEST_CODE: nat := 80877103
  const CANCEL_REQUEST_CODE: nat := 80877102

  // ---- UTF-8 ----

  predicate Continues(b: byte) {
    0x80 <= b <= 0xbf
  }

  /** Well-formed byte sequences, as section 4 of RFC 3629 lists them. */
  predicate Utf8(s: Text) {
    if s == [] then true
    else if s[0] <= 0x7f then Utf8(s[1..])
    else if 0xc2 <= s[0] <= 0xdf then |s| >= 2 && Continues(s[1]) && Utf8(s[2..])
    else if 0xe0 <= s[0] <= 0xef then
      && |s| >= 3 && Continues(s[1]) && Continues(s[2])
      && (s[0] == 0xe0 ==> 0xa0 <= s[1]) && (s[0] == 0xed ==> s[1] <= 0x9f)
      && Utf8(s[3..])
    else
      && 0xf0 <= s[0] <= 0xf4
      && |s| >= 4 && Continues(s[1]) && Continues(s[2]) && Continues(s[3])
      && (s[0] == 0xf0 ==> 0x90 <= s[1]) && (s[0] == 0xf4 ==> s[1] <= 0x8f)
      && Utf8(s[4..])
  }

  // ---- Writing ----

  function PairBytes(p: Pair): seq<byte> {
    p.key + [0] + p.value + [0]
  }

  function Pairs(ps: seq<Pair>): seq<byte> {
    if ps == [] then [] else Pairs(ps[..|ps| - 1]) + PairBytes(ps[|ps| - 1])
  }

  /** The protocol version, the parameters and a last NUL. */
  function Body(ps: seq<Pair>): seq<byte> {
    Be32(PROTOCOL_V3) + Pairs(ps) + [0]
  }

  function Encoded(ps: seq<Pair>): seq<byte> {
    Be32((4 + |Body(ps)|) % U32_LIMIT) + Body(ps)
  }

  method EncodeStartupMessage(ps: seq<Pair>) returns (msg: seq<byte>)
    ensures msg == Encoded(ps)
  {
    var body: seq<byte> := Be32(PROTOCOL_V3);
    var i := 0;
    while i < |ps|
      invariant i <= |ps| && body == Be32(PROTOCOL_V3) + Pairs(ps[..i])
    {
      assert ps[..i + 1][..i] == ps[..i];
      ghost var before := body;
      body := body + ps[i].key;
      body := body + [0];
      body := body + ps[i].value;
      body := body + [0];
      assert body == before + PairBytes(ps[i]);
      i := i + 1;
    }
    assert ps[..i] == ps;
    body := body + [0];
    msg := Be32((4 + |body|) % U32_LIMIT) + body;
  }

  // ---- Reading ----

  /** The stretches between NUL bytes. */
  function Split(s: seq<byte>): (r: seq<seq<byte>>)
    ensures |r| > 0
  {
    if s == [] then [[]]
    else if s[0] == 0 then [[]] + Split(s[1..])
    else var r := Split(s[1..]); [[s[0]] + r[0]] + r[1..]
  }

  function ParsePieces(pieces: seq<seq<byte>>, params: Params): Result<Params> {
    if pieces == [] || pieces[0] == [] then Ok(params)
    else if |pieces| < 2 then Err(ValueMissing)
    else if !Utf8(pieces[0]) then Err(KeyNotUtf8)
    else if !Utf8(pieces[1]) then Err(ValueNotUtf8)
    else ParsePieces(pieces[2..], params[pieces[0] := pieces[1]])
  }

  method ParseStartupParams(buf: seq<byte>) returns (r: Result<Params>)
    ensures r == ParsePieces(Split(buf), map[])
  {
    var params: Params := map[];
    var pieces := Split(buf);
    var i := 0;
    while i < |pieces| && pieces[i] != []
      invariant i <= |pieces|
      invariant ParsePieces(pieces[i..], params) == ParsePieces(Split(buf), map[])
      decreases |pieces| - i
    {
      if i + 1 == |pieces| {
        return Err(ValueMissing);
      }
      var key, value := pieces[i], pieces[i + 1];
      if !Utf8(key) {
        return Err(KeyNotUtf8);
      }
      if !Utf8(value) {
        return Err(ValueNotUtf8);
      }
      assert pieces[i..][2..] == pieces[i + 2..];
      params := params[key := value];
      i := i + 2;
    }
    r := Ok(params);
  }

  /** The first message on a connection, from the bytes the client sends. */
  method ReadStartupMessage(s: seq<byte>) returns (r: Result<FrontendMessage>)
    ensures r == Read(s)
  {
    if |s| < 4 {
      return Err(Truncated);
    }
    var total := FromBe32(s);
    if total < 8 {
      return Err(TooShort);
    }
    if |s| < 8 {
      return Err(Truncated);
    }
    var code := FromBe32(s[4..]);
    if code == SSL_REQUEST_CODE {
      return Ok(SslRequest);
    }
    if code == CANCEL_REQUEST_CODE {
      return if |s| < 16 then Err(Truncated) else Ok(CancelRequest(FromBe32(s[8..]), FromBe32(s[12..])));
    }
    if code != PROTOCOL_V3 {
      return Err(UnknownCode(code));
    }
    if |s| < total {
      return Err(Truncated);
    }
    var params := ParseStartupParams(s[8..total]);
    match params {
      case Err(e) => return Err(e);
      case Ok(p) => return Ok(StartupMessage(p));
    }
  }

  function Read(s: seq<byte>): Result<FrontendMessage> {
    if |s| < 4 then Err(Truncated)
    else if FromBe32(s) < 8 then Err(TooShort)
    else if |s| < 8 then Err(Truncated)
    else
      var code := FromBe32(s[4..]);
      if code == SSL_REQUEST_CODE then Ok(SslRequest)
      else if code == CANCEL_REQUEST_CODE then
        if |s| < 16 then Err(Truncated) else Ok(CancelRequest(FromBe32(s[8..]), FromBe32(s[12..])))
      else if code != PROTOCOL_V3 then Err(UnknownCode(code))
      else if |s| < FromBe32(s) then Err(Truncated)
      else
        match ParsePieces(Split(s[8..FromBe32(s)]), map[])
        case Err(e) => Err(e)
        case Ok(p) => Ok(StartupMessage(p))
  }

  // ---- Round trip ----

  predicate NoNul(s: seq<byte>) {
    forall b <- s :: b != 0
  }

  /** Keys have at least one byte, and neither keys nor values hold a NUL. */
  predicate Clean(params: Params) {
    forall k <- params :: k != [] && NoNul(k) && NoNul(params[k])
  }

  /** The pairs are the parameters in some order. */
  predicate Enumerates(ps: seq<Pair>, params: Params) {
    && (forall i, j | 0 <= i < j < |ps| :: ps[i].key != ps[j].key)
    && (forall p <- ps :: p.key in params && params[p.key] == p.value)
    && (forall k <- params :: exists p <- ps :: p.key == k)
  }

  predicate AllUtf8(params: Params) {
    forall k <- params :: Utf8(k) && Utf8(params[k])
  }

  lemma {:induction false} SplitHolds(s: seq<byte>)
    ensures forall piece <- Split(s) :: NoNul(piece)
  {
    if s != [] {
      SplitHolds(s[1..]);
      var r := Split(s[1..]);
      if s[0] != 0 {
        assert r[0] in r && NoNul(r[0]);
        assert NoNul([s[0]] + r[0]);
      }
    }
  }

  /** A stretch with no NUL before the first NUL is the first piece. */
  lemma {:induction false} SplitAtNul(a: seq<byte>, more: seq<byte>)
    requires NoNul(a)
    ensures Split(a + [0] + more) == [a] + Split(more)
  {
    var s := a + [0] + more;
    if a == [] {
      assert s == [0] + more;
      assert s[1..] == more;
    } else {
      assert a[0] in a;
      assert s[1..] == a[1..] + [0] + more;
      assert forall b <- a[1..] :: b in a;
      SplitAtNul(a[1..], more);
      assert [a[0]] + a[1..] == a;
    }
  }

  /** Whatever parses has clean parameters, because pieces hold no NUL and an empty key ends the list. */
  lemma {:induction false} ParsedIsClean(pieces: seq<seq<byte>>, params: Params)
    requires Clean(params) && forall piece <- pieces :: NoNul(piece)
    ensures ParsePieces(pieces, params).Ok? ==> Clean(ParsePieces(pieces, params).value)
    decreases |pieces|
  {
    if |pieces| >= 2 && pieces[0] != [] && Utf8(pieces[0]) && Utf8(pieces[1]) {
      assert pieces[0] in pieces && pieces[1] in pieces;
      ParsedIsClean(pieces[2..], params[pieces[0] := pieces[1]]);
    }
  }

  function Inserted(params: Params, ps: seq<Pair>): Params
    decreases |ps|
  {
    if ps == [] then params else Inserted(params[ps[0].key := ps[0].value], ps[1..])
  }

  lemma {:induction false} PairsFront(ps: seq<Pair>)
    requires ps != []
    ensures Pairs(ps) == PairBytes(ps[0]) + Pairs(ps[1..])
  {
    var m := |ps| - 1;
    if m > 0 {
      PairsFront(ps[..m]);
      assert ps[..m][1..] == ps[1..][..m - 1];
    } else {
      assert ps[..0] == [] && ps[1..] == [];
    }
  }

  predicate CleanPair(p: Pair) {
    p.key != [] && NoNul(p.key) && NoNul(p.value) && Utf8(p.key) && Utf8(p.value)
  }

  lemma SplitPair(p: Pair, rest: seq<byte>)
    requires NoNul(p.key) && NoNul(p.value)
    ensures Split(PairBytes(p) + rest) == [p.key, p.value] + Split(rest)
  {
    assert PairBytes(p) + rest == p.key + [0] + (p.value + [0] + rest);
    SplitAtNul(p.key, p.value + [0] + rest);
    SplitAtNul(p.value, rest);
  }

  lemma {:induction false} ParsesBack(ps: seq<Pair>, params: Params)
    requires forall p <- ps :: CleanPair(p)
    ensures ParsePieces(Split(Pairs(ps) + [0]), params) == Ok(Inserted(params, ps))
    decreases |ps|
  {
    if ps == [] {
      assert Pairs(ps) + [0] == [] + [0] + [];
      SplitAtNul([], []);
    } else {
      var p := ps[0];
      var rest := Pairs(ps[1..]) + [0];
      assert CleanPair(p);
      PairsFront(ps);
      assert Pairs(ps) + [0] == PairBytes(p) + rest;
      SplitPair(p, rest);
      assert ([p.key, p.value] + Split(rest))[2..] == Split(rest);
      ParsesBack(ps[1..], params[p.key := p.value]);
    }
  }

  /** Inserting pairs with separate keys leaves each key with its value and nothing else new. */
  lemma {:induction false} InsertedHolds(params: Params, ps: seq<Pair>)
    requires forall i, j | 0 <= i < j < |ps| :: ps[i].key != ps[j].key
    ensures forall k :: k in Inserted(params, ps) <==> k in params || exists p <- ps :: p.key == k
    ensures forall p <- ps :: p.key in Inserted(params, ps) && Inserted(params, ps)[p.key] == p.value
    ensures forall k <- params :: (forall p <- ps :: p.key != k) ==> k in Inserted(params, ps) && Inserted(params, ps)[k] == params[k]
    decreases |ps|
  {
    if ps != [] {
      var first := ps[0];
      assert ps == [first] + ps[1..];
      InsertedHolds(params[first.key := first.value], ps[1..]);
    }
  }

  lemma EnumerationInserts(ps: seq<Pair>, params: Params)
    requires Enumerates(ps, params)
    ensures Inserted(map[], ps) == params
  {
    InsertedHolds(map[], ps);
    var r := Inserted(map[], ps);
    assert forall k <- r :: exists p <- ps :: p.key == k;
    assert r.Keys == params.Keys;
  }

  /** The payload of the parameters, in any order, parses back to them exactly when they are clean. */
  lemma PayloadRoundTrip(ps: seq<Pair>, params: Params)
    requires Enumerates(ps, params) && AllUtf8(params)
    ensures ParsePieces(Split(Pairs(ps) + [0]), map[]) == Ok(params) <==> Clean(params)
  {
    var s := Pairs(ps) + [0];
    SplitHolds(s);
    ParsedIsClean(Split(s), map[]);
    if Clean(params) {
      forall p <- ps
        ensures CleanPair(p)
      {
        assert p.key in params;
      }
      ParsesBack(ps, map[]);
      EnumerationInserts(ps, params);
    }
  }

  /** The length, the code and the payload are where the reader looks for them. */
  lemma HeaderReads(payload: seq<byte>, more: seq<byte>)
    requires 8 + |payload| < U32_LIMIT
    ensures var total := 8 + |payload|;
            var s := Be32(total) + (Be32(PROTOCOL_V3) + payload) + more;
            |s| >= total && FromBe32(s) == total && FromBe32(s[4..]) == PROTOCOL_V3 && s[8..total] == payload
  {
    var total := 8 + |payload|;
    var s := Be32(total) + (Be32(PROTOCOL_V3) + payload) + more;
    Be32RoundTrip(total, Be32(PROTOCOL_V3) + payload + more);
    assert s == Be32(total) + (Be32(PROTOCOL_V3) + payload + more);
    Be32RoundTrip(PROTOCOL_V3, payload + more);
    assert s[4..] == Be32(PROTOCOL_V3) + (payload + more);
    assert s[8..] == payload + more;
  }

  lemma ReadsPayload(s: seq<byte>, payload: seq<byte>, more: seq<byte>)
    requires 8 + |payload| < U32_LIMIT && s == Be32(8 + |payload|) + (Be32(PROTOCOL_V3) + payload) + more
    ensures Read(s) == match ParsePieces(Split(payload), map[])
                       case Err(e) => Err(e)
                       case Ok(p) => Ok(StartupMessage(p))
  {
    HeaderReads(payload, more);
  }

  lemma EncodedIs(ps: seq<Pair>)
    requires |Encoded(ps)| < U32_LIMIT
    ensures var payload := Pairs(ps) + [0];
            8 + |payload| < U32_LIMIT && Encoded(ps) == Be32(8 + |payload|) + (Be32(PROTOCOL_V3) + payload)
  {
    assert Body(ps) == Be32(PROTOCOL_V3) + (Pairs(ps) + [0]);
  }

  /**
  A message short enough for its length to fit 32 bits, with anything after it, reads back
  as the same parameters exactly when they are clean.
  */
  lemma MessageRoundTrip(ps: seq<Pair>, params: Params, more: seq<byte>)
    requires Enumerates(ps, params) && AllUtf8(params) && |Encoded(ps)| < U32_LIMIT
    ensures Read(Encoded(ps) + more) == Ok(StartupMessage(params)) <==> Clean(params)
  {
    PayloadRoundTrip(ps, params);
    EncodedIs(ps);
    ReadsPayload(Encoded(ps) + more, Pairs(ps) + [0], more);
  }
}
