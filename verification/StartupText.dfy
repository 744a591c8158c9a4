/** What the reader of the startup message takes for text, for a request and for an error. */
module StartupText {
  import opened Common
  import opened Bytes
  import opened Startup

  // ---- UTF-8 is the encoding of characters ----

  /** A Unicode scalar value: any code point but a surrogate. */
  predicate Scalar(c: nat) {
    c < 0xd800 || 0xe000 <= c < 0x11_0000
  }

  /** The bytes of a character, as section 3 of RFC 3629 defines them. */
  function CharBytes(c: nat): seq<byte>
    requires Scalar(c)
  {
    if c < 0x80 then [c]
    else if c < 0x800 then [0xc0 + c / 64, 0x80 + c % 64]
    else if c < 0x1_0000 then [0xe0 + c / 4096, 0x80 + c / 64 % 64, 0x80 + c % 64]
    else [0xf0 + c / 262144, 0x80 + c / 4096 % 64, 0x80 + c / 64 % 64, 0x80 + c % 64]
  }

  predicate Scalars(cs: seq<nat>) {
    forall i | 0 <= i < |cs| :: Scalar(cs[i])
  }

  function TextBytes(cs: seq<nat>): seq<byte>
    requires Scalars(cs)
  {
    if cs == [] then [] else CharBytes(cs[0]) + TextBytes(cs[1..])
  }

  lemma ShortChar(c: nat, rest: seq<byte>)
    requires Scalar(c) && c < 0x800
    ensures Utf8(CharBytes(c) + rest) <==> Utf8(rest)
  {
    var s := CharBytes(c) + rest;
    assert s[|CharBytes(c)|..] == rest;
  }

  lemma ThreeByteChar(c: nat, rest: seq<byte>)
    requires Scalar(c) && 0x800 <= c < 0x1_0000
    ensures Utf8(CharBytes(c) + rest) <==> Utf8(rest)
  {
    var s := CharBytes(c) + rest;
    assert s[3..] == rest;
    assert s[0] == 0xe0 + c / 4096 && s[1] == 0x80 + c / 64 % 64 && s[2] == 0x80 + c % 64;
    assert c / 64 == 64 * (c / 4096) + c / 64 % 64;
  }

  lemma FourByteChar(c: nat, rest: seq<byte>)
    requires Scalar(c) && 0x1_0000 <= c
    ensures Utf8(CharBytes(c) + rest) <==> Utf8(rest)
  {
    var s := CharBytes(c) + rest;
    assert s[4..] == rest;
    assert s[0] == 0xf0 + c / 262144 && s[1] == 0x80 + c / 4096 % 64;
    assert s[2] == 0x80 + c / 64 % 64 && s[3] == 0x80 + c % 64;
    assert c / 4096 == 64 * (c / 262144) + c / 4096 % 64;
  }

  lemma {:induction false} TextIsUtf8(cs: seq<nat>)
    requires Scalars(cs)
    ensures Utf8(TextBytes(cs))
  {
    if cs != [] {
      TextIsUtf8(cs[1..]);
      if cs[0] < 0x800 {
        ShortChar(cs[0], TextBytes(cs[1..]));
      } else if cs[0] < 0x1_0000 {
        ThreeByteChar(cs[0], TextBytes(cs[1..]));
      } else {
        FourByteChar(cs[0], TextBytes(cs[1..]));
      }
    }
  }

  /** The bytes that well-formed text begins with are those of a character. */
  predicate Begins(s: seq<byte>, c: nat) {
    Scalar(c) && |CharBytes(c)| <= |s| && s[..|CharBytes(c)|] == CharBytes(c)
  }

  lemma FirstOfTwo(s: seq<byte>) returns (c: nat)
    requires s != [] && s[0] <= 0xdf && Utf8(s)
    ensures Begins(s, c) && Utf8(s[|CharBytes(c)|..])
  {
    if s[0] <= 0x7f {
      c := s[0];
    } else {
      c := 64 * (s[0] as nat - 0xc0) + (s[1] as nat - 0x80);
      assert c / 64 == s[0] - 0xc0 && c % 64 == s[1] - 0x80;
    }
  }

  lemma FirstOfThree(s: seq<byte>) returns (c: nat)
    requires s != [] && 0xe0 <= s[0] <= 0xef && Utf8(s)
    ensures Begins(s, c) && Utf8(s[|CharBytes(c)|..])
  {
    var high, low: nat := 64 * (s[0] as nat - 0xe0) + (s[1] as nat - 0x80), s[2] as nat - 0x80;
    c := 64 * high + low;
    assert c / 64 == high && c % 64 == low;
    assert high / 64 == s[0] - 0xe0 && high % 64 == s[1] - 0x80;
    assert c / 4096 == high / 64;
  }

  lemma FirstOfFour(s: seq<byte>) returns (c: nat)
    requires s != [] && 0xf0 <= s[0] && Utf8(s)
    ensures Begins(s, c) && Utf8(s[|CharBytes(c)|..])
  {
    var top: nat := 64 * (s[0] as nat - 0xf0) + (s[1] as nat - 0x80);
    var mid, low: nat := s[2] as nat - 0x80, s[3] as nat - 0x80;
    c := 64 * (64 * top + mid) + low;
    assert c / 64 == 64 * top + mid && c % 64 == low;
    assert (64 * top + mid) / 64 == top && (64 * top + mid) % 64 == mid;
    assert c / 4096 == top && c / 262144 == top / 64;
    assert top / 64 == s[0] - 0xf0 && top % 64 == s[1] - 0x80;
  }

  lemma FirstChar(s: seq<byte>) returns (c: nat)
    requires s != [] && Utf8(s)
    ensures Begins(s, c) && Utf8(s[|CharBytes(c)|..])
  {
    if s[0] <= 0xdf {
      c := FirstOfTwo(s);
    } else if s[0] <= 0xef {
      c := FirstOfThree(s);
    } else {
      c := FirstOfFour(s);
    }
  }

  lemma TextFrom(c: nat, cs: seq<nat>)
    requires Scalar(c) && Scalars(cs)
    ensures Scalars([c] + cs) && TextBytes([c] + cs) == CharBytes(c) + TextBytes(cs)
  {
    assert ([c] + cs)[1..] == cs;
  }

  lemma {:induction false} Utf8IsText(s: seq<byte>) returns (cs: seq<nat>)
    requires Utf8(s)
    ensures Scalars(cs) && s == TextBytes(cs)
    decreases |s|
  {
    cs := [];
    if s != [] {
      var c := FirstChar(s);
      var rest := s[|CharBytes(c)|..];
      assert s == CharBytes(c) + rest;
      cs := Utf8IsText(rest);
      TextFrom(c, cs);
      cs := [c] + cs;
    }
  }

  /** The text the reader accepts is exactly what encoding some characters gives. */
  lemma Utf8ExactlyText(s: seq<byte>)
    ensures Utf8(s) <==> exists cs :: Scalars(cs) && s == TextBytes(cs)
  {
    if Utf8(s) {
      var cs := Utf8IsText(s);
    }
    forall cs | Scalars(cs) && s == TextBytes(cs)
      ensures Utf8(s)
    {
      TextIsUtf8(cs);
    }
  }

  // ---- Where a list of parameters ends ----

  /** Pairs that are well formed are read, and the rest decides. */
  lemma {:induction false} AfterPairs(ps: seq<Pair>, rest: seq<byte>, params: Params)
    requires forall p <- ps :: CleanPair(p)
    ensures ParsePieces(Split(Pairs(ps) + rest), params) == ParsePieces(Split(rest), Inserted(params, ps))
    decreases |ps|
  {
    if ps == [] {
      assert Pairs(ps) + rest == rest;
    } else {
      var p := ps[0];
      var more := Pairs(ps[1..]) + rest;
      assert CleanPair(p);
      PairsFront(ps);
      assert Pairs(ps) + rest == PairBytes(p) + more;
      SplitPair(p, more);
      assert ([p.key, p.value] + Split(more))[2..] == Split(more);
      AfterPairs(ps[1..], rest, params[p.key := p.value]);
    }
  }

  lemma {:induction false} SplitWhole(a: seq<byte>)
    requires NoNul(a)
    ensures Split(a) == [a]
  {
    if a != [] {
      assert a[0] in a;
      assert forall b <- a[1..] :: b in a;
      SplitWhole(a[1..]);
      assert [a[0]] + a[1..] == a;
    }
  }

  /** A list may end without its last NUL, and even without the one after its last value. A key with nothing after it is an error. */
  lemma ListMayJustEnd(ps: seq<Pair>, last: Pair)
    requires (forall p <- ps :: CleanPair(p)) && CleanPair(last)
    ensures ParsePieces(Split(Pairs(ps)), map[]) == Ok(Inserted(map[], ps))
    ensures ParsePieces(Split(Pairs(ps) + (last.key + [0] + last.value)), map[])
         == Ok(Inserted(map[], ps)[last.key := last.value])
    ensures ParsePieces(Split(Pairs(ps) + last.key), map[]) == Err(ValueMissing)
  {
    AfterPairs(ps, [], map[]);
    assert Pairs(ps) + [] == Pairs(ps);
    AfterPairs(ps, last.key + [0] + last.value, map[]);
    SplitAtNul(last.key, last.value);
    SplitWhole(last.value);
    AfterPairs(ps, last.key, map[]);
    SplitWhole(last.key);
    assert ([last.key] + [last.value])[2..] == [];
  }

  /** The first pair that is not text is an error, which names the key if that is not. */
  lemma NotTextIsAnError(ps: seq<Pair>, p: Pair, more: seq<byte>)
    requires (forall q <- ps :: CleanPair(q)) && p.key != [] && NoNul(p.key) && NoNul(p.value)
    requires !Utf8(p.key) || !Utf8(p.value)
    ensures ParsePieces(Split(Pairs(ps) + (PairBytes(p) + more)), map[])
         == Err(if Utf8(p.key) then ValueNotUtf8 else KeyNotUtf8)
  {
    AfterPairs(ps, PairBytes(p) + more, map[]);
    SplitPair(p, more);
  }

  /** An empty key ends the list, whatever comes after. */
  lemma EmptyKeyEndsTheList(ps: seq<Pair>, more: seq<byte>)
    requires forall p <- ps :: CleanPair(p)
    ensures ParsePieces(Split(Pairs(ps) + ([0] + more)), map[]) == Ok(Inserted(map[], ps))
  {
    AfterPairs(ps, [0] + more, map[]);
    assert ([0] + more)[1..] == more;
  }

  // ---- The requests, and messages cut short ----

  /** The two requests are told by their codes, with whatever comes after them. */
  lemma RequestsAreRead(length: nat, pid: nat, secret: nat, more: seq<byte>)
    requires 8 <= length < U32_LIMIT && pid < U32_LIMIT && secret < U32_LIMIT
    ensures Read(Be32(length) + (Be32(80877103) + more)) == Ok(SslRequest)
    ensures Read(Be32(length) + (Be32(80877102) + (Be32(pid) + (Be32(secret) + more)))) == Ok(CancelRequest(pid, secret))
  {
    Begin(length, 80877103, more);
    var tail := Be32(pid) + (Be32(secret) + more);
    Begin(length, 80877102, tail);
    Be32RoundTrip(pid, Be32(secret) + more);
    Be32RoundTrip(secret, more);
    var s := Be32(length) + (Be32(80877102) + tail);
    assert s[8..] == tail;
    assert s[12..] == Be32(secret) + more;
  }

  lemma Begin(length: nat, code: nat, more: seq<byte>)
    requires length < U32_LIMIT && code < U32_LIMIT
    ensures var s := Be32(length) + (Be32(code) + more); FromBe32(s) == length && FromBe32(s[4..]) == code && |s| == 8 + |more|
  {
    Be32RoundTrip(length, Be32(code) + more);
    Be32RoundTrip(code, more);
    var s := Be32(length) + (Be32(code) + more);
    assert s[4..] == Be32(code) + more;
  }

  /** A length too small for its own header, and a code that is none of the three, are errors that say so. */
  lemma BadHeaders(length: nat, code: nat, more: seq<byte>)
    requires length < U32_LIMIT && code < U32_LIMIT
    ensures var s := Be32(length) + (Be32(code) + more);
            && (length < 8 ==> Read(s) == Err(TooShort))
            && (length >= 8 && code !in {196608, 80877102, 80877103} ==> Read(s) == Err(UnknownCode(code)))
    ensures Read(Be32(length)) == Err(if length < 8 then TooShort else Truncated)
  {
    Begin(length, code, more);
    Be32RoundTrip(length, []);
    assert Be32(length) + [] == Be32(length);
  }

  /** A startup message cut short anywhere, and a cancel request too, is an error and never anything else. */
  lemma CutShortIsTruncated(ps: seq<Pair>, pid: nat, secret: nat, k: nat)
    requires |Encoded(ps)| < U32_LIMIT && pid < U32_LIMIT && secret < U32_LIMIT
    ensures k < |Encoded(ps)| ==> Read(Encoded(ps)[..k]) == Err(Truncated)
    ensures k < 16 ==> Read((Be32(16) + (Be32(80877102) + (Be32(pid) + Be32(secret))))[..k]) == Err(Truncated)
  {
    EncodedIs(ps);
    var payload := Pairs(ps) + [0];
    assert Encoded(ps) == Be32(8 + |payload|) + (Be32(PROTOCOL_V3) + payload);
    PrefixReads(8 + |payload|, PROTOCOL_V3, payload, k);
    PrefixReads(16, 80877102, Be32(pid) + Be32(secret), k);
  }

  lemma PrefixReads(length: nat, code: nat, more: seq<byte>, k: nat)
    requires length < U32_LIMIT && code < U32_LIMIT
    ensures var s := Be32(length) + (Be32(code) + more);
            && (4 <= k <= |s| ==> FromBe32(s[..k]) == length)
            && (8 <= k <= |s| ==> FromBe32(s[..k][4..]) == code)
  {
    var s := Be32(length) + (Be32(code) + more);
    Begin(length, code, more);
  }
}
