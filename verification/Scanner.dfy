/**
The proxy's scan of backend output for the end of a response, over reads of any size.
Messages are a type byte, a length that counts itself, and a body.
*/
module Scanner {
  import opened Common
  import opened Bytes

  const READY_FOR_QUERY: byte := 0x5a    // 'Z'
  const COPY_IN_RESPONSE: byte := 0x47   // 'G'
  const IN_TRANSACTION: byte := 0x54     // 'T'

  // ---- The scan of all there is ----

  /** The status the bytes so far settle on, if any. */
  function Scan(s: seq<byte>): Option<byte> {
    if |s| < 5 then None
    else
      var length := FromBe32(s[1..5]);
      if s[0] == READY_FOR_QUERY && length == 5 && 6 <= |s| then Some(s[5])
      else if s[0] == COPY_IN_RESPONSE then Some(IN_TRANSACTION)
      else if 1 + length > |s| then None
      else Scan(s[1 + length..])
  }

  /** What is left once the complete messages are gone. */
  function Rest(s: seq<byte>): seq<byte> {
    if |s| < 5 then s
    else
      var length := FromBe32(s[1..5]);
      if (s[0] == READY_FOR_QUERY && length == 5 && 6 <= |s|) || s[0] == COPY_IN_RESPONSE || 1 + length > |s| then s
      else Rest(s[1 + length..])
  }

  lemma HeaderStays(s: seq<byte>, more: seq<byte>)
    requires |s| >= 5
    ensures (s + more)[0] == s[0] && (s + more)[1..5] == s[1..5]
  {
  }

  /** Bytes to come change neither an answer nor what was passed over to look for one. */
  lemma {:induction false} ScanGoesOn(s: seq<byte>, more: seq<byte>)
    ensures Scan(s).Some? ==> Scan(s + more) == Scan(s)
    ensures Scan(s).None? ==> Scan(s + more) == Scan(Rest(s) + more)
    decreases |s|
  {
    if |s| >= 5 {
      HeaderStays(s, more);
      var next := 1 + FromBe32(s[1..5]);
      if next <= |s| {
        ScanGoesOn(s[next..], more);
        assert (s + more)[next..] == s[next..] + more;
      }
    }
  }

  /** The bytes begin with a whole message, `next` long, that gives no answer. */
  predicate BeginsWith(s: seq<byte>, next: nat) {
    && |s| >= 5 && next == 1 + FromBe32(s[1..5]) <= |s|
    && s[0] != COPY_IN_RESPONSE && !(s[0] == READY_FOR_QUERY && next == 6)
  }

  /** A whole message at the front that gives no answer is passed over. */
  lemma FirstPassedOver(s: seq<byte>, next: nat)
    requires BeginsWith(s, next)
    ensures Scan(s) == Scan(s[next..]) && Rest(s) == Rest(s[next..])
  {
  }

  lemma StillBeginsWith(s: seq<byte>, more: seq<byte>, next: nat)
    requires BeginsWith(s, next)
    ensures BeginsWith(s + more, next) && (s + more)[next..] == s[next..] + more
  {
    HeaderStays(s, more);
  }

  lemma NoAnswer(s: seq<byte>)
    requires Scan(s).None?
    ensures Rest(s) == s || (|s| >= 5 && BeginsWith(s, 1 + FromBe32(s[1..5])))
  {
  }

  lemma {:induction false} RestGoesOn(s: seq<byte>, more: seq<byte>)
    requires Scan(s).None?
    ensures Rest(s + more) == Rest(Rest(s) + more)
    decreases |s|
  {
    NoAnswer(s);
    if Rest(s) != s {
      var next := 1 + FromBe32(s[1..5]);
      StillBeginsWith(s, more, next);
      FirstPassedOver(s, next);
      FirstPassedOver(s + more, next);
      RestGoesOn(s[next..], more);
    }
  }

  // ---- The scan of one read after another ----

  datatype Outcome = Ready(status: byte) | Closed

  /** One pass over what has accumulated: an answer, or where the last complete message ends. */
  method ScanOnce(acc: seq<byte>) returns (found: Option<byte>, end: nat)
    ensures found == Scan(acc)
    ensures end <= |acc| && (found.None? ==> acc[end..] == Rest(acc))
  {
    var pos := 0;
    end := 0;
    while pos + 5 <= |acc|
      invariant end == pos <= |acc|
      invariant Scan(acc[pos..]) == Scan(acc) && Rest(acc[pos..]) == Rest(acc)
      decreases |acc| - pos
    {
      assert acc[pos..][1..5] == acc[pos + 1..pos + 5];
      var length := FromBe32(acc[pos + 1..pos + 5]);
      if acc[pos] == READY_FOR_QUERY && length == 5 && pos + 6 <= |acc| {
        return Some(acc[pos + 5]), end;
      }
      if acc[pos] == COPY_IN_RESPONSE {
        return Some(IN_TRANSACTION), end;
      }
      var next := pos + 1 + length;
      if next > |acc| {
        return None, end;
      }
      assert acc[pos..][1 + length..] == acc[next..];
      end, pos := next, next;
    }
    found := None;
  }

  /**
  Forward each read as it comes and look for the end of the response, until the backend
  closes. However the bytes were split, the answer is that of the whole.
  */
  method PipeUntilReady(chunks: seq<seq<byte>>) returns (r: Outcome, forwarded: seq<byte>, used: nat)
    ensures r == match Scan(Concat(chunks)) case None => Closed case Some(status) => Ready(status)
    ensures used <= |chunks| && forwarded == Concat(chunks[..used])
    ensures r.Ready? ==> used > 0 && Scan(Concat(chunks[..used])).Some? && Scan(Concat(chunks[..used - 1])).None?
    ensures r.Closed? ==> used == |chunks|
  {
    var acc: seq<byte> := [];
    forwarded := [];
    used := 0;
    while used < |chunks|
      invariant used <= |chunks| && forwarded == Concat(chunks[..used])
      invariant Scan(forwarded).None? && acc == Rest(forwarded)
    {
      var read := chunks[used];
      assert chunks[..used + 1][..used] == chunks[..used];
      ScanGoesOn(forwarded, read);
      RestGoesOn(forwarded, read);
      forwarded := forwarded + read;
      used := used + 1;
      acc := acc + read;
      var found, end := ScanOnce(acc);
      if found.Some? {
        PrefixScans(chunks, used);
        return Ready(found.value), forwarded, used;
      }
      acc := acc[end..];
    }
    assert chunks[..used] == chunks;
    r := Closed;
  }

  /** An answer from the first chunks is the answer from all of them. */
  lemma {:induction false} PrefixScans(chunks: seq<seq<byte>>, used: nat)
    requires used <= |chunks| && Scan(Concat(chunks[..used])).Some?
    ensures Scan(Concat(chunks)) == Scan(Concat(chunks[..used]))
  {
    if used == |chunks| {
      assert chunks[..used] == chunks;
    } else {
      var m := |chunks| - 1;
      assert chunks[..m][..used] == chunks[..used];
      PrefixScans(chunks[..m], used);
      ScanGoesOn(Concat(chunks[..m]), chunks[m]);
    }
  }

  // ---- Messages ----

  datatype Message = Message(tag: byte, body: seq<byte>)

  predicate ValidMessage(m: Message) {
    4 + |m.body| < U32_LIMIT
  }

  function Encode(m: Message): seq<byte> {
    [m.tag] + Be32(4 + |m.body|) + m.body
  }

  function EncodeAll(ms: seq<Message>): seq<byte> {
    if ms == [] then [] else Encode(ms[0]) + EncodeAll(ms[1..])
  }

  /** The message ends a response, or asks for the client's data. */
  predicate EndsResponse(m: Message) {
    (m.tag == READY_FOR_QUERY && |m.body| == 1) || m.tag == COPY_IN_RESPONSE
  }

  function StatusOf(m: Message): byte
    requires EndsResponse(m)
  {
    if m.tag == COPY_IN_RESPONSE then IN_TRANSACTION else m.body[0]
  }

  lemma HeaderOf(m: Message, more: seq<byte>)
    requires ValidMessage(m)
    ensures var s := Encode(m) + more;
            |s| >= 5 && s[0] == m.tag && FromBe32(s[1..5]) == 4 + |m.body| && s[5 + |m.body|..] == more
            && s[5..5 + |m.body|] == m.body
  {
    var s := Encode(m) + more;
    Be32RoundTrip(4 + |m.body|, []);
    assert Be32(4 + |m.body|) + [] == Be32(4 + |m.body|);
    assert s[1..5] == Be32(4 + |m.body|);
  }

  lemma OnePassedOver(m: Message, more: seq<byte>)
    requires ValidMessage(m) && !EndsResponse(m)
    ensures Scan(Encode(m) + more) == Scan(more)
  {
    HeaderOf(m, more);
  }

  /** Messages that do not end the response are passed over whole, whatever their bodies hold. */
  lemma {:induction false} MessagesArePassedOver(ms: seq<Message>, more: seq<byte>)
    requires forall m <- ms :: ValidMessage(m) && !EndsResponse(m)
    ensures Scan(EncodeAll(ms) + more) == Scan(more)
  {
    if ms == [] {
      assert EncodeAll(ms) + more == more;
    } else {
      var rest := EncodeAll(ms[1..]) + more;
      OnePassedOver(ms[0], rest);
      assert EncodeAll(ms) + more == Encode(ms[0]) + rest;
      MessagesArePassedOver(ms[1..], more);
    }
  }

  lemma EndIsSeen(m: Message, more: seq<byte>)
    requires ValidMessage(m) && EndsResponse(m)
    ensures Scan(Encode(m) + more) == Some(StatusOf(m))
  {
    HeaderOf(m, more);
  }

  /** Part of a message that ends nothing settles nothing. */
  lemma PartOfMessage(m: Message, cut: nat)
    requires ValidMessage(m) && !EndsResponse(m) && cut < |Encode(m)|
    ensures Scan(Encode(m)[..cut]).None?
  {
    HeaderOf(m, []);
    assert Encode(m) + [] == Encode(m);
    var s := Encode(m)[..cut];
    if cut >= 5 {
      assert s[1..5] == Encode(m)[1..5];
    }
  }

  /** The bytes of a last message that settle the answer: all of a `ReadyForQuery`, the header of a `CopyInResponse`. */
  function Needed(m: Message): nat {
    if m.tag == COPY_IN_RESPONSE then 5 else |Encode(m)|
  }

  lemma PartOfEnd(m: Message, cut: nat)
    requires ValidMessage(m) && EndsResponse(m) && cut <= |Encode(m)|
    ensures Scan(Encode(m)[..cut]) == if Needed(m) <= cut then Some(StatusOf(m)) else None
  {
    HeaderOf(m, []);
    assert Encode(m) + [] == Encode(m);
    var s := Encode(m)[..cut];
    if cut >= 5 {
      assert s[1..5] == Encode(m)[1..5];
    }
  }

  /**
  For any messages of which the last ends the response and no other does, with anything
  after them and split in any way, the scan answers with that message's status.
  */
  lemma FirstEndIsFound(ms: seq<Message>, end: Message, more: seq<byte>, chunks: seq<seq<byte>>)
    requires (forall m <- ms :: ValidMessage(m) && !EndsResponse(m)) && ValidMessage(end) && EndsResponse(end)
    requires Concat(chunks) == EncodeAll(ms) + Encode(end) + more
    ensures Scan(Concat(chunks)) == Some(StatusOf(end))
  {
    assert Concat(chunks) == EncodeAll(ms) + (Encode(end) + more);
    MessagesArePassedOver(ms, Encode(end) + more);
    EndIsSeen(end, more);
  }

  /** Of a response, exactly the prefixes that hold enough of its last message give the answer. */
  lemma {:induction false} AnswerComesExactlyAt(ms: seq<Message>, end: Message, cut: nat)
    requires (forall m <- ms :: ValidMessage(m) && !EndsResponse(m)) && ValidMessage(end) && EndsResponse(end)
    requires cut <= |EncodeAll(ms) + Encode(end)|
    ensures Scan((EncodeAll(ms) + Encode(end))[..cut])
         == if |EncodeAll(ms)| + Needed(end) <= cut then Some(StatusOf(end)) else None
  {
    var all := EncodeAll(ms) + Encode(end);
    if ms == [] {
      assert all == Encode(end);
      PartOfEnd(end, cut);
    } else {
      var first := Encode(ms[0]);
      var rest := EncodeAll(ms[1..]) + Encode(end);
      assert all == first + rest;
      CutAfter(first, rest, cut);
      if cut < |first| {
        PartOfMessage(ms[0], cut);
      } else {
        AnswerComesExactlyAt(ms[1..], end, cut - |first|);
        OnePassedOver(ms[0], rest[..cut - |first|]);
      }
    }
  }

  lemma CutAfter(first: seq<byte>, rest: seq<byte>, cut: nat)
    requires cut <= |first + rest|
    ensures (first + rest)[..cut] == if cut < |first| then first[..cut] else first + rest[..cut - |first|]
  {
  }
}
