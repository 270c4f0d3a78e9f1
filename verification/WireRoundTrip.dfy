/** Decoding is the exact inverse of encoding, up to the order and repetition of headers. */
module WireRoundTrip {
  import opened Options
  import opened Wire

  ghost predicate Fits(h: Header) {
    |h.key| < WORD && |h.value| < WORD
  }

  ghost predicate AllFit(hs: seq<Header>) {
    forall i :: 0 <= i < |hs| ==> Fits(hs[i])
  }

  // ---------- one header ----------

  lemma ThreeParts(buf: seq<Byte>, n: nat, a: seq<Byte>, b: seq<Byte>, c: seq<Byte>)
    requires n <= |buf| && buf[n..] == a + b + c
    ensures |buf| == n + |a| + |b| + |c|
    ensures buf[n..n + |a|] == a && buf[n + |a|..n + |a| + |b|] == b && buf[n + |a| + |b|..] == c
  {
  }

  lemma LengthsFirst(a: seq<Byte>, b: seq<Byte>, c: seq<Byte>)
    requires |a| < WORD && |b| < WORD
    ensures var buf := Be(|a|) + Be(|b|) + a + b + c;
            |buf| >= 8 && FromBe(buf[0..4]) == |a| && FromBe(buf[4..8]) == |b|
            && buf[8..] == a + b + c
  {
  }

  lemma HeaderAt(buf: seq<Byte>, h: Header, rest: seq<Byte>)
    requires |buf| >= 8 && FromBe(buf[0..4]) == |h.key| && FromBe(buf[4..8]) == |h.value|
    requires buf[8..] == h.key + h.value + rest
    ensures StartsWithHeader(buf) && FirstHeader(buf) == h && buf[ValueEnd(buf)..] == rest
  {
    ThreeParts(buf, 8, h.key, h.value, rest);
    assert KeyEnd(buf) == 8 + |h.key| && ValueEnd(buf) == 8 + |h.key| + |h.value|;
    assert buf[8..KeyEnd(buf)] == h.key && buf[KeyEnd(buf)..ValueEnd(buf)] == h.value;
  }

  lemma HeaderParses(h: Header, rest: seq<Byte>)
    requires Fits(h)
    ensures var buf := HeaderBytes(h) + rest;
            StartsWithHeader(buf) && FirstHeader(buf) == h && buf[ValueEnd(buf)..] == rest
  {
    LengthsFirst(h.key, h.value, rest);
    HeaderAt(HeaderBytes(h) + rest, h, rest);
  }

  lemma HeaderUnparses(buf: seq<Byte>)
    requires StartsWithHeader(buf)
    ensures Fits(FirstHeader(buf)) && buf == HeaderBytes(FirstHeader(buf)) + buf[ValueEnd(buf)..]
  {
    var h := FirstHeader(buf);
    assert |h.key| == FromBe(buf[0..4]) && |h.value| == FromBe(buf[4..8]);
    LengthBytes(buf[0..4]);
    LengthBytes(buf[4..8]);
    assert buf[0..4][..4] == buf[0..4] && buf[4..8][..4] == buf[4..8];
    assert buf == buf[0..4] + buf[4..8] + buf[8..KeyEnd(buf)] + buf[KeyEnd(buf)..ValueEnd(buf)] + buf[ValueEnd(buf)..];
  }

  // ---------- the header section ----------

  /** The parser accepts exactly what the printer prints. */
  lemma {:induction false} HeadersParse(hs: seq<Header>)
    requires AllFit(hs)
    ensures Parsed(HeadersBytes(hs), |hs|) == Some(hs)
  {
    if hs != [] {
      HeadersParse(hs[1..]);
      HeaderParses(hs[0], HeadersBytes(hs[1..]));
      assert hs == [hs[0]] + hs[1..];
    }
  }

  lemma {:induction false} HeadersUnparse(buf: seq<Byte>, count: nat)
    requires Parsed(buf, count).Some?
    ensures var hs := Parsed(buf, count).value; |hs| == count && AllFit(hs) && buf == HeadersBytes(hs)
    decreases count
  {
    if count > 0 {
      HeadersUnparse(buf[ValueEnd(buf)..], count - 1);
      HeaderUnparses(buf);
      var hs := Parsed(buf, count).value;
      assert hs[1..] == Parsed(buf[ValueEnd(buf)..], count - 1).value;
    }
  }

  lemma {:induction false} HeadersAreLong(hs: seq<Header>)
    ensures |HeadersBytes(hs)| >= 8 * |hs|
    ensures |HeadersBytes(hs)| < WORD ==> AllFit(hs)
  {
    if hs != [] {
      HeadersAreLong(hs[1..]);
      assert |HeadersBytes(hs)| == 8 + |hs[0].key| + |hs[0].value| + |HeadersBytes(hs[1..])|;
      assert hs == [hs[0]] + hs[1..];
    }
  }

  /** The count guard only rejects early: what it rejects has no parse. */
  lemma {:induction false} GuardOnlyRejectsEarly(buf: seq<Byte>, count: nat)
    requires |buf| >= 4 && count > (|buf| - 4) / 8
    ensures Parsed(buf[4..], count) == None
  {
    if Parsed(buf[4..], count).Some? {
      HeadersUnparse(buf[4..], count);
      HeadersAreLong(Parsed(buf[4..], count).value);
    }
  }

  function Collected(hs: seq<Header>): Headers {
    if hs == [] then None else Some(Inserted(hs))
  }

  lemma OneLength(x: nat, rest: seq<Byte>)
    ensures var buf := Be(x) + rest; FromBe(buf) == x % WORD && buf[4..] == rest && buf[..4] == Be(x)
  {
    LengthSurvives(x);
    assert (Be(x) + rest)[..4] == Be(x);
  }

  lemma {:induction false} SectionAt(buf: seq<Byte>, hs: seq<Header>)
    requires |buf| >= 4 && FromBe(buf) == |hs| && buf[4..] == HeadersBytes(hs) && AllFit(hs)
    ensures DecodedHeaders(buf) == Some(Collected(hs))
  {
    HeadersAreLong(hs);
    HeadersParse(hs);
  }

  lemma SectionDecodes(hs: seq<Header>)
    requires |Section(hs)| < WORD
    ensures DecodedHeaders(Section(hs)) == Some(Collected(hs))
  {
    HeadersAreLong(hs);
    OneLength(|hs|, HeadersBytes(hs));
    SectionAt(Section(hs), hs);
  }

  lemma SectionFromDecoded(buf: seq<Byte>) returns (hs: seq<Header>)
    requires DecodedHeaders(buf).Some?
    ensures buf == Section(hs) && DecodedHeaders(buf) == Some(Collected(hs))
  {
    LengthBytes(buf);
    assert buf == buf[..4] + buf[4..];
    if FromBe(buf) == 0 {
      hs := [];
      assert buf[4..] == [];
    } else {
      hs := Parsed(buf[4..], FromBe(buf)).value;
      HeadersUnparse(buf[4..], FromBe(buf));
    }
  }

  // ---------- whole frames ----------

  /** The lengths that a frame records fit their 32 bits. */
  predicate Recordable(subject: Text, hs: seq<Header>) {
    |subject| < WORD && |Section(hs)| < WORD
  }

  lemma FrameParts(subject: Text, hs: seq<Header>, payload: seq<Byte>)
    requires Recordable(subject, hs)
    ensures var buf := FrameBytes(subject, hs, payload);
            && |buf| >= 8 && SubjectEnd(buf) == 8 + |subject| && PayloadStart(buf) == 8 + |subject| + |Section(hs)|
            && |buf| == PayloadStart(buf) + |payload|
            && buf[8..SubjectEnd(buf)] == subject && buf[SubjectEnd(buf)..PayloadStart(buf)] == Section(hs)
            && buf[PayloadStart(buf)..] == payload
  {
    var buf, section := FrameBytes(subject, hs, payload), Section(hs);
    LengthsFirst(subject, section, payload);
    ThreeParts(buf, 8, subject, section, payload);
  }

  lemma FrameDecodes(subject: Text, hs: seq<Header>, payload: seq<Byte>)
    requires Recordable(subject, hs)
    ensures Decoded(FrameBytes(subject, hs, payload)) == Some(Frame(subject, Collected(hs), payload))
  {
    FrameParts(subject, hs, payload);
    SectionDecodes(hs);
  }

  /** Which frame the bytes are. */
  ghost predicate IsFrame(buf: seq<Byte>, f: Frame, hs: seq<Header>) {
    Recordable(f.subject, hs) && f.headers == Collected(hs) && buf == FrameBytes(f.subject, hs, f.payload)
  }

  lemma Rebuilt(buf: seq<Byte>)
    requires |buf| >= 8 && |buf| >= PayloadStart(buf)
    ensures var subject, section := buf[8..SubjectEnd(buf)], buf[SubjectEnd(buf)..PayloadStart(buf)];
            && |subject| < WORD && |section| < WORD
            && buf == Be(|subject|) + Be(|section|) + subject + section + buf[PayloadStart(buf)..]
  {
    var subject, section := buf[8..SubjectEnd(buf)], buf[SubjectEnd(buf)..PayloadStart(buf)];
    assert |subject| == FromBe(buf[0..4]) && |section| == FromBe(buf[4..8]);
    LengthBytes(buf[0..4]);
    LengthBytes(buf[4..8]);
    assert buf[0..4][..4] == buf[0..4] && buf[4..8][..4] == buf[4..8];
    assert buf == buf[0..4] + buf[4..8] + subject + section + buf[PayloadStart(buf)..];
  }

  lemma FrameFromDecoded(buf: seq<Byte>) returns (hs: seq<Header>)
    requires Decoded(buf).Some?
    ensures IsFrame(buf, Decoded(buf).value, hs)
  {
    Rebuilt(buf);
    hs := SectionFromDecoded(buf[SubjectEnd(buf)..PayloadStart(buf)]);
  }

  /** Exactly which byte strings decode, and to what: the encodings of a subject, a list of headers
      (with keys possibly repeated, the last one counting) and a payload whose lengths fit. */
  lemma DecodeIsExact(buf: seq<Byte>, f: Frame)
    ensures Decoded(buf) == Some(f) <==> exists hs :: IsFrame(buf, f, hs)
  {
    if Decoded(buf) == Some(f) {
      var hs := FrameFromDecoded(buf);
      assert IsFrame(buf, f, hs);
    }
    forall hs | IsFrame(buf, f, hs) ensures Decoded(buf) == Some(f) {
      FrameDecodes(f.subject, hs, f.payload);
    }
  }

  lemma RemovedOne(m: map<Text, Text>, k: Text, rest: map<Text, Text>)
    requires k in m && rest == map x | x in m && x != k :: m[x]
    ensures |rest| == |m| - 1 && rest[k := m[k]] == m
  {
    assert rest.Keys == m.Keys - {k};
    assert |rest.Keys| == |rest| && |m.Keys| == |m|;
  }

  /** Every header map has such an order. */
  lemma {:induction false} SomeOrder(m: map<Text, Text>) returns (hs: seq<Header>)
    ensures Yields(Some(m), hs)
    decreases |m|
  {
    if m == map[] {
      hs := [];
    } else {
      var k :| k in m;
      var rest := map x | x in m && x != k :: m[x];
      RemovedOne(m, k, rest);
      var front := SomeOrder(rest);
      InsertedNext(front, Header(k, m[k]));
      hs := front + [Header(k, m[k])];
    }
  }

  /** An empty header map is sent like no headers. */
  function Normal(headers: Headers): Headers {
    if headers == Some(map[]) then None else headers
  }

  lemma YieldsCollects(headers: Headers, hs: seq<Header>)
    requires Yields(headers, hs)
    ensures Collected(hs) == Normal(headers)
  {
  }

  /** Round trip, for every order in which the map can yield its headers: the frame comes back
      exactly when the two recorded lengths fit. */
  lemma RoundTrip(f: Frame, hs: seq<Header>)
    requires Yields(f.headers, hs)
    ensures Decoded(FrameBytes(f.subject, hs, f.payload)) == Some(f.(headers := Normal(f.headers)))
       <==> Recordable(f.subject, hs)
  {
    var buf := FrameBytes(f.subject, hs, f.payload);
    YieldsCollects(f.headers, hs);
    if Recordable(f.subject, hs) {
      FrameDecodes(f.subject, hs, f.payload);
    } else {
      TruncatedLengths(f.subject, hs, f.payload);
    }
  }

  /** A length that was cut off moves the payload. */
  lemma TruncatedLengths(subject: Text, hs: seq<Header>, payload: seq<Byte>)
    requires !Recordable(subject, hs)
    ensures var r := Decoded(FrameBytes(subject, hs, payload));
            r.Some? ==> r.value.subject != subject || r.value.payload != payload
  {
  }

  // ---------- duplicates ----------

  lemma {:induction false} InsertedWere(hs: seq<Header>)
    ensures forall k :: k in Inserted(hs) ==> Header(k, Inserted(hs)[k]) in hs
    ensures |Inserted(hs)| <= |hs|
  {
    if hs != [] {
      var front, last := hs[..|hs| - 1], hs[|hs| - 1];
      InsertedWere(front);
      assert hs == front + [last];
      var m := Inserted(front);
      assert m[last.key := last.value].Keys == m.Keys + {last.key};
      assert |m.Keys| == |m| && |m[last.key := last.value].Keys| == |m[last.key := last.value]|;
    }
  }

  lemma {:induction false} LastIsNew(hs: seq<Header>)
    requires hs != [] && |hs| == |Inserted(hs)|
    ensures hs[|hs| - 1].key !in Inserted(hs[..|hs| - 1]) && |Inserted(hs[..|hs| - 1])| == |hs| - 1
  {
    var m, last := Inserted(hs[..|hs| - 1]), hs[|hs| - 1];
    InsertedWere(hs[..|hs| - 1]);
    var after := m[last.key := last.value];
    assert after.Keys == m.Keys + {last.key};
    assert |m.Keys| == |m| && |after.Keys| == |after|;
  }

  lemma {:induction false} KeysInserted(hs: seq<Header>)
    ensures forall i :: 0 <= i < |hs| ==> hs[i].key in Inserted(hs)
  {
    if hs != [] {
      KeysInserted(hs[..|hs| - 1]);
    }
  }

  /** The keys of an order that a map yields are distinct. */
  lemma {:induction false} YieldedOnce(hs: seq<Header>)
    requires |hs| == |Inserted(hs)|
    ensures forall i, j :: 0 <= i < j < |hs| ==> hs[i].key != hs[j].key
  {
    if hs != [] {
      var front := hs[..|hs| - 1];
      LastIsNew(hs);
      YieldedOnce(front);
      KeysInserted(front);
      assert forall i :: 0 <= i < |front| ==> front[i] == hs[i] && front[i].key in Inserted(front);
    }
  }

  /** Its headers are the map's. */
  lemma {:induction false} YieldedHeader(hs: seq<Header>, i: nat)
    requires |hs| == |Inserted(hs)| && i < |hs|
    ensures hs[i].key in Inserted(hs) && Inserted(hs)[hs[i].key] == hs[i].value
  {
    if i < |hs| - 1 {
      LastIsNew(hs);
      YieldedHeader(hs[..|hs| - 1], i);
    }
  }

  lemma {:induction false} HeadersBytesLength(a: seq<Header>, b: seq<Header>)
    ensures |HeadersBytes(a + b)| == |HeadersBytes(a)| + |HeadersBytes(b)|
  {
    if a == [] {
      assert a + b == b;
    } else {
      HeadersBytesLength(a[1..], b);
      assert (a + b)[1..] == a[1..] + b;
    }
  }

  /** Headers with distinct keys, all among `all`, take no more room than `all`. */
  lemma {:induction false} FewerHeadersAreShorter(some: seq<Header>, all: seq<Header>)
    requires forall i, j :: 0 <= i < j < |some| ==> some[i].key != some[j].key
    requires forall h :: h in some ==> h in all
    ensures |HeadersBytes(some)| <= |HeadersBytes(all)|
    decreases |some|
  {
    if some != [] {
      var h, rest := some[0], some[1..];
      assert h in some;
      var i :| 0 <= i < |all| && all[i] == h;
      var others := all[..i] + all[i + 1..];
      assert all == all[..i] + ([h] + all[i + 1..]);
      forall x | x in rest ensures x in others {
        var j :| 0 <= j < |rest| && rest[j] == x;
        assert some[j + 1] == x && x != h && x in some;
      }
      FewerHeadersAreShorter(rest, others);
      HeadersBytesLength(all[..i], [h] + all[i + 1..]);
      HeadersBytesLength([h], all[i + 1..]);
      HeadersBytesLength(all[..i], all[i + 1..]);
      HeadersBytesLength([h], rest);
      assert some == [h] + rest;
    }
  }

  /** Any accepted frame, encoded again in any order and decoded, is the same frame, also when the
      input repeated keys. */
  lemma Stable(buf: seq<Byte>, again: seq<Header>)
    requires Decoded(buf).Some?
    ensures var f := Decoded(buf).value; var bytes := FrameBytes(f.subject, again, f.payload);
            Yields(f.headers, again) ==> Decoded(bytes) == Some(f) && |bytes| <= |buf|
  {
    var f := Decoded(buf).value;
    if Yields(f.headers, again) {
      var hs := FrameFromDecoded(buf);
      SectionShrinks(hs, again);
      NotEmpty(hs);
      YieldsCollects(f.headers, again);
      FrameDecodes(f.subject, again, f.payload);
    }
  }

  lemma SectionShrinks(hs: seq<Header>, again: seq<Header>)
    requires Yields(Collected(hs), again)
    ensures |Section(again)| <= |Section(hs)|
  {
    if hs != [] {
      InsertedWere(hs);
      YieldedOnce(again);
      forall h | h in again ensures h in hs {
        var i :| 0 <= i < |again| && again[i] == h;
        YieldedHeader(again, i);
      }
      FewerHeadersAreShorter(again, hs);
    }
  }

  lemma {:induction false} NotEmpty(hs: seq<Header>)
    ensures hs != [] ==> Inserted(hs) != map[]
  {
    if hs != [] {
      assert hs[|hs| - 1].key in Inserted(hs);
    }
  }

  // ---------- truncation ----------

  lemma SliceOfPrefix(buf: seq<Byte>, n: nat, i: nat, j: nat)
    requires i <= j <= n <= |buf|
    ensures buf[..n][i..j] == buf[i..j]
  {
  }

  lemma SameLengths(buf: seq<Byte>, n: nat)
    requires 8 <= n <= |buf|
    ensures SubjectEnd(buf[..n]) == SubjectEnd(buf) && PayloadStart(buf[..n]) == PayloadStart(buf)
  {
    SliceOfPrefix(buf, n, 0, 4);
    SliceOfPrefix(buf, n, 4, 8);
  }

  lemma CutInPayload(buf: seq<Byte>, n: nat)
    requires Decoded(buf).Some? && PayloadStart(buf) <= n <= |buf|
    ensures Decoded(buf[..n]) == Some(Decoded(buf).value.(payload := buf[PayloadStart(buf)..n]))
  {
    var cut := buf[..n];
    SameLengths(buf, n);
    SliceOfPrefix(buf, n, 8, SubjectEnd(buf));
    SliceOfPrefix(buf, n, SubjectEnd(buf), PayloadStart(buf));
    SliceOfPrefix(buf, n, PayloadStart(buf), n);
    assert cut[PayloadStart(buf)..n] == cut[PayloadStart(buf)..];
  }

  /** A prefix of an accepted frame is accepted exactly when it reaches the payload; it then is the
      same frame with a shorter payload. */
  lemma Truncated(buf: seq<Byte>, n: nat)
    requires Decoded(buf).Some? && n <= |buf|
    ensures Decoded(buf[..n]).Some? <==> n >= PayloadStart(buf)
    ensures n >= PayloadStart(buf) ==>
              Decoded(buf[..n]).value == Decoded(buf).value.(payload := buf[PayloadStart(buf)..n])
  {
    if n >= PayloadStart(buf) {
      CutInPayload(buf, n);
    } else if n >= 8 {
      SameLengths(buf, n);
    }
  }
}
