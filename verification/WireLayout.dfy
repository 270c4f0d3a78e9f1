/** Where everything stands in a frame, byte by byte. */
module WireLayout {
  import opened Options
  import opened Wire
  import opened WireRoundTrip

  /** The four bytes at `i`, the first of them counting most. */
  function Number(buf: seq<Byte>, i: nat): nat
    requires i + 4 <= |buf|
  {
    var first: nat, second: nat, third: nat, fourth: nat := buf[i], buf[i + 1], buf[i + 2], buf[i + 3];
    first * 0x100_0000 + second * 0x1_0000 + third * 0x100 + fourth
  }

  function HeaderSize(h: Header): nat {
    8 + |h.key| + |h.value|
  }

  function HeadersSize(hs: seq<Header>): nat {
    if hs == [] then 0 else HeaderSize(hs[0]) + HeadersSize(hs[1..])
  }

  /** At `i` stand the lengths of a key and of a value, then the key, then the value. */
  predicate HeaderAt(buf: seq<Byte>, i: nat, h: Header) {
    && i + HeaderSize(h) <= |buf|
    && LengthsAt(buf, i, |h.key|, |h.value|)
    && buf[i + 8..i + 8 + |h.key|] == h.key
    && buf[i + 8 + |h.key|..i + HeaderSize(h)] == h.value
  }

  predicate HeadersAt(buf: seq<Byte>, i: nat, hs: seq<Header>)
    decreases |hs|
  {
    hs != [] ==> HeaderAt(buf, i, hs[0]) && HeadersAt(buf, i + HeaderSize(hs[0]), hs[1..])
  }

  predicate LengthsAt(buf: seq<Byte>, i: nat, m: nat, n: nat) {
    i + 8 <= |buf| && Number(buf, i) == m % 0x1_0000_0000 && Number(buf, i + 4) == n % 0x1_0000_0000
  }

  /** At `i` stand the number of headers and then the headers. */
  predicate SectionAt(buf: seq<Byte>, i: nat, hs: seq<Header>) {
    i + 4 <= |buf| && Number(buf, i) == |hs| % 0x1_0000_0000 && HeadersAt(buf, i + 4, hs)
  }

  /** The lengths of subject and header section, the subject, the number of headers, the headers, and
      the payload; each number in four bytes. */
  predicate LaidOut(buf: seq<Byte>, subject: Text, hs: seq<Header>, payload: seq<Byte>) {
    var section, end := 8 + |subject|, 12 + |subject| + HeadersSize(hs);
    && |buf| == end + |payload|
    && LengthsAt(buf, 0, |subject|, 4 + HeadersSize(hs))
    && buf[8..section] == subject && SectionAt(buf, section, hs) && buf[end..] == payload
  }

  // ---------- numbers ----------

  lemma NumberOf(buf: seq<Byte>, i: nat)
    requires i + 4 <= |buf|
    ensures FromBe(buf[i..i + 4]) == Number(buf, i)
  {
    var b := buf[i..i + 4];
    assert b[0] == buf[i] && b[1] == buf[i + 1] && b[2] == buf[i + 2] && b[3] == buf[i + 3];
  }

  lemma NumberIsBe(buf: seq<Byte>, i: nat, n: nat)
    requires i + 4 <= |buf|
    ensures Number(buf, i) == n % 0x1_0000_0000 <==> buf[i..i + 4] == Be(n)
  {
    var b := buf[i..i + 4];
    NumberOf(buf, i);
    LengthSurvives(n);
    LengthBytes(b);
    LengthBytes(Be(n));
    assert b[..4] == b && Be(n)[..4] == Be(n);
  }

  // ---------- parts ----------

  lemma CutTwo(buf: seq<Byte>, i: nat, j: nat, k: nat, a: seq<Byte>, b: seq<Byte>)
    requires i <= j <= k <= |buf| && |a| == j - i && |b| == k - j
    ensures buf[i..k] == a + b <==> buf[i..j] == a && buf[j..k] == b
  {
    assert buf[i..k] == buf[i..j] + buf[j..k];
    assert (a + b)[..j - i] == a && (a + b)[j - i..] == b;
  }

  lemma CutThree(buf: seq<Byte>, i: nat, j: nat, k: nat, l: nat, a: seq<Byte>, b: seq<Byte>, c: seq<Byte>)
    requires i <= j <= k <= l <= |buf| && |a| == j - i && |b| == k - j && |c| == l - k
    ensures buf[i..l] == a + b + c <==> buf[i..j] == a && buf[j..k] == b && buf[k..l] == c
  {
    CutTwo(buf, i, k, l, a + b, c);
    CutTwo(buf, i, j, k, a, b);
  }

  lemma LengthsAre(buf: seq<Byte>, i: nat, m: nat, n: nat)
    requires i + 8 <= |buf|
    ensures LengthsAt(buf, i, m, n) <==> buf[i..i + 8] == Be(m) + Be(n)
  {
    NumberIsBe(buf, i, m);
    NumberIsBe(buf, i + 4, n);
    CutTwo(buf, i, i + 4, i + 8, Be(m), Be(n));
  }

  lemma HeaderIs(buf: seq<Byte>, i: nat, h: Header)
    requires i + HeaderSize(h) <= |buf|
    ensures HeaderAt(buf, i, h) <==> buf[i..i + HeaderSize(h)] == HeaderBytes(h)
  {
    LengthsAre(buf, i, |h.key|, |h.value|);
    CutThree(buf, i, i + 8, i + 8 + |h.key|, i + HeaderSize(h), Be(|h.key|) + Be(|h.value|), h.key, h.value);
  }

  lemma {:induction false} HeadersLength(hs: seq<Header>)
    ensures |HeadersBytes(hs)| == HeadersSize(hs)
  {
    if hs != [] {
      HeadersLength(hs[1..]);
    }
  }

  lemma NextHeader(buf: seq<Byte>, i: nat, j: nat, end: nat, h: Header, rest: seq<Byte>, all: seq<Byte>)
    requires j == i + HeaderSize(h) && end == j + |rest| && end <= |buf| && all == HeaderBytes(h) + rest
    ensures buf[i..end] == all <==> HeaderAt(buf, i, h) && buf[j..end] == rest
  {
    HeaderIs(buf, i, h);
    CutTwo(buf, i, j, end, HeaderBytes(h), rest);
  }

  /** One header and the ones after it, cut at `j`. */
  lemma {:induction false} HeadersCut(buf: seq<Byte>, i: nat, j: nat, end: nat, hs: seq<Header>, rest: seq<Header>)
    requires hs != [] && rest == hs[1..] && j == i + HeaderSize(hs[0])
    requires end == j + |HeadersBytes(rest)| && end <= |buf|
    ensures buf[i..end] == HeadersBytes(hs) <==> HeaderAt(buf, i, hs[0]) && buf[j..end] == HeadersBytes(rest)
  {
    NextHeader(buf, i, j, end, hs[0], HeadersBytes(rest), HeadersBytes(hs));
  }

  lemma {:induction false} HeadersAtCut(buf: seq<Byte>, i: nat, j: nat, hs: seq<Header>, rest: seq<Header>)
    requires hs != [] && rest == hs[1..] && j == i + HeaderSize(hs[0])
    ensures HeadersAt(buf, i, hs) <==> HeaderAt(buf, i, hs[0]) && HeadersAt(buf, j, rest)
  {
  }

  lemma {:induction false} HeadersAre(buf: seq<Byte>, i: nat, end: nat, hs: seq<Header>)
    requires end == i + HeadersSize(hs) && end <= |buf|
    ensures HeadersAt(buf, i, hs) <==> buf[i..end] == HeadersBytes(hs)
    decreases |hs|
  {
    if hs == [] {
      assert buf[i..i] == [];
    } else {
      var j, rest := i + HeaderSize(hs[0]), hs[1..];
      HeadersLength(rest);
      HeadersAre(buf, j, end, rest);
      HeadersCut(buf, i, j, end, hs, rest);
      HeadersAtCut(buf, i, j, hs, rest);
    }
  }

  lemma {:induction false} SectionIs(buf: seq<Byte>, i: nat, hs: seq<Header>)
    requires i + 4 + HeadersSize(hs) <= |buf|
    ensures |Section(hs)| == 4 + HeadersSize(hs)
    ensures SectionAt(buf, i, hs) <==> buf[i..i + 4 + HeadersSize(hs)] == Section(hs)
  {
    var end := i + 4 + HeadersSize(hs);
    HeadersLength(hs);
    NumberIsBe(buf, i, |hs|);
    HeadersAre(buf, i + 4, end, hs);
    CutTwo(buf, i, i + 4, end, Be(|hs|), HeadersBytes(hs));
  }

  // ---------- whole frames ----------

  lemma FrameCut(buf: seq<Byte>, lengths: seq<Byte>, subject: seq<Byte>, section: seq<Byte>, payload: seq<Byte>,
                 start: nat, end: nat)
    requires |lengths| == 8 && start == 8 + |subject| && end == start + |section| && |buf| == end + |payload|
    ensures buf == lengths + subject + section + payload
       <==> buf[0..8] == lengths && buf[8..start] == subject && buf[start..end] == section && buf[end..] == payload
  {
    CutThree(buf, 0, 8, start, end, lengths, subject, section);
    CutTwo(buf, 0, end, |buf|, lengths + subject + section, payload);
    assert buf[0..|buf|] == buf && buf[end..|buf|] == buf[end..];
  }

  lemma {:induction false} LaidOutCut(buf: seq<Byte>, subject: Text, hs: seq<Header>, payload: seq<Byte>, start: nat, end: nat)
    requires start == 8 + |subject| && end == start + 4 + HeadersSize(hs) && |buf| == end + |payload|
    ensures LaidOut(buf, subject, hs, payload)
       <==> buf[0..8] == Be(|subject|) + Be(4 + HeadersSize(hs)) && buf[8..start] == subject
            && buf[start..end] == Section(hs) && buf[end..] == payload
  {
    LengthsAre(buf, 0, |subject|, 4 + HeadersSize(hs));
    SectionIs(buf, start, hs);
    assert end == 12 + |subject| + HeadersSize(hs);
  }

  /** The frame of a subject, headers and a payload is the one string that is laid out like this. */
  lemma FrameIsLaidOut(buf: seq<Byte>, subject: Text, hs: seq<Header>, payload: seq<Byte>)
    ensures LaidOut(buf, subject, hs, payload) <==> buf == FrameBytes(subject, hs, payload)
  {
    HeadersLength(hs);
    if |buf| == 12 + |subject| + HeadersSize(hs) + |payload| {
      var start, end := 8 + |subject|, 12 + |subject| + HeadersSize(hs);
      LaidOutCut(buf, subject, hs, payload, start, end);
      FrameCut(buf, Be(|subject|) + Be(|Section(hs)|), subject, Section(hs), payload, start, end);
    }
  }

  /** Which byte strings decode to a frame: those laid out as its subject, some list of headers that
      collects to its headers, and its payload, with lengths that fit their four bytes. */
  lemma DecodesWhatIsLaidOut(buf: seq<Byte>, f: Frame)
    ensures Decoded(buf) == Some(f) <==> exists hs :: Carries(buf, f, hs)
  {
    DecodeIsExact(buf, f);
    forall hs ensures Carries(buf, f, hs) <==> IsFrame(buf, f, hs) {
      FrameIsLaidOut(buf, f.subject, hs, f.payload);
      HeadersLength(hs);
    }
    if exists hs :: IsFrame(buf, f, hs) {
      var hs :| IsFrame(buf, f, hs);
      assert Carries(buf, f, hs);
    }
    if exists hs :: Carries(buf, f, hs) {
      var hs :| Carries(buf, f, hs);
      assert IsFrame(buf, f, hs);
    }
  }

  ghost predicate Carries(buf: seq<Byte>, f: Frame, hs: seq<Header>) {
    && |f.subject| < 0x1_0000_0000 && 4 + HeadersSize(hs) < 0x1_0000_0000
    && LaidOut(buf, f.subject, hs, f.payload) && f.headers == (if hs == [] then None else Some(Inserted(hs)))
  }

  // ---------- what the decoded headers are ----------

  /** The headers of a list as a map: exactly its keys. */
  lemma {:induction false} KeysOfHeaders(hs: seq<Header>, key: Text)
    ensures key in Inserted(hs) <==> exists i :: 0 <= i < |hs| && hs[i].key == key
  {
    if hs != [] {
      var front := hs[..|hs| - 1];
      KeysOfHeaders(front, key);
      assert hs[|front|].key == key ==> key in Inserted(hs);
      if key in Inserted(front) {
        var i :| 0 <= i < |front| && front[i].key == key;
        assert hs[i].key == key;
      }
      forall i | 0 <= i < |hs| && hs[i].key == key ensures key in Inserted(hs) {
        assert i < |front| ==> front[i].key == key;
      }
    }
  }

  /** Each with the value of its last occurrence. */
  lemma {:induction false} LastOccurrenceCounts(hs: seq<Header>, i: nat)
    requires i < |hs| && forall j :: i < j < |hs| ==> hs[j].key != hs[i].key
    ensures hs[i].key in Inserted(hs) && Inserted(hs)[hs[i].key] == hs[i].value
  {
    if i < |hs| - 1 {
      LastOccurrenceCounts(hs[..|hs| - 1], i);
    }
  }
}
