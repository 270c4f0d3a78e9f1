/** The framing for transports that do not carry a subject or headers of their own. */
module Wire {
  import opened Options

  type Byte = n: nat | n < 256

  const WORD: nat := 0x1_0000_0000

  // ---------- UTF-8 ----------

  predicate Within(b: seq<Byte>, i: nat, low: nat, high: nat) {
    i < |b| && low <= b[i] <= high
  }

  predicate Tail(b: seq<Byte>, i: nat) {
    Within(b, i, 0x80, 0xBF)
  }

  /** The length of the well-formed code point at the start of `b` (section 4 of RFC 3629), or 0. */
  function ScalarLength(b: seq<Byte>): (n: nat)
    ensures n <= |b| && n <= 4
  {
    if Within(b, 0, 0x00, 0x7F) then 1
    else if Within(b, 0, 0xC2, 0xDF) && Tail(b, 1) then 2
    else if Tail(b, 2) && ((Within(b, 0, 0xE0, 0xE0) && Within(b, 1, 0xA0, 0xBF))
                        || (Within(b, 0, 0xE1, 0xEC) && Tail(b, 1))
                        || (Within(b, 0, 0xED, 0xED) && Within(b, 1, 0x80, 0x9F))
                        || (Within(b, 0, 0xEE, 0xEF) && Tail(b, 1))) then 3
    else if Tail(b, 2) && Tail(b, 3) && ((Within(b, 0, 0xF0, 0xF0) && Within(b, 1, 0x90, 0xBF))
                                      || (Within(b, 0, 0xF1, 0xF3) && Tail(b, 1))
                                      || (Within(b, 0, 0xF4, 0xF4) && Within(b, 1, 0x80, 0x8F))) then 4
    else 0
  }

  predicate Utf8(b: seq<Byte>) {
    b == [] || (ScalarLength(b) > 0 && Utf8(b[ScalarLength(b)..]))
  }

  /** A string: bytes known to be UTF-8. */
  type Text = b: seq<Byte> | Utf8(b) witness []

  // ---------- 32-bit lengths ----------

  /** `(n as u32).to_be_bytes()`: what does not fit is cut off. */
  function Be(n: nat): (b: seq<Byte>)
    ensures |b| == 4
  {
    var second := n / 256;
    var third := second / 256;
    [third / 256 % 256, third % 256, second % 256, n % 256]
  }

  function FromBe(b: seq<Byte>): (n: nat)
    requires |b| >= 4
    ensures n < WORD
  {
    var first: nat, second: nat, third: nat, fourth: nat := b[0], b[1], b[2], b[3];
    ((first * 256 + second) * 256 + third) * 256 + fourth
  }

  /** A length survives exactly when it fits. */
  lemma LengthSurvives(n: nat)
    ensures FromBe(Be(n)) == n % WORD
  {
    assert n == WORD * (n / 256 / 256 / 256 / 256) + FromBe(Be(n));
  }

  lemma LengthBytes(b: seq<Byte>)
    requires |b| >= 4
    ensures Be(FromBe(b)) == b[..4]
  {
    var first: nat, second: nat, third: nat := b[0], b[1], b[2];
    var n := FromBe(b);
    assert n / 256 == (first * 256 + second) * 256 + third;
    assert n / 256 / 256 == first * 256 + second;
  }

  // ---------- the header section ----------

  datatype Header = Header(key: Text, value: Text)

  type Headers = Option<map<Text, Text>>

  datatype Frame = Frame(subject: Text, headers: Headers, payload: seq<Byte>)

  function HeaderBytes(h: Header): seq<Byte> {
    Be(|h.key|) + Be(|h.value|) + h.key + h.value
  }

  function HeadersBytes(hs: seq<Header>): seq<Byte> {
    if hs == [] then [] else HeaderBytes(hs[0]) + HeadersBytes(hs[1..])
  }

  /** The header section, with the headers in the order in which the map yields them. */
  function Section(hs: seq<Header>): (b: seq<Byte>)
    ensures |b| >= 4
  {
    Be(|hs|) + HeadersBytes(hs)
  }

  /** The map after inserting the headers one after the other. */
  function Inserted(hs: seq<Header>): map<Text, Text> {
    if hs == [] then map[] else Inserted(hs[..|hs| - 1])[hs[|hs| - 1].key := hs[|hs| - 1].value]
  }

  /** One of the orders in which a map can yield its entries. */
  predicate Yields(headers: Headers, hs: seq<Header>) {
    match headers
    case None => hs == []
    case Some(m) => Inserted(hs) == m && |hs| == |m|
  }

  function FrameBytes(subject: Text, hs: seq<Header>, payload: seq<Byte>): seq<Byte> {
    Be(|subject|) + Be(|Section(hs)|) + subject + Section(hs) + payload
  }

  lemma HeaderAppended(buf: seq<Byte>, h: Header, rest: seq<Byte>)
    ensures buf + (HeaderBytes(h) + rest) == buf + Be(|h.key|) + Be(|h.value|) + h.key + h.value + rest
  {
  }

  /** `encode_headers`. */
  method EncodeHeaders(hs: seq<Header>) returns (buf: seq<Byte>)
    ensures buf == Section(hs)
  {
    buf := Be(|hs|);
    for i := 0 to |hs|
      invariant buf + HeadersBytes(hs[i..]) == Section(hs)
    {
      var h := hs[i];
      assert hs[i..][0] == h && hs[i..][1..] == hs[i + 1..];
      HeaderAppended(buf, h, HeadersBytes(hs[i + 1..]));
      buf := buf + Be(|h.key|) + Be(|h.value|) + h.key + h.value;
    }
    assert buf + [] == buf;
  }

  /** `encode`, given the order in which the map yields its headers. */
  method Encode(subject: Text, hs: seq<Header>, payload: seq<Byte>) returns (buf: seq<Byte>)
    ensures buf == FrameBytes(subject, hs, payload)
  {
    var section := EncodeHeaders(hs);
    buf := Be(|subject|);
    buf := buf + Be(|section|);
    buf := buf + subject;
    buf := buf + section;
    buf := buf + payload;
  }

  // ---------- decoding ----------

  function KeyEnd(buf: seq<Byte>): (n: nat)
    requires |buf| >= 8
  {
    8 + FromBe(buf[0..4])
  }

  function ValueEnd(buf: seq<Byte>): (n: nat)
    requires |buf| >= 8
    ensures n >= KeyEnd(buf)
  {
    KeyEnd(buf) + FromBe(buf[4..8])
  }

  /** A whole header with UTF-8 key and value stands at the start of `buf`. */
  predicate StartsWithHeader(buf: seq<Byte>) {
    && |buf| >= 8 && |buf| >= ValueEnd(buf)
    && Utf8(buf[8..KeyEnd(buf)]) && Utf8(buf[KeyEnd(buf)..ValueEnd(buf)])
  }

  function FirstHeader(buf: seq<Byte>): Header
    requires StartsWithHeader(buf)
  {
    Header(buf[8..KeyEnd(buf)], buf[KeyEnd(buf)..ValueEnd(buf)])
  }

  /** Exactly `count` headers and nothing after them. */
  function Parsed(buf: seq<Byte>, count: nat): Option<seq<Header>> {
    if count == 0 then (if buf == [] then Some([]) else None)
    else if !StartsWithHeader(buf) then None
    else match Parsed(buf[ValueEnd(buf)..], count - 1)
      case None => None
      case Some(hs) => Some([FirstHeader(buf)] + hs)
  }

  function DecodedHeaders(buf: seq<Byte>): Option<Headers> {
    if |buf| < 4 then None
    else if FromBe(buf) == 0 then (if |buf| == 4 then Some(None) else None)
    else if FromBe(buf) > (|buf| - 4) / 8 then None
    else match Parsed(buf[4..], FromBe(buf))
      case None => None
      case Some(hs) => Some(Some(Inserted(hs)))
  }

  function SubjectEnd(buf: seq<Byte>): nat
    requires |buf| >= 8
  {
    8 + FromBe(buf[0..4])
  }

  function PayloadStart(buf: seq<Byte>): (n: nat)
    requires |buf| >= 8
    ensures n >= SubjectEnd(buf)
  {
    SubjectEnd(buf) + FromBe(buf[4..8])
  }

  function Decoded(buf: seq<Byte>): Option<Frame> {
    if |buf| < 8 || |buf| < PayloadStart(buf) then None
    else
      var subject := buf[8..SubjectEnd(buf)];
      if !Utf8(subject) then None
      else match DecodedHeaders(buf[SubjectEnd(buf)..PayloadStart(buf)])
        case None => None
        case Some(headers) => Some(Frame(subject, headers, buf[PayloadStart(buf)..]))
  }

  lemma {:induction false} InsertedNext(hs: seq<Header>, h: Header)
    ensures Inserted(hs + [h]) == Inserted(hs)[h.key := h.value]
  {
  }

  /** What is still to be parsed, after `done`. */
  function After(done: seq<Header>, rest: Option<seq<Header>>): Option<seq<Header>> {
    match rest
    case None => None
    case Some(hs) => Some(done + hs)
  }

  lemma AfterTwice(done: seq<Header>, h: Header, rest: Option<seq<Header>>)
    ensures After(done, After([h], rest)) == After(done + [h], rest)
  {
    match rest
    case None =>
    case Some(hs) => assert done + ([h] + hs) == done + [h] + hs;
  }

  lemma AfterNone(all: Option<seq<Header>>)
    ensures After([], all) == all
  {
    assert all.Some? ==> [] + all.value == all.value;
  }

  lemma {:induction false} AfterLast(done: seq<Header>, rest: seq<Byte>)
    ensures After(done, Parsed(rest, 0)) == if rest == [] then Some(done) else None
  {
    assert done + [] == done;
  }

  /** One round of the loop: the header at `cursor` and where the next one starts. */
  method DecodeHeader(buf: seq<Byte>, cursor: nat) returns (r: Option<(Header, nat)>)
    requires cursor <= |buf|
    ensures var rest := buf[cursor..];
            match r
            case None => !StartsWithHeader(rest)
            case Some((h, next)) =>
              StartsWithHeader(rest) && h == FirstHeader(rest) && cursor < next <= |buf| && buf[next..] == rest[ValueEnd(rest)..]
  {
    ghost var rest := buf[cursor..];
    var lengthsEnd := cursor + 8;
    if |buf| < lengthsEnd {
      return None;
    }
    assert buf[cursor..cursor + 4] == rest[0..4] && buf[cursor + 4..lengthsEnd] == rest[4..8];
    var keyLen, valueLen := FromBe(buf[cursor..cursor + 4]), FromBe(buf[cursor + 4..lengthsEnd]);
    var keyEnd := lengthsEnd + keyLen;
    var valueEnd := keyEnd + valueLen;
    if |buf| < valueEnd {
      return None;
    }
    var key, value := buf[lengthsEnd..keyEnd], buf[keyEnd..valueEnd];
    assert key == rest[8..KeyEnd(rest)] && value == rest[KeyEnd(rest)..ValueEnd(rest)];
    if !Utf8(key) || !Utf8(value) {
      return None;
    }
    return Some((Header(key, value), valueEnd));
  }

  /** The same, in terms of all that is left to parse. */
  method DecodeNext(buf: seq<Byte>, cursor: nat, ghost left: nat) returns (r: Option<(Header, nat)>)
    requires cursor <= |buf| && left > 0
    ensures match r
            case None => Parsed(buf[cursor..], left) == None
            case Some((h, next)) =>
              cursor < next <= |buf| && Parsed(buf[cursor..], left) == After([h], Parsed(buf[next..], left - 1))
  {
    r := DecodeHeader(buf, cursor);
  }

  /** The header loop: `count` headers from the fifth byte on, and nothing after them. */
  method DecodeEach(buf: seq<Byte>, count: nat) returns (r: Option<map<Text, Text>>)
    requires |buf| >= 4
    ensures match Parsed(buf[4..], count)
            case None => r == None
            case Some(hs) => r == Some(Inserted(hs))
  {
    var cursor: nat, headers: map<Text, Text> := 4, map[];
    ghost var done: seq<Header>, all := [], Parsed(buf[4..], count);
    AfterNone(all);
    for i := 0 to count
      invariant cursor <= |buf| && headers == Inserted(done)
      invariant all == After(done, Parsed(buf[cursor..], count - i))
    {
      var found := DecodeNext(buf, cursor, count - i);
      if found == None {
        return None;
      }
      var (h, next) := found.value;
      AfterTwice(done, h, Parsed(buf[next..], count - i - 1));
      InsertedNext(done, h);
      headers := headers[h.key := h.value];
      done := done + [h];
      cursor := next;
    }
    AfterLast(done, buf[cursor..]);
    if cursor != |buf| {
      return None;
    }
    return Some(headers);
  }

  /** `decode_headers`. */
  method DecodeHeaders(buf: seq<Byte>) returns (r: Option<Headers>)
    ensures r == DecodedHeaders(buf)
  {
    if |buf| < 4 {
      return None;
    }
    var count := FromBe(buf);
    if count == 0 {
      return if |buf| == 4 then Some(None) else None;
    }
    if count > (|buf| - 4) / 8 {
      return None;
    }
    var headers := DecodeEach(buf, count);
    match headers {
      case None => return None;
      case Some(m) => return Some(Some(m));
    }
  }

  /** `decode`. */
  method Decode(buf: seq<Byte>) returns (r: Option<Frame>)
    ensures r == Decoded(buf)
  {
    if |buf| < 8 {
      return None;
    }
    var headersStart, payloadStart := SubjectEnd(buf), PayloadStart(buf);
    if |buf| < payloadStart {
      return None;
    }
    var subject := buf[8..headersStart];
    if !Utf8(subject) {
      return None;
    }
    var headers := DecodeHeaders(buf[headersStart..payloadStart]);
    match headers {
      case None => return None;
      case Some(h) => return Some(Frame(subject, h, buf[payloadStart..]));
    }
  }
}
