/** What the UTF-8 check of the framing accepts: the encodings of Unicode scalar values. */
module WireText {
  import opened Wire

  predicate Scalar(c: nat) {
    c < 0xD800 || 0xE000 <= c < 0x11_0000
  }

  /** The bytes of one scalar value (section 3 of RFC 3629). */
  function Encoded(c: nat): seq<Byte>
    requires Scalar(c)
  {
    if c < 0x80 then [c]
    else if c < 0x800 then [0xC0 + c / 0x40, 0x80 + c % 0x40]
    else if c < 0x1_0000 then [0xE0 + c / 0x40 / 0x40, 0x80 + c / 0x40 % 0x40, 0x80 + c % 0x40]
    else [0xF0 + c / 0x40 / 0x40 / 0x40, 0x80 + c / 0x40 / 0x40 % 0x40, 0x80 + c / 0x40 % 0x40, 0x80 + c % 0x40]
  }

  ghost predicate AllScalar(cs: seq<nat>) {
    forall i :: 0 <= i < |cs| ==> Scalar(cs[i])
  }

  ghost function EncodedAll(cs: seq<nat>): seq<Byte>
    requires AllScalar(cs)
  {
    if cs == [] then [] else Encoded(cs[0]) + EncodedAll(cs[1..])
  }

  // ---------- one scalar value ----------

  lemma OnlyFirstBytesCount(b: seq<Byte>, rest: seq<Byte>)
    requires ScalarLength(b) == |b| > 0
    ensures ScalarLength(b + rest) == |b|
  {
    assert forall i :: 0 <= i < |b| ==> (b + rest)[i] == b[i];
  }

  lemma EncodedIsScalar(c: nat)
    requires Scalar(c)
    ensures ScalarLength(Encoded(c)) == |Encoded(c)| > 0
  {
  }

  /** The scalar value whose bytes stand at the start of `b`. */
  lemma ScalarAt(b: seq<Byte>) returns (c: nat)
    requires ScalarLength(b) > 0
    ensures Scalar(c) && Encoded(c) == b[..ScalarLength(b)]
  {
    var n, first: nat := ScalarLength(b), b[0];
    if n == 1 {
      c := first;
    } else if n == 2 {
      c := TwoBytes(b[..2]);
    } else if n == 3 {
      c := ThreeBytes(b[..3]);
    } else {
      c := FourBytes(b[..4]);
    }
  }

  lemma SixBits(high: nat, low: nat)
    requires low < 0x40
    ensures (high * 0x40 + low) / 0x40 == high && (high * 0x40 + low) % 0x40 == low
  {
  }

  lemma TwoBytes(b: seq<Byte>) returns (c: nat)
    requires |b| == 2 && ScalarLength(b) == 2
    ensures Scalar(c) && Encoded(c) == b
  {
    var high: nat, low: nat := b[0] - 0xC0, b[1] - 0x80;
    c := high * 0x40 + low;
    SixBits(high, low);
  }

  lemma ThreeBytes(b: seq<Byte>) returns (c: nat)
    requires |b| == 3 && ScalarLength(b) == 3
    ensures Scalar(c) && Encoded(c) == b
  {
    var high: nat, middle: nat, low: nat := b[0] - 0xE0, b[1] - 0x80, b[2] - 0x80;
    var upper := high * 0x40 + middle;
    c := upper * 0x40 + low;
    SixBits(upper, low);
    SixBits(high, middle);
  }

  lemma FourBytes(b: seq<Byte>) returns (c: nat)
    requires |b| == 4 && ScalarLength(b) == 4
    ensures Scalar(c) && Encoded(c) == b
  {
    var first: nat, second: nat, third: nat, fourth: nat := b[0] - 0xF0, b[1] - 0x80, b[2] - 0x80, b[3] - 0x80;
    var top := first * 0x40 + second;
    var upper := top * 0x40 + third;
    c := upper * 0x40 + fourth;
    SixBits(upper, fourth);
    SixBits(top, third);
    SixBits(first, second);
  }

  // ---------- whole strings ----------

  ghost predicate EncodesScalars(b: seq<Byte>) {
    exists cs :: AllScalar(cs) && b == EncodedAll(cs)
  }

  lemma {:induction false} EncodedIsUtf8(cs: seq<nat>)
    requires AllScalar(cs)
    ensures Utf8(EncodedAll(cs))
  {
    if cs != [] {
      var rest := EncodedAll(cs[1..]);
      EncodedIsUtf8(cs[1..]);
      EncodedIsScalar(cs[0]);
      OnlyFirstBytesCount(Encoded(cs[0]), rest);
      assert (Encoded(cs[0]) + rest)[|Encoded(cs[0])|..] == rest;
    }
  }

  lemma {:induction false} ScalarsOf(b: seq<Byte>) returns (cs: seq<nat>)
    requires Utf8(b)
    ensures AllScalar(cs) && b == EncodedAll(cs)
    decreases |b|
  {
    if b == [] {
      cs := [];
    } else {
      var n := ScalarLength(b);
      var c := ScalarAt(b);
      var rest := ScalarsOf(b[n..]);
      cs := [c] + rest;
      assert cs[1..] == rest && b == b[..n] + b[n..];
    }
  }

  /** A byte string passes the check exactly when it is the encoding of some scalar values. */
  lemma {:induction false} Utf8IsExact(b: seq<Byte>)
    ensures Utf8(b) <==> EncodesScalars(b)
  {
    if Utf8(b) {
      var cs := ScalarsOf(b);
    }
    if EncodesScalars(b) {
      var cs :| AllScalar(cs) && b == EncodedAll(cs);
      EncodedIsUtf8(cs);
    }
  }
}
