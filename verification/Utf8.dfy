/** Text as Unicode scalar values, its UTF-8 form (section 3 of RFC 3629), and the stream decoder that
    `new TextDecoder("utf-8", { ignoreBOM: true })` runs: malformed input becomes U+FFFD. */
module Utf8 {

  type Byte = b: int | 0 <= b < 0x100
  type Scalar = c: int | 0 <= c < 0x11_0000 && !(0xD800 <= c < 0xE000)
  type Bytes = seq<Byte>
  type Text = seq<Scalar>

  const NEWLINE: Byte := 0x0A
  const REPLACEMENT: Scalar := 0xFFFD
  const BYTE_ORDER_MARK: Scalar := 0xFEFF

  predicate Continuation(b: Byte) {
    0x80 <= b < 0xC0
  }

  // ---- Encoding ----

  function EncodeScalar(c: Scalar): (r: Bytes)
    ensures 1 <= |r| <= 4
    ensures !Continuation(r[0])
    ensures forall i :: 1 <= i < |r| ==> Continuation(r[i])
    ensures forall i :: 0 <= i < |r| ==> (r[i] == NEWLINE <==> c == NEWLINE)
  {
    if c < 0x80 then [c]
    else if c < 0x800 then [0xC0 + c / 0x40, 0x80 + c % 0x40]
    else if c < 0x1_0000 then [0xE0 + c / 0x1000, 0x80 + c / 0x40 % 0x40, 0x80 + c % 0x40]
    else [0xF0 + c / 0x4_0000, 0x80 + c / 0x1000 % 0x40, 0x80 + c / 0x40 % 0x40, 0x80 + c % 0x40]
  }

  function Encode(t: Text): Bytes {
    if t == [] then [] else EncodeScalar(t[0]) + Encode(t[1..])
  }

  lemma Associate<T>(a: seq<T>, b: seq<T>, c: seq<T>)
    ensures a + (b + c) == a + b + c
  {}

  lemma TailOfConcat<T>(a: seq<T>, b: seq<T>)
    requires a != []
    ensures a + b != [] && (a + b)[0] == a[0] && (a + b)[1..] == a[1..] + b
  {}

  lemma {:induction false} EncodeConcat(a: Text, b: Text)
    ensures Encode(a + b) == Encode(a) + Encode(b)
  {
    if a == [] {
      assert a + b == b;
    } else {
      TailOfConcat(a, b);
      EncodeConcat(a[1..], b);
      Associate(EncodeScalar(a[0]), Encode(a[1..]), Encode(b));
    }
  }

  // ---- Decoding ----

  /** What the decoder holds between chunks: nothing, or the bits of a character still missing `missing` bytes, the
      next of which must lie in `lower..upper`. */
  datatype Pending = Ready | Partial(point: nat, missing: int, lower: int, upper: int)

  function Weight(missing: int): nat {
    if missing == 1 then 1 else if missing == 2 then 0x40 else 0x1000
  }

  /** Every way of completing the held character yields a scalar value. */
  predicate Completes(d: Pending) {
    d.Partial? ==>
      && 1 <= d.missing <= 3 && 0x80 <= d.lower <= d.upper <= 0xBF
      && var low := (d.point * 0x40 + d.lower - 0x80) * Weight(d.missing);
         var high := (d.point * 0x40 + d.upper - 0x80) * Weight(d.missing) + Weight(d.missing) - 1;
         high < 0x11_0000 && (high < 0xD800 || 0xE000 <= low)
  }

  type Decoder = d: Pending | Completes(d) witness Ready

  /** A byte that starts a character. */
  function Lead(b: Byte): (Decoder, Text) {
    if b < 0x80 then (Ready, [b])
    else if 0xC2 <= b < 0xE0 then (Partial(b - 0xC0, 1, 0x80, 0xBF), [])
    else if 0xE0 <= b < 0xF0 then
      (Partial(b - 0xE0, 2, if b == 0xE0 then 0xA0 else 0x80, if b == 0xED then 0x9F else 0xBF), [])
    else if 0xF0 <= b < 0xF5 then
      (Partial(b - 0xF0, 3, if b == 0xF0 then 0x90 else 0x80, if b == 0xF4 then 0x8F else 0xBF), [])
    else (Ready, [REPLACEMENT])
  }

  function Feed1(d: Decoder, b: Byte): (Decoder, Text) {
    if d.Ready? then Lead(b)
    else if !(d.lower <= b <= d.upper) then
      // The held bytes are malformed; this byte starts over.
      var (next, text) := Lead(b);
      (next, [REPLACEMENT] + text)
    else if d.missing == 1 then (Ready, [d.point * 0x40 + b - 0x80])
    else (Partial(d.point * 0x40 + b - 0x80, d.missing - 1, 0x80, 0xBF), [])
  }

  /** `decoder.decode(bytes, { stream: true })`. */
  function Feed(d: Decoder, bytes: Bytes): (Decoder, Text)
    decreases bytes
  {
    if bytes == [] then (d, [])
    else
      var (next, text) := Feed1(d, bytes[0]);
      var (last, rest) := Feed(next, bytes[1..]);
      (last, text + rest)
  }

  /** `decoder.decode()`: an unfinished character becomes U+FFFD, and the decoder starts over. */
  function Flush(d: Decoder): Text {
    if d.Ready? then [] else [REPLACEMENT]
  }

  /** `decoder.decode(bytes)`. */
  function Decode(bytes: Bytes): Text {
    var (d, text) := Feed(Ready, bytes);
    text + Flush(d)
  }

  /** Decoding does not depend on how the bytes are cut into chunks. */
  lemma {:induction false} FeedConcat(d: Decoder, a: Bytes, b: Bytes)
    ensures Feed(d, a + b) == var (mid, ta) := Feed(d, a); var (last, tb) := Feed(mid, b); (last, ta + tb)
    decreases a
  {
    if a == [] {
      assert a + b == b;
      assert [] + Feed(d, b).1 == Feed(d, b).1;
    } else {
      var (next, text) := Feed1(d, a[0]);
      TailOfConcat(a, b);
      FeedConcat(next, a[1..], b);
      var (mid, ta) := Feed(next, a[1..]);
      Associate(text, ta, Feed(mid, b).1);
    }
  }

  /** A byte that completes no character yet. */
  lemma FeedOne(d: Decoder, b: Bytes)
    requires b != [] && Feed1(d, b[0]).1 == []
    ensures Feed(d, b) == Feed(Feed1(d, b[0]).0, b[1..])
  {
    var rest := Feed(Feed1(d, b[0]).0, b[1..]);
    assert [] + rest.1 == rest.1;
  }

  lemma FeedLast(d: Decoder, b: Byte)
    ensures Feed(d, [b]) == Feed1(d, b)
  {
    var (next, text) := Feed1(d, b);
    assert Feed(next, []) == (next, []);
    assert text + [] == text;
  }

  lemma FeedScalar2(c: Scalar)
    requires 0x80 <= c < 0x800
    ensures Feed(Ready, EncodeScalar(c)) == (Ready, [c])
  {
    var e := EncodeScalar(c);
    FeedOne(Ready, e);
    assert e[1..] == [e[1]];
    FeedLast(Partial(c / 0x40, 1, 0x80, 0xBF), e[1]);
  }

  lemma FeedScalar3(c: Scalar)
    requires 0x800 <= c < 0x1_0000
    ensures Feed(Ready, EncodeScalar(c)) == (Ready, [c])
  {
    var e := EncodeScalar(c);
    assert c / 0x40 == c / 0x1000 * 0x40 + c / 0x40 % 0x40;
    FeedOne(Ready, e);
    FeedOne(Feed1(Ready, e[0]).0, e[1..]);
    assert e[1..][1..] == [e[2]];
    FeedLast(Partial(c / 0x40, 1, 0x80, 0xBF), e[2]);
  }

  lemma Sextets(c: nat)
    ensures c / 0x1000 == c / 0x4_0000 * 0x40 + c / 0x1000 % 0x40
    ensures c / 0x40 == c / 0x1000 * 0x40 + c / 0x40 % 0x40
  {}

  lemma FeedScalar4(c: Scalar)
    requires 0x1_0000 <= c
    ensures Feed(Ready, EncodeScalar(c)) == (Ready, [c])
  {
    var e := EncodeScalar(c);
    Sextets(c);
    FeedOne(Ready, e);
    FeedOne(Feed1(Ready, e[0]).0, e[1..]);
    assert e[1..][1..] == e[2..];
    FeedOne(Partial(c / 0x1000, 2, 0x80, 0xBF), e[2..]);
    assert e[2..][1..] == [e[3]];
    FeedLast(Partial(c / 0x40, 1, 0x80, 0xBF), e[3]);
  }

  lemma FeedScalar(c: Scalar)
    ensures Feed(Ready, EncodeScalar(c)) == (Ready, [c])
  {
    if c < 0x80 {
      FeedLast(Ready, EncodeScalar(c)[0]);
    } else if c < 0x800 {
      FeedScalar2(c);
    } else if c < 0x1_0000 {
      FeedScalar3(c);
    } else {
      FeedScalar4(c);
    }
  }

  lemma {:induction false} FeedEncode(t: Text)
    ensures Feed(Ready, Encode(t)) == (Ready, t)
  {
    if t != [] {
      FeedScalar(t[0]);
      FeedConcat(Ready, EncodeScalar(t[0]), Encode(t[1..]));
      FeedEncode(t[1..]);
      assert [t[0]] + t[1..] == t;
    }
  }

  /** Decoding inverts encoding. */
  lemma DecodeEncode(t: Text)
    ensures Decode(Encode(t)) == t
  {
    FeedEncode(t);
  }

  // ---- Character boundaries ----

  /** Whether `p` lies between two characters of `b`: at either end, or before a byte that starts one. */
  predicate Boundary(b: Bytes, p: nat)
    requires p <= |b|
  {
    p == 0 || p == |b| || !Continuation(b[p])
  }

  lemma EncodeFirst(t: Text)
    requires t != []
    ensures var n := |EncodeScalar(t[0])|;
            1 <= n <= |Encode(t)| && Encode(t)[..n] == EncodeScalar(t[0]) && Encode(t)[n..] == Encode(t[1..])
            && forall p :: 0 < p < n ==> Continuation(Encode(t)[p])
  {}

  /** A cut of encoded text at a boundary is a cut of the text. */
  lemma {:induction false} CutText(t: Text, p: nat) returns (k: nat)
    requires p <= |Encode(t)| && Boundary(Encode(t), p)
    ensures k <= |t| && Encode(t[..k]) == Encode(t)[..p] && Encode(t[k..]) == Encode(t)[p..]
  {
    if p == 0 {
      k := 0;
      assert t[0..] == t;
    } else {
      BoundaryBehind(t, p);
      var n := |EncodeScalar(t[0])|;
      var j := CutText(t[1..], p - n);
      k := j + 1;
      CutHead(t, j);
      assert t[k..] == t[1..][j..];
      SplitBehind(EncodeScalar(t[0]), Encode(t[1..]), p);
    }
  }

  /** A later boundary lies behind the first character, or at its end. */
  lemma BoundaryBehind(t: Text, p: nat)
    requires 0 < p <= |Encode(t)| && Boundary(Encode(t), p)
    ensures t != [] && Encode(t) == EncodeScalar(t[0]) + Encode(t[1..])
    ensures p >= |EncodeScalar(t[0])| && Boundary(Encode(t[1..]), p - |EncodeScalar(t[0])|)
  {
    BehindFirst(EncodeScalar(t[0]), Encode(t[1..]), p);
  }

  lemma BehindFirst(first: Bytes, rest: Bytes, p: nat)
    requires first != [] && (forall i :: 1 <= i < |first| ==> Continuation(first[i]))
    requires 0 < p <= |first + rest| && Boundary(first + rest, p)
    ensures p >= |first| && Boundary(rest, p - |first|)
  {
    if p < |first| {
      assert false;
    } else if p < |first + rest| {
      assert (first + rest)[p] == rest[p - |first|];
    }
  }

  lemma SplitBehind(a: Bytes, b: Bytes, p: nat)
    requires |a| <= p <= |a| + |b|
    ensures (a + b)[..p] == a + b[..p - |a|] && (a + b)[p..] == b[p - |a|..]
  {}

  lemma CutHead(t: Text, j: nat)
    requires t != [] && j <= |t[1..]|
    ensures Encode(t[..j + 1]) == EncodeScalar(t[0]) + Encode(t[1..][..j])
  {
    assert t[..j + 1][1..] == t[1..][..j];
  }

  /** So decoding the bytes on either side of a boundary gives exactly the text on that side. */
  lemma DecodeCut(t: Text, from: nat, to: nat) returns (i: nat, j: nat)
    requires from <= to <= |Encode(t)| && Boundary(Encode(t), from) && Boundary(Encode(t), to)
    ensures i <= j <= |t| && Decode(Encode(t)[from..to]) == t[i..j] && Encode(t[i..j]) == Encode(t)[from..to]
  {
    j := CutText(t, to);
    var head := Encode(t)[..to];
    i := CutText(t[..j], from);
    assert t[..j][i..] == t[i..j];
    assert head[from..] == Encode(t)[from..to];
    DecodeEncode(t[i..j]);
  }
}
