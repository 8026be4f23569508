/** The window of an output stream: what `boundOutput` keeps of a whole text, stated by what is kept (the longest run of
    whole lines within both limits, or the longest cut of one long line), and the loops that compute it. */
module OutputWindow {
  import opened Utf8

  datatype Retain = Head | Tail
  datatype Limits = Limits(maxBytes: nat, maxLines: nat, retain: Retain)
  datatype Slice = Slice(text: Text, bytes: nat, droppedBytes: int, droppedLines: int)

  // ---- Lines ----

  function Newlines(b: Bytes): nat {
    if b == [] then 0 else (if b[0] == NEWLINE then 1 else 0) + Newlines(b[1..])
  }

  predicate Terminated(b: Bytes) {
    b != [] && b[|b| - 1] == NEWLINE
  }

  /** Lines of `b`; a final unterminated line counts. */
  function Lines(b: Bytes): nat {
    if b == [] then 0 else Newlines(b) + if Terminated(b) then 0 else 1
  }

  lemma {:induction false} NewlinesConcat(a: Bytes, b: Bytes)
    ensures Newlines(a + b) == Newlines(a) + Newlines(b)
  {
    if a == [] {
      assert a + b == b;
    } else {
      NewlinesConcat(a[1..], b);
      assert (a + b)[1..] == a[1..] + b;
    }
  }

  lemma {:induction false} NewlinesPositive(b: Bytes)
    ensures Newlines(b) > 0 <==> NEWLINE in b
    ensures Newlines(b) <= |b|
  {
    if b != [] {
      NewlinesPositive(b[1..]);
      assert b == [b[0]] + b[1..];
    }
  }

  lemma LinesConcat(a: Bytes, b: Bytes)
    ensures Lines(a) <= Lines(a + b) && Lines(b) <= Lines(a + b)
    ensures Newlines(a) <= Newlines(a + b) && Newlines(b) <= Newlines(a + b)
  {
    NewlinesConcat(a, b);
    if b == [] {
      assert a + b == a;
    } else {
      assert (a + b)[|a + b| - 1] == b[|b| - 1];
      if Terminated(b) {
        NewlinesPositive(b);
      }
    }
  }

  lemma PrefixLines(b: Bytes, p: nat, q: nat)
    requires p <= q <= |b|
    ensures Lines(b[..p]) <= Lines(b[..q]) && Newlines(b[..p]) <= Newlines(b[..q])
  {
    assert b[..q] == b[..p] + b[p..q];
    LinesConcat(b[..p], b[p..q]);
  }

  lemma SuffixLines(b: Bytes, p: nat, q: nat)
    requires p <= q <= |b|
    ensures Lines(b[q..]) <= Lines(b[p..]) && Newlines(b[q..]) <= Newlines(b[p..])
  {
    assert b[p..] == b[p..q] + b[q..];
    LinesConcat(b[p..q], b[q..]);
  }

  // ---- What the window is ----

  /** Whether a cut at `p` leaves whole lines on both sides. */
  predicate LineBoundary(b: Bytes, p: nat)
    requires p <= |b|
  {
    p == 0 || p == |b| || b[p - 1] == NEWLINE
  }

  predicate Fits(b: Bytes, limits: Limits) {
    |b| <= limits.maxBytes && Lines(b) <= limits.maxLines
  }

  /** The longest prefix of whole lines within the limits, no longer than `p`. */
  function LongestHead(b: Bytes, limits: Limits, p: nat): (q: nat)
    requires p <= |b|
    ensures q <= p && LineBoundary(b, q) && Fits(b[..q], limits)
    ensures forall r :: q < r <= p && LineBoundary(b, r) ==> !Fits(b[..r], limits)
  {
    if p == 0 || (LineBoundary(b, p) && Fits(b[..p], limits)) then p else LongestHead(b, limits, p - 1)
  }

  /** The start of the longest suffix of whole lines within the limits, no earlier than `p`. */
  function LongestTail(b: Bytes, limits: Limits, p: nat): (q: nat)
    requires p <= |b|
    ensures p <= q <= |b| && LineBoundary(b, q) && Fits(b[q..], limits)
    ensures forall r :: p <= r < q && LineBoundary(b, r) ==> !Fits(b[r..], limits)
    decreases |b| - p
  {
    if p == |b| || (LineBoundary(b, p) && Fits(b[p..], limits)) then p else LongestTail(b, limits, p + 1)
  }

  /** Back to where a character starts. */
  function BoundaryBefore(b: Bytes, p: nat): (q: nat)
    requires p <= |b|
    ensures q <= p && Boundary(b, q) && forall r :: q < r <= p ==> !Boundary(b, r)
  {
    if Boundary(b, p) then p else BoundaryBefore(b, p - 1)
  }

  /** On to where a character starts. */
  function BoundaryAfter(b: Bytes, p: nat): (q: nat)
    requires p <= |b|
    ensures p <= q <= |b| && Boundary(b, q) && forall r :: p <= r < q ==> !Boundary(b, r)
    decreases |b| - p
  {
    if Boundary(b, p) then p else BoundaryAfter(b, p + 1)
  }

  function HeadEnd(b: Bytes, limits: Limits): (end: nat)
    ensures end <= |b|
  {
    if limits.maxLines == 0 || limits.maxBytes == 0 then 0
    else
      var end := LongestHead(b, limits, |b|);
      if end > 0 || |b| <= limits.maxBytes then end else BoundaryBefore(b, limits.maxBytes)
  }

  function TailStart(b: Bytes, limits: Limits): (start: nat)
    ensures start <= |b|
  {
    if limits.maxLines == 0 || limits.maxBytes == 0 then |b|
    else
      var start := LongestTail(b, limits, 0);
      if start < |b| || |b| <= limits.maxBytes then start else BoundaryAfter(b, |b| - limits.maxBytes)
  }

  function From(b: Bytes, limits: Limits): (from: nat)
    ensures from <= |b|
  {
    if limits.retain == Head then 0 else TailStart(b, limits)
  }

  function To(b: Bytes, limits: Limits): (to: nat)
    ensures From(b, limits) <= to <= |b|
  {
    if limits.retain == Head then HeadEnd(b, limits) else |b|
  }

  function Window(b: Bytes, limits: Limits): Bytes {
    b[From(b, limits)..To(b, limits)]
  }

  /** What `boundOutput` returns for a whole text. */
  function Bound(t: Text, limits: Limits): Slice {
    var b := Encode(t);
    var kept := Window(b, limits);
    Slice(Decode(kept), |kept|, |b| - |kept|, Lines(b) - Lines(kept))
  }

  // ---- Properties of the window ----

  /** The first line alone is too long. */
  predicate NoHeadFits(b: Bytes, limits: Limits) {
    forall r {:trigger LineBoundary(b, r)} :: 0 < r <= |b| && LineBoundary(b, r) ==> !Fits(b[..r], limits)
  }

  /** The last line alone is too long. */
  predicate NoTailFits(b: Bytes, limits: Limits) {
    forall r {:trigger LineBoundary(b, r)} :: 0 <= r < |b| && LineBoundary(b, r) ==> !Fits(b[r..], limits)
  }

  lemma {:induction false} FirstLine(b: Bytes, limits: Limits, p: nat)
    requires limits.maxLines > 0 && NoHeadFits(b, limits) && p <= |b| && p <= limits.maxBytes
    ensures NEWLINE !in b[..p] && Lines(b[..p]) <= 1
    decreases p
  {
    NewlinesPositive(b[..p]);
    if p > 0 {
      FirstLine(b, limits, p - 1);
      NewlinesPositive(b[..p - 1]);
      assert b[..p] == b[..p - 1] + [b[p - 1]];
      NewlinesConcat(b[..p - 1], [b[p - 1]]);
      assert !(LineBoundary(b, p) && Fits(b[..p], limits));
    }
  }

  lemma {:induction false} LastLine(b: Bytes, limits: Limits, p: nat)
    requires limits.maxLines > 0 && limits.maxBytes > 0 && NoTailFits(b, limits)
    requires p < |b| && |b| - p <= limits.maxBytes
    ensures NEWLINE !in b[p..|b| - 1] && Lines(b[p..]) == 1
    ensures !LineBoundary(b, p)
    decreases |b| - p
  {
    if p == |b| - 1 {
      assert b[p..] == [b[p]];
    } else {
      LastLine(b, limits, p + 1);
      assert b[p..] == [b[p]] + b[p + 1..];
      NewlinesConcat([b[p]], b[p + 1..]);
      assert b[p] != NEWLINE;
      assert b[p..|b| - 1] == [b[p]] + b[p + 1..|b| - 1];
    }
    assert !(LineBoundary(b, p) && Fits(b[p..], limits));
  }

  /** With room for a line, a text whose first line alone is too long has no line end within `maxBytes`. */
  lemma LongFirstLine(b: Bytes, limits: Limits, p: nat)
    requires limits.maxLines > 0 && LongestHead(b, limits, |b|) == 0
    requires p <= |b| && p <= limits.maxBytes
    ensures NEWLINE !in b[..p] && Lines(b[..p]) <= 1
  {
    FirstLine(b, limits, p);
  }

  /** With room for a line, a text whose last line alone is too long has no line start in its last `maxBytes` bytes. */
  lemma LongLastLine(b: Bytes, limits: Limits, p: nat)
    requires limits.maxLines > 0 && limits.maxBytes > 0 && LongestTail(b, limits, 0) == |b| && b != []
    requires p < |b| && |b| - p <= limits.maxBytes
    ensures NEWLINE !in b[p..|b| - 1] && Lines(b[p..]) == 1
    ensures !LineBoundary(b, p)
  {
    LastLine(b, limits, p);
  }

  lemma LineBoundaryIsBoundary(t: Text, p: nat)
    requires p <= |Encode(t)| && LineBoundary(Encode(t), p)
    ensures Boundary(Encode(t), p)
    decreases |t|
  {
    if 0 < p < |Encode(t)| {
      EncodeFirst(t);
      var n := |EncodeScalar(t[0])|;
      assert EncodeScalar(t[0])[0] == Encode(t)[0];
      assert forall i :: 0 <= i < n - 1 ==> EncodeScalar(t[0])[i] != NEWLINE;
      assert forall i :: 0 <= i < n ==> Encode(t)[i] == EncodeScalar(t[0])[i];
      assert p >= n;
      assert Encode(t)[p] == Encode(t[1..])[p - n];
      if p > n {
        assert Encode(t)[p - 1] == Encode(t[1..])[p - n - 1];
        LineBoundaryIsBoundary(t[1..], p - n);
      } else {
        assert !Continuation(EncodeScalar(t[1..][0])[0]);
        assert Encode(t[1..])[0] == EncodeScalar(t[1..][0])[0];
      }
    }
  }

  /** The window never splits a character. */
  lemma WindowOnBoundaries(t: Text, limits: Limits)
    ensures var b := Encode(t); Boundary(b, From(b, limits)) && Boundary(b, To(b, limits))
  {
    var b := Encode(t);
    LineBoundaryIsBoundary(t, LongestHead(b, limits, |b|));
    LineBoundaryIsBoundary(t, LongestTail(b, limits, 0));
  }

  /** So the kept text is an exact piece of the input, with the counts measured on it. */
  lemma BoundIsExact(t: Text, limits: Limits) returns (i: nat, j: nat)
    ensures i <= j <= |t| && Bound(t, limits).text == t[i..j]
    ensures limits.retain == Head ==> i == 0
    ensures limits.retain == Tail ==> Encode(t[j..]) == []
    ensures Encode(t[i..j]) == Window(Encode(t), limits)
  {
    var b := Encode(t);
    WindowOnBoundaries(t, limits);
    if limits.retain == Head {
      j := CutText(t, To(b, limits));
      i := 0;
      DecodeEncode(t[..j]);
      assert b[0..To(b, limits)] == b[..To(b, limits)];
      assert t[0..j] == t[..j];
    } else {
      i := CutText(t, From(b, limits));
      j := |t|;
      DecodeEncode(t[i..]);
      assert b[From(b, limits)..|b|] == b[From(b, limits)..];
      assert t[i..|t|] == t[i..];
    }
  }

  lemma WindowFits(b: Bytes, limits: Limits)
    ensures Fits(Window(b, limits), limits)
  {
    if limits.retain == Head {
      var end := HeadEnd(b, limits);
      assert b[0..end] == b[..end];
      if limits.maxLines > 0 && limits.maxBytes > 0 && LongestHead(b, limits, |b|) == 0 {
        LongFirstLine(b, limits, end);
      }
    } else {
      var start := TailStart(b, limits);
      assert b[start..|b|] == b[start..];
      if limits.maxLines > 0 && limits.maxBytes > 0 && start < |b| && LongestTail(b, limits, 0) == |b| {
        LongLastLine(b, limits, start);
      }
    }
  }

  lemma FittingWindow(b: Bytes, limits: Limits)
    requires Fits(b, limits)
    ensures Window(b, limits) == b
  {
    assert b[..|b|] == b && b[0..] == b;
    if b != [] {
      assert Lines(b) > 0 by { NewlinesPositive(b); }
    }
  }

  /** What fits is kept whole. */
  lemma FittingBound(t: Text, limits: Limits)
    requires Fits(Encode(t), limits)
    ensures Bound(t, limits) == Slice(t, |Encode(t)|, 0, 0)
  {
    FittingWindow(Encode(t), limits);
    DecodeEncode(t);
  }

  /** Bounding keeps both limits, and bounding what was kept drops nothing. */
  lemma BoundIsIdempotent(t: Text, limits: Limits)
    ensures var kept := Bound(t, limits);
            && kept.bytes <= limits.maxBytes
            && Lines(Encode(kept.text)) <= limits.maxLines
            && Bound(kept.text, limits) == Slice(kept.text, kept.bytes, 0, 0)
  {
    var i, j := BoundIsExact(t, limits);
    WindowFits(Encode(t), limits);
    FittingBound(t[i..j], limits);
  }

  /** The head window has every prefix of whole lines that fits. It ends inside a line only where the first line alone is
      too long, and then at the last character boundary within the limit. */
  lemma HeadIsLongest(b: Bytes, limits: Limits, q: nat)
    requires limits.maxLines > 0 && limits.maxBytes > 0 && HeadEnd(b, limits) < q <= |b|
    ensures LineBoundary(b, q) ==> !Fits(b[..q], limits)
    ensures !LineBoundary(b, HeadEnd(b, limits)) ==>
              && (forall r :: 0 < r <= |b| && LineBoundary(b, r) ==> !Fits(b[..r], limits))
              && Boundary(b, HeadEnd(b, limits)) && (Boundary(b, q) ==> q > limits.maxBytes)
  {
    if LongestHead(b, limits, |b|) == 0 && |b| <= limits.maxBytes {
      assert HeadEnd(b, limits) == 0;
    }
  }

  /** The tail window has every suffix of whole lines that fits. It starts inside a line only where the last line alone is
      too long, and then at the first character boundary within the limit. */
  lemma TailIsLongest(b: Bytes, limits: Limits, q: nat)
    requires limits.maxLines > 0 && limits.maxBytes > 0 && q < TailStart(b, limits)
    ensures LineBoundary(b, q) ==> !Fits(b[q..], limits)
    ensures !LineBoundary(b, TailStart(b, limits)) ==>
              && (forall r :: 0 <= r < |b| && LineBoundary(b, r) ==> !Fits(b[r..], limits))
              && Boundary(b, TailStart(b, limits)) && (Boundary(b, q) ==> |b| - q > limits.maxBytes)
  {
    if LongestTail(b, limits, 0) == |b| && |b| <= limits.maxBytes {
      assert TailStart(b, limits) == |b|;
    }
  }

  // ---- What decides the window ----

  /** The longest tail starts here. */
  predicate TailIsAt(b: Bytes, limits: Limits, q: nat) {
    && q <= |b| && LineBoundary(b, q) && Fits(b[q..], limits)
    && forall r :: 0 <= r < q && LineBoundary(b, r) ==> !Fits(b[r..], limits)
  }

  lemma LongestTailIs(b: Bytes, limits: Limits, q: nat)
    ensures TailIsAt(b, limits, q) <==> LongestTail(b, limits, 0) == q
  {
    var r := LongestTail(b, limits, 0);
    assert LineBoundary(b, r) && Fits(b[r..], limits);
  }

  /** Nothing before the start of the tail of `c` fits behind it either. */
  lemma NoEarlierTail(p: Bytes, c: Bytes, limits: Limits, q: nat, r: nat)
    requires !Fits(c, limits) && TailIsAt(c, limits, q) && r < |p| + q && LineBoundary(p + c, r)
    ensures !Fits((p + c)[r..], limits)
  {
    var b := p + c;
    if r <= |p| {
      assert b[|p|..] == c;
      SuffixLines(b, r, |p|);
    } else {
      assert b[r..] == c[r - |p|..];
      assert LineBoundary(c, r - |p|);
    }
  }

  lemma TailIsStill(p: Bytes, c: Bytes, limits: Limits, q: nat)
    requires !Fits(c, limits) && TailIsAt(c, limits, q)
    ensures TailIsAt(p + c, limits, |p| + q)
  {
    var b := p + c;
    assert c[0..] == c;
    assert b[|p| + q..] == c[q..];
    forall r | 0 <= r < |p| + q && LineBoundary(b, r) ensures !Fits(b[r..], limits) {
      NoEarlierTail(p, c, limits, q, r);
    }
  }

  lemma SuffixLongestTail(p: Bytes, c: Bytes, limits: Limits)
    requires !Fits(c, limits)
    ensures LongestTail(p + c, limits, 0) == |p| + LongestTail(c, limits, 0)
  {
    var q := LongestTail(c, limits, 0);
    LongestTailIs(c, limits, q);
    TailIsStill(p, c, limits, q);
    LongestTailIs(p + c, limits, |p| + q);
  }

  lemma SuffixCut(p: Bytes, c: Bytes, k: nat)
    requires 0 < k <= |c|
    ensures BoundaryAfter(p + c, |p| + k) == |p| + BoundaryAfter(c, k)
  {
    var b := p + c;
    assert forall i :: k <= i <= |c| ==> Boundary(c, i) == Boundary(b, |p| + i);
    var u, v := BoundaryAfter(c, k), BoundaryAfter(b, |p| + k);
    assert Boundary(b, |p| + u) && Boundary(c, v - |p|);
  }

  /** A suffix that does not itself fit decides the tail window, whatever came before it. */
  lemma SuffixDecides(p: Bytes, c: Bytes, limits: Limits)
    requires limits.retain == Tail && !Fits(c, limits)
    ensures Window(p + c, limits) == Window(c, limits)
  {
    if limits.maxLines > 0 && limits.maxBytes > 0 {
      SuffixLongestTail(p, c, limits);
      if LongestTail(c, limits, 0) == |c| {
        if |c| <= limits.maxBytes {
          LongLastLine(c, limits, 0);
          assert false;
        }
        SuffixCut(p, c, |c| - limits.maxBytes);
      }
    }
    var start := TailStart(c, limits);
    assert TailStart(p + c, limits) == |p| + start;
    assert (p + c)[|p| + start..|p + c|] == c[start..|c|];
  }

  predicate FullHead(s: Bytes, limits: Limits) {
    |s| > limits.maxBytes || Newlines(s) >= limits.maxLines
  }

  /** No longer prefix of whole lines fits once `s` is longer than the window or has as many newlines as it has lines. */
  lemma NoLongerHead(s: Bytes, x: Bytes, limits: Limits, r: nat)
    requires FullHead(s, limits) && |s| < r <= |s + x|
    ensures !Fits((s + x)[..r], limits)
  {
    var y := (s + x)[|s|..r];
    assert (s + x)[..r] == s + y && y[|y| - 1] == (s + x)[r - 1];
    NewlinesConcat(s, y);
    NewlinesPositive(y);
  }

  lemma PrefixLongestHead(s: Bytes, x: Bytes, limits: Limits)
    requires FullHead(s, limits)
    ensures LongestHead(s + x, limits, |s + x|) == LongestHead(s, limits, |s|)
  {
    var c := s + x;
    var q, r := LongestHead(s, limits, |s|), LongestHead(c, limits, |c|);
    if r > |s| {
      NoLongerHead(s, x, limits, r);
      assert false;
    }
    assert c[..r] == s[..r] && c[..q] == s[..q];
    assert LineBoundary(c, q) by {
      if 0 < q == |s| {
        assert s[..q] == s;
      }
    }
    assert LineBoundary(s, r);
  }

  lemma PrefixCut(s: Bytes, x: Bytes, m: nat)
    requires m < |s|
    ensures BoundaryBefore(s + x, m) == BoundaryBefore(s, m)
  {
    var c := s + x;
    assert forall i :: 0 <= i <= m ==> Boundary(s, i) == Boundary(c, i);
    assert Boundary(s, BoundaryBefore(c, m)) && Boundary(c, BoundaryBefore(s, m));
  }

  /** A prefix longer than the window, or with as many newlines as it has lines, decides the head window. */
  lemma PrefixDecides(s: Bytes, x: Bytes, limits: Limits)
    requires limits.retain == Head && FullHead(s, limits)
    ensures Window(s + x, limits) == Window(s, limits)
  {
    if limits.maxLines > 0 && limits.maxBytes > 0 {
      PrefixLongestHead(s, x, limits);
      if LongestHead(s, limits, |s|) == 0 {
        if |s| <= limits.maxBytes {
          LongFirstLine(s, limits, |s|);
          assert s[..|s|] == s;
          NewlinesPositive(s);
          assert false;
        }
        PrefixCut(s, x, limits.maxBytes);
      }
    }
    assert HeadEnd(s + x, limits) == HeadEnd(s, limits);
    assert (s + x)[0..HeadEnd(s, limits)] == s[0..HeadEnd(s, limits)];
  }
}
