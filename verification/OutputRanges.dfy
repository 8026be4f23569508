/** The loops of `boundOutput` and `tailMargin`, proved to compute the window that OutputWindow states. */
module OutputRanges {
  import opened Utf8
  import opened OutputWindow

  // ---- Byte searches ----

  /** `bytes.indexOf(NEWLINE, from)`. */
  function IndexOf(b: Bytes, from: nat): (r: int)
    ensures r == -1 || from <= r < |b|
    ensures r == -1 ==> forall i :: from <= i < |b| ==> b[i] != NEWLINE
    ensures r != -1 ==> b[r] == NEWLINE && forall i :: from <= i < r ==> b[i] != NEWLINE
    decreases |b| - from
  {
    if from >= |b| then -1 else if b[from] == NEWLINE then from else IndexOf(b, from + 1)
  }

  /** `bytes.lastIndexOf(NEWLINE, from)` for a starting index that is not negative. */
  function LastIndexOf(b: Bytes, from: nat): (r: int)
    ensures r == -1 || (0 <= r < |b| && r <= from)
    ensures r == -1 ==> forall i :: 0 <= i <= from && i < |b| ==> b[i] != NEWLINE
    ensures r != -1 ==> b[r] == NEWLINE && forall i :: r < i <= from && i < |b| ==> b[i] != NEWLINE
  {
    if from < |b| && b[from] == NEWLINE then from else if from == 0 then -1 else LastIndexOf(b, from - 1)
  }

  lemma NoNewlines(b: Bytes)
    requires forall i :: 0 <= i < |b| ==> b[i] != NEWLINE
    ensures Newlines(b) == 0
  {
    NewlinesPositive(b);
  }

  /** One newline at `index`, and none in between: counting from the front. */
  lemma CountOneMore(b: Bytes, from: nat, index: nat)
    requires from <= index < |b| && b[index] == NEWLINE && forall i :: from <= i < index ==> b[i] != NEWLINE
    ensures Newlines(b[..index + 1]) == Newlines(b[..from]) + 1
  {
    assert b[..index + 1] == b[..from] + (b[from..index] + [NEWLINE]);
    NewlinesConcat(b[..from], b[from..index] + [NEWLINE]);
    NewlinesConcat(b[from..index], [NEWLINE]);
    NoNewlines(b[from..index]);
  }

  /** One newline at `index`, and none in between: counting from the back. */
  lemma CountOneMoreBack(b: Bytes, index: nat, to: nat)
    requires index < to <= |b| && b[index] == NEWLINE && forall i :: index < i < to ==> b[i] != NEWLINE
    ensures Newlines(b[index..]) == 1 + Newlines(b[to..])
  {
    assert b[index..] == [NEWLINE] + b[index + 1..to] + b[to..];
    NewlinesConcat([NEWLINE] + b[index + 1..to], b[to..]);
    NewlinesConcat([NEWLINE], b[index + 1..to]);
    NoNewlines(b[index + 1..to]);
  }

  lemma CountNone(b: Bytes, from: nat, to: nat)
    requires from <= to <= |b| && forall i :: from <= i < to ==> b[i] != NEWLINE
    ensures Newlines(b[..to]) == Newlines(b[..from]) && Newlines(b[from..]) == Newlines(b[to..])
  {
    assert b[..to] == b[..from] + b[from..to] && b[from..] == b[from..to] + b[to..];
    NewlinesConcat(b[..from], b[from..to]);
    NewlinesConcat(b[from..to], b[to..]);
    NoNewlines(b[from..to]);
  }

  method CharacterEnd(b: Bytes, index: nat) returns (end: nat)
    requires index <= |b|
    ensures end == BoundaryBefore(b, index)
  {
    end := index;
    while end > 0 && end < |b| && Continuation(b[end])
      invariant end <= index && BoundaryBefore(b, end) == BoundaryBefore(b, index)
    {
      end := end - 1;
    }
  }

  method CharacterStart(b: Bytes, index: nat) returns (start: nat)
    requires 0 < index <= |b|
    ensures start == BoundaryAfter(b, index)
  {
    start := index;
    while start < |b| && Continuation(b[start])
      invariant index <= start <= |b| && BoundaryAfter(b, start) == BoundaryAfter(b, index)
    {
      start := start + 1;
    }
  }

  method LineCount(b: Bytes) returns (count: nat)
    ensures count == Lines(b)
  {
    if |b| == 0 {
      return 0;
    }
    var newlines := 0;
    var index := IndexOf(b, 0);
    ghost var from := 0;
    while index != -1
      invariant 0 <= from <= |b| && newlines == Newlines(b[..from]) && index == IndexOf(b, from)
      decreases |b| - from
    {
      newlines := newlines + 1;
      CountOneMore(b, from, index);
      from := index + 1;
      index := IndexOf(b, index + 1);
    }
    CountNone(b, from, |b|);
    assert b[..|b|] == b;
    return newlines + if b[|b| - 1] == NEWLINE then 0 else 1;
  }

  // ---- The head window ----

  /** `end` is where line `maxLines` ends, or the end of the text if there is no such line. */
  predicate LinesEnd(b: Bytes, limits: Limits, end: nat)
    requires end <= |b|
  {
    && LineBoundary(b, end)
    && Lines(b[..end]) <= limits.maxLines
    && (end < |b| ==> Newlines(b[..end]) == limits.maxLines)
  }

  lemma NoLineBoundaryAfter(b: Bytes, limits: Limits, end: nat, r: nat)
    requires end < r <= |b| && LinesEnd(b, limits, end)
    ensures Lines(b[..r]) > limits.maxLines
  {
    var y := b[end..r];
    assert b[..r] == b[..end] + y && y[|y| - 1] == b[r - 1];
    NewlinesConcat(b[..end], y);
    NewlinesPositive(y);
  }

  lemma HeadEndAt(b: Bytes, limits: Limits, end: nat, cut: int)
    requires limits.maxLines > 0 && limits.maxBytes > 0 && end <= |b| && LinesEnd(b, limits, end)
    requires end > limits.maxBytes ==> cut == LastIndexOf(b, limits.maxBytes - 1)
    ensures HeadEnd(b, limits) ==
            if end <= limits.maxBytes then end
            else if cut == -1 then BoundaryBefore(b, limits.maxBytes) else cut + 1
  {
    var q := LongestHead(b, limits, |b|);
    if q > end {
      NoLineBoundaryAfter(b, limits, end, q);
      assert false;
    }
    if end <= limits.maxBytes {
      assert Fits(b[..end], limits);
    } else if cut != -1 {
      PrefixLines(b, cut + 1, end);
      assert LineBoundary(b, cut + 1) && Fits(b[..cut + 1], limits);
    }
  }

  method HeadRange(b: Bytes, limits: Limits) returns (from: nat, to: nat)
    ensures from == 0 && to == HeadEnd(b, limits)
  {
    if limits.maxLines == 0 || limits.maxBytes == 0 {
      return 0, 0;
    }
    var end, lines := |b|, 0;
    var index := IndexOf(b, 0);
    ghost var next := 0;
    while index != -1
      invariant 0 <= next <= |b| && lines == Newlines(b[..next]) < limits.maxLines && index == IndexOf(b, next)
      invariant end == |b|
      decreases |b| - next
    {
      lines := lines + 1;
      CountOneMore(b, next, index);
      next := index + 1;
      if lines == limits.maxLines {
        end := index + 1;
        break;
      }
      index := IndexOf(b, index + 1);
    }
    if index == -1 {
      CountNone(b, next, |b|);
    }
    assert LinesEnd(b, limits, end);
    ghost var cut := LastIndexOf(b, limits.maxBytes - 1);
    HeadEndAt(b, limits, end, cut);
    if end > limits.maxBytes {
      var newline := LastIndexOf(b, limits.maxBytes - 1);
      if newline == -1 {
        end := CharacterEnd(b, limits.maxBytes);
      } else {
        end := newline + 1;
      }
    }
    return 0, end;
  }

  // ---- The tail window ----

  /** `start` is where the last `maxLines` lines start, or 0 if there are no more lines than that. */
  predicate LinesStart(b: Bytes, limits: Limits, start: nat)
    requires start <= |b|
  {
    && LineBoundary(b, start)
    && Lines(b[start..]) <= limits.maxLines
    && (start > 0 ==> start < |b| && b[start - 1] == NEWLINE && Lines(b[start..]) == limits.maxLines)
  }

  lemma NoLineBoundaryBefore(b: Bytes, limits: Limits, r: nat, start: nat)
    requires r < start <= |b| && LinesStart(b, limits, start)
    ensures Lines(b[r..]) > limits.maxLines
  {
    SuffixLines(b, r, start - 1);
    CountOneMoreBack(b, start - 1, start);
    assert Terminated(b[start - 1..]) == Terminated(b[start..]);
  }

  lemma TailStartAt(b: Bytes, limits: Limits, start: nat, from: int, next: int)
    requires limits.maxLines > 0 && limits.maxBytes > 0 && start <= |b| && LinesStart(b, limits, start)
    requires |b| - start > limits.maxBytes ==> from == |b| - limits.maxBytes && next == IndexOf(b, from - 1)
    ensures TailStart(b, limits) ==
            if |b| - start <= limits.maxBytes then start
            else if next != -1 && next + 1 < |b| then next + 1 else BoundaryAfter(b, from)
  {
    var q := LongestTail(b, limits, 0);
    if q < start {
      NoLineBoundaryBefore(b, limits, q, start);
      assert false;
    }
    if |b| - start <= limits.maxBytes {
      assert Fits(b[start..], limits);
    } else {
      assert q >= from;
      if next != -1 && next + 1 < |b| {
        SuffixLines(b, start, next + 1);
        assert LineBoundary(b, next + 1) && Fits(b[next + 1..], limits);
        assert q == next + 1;
      } else {
        assert q == |b|;
      }
    }
  }

  method LastLines(b: Bytes, limits: Limits) returns (start: nat)
    requires limits.maxLines > 0
    ensures start <= |b| && LinesStart(b, limits, start)
  {
    // A newline at the very end belongs to the last line.
    var last := if |b| > 0 && b[|b| - 1] == NEWLINE then |b| - 2 else |b| - 1;
    if last < 0 {
      assert b[0..] == b;
      LinesOfLast(b);
      return 0;
    }
    start := LinesBack(b, limits, last);
  }

  /** The search for newlines, back from the last line's own. */
  method LinesBack(b: Bytes, limits: Limits, last: nat) returns (start: nat)
    requires limits.maxLines > 0 && b != [] && last == (if Terminated(b) then |b| - 2 else |b| - 1)
    ensures start <= |b| && LinesStart(b, limits, start)
  {
    start := 0;
    LinesOfLast(b);
    var lines := 1;
    var index := LastIndexOf(b, last);
    ghost var at := last + 1;
    while index != -1
      invariant start == 0 && 1 <= lines <= limits.maxLines
      invariant 0 <= at <= last + 1 && index == if at == 0 then -1 else LastIndexOf(b, at - 1)
      invariant CountedBack(b, at, last, lines)
      decreases at
    {
      CountBack(b, at, last, index, lines);
      if lines == limits.maxLines {
        start := index + 1;
        return;
      }
      lines := lines + 1;
      at := index;
      index := if index == 0 then -1 else LastIndexOf(b, index - 1);
    }
    AllCounted(b, limits, at, last, lines);
  }

  /** With no newline left to find, all lines are counted. */
  lemma AllCounted(b: Bytes, limits: Limits, at: nat, last: int, lines: nat)
    requires b != [] && last == (if Terminated(b) then |b| - 2 else |b| - 1) && at <= last + 1 && 1 <= lines <= limits.maxLines
    requires CountedBack(b, at, last, lines) && NEWLINE !in b[..at]
    ensures LinesStart(b, limits, 0)
  {
    CountNone(b, 0, at);
    assert b[0..] == b;
  }

  method TailRange(b: Bytes, limits: Limits) returns (from: nat, to: nat)
    ensures from == TailStart(b, limits) && to == |b|
  {
    if limits.maxLines == 0 || limits.maxBytes == 0 {
      return |b|, |b|;
    }
    var start := LastLines(b, limits);
    var cut := |b| - limits.maxBytes;
    TailStartAt(b, limits, start, cut, if cut > 0 then IndexOf(b, cut - 1) else -1);
    if |b| - start > limits.maxBytes {
      var newline := IndexOf(b, cut - 1);
      // Too many bytes: a later line start, or a character start when the last line has none to offer.
      if newline != -1 && newline + 1 < |b| {
        start := newline + 1;
      } else {
        start := CharacterStart(b, cut);
      }
    }
    return start, |b|;
  }

  /** Between `at` and the last line's own newline there are `lines - 1` newlines. */
  ghost predicate CountedBack(b: Bytes, at: nat, last: int, lines: nat)
    requires at <= |b|
  {
    Newlines(b[at..]) == lines - 1 + (|b| - 1 - last)
  }

  lemma LinesOfLast(b: Bytes)
    ensures b != [] && Terminated(b) ==> Newlines(b[|b| - 1..]) == 1
    ensures Newlines(b[|b|..]) == 0
  {
    if b != [] && Terminated(b) {
      CountOneMoreBack(b, |b| - 1, |b|);
    }
  }

  lemma CountBack(b: Bytes, at: nat, last: int, index: int, lines: nat)
    requires b != [] && last == (if Terminated(b) then |b| - 2 else |b| - 1) && 0 < at <= last + 1
    requires index == LastIndexOf(b, at - 1) && index != -1 && CountedBack(b, at, last, lines) && lines > 0
    ensures CountedBack(b, index, last, lines + 1)
    ensures index + 1 < |b| && Lines(b[index + 1..]) == lines
  {
    CountOneMoreBack(b, index, at);
    CountNone(b, index + 1, at);
    assert Terminated(b[index + 1..]) == Terminated(b);
  }

  // ---- boundOutput ----

  method BoundOutput(t: Text, limits: Limits) returns (s: Slice)
    ensures s == Bound(t, limits)
  {
    var b := Encode(t);
    var from, to;
    if limits.retain == Head {
      from, to := HeadRange(b, limits);
    } else {
      from, to := TailRange(b, limits);
    }
    var kept := b[from..to];
    var total: int := LineCount(b);
    var lines: int := LineCount(kept);
    if |kept| == |b| {
      assert kept == b;
      DecodeEncode(t);
    }
    s := Slice(if |kept| == |b| then t else Decode(kept), |kept|, |b| - |kept|, total - lines);
  }

  // ---- tailMargin ----

  /** Too much for the limits, counted in newlines. */
  predicate Exceeds(b: Bytes, limits: Limits) {
    |b| > limits.maxBytes || Newlines(b) > limits.maxLines
  }

  lemma ExceedingDoesNotFit(s: Bytes, x: Bytes, limits: Limits)
    requires Exceeds(s, limits)
    ensures Exceeds(s + x, limits) && !Fits(s + x, limits)
  {
    LinesConcat(s, x);
  }

  /** A suffix that exceeds the window decides every later tail window, whatever came before it and after it. */
  lemma ExceedingDecides(p: Bytes, s: Bytes, x: Bytes, limits: Limits)
    requires limits.retain == Tail && Exceeds(s, limits)
    ensures Window(p + s + x, limits) == Window(s + x, limits)
  {
    ExceedingDoesNotFit(s, x, limits);
    SuffixDecides(p, s + x, limits);
    assert p + s + x == p + (s + x);
  }

  /** The start of the shortest suffix, cut between characters, that exceeds the window; 0 if there is none. */
  ghost predicate IsMargin(b: Bytes, limits: Limits, start: nat)
    requires start <= |b|
  {
    && Boundary(b, start)
    && (start > 0 ==> Exceeds(b[start..], limits))
    && forall p :: start < p <= |b| && Boundary(b, p) ==> !Exceeds(b[p..], limits)
  }

  /** The newline that makes a suffix one line longer than the window, or 0 if there is none. */
  method ExcessLine(b: Bytes, limits: Limits) returns (start: nat)
    ensures start == 0 || (start < |b| && b[start] == NEWLINE && Newlines(b[start..]) > limits.maxLines)
    ensures forall p :: start < p <= |b| ==> Newlines(b[p..]) <= limits.maxLines
  {
    start := 0;
    var newlines := 0;
    var index := if |b| == 0 then -1 else LastIndexOf(b, |b| - 1);
    ghost var at := |b|;
    while index != -1
      invariant 0 <= at <= |b| && newlines == Newlines(b[at..]) <= limits.maxLines && start == 0
      invariant index == if at == 0 then -1 else LastIndexOf(b, at - 1)
      decreases at
    {
      CountOneMoreBack(b, index, at);
      CountNone(b, index + 1, at);
      newlines := newlines + 1;
      if newlines > limits.maxLines {
        start := index;
        FewerAfter(b, limits, index + 1);
        return;
      }
      at := index;
      if index == 0 {
        break;
      }
      index := LastIndexOf(b, index - 1);
    }
    CountNone(b, 0, at);
    FewerAfter(b, limits, 0);
  }

  lemma FewerAfter(b: Bytes, limits: Limits, q: nat)
    requires q <= |b| && Newlines(b[q..]) <= limits.maxLines
    ensures forall p :: q <= p <= |b| ==> Newlines(b[p..]) <= limits.maxLines
  {
    forall p | q <= p <= |b| ensures Newlines(b[p..]) <= limits.maxLines {
      SuffixLines(b, q, p);
    }
  }

  method MarginStart(b: Bytes, limits: Limits) returns (start: nat)
    ensures start <= |b| && IsMargin(b, limits, start)
  {
    var byteStart := 0;
    if |b| > limits.maxBytes {
      byteStart := CharacterEnd(b, |b| - limits.maxBytes - 1);
    }
    var lineStart := ExcessLine(b, limits);
    start := if byteStart > lineStart then byteStart else lineStart;
  }

  /** The shortest suffix of the text that exceeds the window, or all of it. */
  method TailMargin(t: Text, limits: Limits) returns (r: Text)
    ensures |r| <= |t| && r == t[|t| - |r|..]
    ensures r == t || Exceeds(Encode(r), limits)
    ensures forall k {:trigger Encode(t[k..])} :: |t| - |r| < k <= |t| ==> !Exceeds(Encode(t[k..]), limits)
  {
    var b := Encode(t);
    var start := MarginStart(b, limits);
    ghost var k := CutText(t, start);
    DecodeEncode(t[k..]);
    r := if start == 0 then t else Decode(b[start..]);
    forall j | k < j <= |t|
      ensures !Exceeds(Encode(t[j..]), limits)
    {
      CutPosition(t, k, j);
    }
  }

  /** A later cut of the text is a later boundary of its bytes. */
  lemma CutPosition(t: Text, k: nat, j: nat)
    requires k < j <= |t|
    ensures var b, p := Encode(t), |Encode(t[..j])|;
            |Encode(t[..k])| < p <= |b| && Boundary(b, p) && b[p..] == Encode(t[j..])
  {
    assert t == t[..j] + t[j..] && t[..j] == t[..k] + t[k..j];
    EncodeConcat(t[..j], t[j..]);
    EncodeConcat(t[..k], t[k..j]);
    EncodeFirst(t[k..j]);
    if j < |t| {
      EncodeFirst(t[j..]);
      assert Encode(t[j..])[0] == EncodeScalar(t[j])[0];
    }
  }
}
