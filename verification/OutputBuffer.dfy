/** A stream's output, kept within limits. The buffer throws stored text away as it goes; every snapshot still is what
    bounding the whole stream would give. */
module OutputBuffer {
  import opened Utf8
  import opened OutputWindow
  import opened OutputRanges
  import opened Options

  datatype Chunk = Chars(text: Text) | Raw(bytes: Bytes)
  datatype Stored = Stored(text: Text, bytes: nat, newlines: nat)
  datatype Skip = Skip(bytes: nat, newlines: nat, endsWithNewline: bool)
  datatype BoundedOutput = BoundedOutput(text: Text, droppedBytes: int, droppedLines: int)

  // ---- The text of a stream of chunks ----

  /** How far the stream has been decoded. */
  datatype Source = Source(decoder: Decoder, started: bool)

  /** What a chunk makes of an incomplete character before it: a string or a skip ends it, more bytes may complete it. */
  function Ended(s: Source, chunk: Chunk, skips: bool): Text {
    if chunk.Chars? || skips then Flush(s.decoder) else []
  }

  function Decoded(s: Source, chunk: Chunk, skips: bool): (Decoder, Text) {
    var d := if chunk.Chars? || skips then Ready else s.decoder;
    match chunk
    case Chars(text) => (d, text)
    case Raw(bytes) => Feed(d, bytes)
  }

  /** Only a byte-order mark that opens the whole output is dropped. */
  function ChunkText(s: Source, chunk: Chunk, skips: bool): Text {
    Unmarked(s.started || Ended(s, chunk, skips) != [] || skips || !chunk.Raw?, Decoded(s, chunk, skips).1)
  }

  function Advance(s: Source, chunk: Chunk, skips: bool): Source {
    Source(Decoded(s, chunk, skips).0,
           s.started || Ended(s, chunk, skips) != [] || Decoded(s, chunk, skips).1 != [] || skips)
  }

  /** However bytes are cut into chunks, the same text is accepted and the stream is left in the same place. */
  lemma CutBytes(s: Source, a: Bytes, b: Bytes)
    ensures var mid := Advance(s, Raw(a), false);
            && Advance(s, Raw(a + b), false) == Advance(mid, Raw(b), false)
            && ChunkText(s, Raw(a + b), false) == ChunkText(s, Raw(a), false) + ChunkText(mid, Raw(b), false)
  {
    FeedConcat(s.decoder, a, b);
    UnmarkedConcat(s.started, Feed(s.decoder, a).1, Feed(Feed(s.decoder, a).0, b).1);
  }

  /** Text without the byte-order mark that opens the output. */
  function Unmarked(started: bool, text: Text): Text {
    if !started && text != [] && text[0] == BYTE_ORDER_MARK then text[1..] else text
  }

  lemma UnmarkedConcat(started: bool, a: Text, b: Text)
    ensures Unmarked(started, a + b) == Unmarked(started, a) + Unmarked(started || a != [], b)
  {
    if a == [] {
      assert a + b == b;
    } else {
      assert (a + b)[1..] == a[1..] + b;
    }
  }

  // ---- Measures of text ----

  function Width(c: Scalar): nat {
    if c < 0x80 then 1 else if c < 0x800 then 2 else if c < 0x1_0000 then 3 else 4
  }

  function ByteLength(t: Text): nat {
    if t == [] then 0 else Width(t[0]) + ByteLength(t[1..])
  }

  function NewlineCount(t: Text): nat {
    if t == [] then 0 else (if t[0] == NEWLINE then 1 else 0) + NewlineCount(t[1..])
  }

  predicate EndsWithNewline(t: Text) {
    t != [] && t[|t| - 1] == NEWLINE
  }

  /** The measures taken on text are those of its bytes. */
  lemma {:induction false} MeasuresOfBytes(t: Text)
    ensures ByteLength(t) == |Encode(t)| && NewlineCount(t) == Newlines(Encode(t))
    ensures EndsWithNewline(t) == Terminated(Encode(t))
  {
    if t != [] {
      var first, rest := EncodeScalar(t[0]), Encode(t[1..]);
      MeasuresOfBytes(t[1..]);
      NewlinesConcat(first, rest);
      ScalarNewlines(t[0]);
      if |t| > 1 {
        assert rest != [] by { assert ByteLength(t[1..]) > 0; }
      }
    }
  }

  lemma ScalarNewlines(c: Scalar)
    ensures Newlines(EncodeScalar(c)) == if c == NEWLINE then 1 else 0
  {
    if c == NEWLINE {
      assert EncodeScalar(c) == [NEWLINE];
    } else {
      NewlinesPositive(EncodeScalar(c));
    }
  }

  lemma {:induction false} MeasureConcat(a: Text, b: Text)
    ensures ByteLength(a + b) == ByteLength(a) + ByteLength(b)
    ensures NewlineCount(a + b) == NewlineCount(a) + NewlineCount(b)
  {
    if a == [] {
      assert a + b == b;
    } else {
      MeasureConcat(a[1..], b);
      assert (a + b)[1..] == a[1..] + b;
    }
  }

  /** Too much for the limits, counted in newlines. */
  predicate Exceeding(t: Text, limits: Limits) {
    ByteLength(t) > limits.maxBytes || NewlineCount(t) > limits.maxLines
  }

  /** All a head window can need. */
  predicate Filling(t: Text, limits: Limits) {
    ByteLength(t) > limits.maxBytes || NewlineCount(t) >= limits.maxLines
  }

  // ---- Stored chunks ----

  function Join(chunks: seq<Stored>): Text {
    if chunks == [] then [] else chunks[0].text + Join(chunks[1..])
  }

  predicate Measured(chunks: seq<Stored>) {
    forall i :: 0 <= i < |chunks| ==>
      chunks[i].bytes == ByteLength(chunks[i].text) && chunks[i].newlines == NewlineCount(chunks[i].text)
  }

  predicate Sums(chunks: seq<Stored>, bytes: int, newlines: int) {
    Measured(chunks) && bytes == ByteLength(Join(chunks)) && newlines == NewlineCount(Join(chunks))
  }

  lemma {:induction false} JoinAppend(chunks: seq<Stored>, c: Stored)
    ensures Join(chunks + [c]) == Join(chunks) + c.text
  {
    if chunks == [] {
      assert [c][1..] == [];
      assert c.text + [] == c.text;
    } else {
      JoinAppend(chunks[1..], c);
      assert (chunks + [c])[1..] == chunks[1..] + [c];
    }
  }

  lemma AppendSums(chunks: seq<Stored>, bytes: nat, newlines: nat, c: Stored)
    requires Sums(chunks, bytes, newlines) && Measured([c])
    ensures Join(chunks + [c]) == Join(chunks) + c.text
    ensures Sums(chunks + [c], bytes + c.bytes, newlines + c.newlines)
  {
    JoinAppend(chunks, c);
    MeasureConcat(Join(chunks), c.text);
    assert [c][0] == c;
  }

  lemma ShiftSums(chunks: seq<Stored>, bytes: nat, newlines: nat)
    requires |chunks| > 1 && Sums(chunks, bytes, newlines)
    ensures Join(chunks) == chunks[0].text + Join(chunks[1..])
    ensures Sums(chunks[1..], bytes - chunks[0].bytes, newlines - chunks[0].newlines)
    ensures bytes >= chunks[0].bytes && newlines >= chunks[0].newlines
  {
    MeasureConcat(chunks[0].text, Join(chunks[1..]));
  }

  lemma JoinOne(c: Stored)
    ensures Join([c]) == c.text
  {
    assert [c][1..] == [] && c.text + [] == c.text;
  }

  /** The stored text still decides the window of the whole stream. */
  ghost predicate Decides(whole: Text, dropped: Text, stored: Text, full: bool, limits: Limits) {
    if limits.retain == Head then
      stored <= whole && dropped == [] && (if full then Filling(stored, limits) else stored == whole)
    else
      whole == dropped + stored && !full && (dropped == [] || Exceeding(stored, limits))
  }

  lemma WindowOfStored(whole: Text, dropped: Text, stored: Text, full: bool, limits: Limits)
    requires Decides(whole, dropped, stored, full, limits)
    ensures Window(Encode(whole), limits) == Window(Encode(stored), limits)
  {
    MeasuresOfBytes(stored);
    if limits.retain == Head {
      var rest := whole[|stored|..];
      assert whole == stored + rest;
      EncodeConcat(stored, rest);
      if full {
        PrefixDecides(Encode(stored), Encode(rest), limits);
      }
    } else {
      EncodeConcat(dropped, stored);
      if dropped == [] {
        assert whole == stored;
      } else {
        ExceedingDoesNotFit(Encode(stored), [], limits);
        assert Encode(stored) + [] == Encode(stored);
        SuffixDecides(Encode(dropped), Encode(stored), limits);
      }
    }
  }

  /** The report assembled from what is stored and the totals is the report on the whole stream. */
  lemma ReportOfStored(whole: Text, dropped: Text, stored: Text, full: bool, limits: Limits)
    requires Decides(whole, dropped, stored, full, limits)
    ensures var all, kept := Bound(whole, limits), Bound(stored, limits);
            && all.text == kept.text
            && all.droppedBytes == ByteLength(whole) - kept.bytes
            && all.droppedLines == LineTotal(whole) - (LineTotal(stored) - kept.droppedLines)
  {
    WindowOfStored(whole, dropped, stored, full, limits);
    MeasuresOfBytes(stored);
    MeasuresOfBytes(whole);
  }

  function LinesFrom(newlines: nat, complete: bool): nat {
    newlines + if complete then 0 else 1
  }

  /** Lines counted from the two numbers kept for a text. */
  function LineTotal(t: Text): nat {
    LinesFrom(NewlineCount(t), t == [] || EndsWithNewline(t))
  }

  lemma Split(whole: Text, dropped: Text, stored: Text, k: nat)
    requires k <= |stored| && whole == dropped + stored
    ensures whole == dropped + stored[..k] + stored[k..]
  {}

  lemma ExceedingBytes(text: Text, limits: Limits)
    ensures Exceeds(Encode(text), limits) <==> Exceeding(text, limits)
  {
    MeasuresOfBytes(text);
  }

  /** What a snapshot keeps of a tail. */
  lemma MarginDecides(whole: Text, dropped: Text, stored: Text, limits: Limits, k: nat)
    requires limits.retain == Tail && Decides(whole, dropped, stored, false, limits) && k <= |stored|
    requires k == 0 || Exceeding(stored[k..], limits)
    ensures Decides(whole, dropped + stored[..k], stored[k..], false, limits)
  {
    Split(whole, dropped, stored, k);
    if k == 0 {
      assert stored[0..] == stored && dropped + stored[..0] == dropped;
    }
  }

  method KeepMargin(ghost whole: Text, ghost dropped: Text, stored: Text, limits: Limits)
    returns (text: Text, ghost nowDropped: Text)
    requires limits.retain == Tail && Decides(whole, dropped, stored, false, limits)
    ensures Decides(whole, nowDropped, text, false, limits)
  {
    text := TailMargin(stored, limits);
    ExceedingBytes(text, limits);
    MarginDecides(whole, dropped, stored, limits, |stored| - |text|);
    nowDropped := dropped + stored[..|stored| - |text|];
  }

  function OneChunk(text: Text): (chunks: seq<Stored>)
    ensures Join(chunks) == text && Sums(chunks, ByteLength(text), NewlineCount(text))
    ensures if text == [] then chunks == [] else |chunks| == 1 && chunks[0].bytes == ByteLength(text)
  {
    var chunk := Stored(text, ByteLength(text), NewlineCount(text));
    JoinOne(chunk);
    if text == [] then [] else [chunk]
  }

  /** What accepting `text` leaves deciding the window. */
  ghost predicate DecidesWith(whole: Text, dropped: Text, stored: Text, full: bool, limits: Limits, text: Text) {
    Decides(whole + text, dropped, if full then stored else stored + text, full, limits)
  }

  lemma DecidesAppend(whole: Text, dropped: Text, stored: Text, full: bool, limits: Limits, text: Text)
    requires Decides(whole, dropped, stored, full, limits)
    ensures DecidesWith(whole, dropped, stored, full, limits, text)
  {
    MeasureConcat(stored, text);
    assert dropped + stored + text == dropped + (stored + text);
  }

  lemma DecidesDropping(whole: Text, dropped: Text, first: Text, rest: Text, limits: Limits)
    requires limits.retain == Tail && Decides(whole, dropped, first + rest, false, limits)
    requires Exceeding(rest, limits)
    ensures Decides(whole, dropped + first, rest, false, limits)
  {
    assert dropped + (first + rest) == dropped + first + rest;
  }

  class OutputBuffer {
    const limits: Limits
    const sanitize: Text -> Text
    var decoder: Decoder
    var started: bool
    var chunks: seq<Stored>
    var storedBytes: nat
    var storedNewlines: nat
    var full: bool
    var totalBytes: nat
    var totalNewlines: nat
    var endsWithNewline: bool

    /** Everything accepted, with omitted text in its place, and the start of it that is no longer stored. */
    ghost var whole: Text
    ghost var dropped: Text

    ghost predicate Counted()
      reads this
    {
      && Sums(chunks, storedBytes, storedNewlines)
      && totalBytes == ByteLength(whole) && totalNewlines == NewlineCount(whole)
    }

    /** Storage stays within the limits plus one chunk: for a tail the oldest stored, for a head the last stored. */
    ghost predicate StorageBounded()
      reads this
    {
      if chunks == [] then storedBytes == 0
      else if limits.retain == Tail then storedBytes <= limits.maxBytes + 1 + chunks[0].bytes
      else storedBytes <= limits.maxBytes + (if full then chunks[|chunks| - 1].bytes else 0)
    }

    ghost predicate Valid()
      reads this
    {
      && Counted()
      && endsWithNewline == (whole == [] || EndsWithNewline(whole))
      && Decides(whole, dropped, Join(chunks), full, limits)
      && StorageBounded()
    }

    ghost function State(): Source
      reads this
    {
      Source(decoder, started)
    }

    constructor (limits: Limits, sanitize: Text -> Text)
      ensures Valid() && this.limits == limits && this.sanitize == sanitize
      ensures whole == [] && State() == Source(Ready, false)
    {
      this.limits, this.sanitize := limits, sanitize;
      decoder, started, chunks, full := Ready, false, [], false;
      storedBytes, storedNewlines, totalBytes, totalNewlines, endsWithNewline := 0, 0, 0, 0, true;
      whole, dropped := [], [];
    }

    /** Accept text, also right after a skip, when what is stored (nothing) does not decide the window by itself. */
    method Accept(text: Text) returns (accepted: bool)
      requires Counted() && DecidesWith(whole, dropped, Join(chunks), full, limits, text)
      requires text == [] ==> Valid()
      requires full ==> StorageBounded()
      requires limits.retain == Head && !full ==> storedBytes <= limits.maxBytes
      modifies this`chunks, this`storedBytes, this`storedNewlines, this`full
      modifies this`totalBytes, this`totalNewlines, this`endsWithNewline, this`whole, this`dropped
      ensures Valid() && whole == old(whole) + text && accepted == (text != [])
    {
      if text == [] {
        assert whole + text == whole;
        return false;
      }
      var bytes, newlines := ByteLength(text), NewlineCount(text);
      Count(bytes, newlines, EndsWithNewline(text), text);
      if !full {
        Store(Stored(text, bytes, newlines));
      }
      return true;
    }

    /** Store the chunk just counted, and drop what the window no longer needs. */
    method Store(chunk: Stored)
      requires Counted() && !full && Measured([chunk])
      requires Decides(whole, dropped, Join(chunks) + chunk.text, false, limits)
      requires limits.retain == Head ==> storedBytes <= limits.maxBytes
      modifies this`chunks, this`storedBytes, this`storedNewlines, this`full, this`dropped
      ensures Counted() && StorageBounded()
      ensures Decides(whole, dropped, Join(chunks), full, limits)
    {
      Append(chunk);
      if limits.retain == Head {
        full := storedBytes > limits.maxBytes || storedNewlines >= limits.maxLines;
      } else {
        DropLeading();
      }
    }

    method Append(chunk: Stored)
      requires Counted() && Measured([chunk])
      modifies this`chunks, this`storedBytes, this`storedNewlines
      ensures Counted() && chunks == old(chunks) + [chunk] && Join(chunks) == old(Join(chunks)) + chunk.text
      ensures storedBytes == old(storedBytes) + chunk.bytes
    {
      AppendSums(chunks, storedBytes, storedNewlines, chunk);
      chunks := chunks + [chunk];
      storedBytes := storedBytes + chunk.bytes;
      storedNewlines := storedNewlines + chunk.newlines;
    }

    /** The oldest chunks go, as long as what follows them is too much for the window by itself. */
    method DropLeading()
      requires limits.retain == Tail && chunks != [] && Counted()
      requires Decides(whole, dropped, Join(chunks), full, limits)
      modifies this`chunks, this`storedBytes, this`storedNewlines, this`dropped
      ensures chunks != [] && Counted()
      ensures Decides(whole, dropped, Join(chunks), full, limits)
      ensures StorageBounded()
    {
      while |chunks| > 1
        invariant chunks != [] && Counted()
        invariant Decides(whole, dropped, Join(chunks), full, limits)
      {
        var first := chunks[0];
        ShiftSums(chunks, storedBytes, storedNewlines);
        var bytesAfter := storedBytes - first.bytes;
        var newlinesAfter := storedNewlines - first.newlines;
        if bytesAfter <= limits.maxBytes + 1 && newlinesAfter <= limits.maxLines + 1 {
          return;
        }
        DecidesDropping(whole, dropped, first.text, Join(chunks[1..]), limits);
        dropped := dropped + first.text;
        chunks := chunks[1..];
        storedBytes := bytesAfter;
        storedNewlines := newlinesAfter;
      }
      assert chunks == [chunks[0]];
      JoinOne(chunks[0]);
    }

    /** Text the caller left out: it enters the totals, and what was stored in front of it is forgotten. */
    method SkipOver(skipped: Skip, ghost omitted: Text)
      requires Valid() && limits.retain == Tail
      requires skipped.bytes == ByteLength(omitted) && skipped.newlines == NewlineCount(omitted)
      requires omitted != [] ==> skipped.endsWithNewline == EndsWithNewline(omitted)
      modifies this`chunks, this`storedBytes, this`storedNewlines
      modifies this`totalBytes, this`totalNewlines, this`endsWithNewline, this`whole, this`dropped
      ensures Counted() && whole == old(whole) + omitted
      ensures omitted == [] ==> Valid()
      ensures omitted != [] ==> chunks == [] && dropped == whole
      ensures endsWithNewline == (whole == [] || EndsWithNewline(whole))
    {
      if skipped.bytes == 0 {
        assert omitted == [] && whole + omitted == whole;
        return;
      }
      Count(skipped.bytes, skipped.newlines, skipped.endsWithNewline, omitted);
      chunks, storedBytes, storedNewlines := [], 0, 0;
      dropped := whole;
    }

    /** Count text that is not empty. */
    method Count(bytes: nat, newlines: nat, endsWithNewline: bool, ghost text: Text)
      requires Counted() && text != [] && bytes == ByteLength(text) && newlines == NewlineCount(text)
      requires endsWithNewline == EndsWithNewline(text)
      modifies this`totalBytes, this`totalNewlines, this`endsWithNewline, this`whole
      ensures Counted() && whole == old(whole) + text && this.endsWithNewline == EndsWithNewline(whole)
    {
      MeasureConcat(whole, text);
      totalBytes := totalBytes + bytes;
      totalNewlines := totalNewlines + newlines;
      this.endsWithNewline := endsWithNewline;
      whole := whole + text;
    }

    /** Decode a chunk: what ends before it, and its own text. */
    method Take(chunk: Chunk, skips: bool) returns (pending: Text, text: Text)
      modifies this`decoder, this`started
      ensures State() == Advance(old(State()), chunk, skips)
      ensures pending == Ended(old(State()), chunk, skips) && text == ChunkText(old(State()), chunk, skips)
    {
      // A character that earlier bytes left unfinished is decided before this chunk.
      pending := [];
      if chunk.Chars? || skips {
        pending := Flush(decoder);
        decoder := Ready;
      }
      text := [];
      match chunk {
        case Chars(chars) => text := chars;
        case Raw(bytes) =>
          var (d, t) := Feed(decoder, bytes);
          decoder, text := d, t;
      }
      var first := !started && pending == [] && !skips;
      if pending != [] || text != [] || skips {
        started := true;
      }
      if first && chunk.Raw? && text != [] && text[0] == BYTE_ORDER_MARK {
        text := text[1..];
      }
    }

    /** Accept a chunk. `skipped` counts output omitted right before it; the counts are all the buffer learns of the
        `omitted` text, yet whatever that text was, the buffer now stands for the stream with it in place. False when
        nothing was accepted; a head buffer refuses a skip. */
    method Push(chunk: Chunk, skipped: Option<Skip>, ghost omitted: Text) returns (accepted: Option<bool>)
      requires Valid()
      requires skipped.None? ==> omitted == []
      requires skipped.Some? ==>
                 && skipped.value.bytes == ByteLength(omitted) && skipped.value.newlines == NewlineCount(omitted)
                 && (omitted != [] ==> skipped.value.endsWithNewline == EndsWithNewline(omitted))
                 && (limits.retain == Tail ==> Exceeding(ChunkText(State(), chunk, true), limits))
      modifies this
      ensures Valid() && State() == Advance(old(State()), chunk, skipped.Some?)
      ensures accepted.None? <==> skipped.Some? && limits.retain == Head
      ensures accepted.None? ==> whole == old(whole)
      ensures accepted.Some? ==>
                var pending := Ended(old(State()), chunk, skipped.Some?);
                var text := ChunkText(old(State()), chunk, skipped.Some?);
                && whole == old(whole) + pending + omitted + text
                && accepted.value == (skipped.Some? || pending + text != [])
    {
      var pending, text := Take(chunk, skipped.Some?);
      if skipped.None? {
        var any := PushText(pending, text);
        assert old(whole) + pending + [] == old(whole) + pending;
        return Some(any);
      }
      if limits.retain != Tail {
        return None;
      }
      PushSkipping(pending, skipped.value, omitted, text);
      return Some(true);
    }

    method PushText(pending: Text, text: Text) returns (any: bool)
      requires Valid()
      modifies this`chunks, this`storedBytes, this`storedNewlines, this`full
      modifies this`totalBytes, this`totalNewlines, this`endsWithNewline, this`whole, this`dropped
      ensures Valid() && whole == old(whole) + pending + text && any == (pending + text != [])
    {
      DecidesAppend(whole, dropped, Join(chunks), full, limits, pending + text);
      any := Accept(pending + text);
      assert old(whole) + pending + text == old(whole) + (pending + text);
    }

    method PushSkipping(pending: Text, skipped: Skip, ghost omitted: Text, text: Text)
      requires Valid() && limits.retain == Tail && Exceeding(text, limits)
      requires skipped.bytes == ByteLength(omitted) && skipped.newlines == NewlineCount(omitted)
      requires omitted != [] ==> skipped.endsWithNewline == EndsWithNewline(omitted)
      modifies this`chunks, this`storedBytes, this`storedNewlines, this`full
      modifies this`totalBytes, this`totalNewlines, this`endsWithNewline, this`whole, this`dropped
      ensures Valid() && whole == old(whole) + pending + omitted + text
    {
      DecidesAppend(whole, dropped, Join(chunks), full, limits, pending);
      var _ := Accept(pending);
      SkipOver(skipped, omitted);
      if omitted == [] {
        DecidesAppend(whole, dropped, Join(chunks), full, limits, text);
      } else {
        assert [] + text == text;
      }
      var _ := Accept(text);
    }

    /** Flush an incomplete trailing character; called when the stream ends. */
    method End()
      requires Valid()
      modifies this
      ensures Valid() && State() == Source(Ready, old(started))
      ensures whole == old(whole) + Flush(old(decoder))
    {
      var rest := Flush(decoder);
      decoder := Ready;
      DecidesAppend(whole, dropped, Join(chunks), full, limits, rest);
      var _ := Accept(rest);
    }

    /** Keep one chunk: for a tail, the shortest suffix that still decides every later window. */
    method Compact(stored: Text)
      requires Valid() && stored == Join(chunks) && (limits.retain == Tail || |chunks| > 1)
      modifies this`chunks, this`storedBytes, this`storedNewlines, this`dropped
      ensures Valid()
    {
      var text := stored;
      ghost var nowDropped := dropped;
      if limits.retain == Tail {
        text, nowDropped := KeepMargin(whole, dropped, stored, limits);
      }
      StoreOnly(text, nowDropped);
    }

    method StoreOnly(text: Text, ghost nowDropped: Text)
      requires Valid() && Decides(whole, nowDropped, text, full, limits)
      requires limits.retain == Head ==> text == Join(chunks) && |chunks| > 1
      modifies this`chunks, this`storedBytes, this`storedNewlines, this`dropped
      ensures Valid()
    {
      chunks, dropped := OneChunk(text), nowDropped;
      storedBytes := ByteLength(text);
      storedNewlines := NewlineCount(text);
    }

    /** What the limits keep of the whole stream, computed from what is stored. */
    method Snapshot() returns (r: BoundedOutput)
      requires Valid()
      modifies this`chunks, this`storedBytes, this`storedNewlines, this`dropped
      ensures Valid() && whole == old(whole)
      ensures r == Report(whole, limits, sanitize)
    {
      var stored := Join(chunks);
      r := Summary(stored, storedNewlines, totalBytes, totalNewlines, endsWithNewline, limits, sanitize,
                   whole, dropped, full);
      if limits.retain == Tail || |chunks| > 1 {
        Compact(stored);
      }
    }
  }

  /** Put a report together from the stored text and the totals of the whole stream. */
  method Summary(stored: Text, storedNewlines: nat, totalBytes: nat, totalNewlines: nat, endsWithNewline: bool,
                 limits: Limits, sanitize: Text -> Text, ghost whole: Text, ghost dropped: Text, ghost full: bool)
    returns (r: BoundedOutput)
    requires Decides(whole, dropped, stored, full, limits) && storedNewlines == NewlineCount(stored)
    requires totalBytes == ByteLength(whole) && totalNewlines == NewlineCount(whole)
    requires endsWithNewline == (whole == [] || EndsWithNewline(whole))
    ensures r == Report(whole, limits, sanitize)
  {
    var kept := BoundOutput(stored, limits);
    var storedLines := LinesFrom(storedNewlines, stored == [] || EndsWithNewline(stored));
    var keptLines := storedLines - kept.droppedLines;
    r := BoundedOutput(sanitize(kept.text), totalBytes - kept.bytes, LinesFrom(totalNewlines, endsWithNewline) - keptLines);
    ReportFrom(whole, dropped, stored, full, limits, sanitize, kept);
  }

  lemma ReportFrom(
    whole: Text, dropped: Text, stored: Text, full: bool, limits: Limits, sanitize: Text -> Text, kept: Slice)
    requires Decides(whole, dropped, stored, full, limits) && kept == Bound(stored, limits)
    ensures Report(whole, limits, sanitize)
         == BoundedOutput(sanitize(kept.text), ByteLength(whole) - kept.bytes,
                          LineTotal(whole) - (LineTotal(stored) - kept.droppedLines))
  {
    ReportOfStored(whole, dropped, stored, full, limits);
  }

  /** What bounding the whole stream reports. */
  function Report(whole: Text, limits: Limits, sanitize: Text -> Text): BoundedOutput {
    var s := Bound(whole, limits);
    BoundedOutput(sanitize(s.text), s.droppedBytes, s.droppedLines)
  }

  // ---- Whole runs ----

  /** What can happen to a buffer. `PushSkip` pushes a chunk with only the counts of `omitted`, the text before it. */
  datatype Event = Push(chunk: Chunk) | PushSkip(omitted: Text, chunk: Chunk) | End | Snap

  function Measure(t: Text): Skip {
    Skip(ByteLength(t), NewlineCount(t), EndsWithNewline(t))
  }

  /** A skip is allowed on a tail, before a chunk that is more than the window by itself. */
  predicate Allowed(s: Source, e: Event, limits: Limits) {
    e.PushSkip? ==> limits.retain == Tail && Exceeding(ChunkText(s, e.chunk, true), limits)
  }

  function NextSource(s: Source, e: Event): Source {
    match e
    case Push(chunk) => Advance(s, chunk, false)
    case PushSkip(_, chunk) => Advance(s, chunk, true)
    case End => Source(Ready, s.started)
    case Snap => s
  }

  /** The text a whole stream gains. */
  function Gained(s: Source, e: Event): Text {
    match e
    case Push(chunk) => Ended(s, chunk, false) + ChunkText(s, chunk, false)
    case PushSkip(omitted, chunk) => Ended(s, chunk, true) + omitted + ChunkText(s, chunk, true)
    case End => Flush(s.decoder)
    case Snap => []
  }

  predicate AllAllowed(s: Source, events: seq<Event>, limits: Limits)
    decreases events
  {
    events == [] || (Allowed(s, events[0], limits) && AllAllowed(NextSource(s, events[0]), events[1..], limits))
  }

  /** The reports a run owes: each is the bound of the whole stream at that point, however it was cut, stored, skipped
      or compacted before. */
  function Owed(s: Source, whole: Text, events: seq<Event>, limits: Limits, sanitize: Text -> Text): seq<BoundedOutput>
    decreases events
  {
    if events == [] then []
    else
      var now := whole + Gained(s, events[0]);
      (if events[0].Snap? then [Report(now, limits, sanitize)] else [])
      + Owed(NextSource(s, events[0]), now, events[1..], limits, sanitize)
  }

  method PlayPush(buffer: OutputBuffer, chunk: Chunk)
    requires buffer.Valid()
    modifies buffer
    ensures buffer.Valid() && buffer.State() == Advance(old(buffer.State()), chunk, false)
    ensures buffer.whole == old(buffer.whole) + Gained(old(buffer.State()), Push(chunk))
  {
    var _ := buffer.Push(chunk, None, []);
    var pending := Ended(old(buffer.State()), chunk, false);
    assert old(buffer.whole) + pending + [] == old(buffer.whole) + pending;
    Associate(old(buffer.whole), pending, ChunkText(old(buffer.State()), chunk, false));
  }

  method PlaySkip(buffer: OutputBuffer, omitted: Text, chunk: Chunk)
    requires buffer.Valid() && Allowed(buffer.State(), PushSkip(omitted, chunk), buffer.limits)
    modifies buffer
    ensures buffer.Valid() && buffer.State() == NextSource(old(buffer.State()), PushSkip(omitted, chunk))
    ensures buffer.whole == old(buffer.whole) + Gained(old(buffer.State()), PushSkip(omitted, chunk))
  {
    var _ := buffer.Push(chunk, Some(Measure(omitted)), omitted);
    var pending := Ended(old(buffer.State()), chunk, true);
    Associate(old(buffer.whole), pending, omitted);
    Associate(old(buffer.whole), pending + omitted, ChunkText(old(buffer.State()), chunk, true));
  }

  method Play(buffer: OutputBuffer, e: Event) returns (reports: seq<BoundedOutput>)
    requires buffer.Valid() && Allowed(buffer.State(), e, buffer.limits)
    modifies buffer
    ensures buffer.Valid() && buffer.State() == NextSource(old(buffer.State()), e)
    ensures buffer.whole == old(buffer.whole) + Gained(old(buffer.State()), e)
    ensures reports == if e.Snap? then [Report(buffer.whole, buffer.limits, buffer.sanitize)] else []
  {
    reports := [];
    match e {
      case Push(chunk) => PlayPush(buffer, chunk);
      case PushSkip(omitted, chunk) => PlaySkip(buffer, omitted, chunk);
      case End => buffer.End();
      case Snap =>
        var report := buffer.Snapshot();
        reports := [report];
    }
  }

  /** Every run of a buffer, head or tail, reports exactly what bounding the whole stream would. */
  method Run(events: seq<Event>, limits: Limits, sanitize: Text -> Text) returns (reports: seq<BoundedOutput>)
    requires AllAllowed(Source(Ready, false), events, limits)
    ensures reports == Owed(Source(Ready, false), [], events, limits, sanitize)
  {
    var buffer := new OutputBuffer(limits, sanitize);
    reports := [];
    for i := 0 to |events|
      invariant fresh(buffer) && buffer.Valid() && buffer.limits == limits && buffer.sanitize == sanitize
      invariant AllAllowed(buffer.State(), events[i..], limits)
      invariant reports + Owed(buffer.State(), buffer.whole, events[i..], limits, sanitize)
             == Owed(Source(Ready, false), [], events, limits, sanitize)
    {
      assert events[i..][1..] == events[i + 1..];
      ghost var before := reports;
      ghost var rest := Owed(NextSource(buffer.State(), events[i]), buffer.whole + Gained(buffer.State(), events[i]),
                             events[i + 1..], limits, sanitize);
      var more := Play(buffer, events[i]);
      reports := reports + more;
      Associate(before, more, rest);
    }
  }
}
