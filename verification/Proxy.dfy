/** Decoding a proxied model stream: bytes to lines, lines to events, events to a message. */
module Proxy {
  import opened Options
  import opened Utf8

  // ---- Events and the message they build ----

  datatype StopReason = Pending | Stop | Length | ToolUse | Aborted | Error

  /** The messages of errors: the stream's own, the server's, or those of a failed read or parse. */
  datatype Problem =
    | NonTextContent
    | NonThinkingContent
    | NonToolCallContent
    | ConnectionClosed
    | RequestAborted
    | Other(message: Text)

  datatype ProxyEvent =
    | Start
    | TextStart(index: int)
    | TextDelta(index: int, delta: Text)
    | TextEnd(index: int, signature: Option<Text>)
    | ThinkingStart(index: int)
    | ThinkingDelta(index: int, delta: Text)
    | ThinkingEnd(index: int, signature: Option<Text>)
    | ToolCallStart(index: int, id: Text, name: Text)
    | ToolCallDelta(index: int, delta: Text)
    | ToolCallEnd(index: int, id: Text, name: Text, arguments: Value, more: map<Text, Value>)
    | Done(reason: StopReason, usage: Value, level: Option<Value>)
    | Failed(reason: StopReason, message: Option<Problem>, usage: Value, level: Option<Value>)
    | Unknown

  /** A JSON value of which only matters which one it is. */
  type Value = Text

  /** `more` are the optional fields of a call, by name. */
  datatype Block =
    | TextBlock(text: Text, signature: Option<Text>)
    | ThinkingBlock(text: Text, signature: Option<Text>)
    | ToolCallBlock(id: Text, name: Text, arguments: Value, more: map<Text, Value>)

  /** What a consumer is sent: the events it follows, and one that ends the stream. */
  datatype Event = Progress(event: ProxyEvent) | Finished(reason: StopReason) | Broken(reason: StopReason, message: Option<Problem>)

  predicate Terminal(e: Event) {
    !e.Progress?
  }

  /** What a message says of how it stopped: the reason, an error, the tokens used and the thinking level. */
  datatype Closing = Closing(reason: StopReason, error: Option<Problem>, usage: Value, level: Option<Value>)

  datatype Message = Message(content: map<int, Block>, closing: Closing)

  /** The pieces of argument text of open calls, by index. */
  type Streams = map<int, seq<Text>>

  /** The partial message, the argument streams, whether a terminal event was seen, and the events the consumer was sent:
      none after a terminal one. */
  datatype State = State(partial: Message, toolArguments: Streams, sawTerminalEvent: bool, sent: seq<Event>)

  const NO_USAGE: Value := []
  const INITIAL := State(Message(map[], Closing(Pending, None, NO_USAGE, None)), map[], false, [])

  datatype Step = Next(state: State) | Throws(message: Problem)

  predicate Ended(sent: seq<Event>) {
    sent != [] && Terminal(sent[|sent| - 1])
  }

  /** `stream.push`: nothing is taken after a terminal event. */
  function Push(s: State, e: Event): State {
    if Ended(s.sent) then s else s.(sent := s.sent + [e])
  }

  function WithBlock(s: State, index: int, b: Block): State {
    s.(partial := s.partial.(content := s.partial.content[index := b]))
  }

  function Closed(s: State, closing: Closing): State {
    s.(partial := s.partial.(closing := closing), sawTerminalEvent := true)
  }

  /** How a message stops after an ending. */
  function ClosingNext(c: Closing, e: ProxyEvent): Closing {
    match e
    case Done(reason, usage, level) => Closing(reason, c.error, usage, level.OrElse(c.level))
    case Failed(reason, message, usage, level) => Closing(reason, message, usage, level.OrElse(c.level))
    case _ => c
  }

  /** What follows `data: ` on a line, trimmed and parsed: nothing, an event, or an exception. */
  datatype Parsed = Nothing | Event(event: ProxyEvent) | Malformed(message: Problem)

  /** The event on a line, and the arguments shown of the pieces streamed so far. */
  datatype Parser = Parser(event: Text -> Parsed, arguments: seq<Text> -> Value)

  /** One event; deltas and ends of a block of another kind throw. */
  function ProcessProxyEvent(parse: Parser, s: State, e: ProxyEvent): Step {
    var content := s.partial.content;
    match e
    case Start => Next(Push(s, Progress(e)))
    case TextStart(i) => Next(Push(WithBlock(s, i, TextBlock([], None)), Progress(e)))
    case TextDelta(i, delta) =>
      if i in content && content[i].TextBlock? then
        Next(Push(WithBlock(s, i, TextBlock(content[i].text + delta, content[i].signature)), Progress(e)))
      else Throws(NonTextContent)
    case TextEnd(i, signature) =>
      if i in content && content[i].TextBlock? then
        Next(Push(WithBlock(s, i, TextBlock(content[i].text, signature)), Progress(e)))
      else Throws(NonTextContent)
    case ThinkingStart(i) => Next(Push(WithBlock(s, i, ThinkingBlock([], None)), Progress(e)))
    case ThinkingDelta(i, delta) =>
      if i in content && content[i].ThinkingBlock? then
        Next(Push(WithBlock(s, i, ThinkingBlock(content[i].text + delta, content[i].signature)), Progress(e)))
      else Throws(NonThinkingContent)
    case ThinkingEnd(i, signature) =>
      if i in content && content[i].ThinkingBlock? then
        Next(Push(WithBlock(s, i, ThinkingBlock(content[i].text, signature)), Progress(e)))
      else Throws(NonThinkingContent)
    case ToolCallStart(i, id, name) =>
      Next(Push(WithBlock(s, i, ToolCallBlock(id, name, parse.arguments([]), map[])).(toolArguments := s.toolArguments[i := []]),
                Progress(e)))
    case ToolCallDelta(i, delta) =>
      if i in content && content[i].ToolCallBlock? && i in s.toolArguments then
        var pieces := s.toolArguments[i] + [delta];
        Next(Push(WithBlock(s, i, content[i].(arguments := parse.arguments(pieces))).(toolArguments := s.toolArguments[i := pieces]),
                  Progress(e)))
      else Throws(NonToolCallContent)
    case ToolCallEnd(i, id, name, arguments, more) =>
      if i in content && content[i].ToolCallBlock? then
        Next(Push(WithBlock(s, i, ToolCallBlock(id, name, arguments, content[i].more + more))
                    .(toolArguments := s.toolArguments - {i}), Progress(e)))
      else Next(s)
    case Done(reason, _, _) => Next(Push(Closed(s, ClosingNext(s.partial.closing, e)), Finished(reason)))
    case Failed(reason, message, _, _) => Next(Push(Closed(s, ClosingNext(s.partial.closing, e)), Broken(reason, message)))
    case Unknown => Next(s)
  }

  // ---- Lines ----

  const PREFIX: Text := [0x64, 0x61, 0x74, 0x61, 0x3a, 0x20]

  function ProcessLine(parse: Parser, s: State, line: Text): Step {
    if !(PREFIX <= line) then Next(s)
    else
      match parse.event(line[|PREFIX|..])
      case Nothing => Next(s)
      case Malformed(message) => Throws(message)
      case Event(e) => ProcessProxyEvent(parse, s, e)
  }

  /** Lines in order, up to one that throws. */
  datatype Progressed = Progressed(state: State, thrown: Option<Problem>)

  function ProcessLines(parse: Parser, s: State, lines: seq<Text>): Progressed
    decreases lines
  {
    if lines == [] then Progressed(s, None)
    else
      match ProcessLine(parse, s, lines[0])
      case Throws(message) => Progressed(s, Some(message))
      case Next(after) => ProcessLines(parse, after, lines[1..])
  }

  lemma {:induction false} LinesConcat(parse: Parser, s: State, a: seq<Text>, b: seq<Text>)
    ensures ProcessLines(parse, s, a + b) ==
            var first := ProcessLines(parse, s, a);
            if first.thrown.Some? then first else ProcessLines(parse, first.state, b)
    decreases a
  {
    if a == [] {
      assert a + b == b;
    } else {
      assert (a + b)[1..] == a[1..] + b;
      var step := ProcessLine(parse, s, a[0]);
      if step.Next? {
        LinesConcat(parse, step.state, a[1..], b);
      }
    }
  }

  /** `text.split("\n")`. */
  function Split(t: Text): (r: seq<Text>)
    ensures r != []
  {
    if t == [] then [[]]
    else
      var before, c := Split(t[..|t| - 1]), t[|t| - 1];
      if c == NEWLINE then before + [[]] else before[..|before| - 1] + [before[|before| - 1] + [c]]
  }

  function Complete(t: Text): seq<Text> {
    Split(t)[..|Split(t)| - 1]
  }

  function Rest(t: Text): Text {
    Split(t)[|Split(t)| - 1]
  }

  lemma SplitMore(t: Text, c: Scalar)
    ensures Complete(t + [c]) == if c == NEWLINE then Complete(t) + [Rest(t)] else Complete(t)
    ensures Rest(t + [c]) == if c == NEWLINE then [] else Rest(t) + [c]
  {
    assert (t + [c])[..|t|] == t;
    assert Split(t) == Complete(t) + [Rest(t)];
  }

  lemma SplitStep(before: seq<Text>, t: Text, u: Text, c: Scalar)
    requires Complete(t) == before + Complete(u) && Rest(t) == Rest(u)
    ensures Complete(t + [c]) == before + Complete(u + [c]) && Rest(t + [c]) == Rest(u + [c])
  {
    SplitMore(t, c);
    SplitMore(u, c);
    Associate(before, Complete(u), [Rest(u)]);
  }

  /** Text arriving after other text continues its unfinished line. */
  lemma {:induction false} SplitConcat(a: Text, b: Text)
    ensures Complete(a + b) == Complete(a) + Complete(Rest(a) + b) && Rest(a + b) == Rest(Rest(a) + b)
    decreases b
  {
    if b == [] {
      assert a + b == a && Rest(a) + b == Rest(a);
      RestIsOneLine(a);
    } else {
      var c, init := b[|b| - 1], b[..|b| - 1];
      SplitConcat(a, init);
      SplitStep(Complete(a), a + init, Rest(a) + init, c);
      Associate(a, init, [c]);
      Associate(Rest(a), init, [c]);
      assert b == init + [c];
    }
  }

  lemma {:induction false} NoNewline(t: Text)
    requires NEWLINE !in t
    ensures Split(t) == [t]
  {
    if t != [] {
      NoNewline(t[..|t| - 1]);
      assert t == t[..|t| - 1] + [t[|t| - 1]];
    }
  }

  lemma {:induction false} RestHasNone(t: Text)
    ensures NEWLINE !in Rest(t)
  {
    if t != [] {
      RestHasNone(t[..|t| - 1]);
    }
  }

  lemma RestIsOneLine(t: Text)
    ensures Split(Rest(t)) == [Rest(t)] && Complete(Rest(t)) == [] && Rest(Rest(t)) == Rest(t)
  {
    RestHasNone(t);
    NoNewline(Rest(t));
  }

  // ---- Decoding ----

  /** `new TextDecoder()`: a byte order mark in front of everything is dropped. */
  datatype TextDecoder = TextDecoder(pending: Decoder, begun: bool)

  function Strip(begun: bool, t: Text): Text {
    if !begun && t != [] && t[0] == BYTE_ORDER_MARK then t[1..] else t
  }

  function DecodeChunk(d: TextDecoder, bytes: Bytes): (TextDecoder, Text) {
    var (next, t) := Feed(d.pending, bytes);
    (TextDecoder(next, d.begun || t != []), Strip(d.begun, t))
  }

  function DecodeEnd(d: TextDecoder): (t: Text)
    ensures NEWLINE !in t
  {
    Strip(d.begun, Flush(d.pending))
  }

  const NEW_DECODER := TextDecoder(Ready, false)

  lemma StripConcat(begun: bool, a: Text, b: Text)
    ensures Strip(begun, a + b) == Strip(begun, a) + Strip(begun || a != [], b)
  {
    if a == [] {
      assert a + b == b;
    } else {
      assert (a + b)[1..] == a[1..] + b;
    }
  }

  /** Decoding does not depend on how the bytes arrive. */
  lemma DecodeConcat(d: TextDecoder, a: Bytes, b: Bytes)
    ensures DecodeChunk(d, a + b) ==
            var (mid, ta) := DecodeChunk(d, a); var (last, tb) := DecodeChunk(mid, b); (last, ta + tb)
  {
    FeedConcat(d.pending, a, b);
    StripConcat(d.begun, Feed(d.pending, a).1, Feed(Feed(d.pending, a).0, b).1);
  }

  // ---- Runs ----

  /** How the response body ends: by itself, or with a read that fails. */
  datatype Ending = Eof | ReadFails(message: Problem)

  /** A request that fails, or a body in chunks. */
  datatype Source = FetchFails(message: Problem) | Body(chunks: seq<Bytes>, ending: Ending)

  function Joined(chunks: seq<Bytes>, n: nat): Bytes
    requires n <= |chunks|
  {
    if n == 0 then [] else Joined(chunks, n - 1) + chunks[n - 1]
  }

  /** The end of a run that threw. */
  function Fail(s: State, message: Problem, aborted: bool): State {
    var reason := if aborted then Aborted else Error;
    Push(s.(partial := s.partial.(closing := s.partial.closing.(reason := reason, error := Some(message)))), Broken(reason, Some(message)))
  }

  /** The end of a run without an exception: the connection may have closed too early. */
  function Conclude(s: State): State {
    if s.sawTerminalEvent then s else Fail(s, ConnectionClosed, false)
  }

  predicate WellEnded(s: State) {
    && (forall i :: 0 <= i < |s.sent| - 1 ==> s.sent[i].Progress?)
    && (s.sawTerminalEvent ==> Ended(s.sent))
  }

  lemma LineWellEnded(parse: Parser, s: State, line: Text)
    requires WellEnded(s) && ProcessLine(parse, s, line).Next?
    ensures WellEnded(ProcessLine(parse, s, line).state)
  {
    if PREFIX <= line && parse.event(line[|PREFIX|..]).Event? {
      EventSends(parse, s, parse.event(line[|PREFIX|..]).event);
    }
  }

  /** An event sends one more, or nothing when none may follow. */
  lemma EventSends(parse: Parser, s: State, e: ProxyEvent)
    requires ProcessProxyEvent(parse, s, e).Next?
    ensures var t := ProcessProxyEvent(parse, s, e).state;
            && (t.sent == s.sent || (!Ended(s.sent) && |t.sent| == |s.sent| + 1 && t.sent[..|s.sent|] == s.sent))
            && (t.sawTerminalEvent <==> s.sawTerminalEvent || e.Done? || e.Failed?)
            && (Ended(t.sent) <==> Ended(s.sent) || e.Done? || e.Failed?)
  {}

  lemma {:induction false} LinesWellEnded(parse: Parser, s: State, lines: seq<Text>)
    requires WellEnded(s)
    ensures WellEnded(ProcessLines(parse, s, lines).state)
    decreases lines
  {
    if lines != [] {
      var step := ProcessLine(parse, s, lines[0]);
      if step.Next? {
        LineWellEnded(parse, s, lines[0]);
        LinesWellEnded(parse, step.state, lines[1..]);
      }
    }
  }

  /** The lines of a body: the last, unfinished one is left alone when a read fails. */
  function LinesOf(bytes: Bytes, ending: Ending): seq<Text> {
    var (decoder, text) := DecodeChunk(NEW_DECODER, bytes);
    if ending.Eof? then Split(text + DecodeEnd(decoder)) else Complete(text)
  }

  /** How far a run reads: the whole body, or the chunks before an abort is noticed, as if the next read failed. */
  datatype Reach = Reach(bytes: Bytes, ending: Ending, aborted: bool)

  function ReachOf(chunks: seq<Bytes>, ending: Ending, abortAt: Option<nat>): Reach {
    if abortAt.None? || abortAt.value > |chunks| then Reach(Joined(chunks, |chunks|), ending, false)
    else if abortAt.value == |chunks| && ending.ReadFails? then Reach(Joined(chunks, |chunks|), ending, true)
    else Reach(Joined(chunks, abortAt.value), ReadFails(RequestAborted), true)
  }

  /** The end of a run whose lines came to this. */
  function Finish(r: Progressed, ending: Ending, aborted: bool): State {
    if r.thrown.Some? then Fail(r.state, r.thrown.value, false)
    else if ending.ReadFails? then Fail(r.state, ending.message, aborted)
    else Conclude(r.state)
  }

  /** What a run that reads so far sends and builds. */
  function Outcome(parse: Parser, reach: Reach): State {
    Finish(ProcessLines(parse, INITIAL, LinesOf(reach.bytes, reach.ending)), reach.ending, reach.aborted)
  }

  /** Decoders and texts so far, before and after each of the first `n` chunks. */
  ghost predicate Decoded(chunks: seq<Bytes>, decoders: seq<TextDecoder>, texts: seq<Text>, n: nat) {
    && n <= |chunks| && |decoders| == |texts| == n + 1 && decoders[0] == NEW_DECODER && texts[0] == []
    && forall i {:trigger DecodeChunk(decoders[i], chunks[i])} :: 0 <= i < n ==>
         var (next, decoded) := DecodeChunk(decoders[i], chunks[i]);
         decoders[i + 1] == next && texts[i + 1] == texts[i] + decoded
  }

  lemma DecodedMore(chunks: seq<Bytes>, decoders: seq<TextDecoder>, texts: seq<Text>, n: nat)
    requires Decoded(chunks, decoders, texts, n) && n < |chunks|
    ensures var (next, decoded) := DecodeChunk(decoders[n], chunks[n]);
            Decoded(chunks, decoders + [next], texts + [texts[n] + decoded], n + 1)
  {
    var (next, decoded) := DecodeChunk(decoders[n], chunks[n]);
    var ds, ts := decoders + [next], texts + [texts[n] + decoded];
    forall i | 0 <= i < n + 1
      ensures ds[i + 1] == DecodeChunk(ds[i], chunks[i]).0 && ts[i + 1] == ts[i] + DecodeChunk(ds[i], chunks[i]).1
    {
      if i < n {
        assert ds[i + 1] == decoders[i + 1] && DecodeChunk(decoders[i], chunks[i]).0 == decoders[i + 1];
      }
    }
  }

  /** Decoding chunk by chunk is decoding what they make together. */
  lemma {:induction false} DecodedMeans(chunks: seq<Bytes>, decoders: seq<TextDecoder>, texts: seq<Text>, n: nat, k: nat)
    requires Decoded(chunks, decoders, texts, n) && k <= n
    ensures DecodeChunk(NEW_DECODER, Joined(chunks, k)) == (decoders[k], texts[k])
  {
    if k > 0 {
      DecodedMeans(chunks, decoders, texts, n, k - 1);
      DecodeConcat(NEW_DECODER, Joined(chunks, k - 1), chunks[k - 1]);
      assert DecodeChunk(decoders[k - 1], chunks[k - 1]).0 == decoders[k - 1 + 1];
    }
  }

  lemma {:induction false} JoinedPrefix(chunks: seq<Bytes>, n: nat, k: nat) returns (rest: Bytes)
    requires n <= k <= |chunks|
    ensures Joined(chunks, k) == Joined(chunks, n) + rest
    decreases k - n
  {
    if n == k {
      rest := [];
    } else {
      rest := JoinedPrefix(chunks, n + 1, k);
      Associate(Joined(chunks, n), chunks[n], rest);
      rest := chunks[n] + rest;
    }
  }

  /** Once a line throws, what arrives after it does not matter. */
  lemma ThrownDecides(parse: Parser, chunks: seq<Bytes>, n: nat, k: nat, ending: Ending)
    requires n <= k <= |chunks|
    requires ProcessLines(parse, INITIAL, Complete(DecodeChunk(NEW_DECODER, Joined(chunks, n)).1)).thrown.Some?
    ensures ProcessLines(parse, INITIAL, LinesOf(Joined(chunks, k), ending))
         == ProcessLines(parse, INITIAL, Complete(DecodeChunk(NEW_DECODER, Joined(chunks, n)).1))
  {
    var rest := JoinedPrefix(chunks, n, k);
    DecodeConcat(NEW_DECODER, Joined(chunks, n), rest);
    var (mid, text) := DecodeChunk(NEW_DECODER, Joined(chunks, n));
    var (last, more) := DecodeChunk(mid, rest);
    ThrownStays(parse, text, more);
    ThrownStays(parse, text, more + DecodeEnd(last));
    Associate(text, more, DecodeEnd(last));
    var whole := text + more + DecodeEnd(last);
    AllLines(whole);
    LinesConcat(parse, INITIAL, Complete(whole), [Rest(whole)]);
  }

  lemma AllLines(text: Text)
    ensures Split(text) == Complete(text) + [Rest(text)]
  {}

  /** What the decoder still holds at the end belongs to the last line. */
  lemma LastLine(text: Text, end: Text)
    requires NEWLINE !in end
    ensures Split(text + end) == Complete(text) + [Rest(text) + end]
  {
    SplitConcat(text, end);
    RestHasNone(text);
    NoNewline(Rest(text) + end);
    assert Split(text + end) == Complete(text + end) + [Rest(text + end)];
  }

  lemma ThrownStays(parse: Parser, text: Text, more: Text)
    requires ProcessLines(parse, INITIAL, Complete(text)).thrown.Some?
    ensures ProcessLines(parse, INITIAL, Complete(text + more)) == ProcessLines(parse, INITIAL, Complete(text))
  {
    SplitConcat(text, more);
    LinesConcat(parse, INITIAL, Complete(text), Complete(Rest(text) + more));
  }

  // ---- The class ----

  class ProxyStream {
    var content: map<int, Block>
    var stopReason: StopReason
    var errorMessage: Option<Problem>
    var usage: Value
    var providerThinkingLevel: Option<Value>
    var toolArguments: Streams
    var sawTerminalEvent: bool
    var sent: seq<Event>

    ghost function Now(): State
      reads this
    {
      State(Message(content, Closing(stopReason, errorMessage, usage, providerThinkingLevel)), toolArguments, sawTerminalEvent,
            sent)
    }

    constructor ()
      ensures Now() == INITIAL
    {
      content, stopReason, errorMessage, usage, providerThinkingLevel := map[], Pending, None, NO_USAGE, None;
      toolArguments, sawTerminalEvent, sent := map[], false, [];
    }

    method PushEvent(e: Event)
      modifies this`sent
      ensures Now() == Push(old(Now()), e)
    {
      if !(|sent| > 0 && Terminal(sent[|sent| - 1])) {
        sent := sent + [e];
      }
    }

    /** Process an event and update the partial message; an exception's message when it throws. */
    method OnProxyEvent(parse: Parser, e: ProxyEvent) returns (thrown: Option<Problem>)
      modifies this
      ensures match ProcessProxyEvent(parse, old(Now()), e)
              case Next(after) => thrown == None && Now() == after
              case Throws(message) => thrown == Some(message) && Now() == old(Now())
    {
      match e {
        case Start =>
        case TextStart(i) => content := content[i := TextBlock([], None)];
        case TextDelta(i, delta) =>
          if !(i in content && content[i].TextBlock?) {
            return Some(NonTextContent);
          }
          content := content[i := TextBlock(content[i].text + delta, content[i].signature)];
        case TextEnd(i, signature) =>
          if !(i in content && content[i].TextBlock?) {
            return Some(NonTextContent);
          }
          content := content[i := TextBlock(content[i].text, signature)];
        case ThinkingStart(i) => content := content[i := ThinkingBlock([], None)];
        case ThinkingDelta(i, delta) =>
          if !(i in content && content[i].ThinkingBlock?) {
            return Some(NonThinkingContent);
          }
          content := content[i := ThinkingBlock(content[i].text + delta, content[i].signature)];
        case ThinkingEnd(i, signature) =>
          if !(i in content && content[i].ThinkingBlock?) {
            return Some(NonThinkingContent);
          }
          content := content[i := ThinkingBlock(content[i].text, signature)];
        case ToolCallStart(i, id, name) =>
          content := content[i := ToolCallBlock(id, name, parse.arguments([]), map[])];
          toolArguments := toolArguments[i := []];
        case ToolCallDelta(i, delta) =>
          if !(i in content && content[i].ToolCallBlock? && i in toolArguments) {
            return Some(NonToolCallContent);
          }
          toolArguments := toolArguments[i := toolArguments[i] + [delta]];
          content := content[i := content[i].(arguments := parse.arguments(toolArguments[i]))];
        case ToolCallEnd(i, id, name, arguments, more) =>
          if !(i in content && content[i].ToolCallBlock?) {
            return None;
          }
          content := content[i := ToolCallBlock(id, name, arguments, content[i].more + more)];
          toolArguments := toolArguments - {i};
        case Unknown => return None;
        case _ =>
          OnEnding(parse, e);
          return None;
      }
      PushEvent(Progress(e));
      return None;
    }

    method OnEnding(ghost parse: Parser, e: ProxyEvent)
      requires e.Done? || e.Failed?
      modifies this
      ensures ProcessProxyEvent(parse, old(Now()), e) == Next(Now())
    {
      stopReason, usage, sawTerminalEvent := e.reason, e.usage, true;
      if e.Failed? {
        errorMessage := e.message;
      }
      if e.level.Some? {
        providerThinkingLevel := e.level;
      }
      PushEvent(if e.Done? then Finished(e.reason) else Broken(e.reason, e.message));
    }

    method OnLine(parse: Parser, line: Text) returns (thrown: Option<Problem>)
      modifies this
      ensures match ProcessLine(parse, old(Now()), line)
              case Next(after) => thrown == None && Now() == after
              case Throws(message) => thrown == Some(message) && Now() == old(Now())
    {
      if !(PREFIX <= line) {
        return None;
      }
      match parse.event(line[|PREFIX|..]) {
        case Nothing => return None;
        case Malformed(message) => return Some(message);
        case Event(e) => thrown := OnProxyEvent(parse, e);
      }
    }

    method OnLines(parse: Parser, lines: seq<Text>) returns (thrown: Option<Problem>)
      modifies this
      ensures Progressed(Now(), thrown) == ProcessLines(parse, old(Now()), lines)
    {
      for i := 0 to |lines|
        invariant ProcessLines(parse, old(Now()), lines) == ProcessLines(parse, Now(), lines[i..])
      {
        assert lines[i..][1..] == lines[i + 1..];
        thrown := OnLine(parse, lines[i]);
        if thrown.Some? {
          return;
        }
      }
      thrown := None;
    }

    /** The run threw. */
    method Break(message: Problem, aborted: bool)
      modifies this
      ensures Now() == Fail(old(Now()), message, aborted)
    {
      stopReason := if aborted then Aborted else Error;
      errorMessage := Some(message);
      PushEvent(Broken(stopReason, Some(message)));
    }

    /** The end of the run: an exception, a connection closed too early, or nothing more. */
    method End(thrown: Option<Problem>, aborted: bool)
      requires WellEnded(Now())
      modifies this
      ensures Now() == (if thrown.Some? then Fail(old(Now()), thrown.value, aborted) else Conclude(old(Now())))
      ensures WellEnded(Now()) && Ended(sent)
    {
      if thrown.Some? {
        Break(thrown.value, aborted);
      } else if !sawTerminalEvent {
        Break(ConnectionClosed, false);
      }
    }

    /** One chunk: the lines it completes are processed, and the unfinished one is kept. */
    method OnChunk(parse: Parser, bytes: Bytes, decoder: TextDecoder, buffer: Text, ghost text: Text)
      returns (thrown: Option<Problem>, nextDecoder: TextDecoder, rest: Text)
      requires buffer == Rest(text) && ProcessLines(parse, INITIAL, Complete(text)) == Progressed(Now(), None)
      modifies this
      ensures nextDecoder == DecodeChunk(decoder, bytes).0
      ensures var more := text + DecodeChunk(decoder, bytes).1;
              rest == Rest(more) && ProcessLines(parse, INITIAL, Complete(more)) == Progressed(Now(), thrown)
    {
      var (next, decoded) := DecodeChunk(decoder, bytes);
      nextDecoder := next;
      SplitConcat(text, decoded);
      LinesConcat(parse, INITIAL, Complete(text), Complete(buffer + decoded));
      var lines := Split(buffer + decoded);
      rest := lines[|lines| - 1];
      thrown := OnLines(parse, lines[..|lines| - 1]);
    }

    /** Read chunks until one's lines throw, the run is aborted, or there are no more. */
    method ReadChunks(parse: Parser, chunks: seq<Bytes>, abortAt: Option<nat>)
      returns (thrown: Option<Problem>, n: nat, decoder: TextDecoder, buffer: Text, ghost decoders: seq<TextDecoder>, ghost texts: seq<Text>)
      requires Now() == INITIAL
      modifies this
      ensures Decoded(chunks, decoders, texts, n) && decoder == decoders[n] && buffer == Rest(texts[n])
      ensures ProcessLines(parse, INITIAL, Complete(texts[n])) == Progressed(Now(), thrown)
      ensures thrown.None? && n < |chunks| ==> abortAt.Some? && abortAt.value <= n
      ensures abortAt.Some? ==> n <= abortAt.value
    {
      thrown, n, decoder, buffer := None, 0, NEW_DECODER, [];
      decoders, texts := [NEW_DECODER], [[]];
      while n < |chunks| && thrown.None? && !(abortAt.Some? && abortAt.value <= n)
        invariant Decoded(chunks, decoders, texts, n) && decoder == decoders[n] && buffer == Rest(texts[n])
        invariant abortAt.Some? ==> n <= abortAt.value
        invariant ProcessLines(parse, INITIAL, Complete(texts[n])) == Progressed(Now(), thrown)
      {
        DecodedMore(chunks, decoders, texts, n);
        ghost var (next, decoded) := DecodeChunk(decoder, chunks[n]);
        thrown, decoder, buffer := OnChunk(parse, chunks[n], decoder, buffer, texts[n]);
        decoders, texts, n := decoders + [next], texts + [texts[n] + decoded], n + 1;
      }
    }

    /** Read the body to its end, a line at a time; the message of what was thrown on the way, if anything. */
    method ReadBody(parse: Parser, chunks: seq<Bytes>, ending: Ending, abortAt: Option<nat>)
      returns (thrown: Option<Problem>, aborted: bool)
      requires Now() == INITIAL
      modifies this
      ensures var reach := ReachOf(chunks, ending, abortAt);
              var r := ProcessLines(parse, INITIAL, LinesOf(reach.bytes, reach.ending));
              && Now() == r.state && (aborted <==> r.thrown.None? && reach.aborted)
              && thrown == if r.thrown.None? && reach.ending.ReadFails? then Some(reach.ending.message) else r.thrown
      ensures WellEnded(Now())
    {
      var n, decoder, buffer;
      ghost var decoders, texts;
      thrown, n, decoder, buffer, decoders, texts := ReadChunks(parse, chunks, abortAt);
      LinesWellEnded(parse, INITIAL, Complete(texts[n]));
      aborted := thrown.None? && abortAt.Some? && abortAt.value <= n;
      if thrown.Some? {
        DecodedMeans(chunks, decoders, texts, n, n);
        ThrownDecides(parse, chunks, n, if abortAt.None? || abortAt.value > |chunks| then |chunks| else abortAt.value,
                      ReachOf(chunks, ending, abortAt).ending);
      } else if ending.ReadFails? && n == |chunks| {
        DecodedMeans(chunks, decoders, texts, n, n);
        thrown := Some(ending.message);
      } else if aborted {
        DecodedMeans(chunks, decoders, texts, n, n);
        thrown := Some(RequestAborted);
      } else {
        DecodedMeans(chunks, decoders, texts, n, n);
        thrown := OnLastLine(parse, decoder, buffer, texts[n]);
      }
    }

    /** The last line may not be terminated. */
    method OnLastLine(parse: Parser, decoder: TextDecoder, buffer: Text, ghost text: Text) returns (thrown: Option<Problem>)
      requires buffer == Rest(text) && ProcessLines(parse, INITIAL, Complete(text)) == Progressed(Now(), None)
      modifies this
      ensures ProcessLines(parse, INITIAL, Split(text + DecodeEnd(decoder))) == Progressed(Now(), thrown) && WellEnded(Now())
    {
      var line := buffer + DecodeEnd(decoder);
      LastLine(text, DecodeEnd(decoder));
      LinesConcat(parse, INITIAL, Complete(text), [line]);
      LinesWellEnded(parse, INITIAL, Split(text + DecodeEnd(decoder)));
      thrown := None;
      if |line| > 0 {
        thrown := OnLine(parse, line);
      }
    }
  }

  /** Every run sends one terminal event, its last; and what a run sends and builds depends on the bytes it reads alone,
      not on how they are cut into chunks. */
  method StreamProxy(parse: Parser, source: Source, abortAt: Option<nat>) returns (s: State)
    ensures WellEnded(s) && Ended(s.sent)
    ensures s == match source
                 case FetchFails(message) => Fail(INITIAL, message, abortAt == Some(0))
                 case Body(chunks, ending) => Outcome(parse, ReachOf(chunks, ending, abortAt))
  {
    var stream := new ProxyStream();
    var thrown, aborted;
    match source {
      case FetchFails(message) => thrown, aborted := Some(message), abortAt == Some(0);
      case Body(chunks, ending) => thrown, aborted := stream.ReadBody(parse, chunks, ending, abortAt);
    }
    stream.End(thrown, aborted);
    var closing := Closing(stream.stopReason, stream.errorMessage, stream.usage, stream.providerThinkingLevel);
    return State(Message(stream.content, closing), stream.toolArguments, stream.sawTerminalEvent, stream.sent);
  }

  // ---- Parts of a message ----

  /** What there is at an index: a block, and the argument stream of an open call. */
  datatype Part = Part(block: Option<Block>, pieces: Option<seq<Text>>)

  function PartAt(m: Message, streams: Streams, i: int): Part {
    Part(if i in m.content then Some(m.content[i]) else None, if i in streams then Some(streams[i]) else None)
  }

  /** The block an event is about. */
  function IndexOf(e: ProxyEvent): Option<int> {
    match e
    case TextStart(i) => Some(i)
    case TextDelta(i, _) => Some(i)
    case TextEnd(i, _) => Some(i)
    case ThinkingStart(i) => Some(i)
    case ThinkingDelta(i, _) => Some(i)
    case ThinkingEnd(i, _) => Some(i)
    case ToolCallStart(i, _, _) => Some(i)
    case ToolCallDelta(i, _) => Some(i)
    case ToolCallEnd(i, _, _, _, _) => Some(i)
    case _ => None
  }

  /** Why an event about a part throws, if it does. */
  function ProblemOf(p: Part, e: ProxyEvent): Option<Problem> {
    match e
    case TextDelta(_, _) => if p.block.Some? && p.block.value.TextBlock? then None else Some(NonTextContent)
    case TextEnd(_, _) => if p.block.Some? && p.block.value.TextBlock? then None else Some(NonTextContent)
    case ThinkingDelta(_, _) => if p.block.Some? && p.block.value.ThinkingBlock? then None else Some(NonThinkingContent)
    case ThinkingEnd(_, _) => if p.block.Some? && p.block.value.ThinkingBlock? then None else Some(NonThinkingContent)
    case ToolCallDelta(_, _) =>
      if p.block.Some? && p.block.value.ToolCallBlock? && p.pieces.Some? then None else Some(NonToolCallContent)
    case _ => None
  }

  /** What an event makes of a part, by itself. */
  function PartNext(parse: Parser, p: Part, e: ProxyEvent, i: int): Part {
    if IndexOf(e) != Some(i) || ProblemOf(p, e).Some? then p
    else
      match e
      case TextStart(_) => p.(block := Some(TextBlock([], None)))
      case TextDelta(_, d) => p.(block := Some(TextBlock(p.block.value.text + d, p.block.value.signature)))
      case TextEnd(_, signature) => p.(block := Some(TextBlock(p.block.value.text, signature)))
      case ThinkingStart(_) => p.(block := Some(ThinkingBlock([], None)))
      case ThinkingDelta(_, d) => p.(block := Some(ThinkingBlock(p.block.value.text + d, p.block.value.signature)))
      case ThinkingEnd(_, signature) => p.(block := Some(ThinkingBlock(p.block.value.text, signature)))
      case ToolCallStart(_, id, name) => Part(Some(ToolCallBlock(id, name, parse.arguments([]), map[])), Some([]))
      case ToolCallDelta(_, d) =>
        var pieces := p.pieces.value + [d];
        Part(Some(p.block.value.(arguments := parse.arguments(pieces))), Some(pieces))
      case ToolCallEnd(_, id, name, arguments, more) =>
        if p.block.Some? && p.block.value.ToolCallBlock? then
          Part(Some(ToolCallBlock(id, name, arguments, p.block.value.more + more)), None)
        else p
      case _ => p
  }

  /** Whether an event throws depends on the part it is about. */
  lemma ThrowsBy(parse: Parser, s: State, e: ProxyEvent)
    ensures match ProcessProxyEvent(parse, s, e)
            case Throws(message) =>
              IndexOf(e).Some? && ProblemOf(PartAt(s.partial, s.toolArguments, IndexOf(e).value), e) == Some(message)
            case Next(_) => IndexOf(e).Some? ==> ProblemOf(PartAt(s.partial, s.toolArguments, IndexOf(e).value), e) == None
  {}

  lemma OtherParts(parse: Parser, s: State, e: ProxyEvent, i: int)
    requires ProcessProxyEvent(parse, s, e).Next? && IndexOf(e) != Some(i)
    ensures var after := ProcessProxyEvent(parse, s, e).state;
            PartAt(after.partial, after.toolArguments, i) == PartAt(s.partial, s.toolArguments, i)
  {}

  lemma OwnPart(parse: Parser, s: State, e: ProxyEvent, i: int)
    requires ProcessProxyEvent(parse, s, e).Next? && IndexOf(e) == Some(i)
    ensures var after := ProcessProxyEvent(parse, s, e).state;
            PartAt(after.partial, after.toolArguments, i) == PartNext(parse, PartAt(s.partial, s.toolArguments, i), e, i)
  {}

  /** An event that does not throw changes its own part alone, by what that part was, and only an ending changes how the
      message stops. */
  lemma OwnPartAlone(parse: Parser, s: State, e: ProxyEvent, i: int)
    requires ProcessProxyEvent(parse, s, e).Next?
    ensures var after := ProcessProxyEvent(parse, s, e).state;
            && PartAt(after.partial, after.toolArguments, i) == PartNext(parse, PartAt(s.partial, s.toolArguments, i), e, i)
            && after.partial.closing == ClosingNext(s.partial.closing, e)
  {
    if IndexOf(e) == Some(i) {
      OwnPart(parse, s, e, i);
    } else {
      OtherParts(parse, s, e, i);
    }
  }

  // ---- Blocks ----

  function NextPieces(before: seq<Text>, e: ProxyEvent, i: int): seq<Text> {
    match e
    case TextStart(j) => if i == j then [] else before
    case ThinkingStart(j) => if i == j then [] else before
    case ToolCallStart(j, _, _) => if i == j then [] else before
    case TextDelta(j, d) => if i == j then before + [d] else before
    case ThinkingDelta(j, d) => if i == j then before + [d] else before
    case ToolCallDelta(j, d) => if i == j then before + [d] else before
    case _ => before
  }

  /** A block's deltas since it was last started, whatever other indices do in between. */
  function Deltas(events: seq<ProxyEvent>, i: int): seq<Text> {
    if events == [] then [] else NextPieces(Deltas(events[..|events| - 1], i), events[|events| - 1], i)
  }

  function Concatenated(pieces: seq<Text>): Text {
    if pieces == [] then [] else Concatenated(pieces[..|pieces| - 1]) + pieces[|pieces| - 1]
  }

  lemma OnePiece(pieces: seq<Text>, d: Text)
    ensures Concatenated(pieces + [d]) == Concatenated(pieces) + d
  {
    assert (pieces + [d])[..|pieces|] == pieces;
  }

  function ProcessEvents(parse: Parser, s: State, events: seq<ProxyEvent>): Step {
    if events == [] then Next(s)
    else
      match ProcessEvents(parse, s, events[..|events| - 1])
      case Throws(message) => Throws(message)
      case Next(after) => ProcessProxyEvent(parse, after, events[|events| - 1])
  }

  /** A text or thinking block is its deltas put together; an open call shows the arguments its deltas have so far. */
  predicate PartHolds(parse: Parser, p: Part, deltas: seq<Text>) {
    p.block.Some? ==>
      match p.block.value
      case TextBlock(t, _) => t == Concatenated(deltas)
      case ThinkingBlock(t, _) => t == Concatenated(deltas)
      case ToolCallBlock(_, _, arguments, _) => p.pieces.Some? ==> p.pieces.value == deltas && arguments == parse.arguments(deltas)
  }

  predicate Holds(parse: Parser, s: State, i: int, deltas: seq<Text>) {
    PartHolds(parse, PartAt(s.partial, s.toolArguments, i), deltas)
  }

  lemma PartHoldsNext(parse: Parser, p: Part, e: ProxyEvent, i: int, deltas: seq<Text>)
    requires PartHolds(parse, p, deltas) && (IndexOf(e) == Some(i) ==> ProblemOf(p, e) == None)
    ensures PartHolds(parse, PartNext(parse, p, e, i), NextPieces(deltas, e, i))
  {
    if e.TextDelta? || e.ThinkingDelta? {
      OnePiece(deltas, e.delta);
    }
  }

  lemma HoldsNext(parse: Parser, s: State, e: ProxyEvent, i: int, deltas: seq<Text>)
    requires Holds(parse, s, i, deltas) && ProcessProxyEvent(parse, s, e).Next?
    ensures Holds(parse, ProcessProxyEvent(parse, s, e).state, i, NextPieces(deltas, e, i))
  {
    ThrowsBy(parse, s, e);
    OwnPartAlone(parse, s, e, i);
    PartHoldsNext(parse, PartAt(s.partial, s.toolArguments, i), e, i, deltas);
  }

  /** So after any events. */
  lemma {:induction false} BlocksAreDeltas(parse: Parser, events: seq<ProxyEvent>, i: int)
    requires ProcessEvents(parse, INITIAL, events).Next?
    ensures Holds(parse, ProcessEvents(parse, INITIAL, events).state, i, Deltas(events, i))
  {
    if events != [] {
      var init := events[..|events| - 1];
      BlocksAreDeltas(parse, init, i);
      HoldsNext(parse, ProcessEvents(parse, INITIAL, init).state, events[|events| - 1], i, Deltas(init, i));
    }
  }

  // ---- From lines to events ----

  /** The event a line carries, if any. */
  function EventOf(parse: Parser, line: Text): seq<ProxyEvent> {
    if !(PREFIX <= line) then []
    else
      match parse.event(line[|PREFIX|..])
      case Event(e) => [e]
      case _ => []
  }

  function Said(parse: Parser, lines: seq<Text>): seq<ProxyEvent> {
    if lines == [] then [] else Said(parse, lines[..|lines| - 1]) + EventOf(parse, lines[|lines| - 1])
  }

  /** How many lines are processed before one throws. */
  function Taken(parse: Parser, s: State, lines: seq<Text>): (n: nat)
    ensures n <= |lines|
    decreases lines
  {
    if lines == [] then 0
    else
      match ProcessLine(parse, s, lines[0])
      case Throws(_) => 0
      case Next(after) => 1 + Taken(parse, after, lines[1..])
  }

  /** The lines before one that throws come to the same state, without throwing. */
  lemma {:induction false} TakenMeans(parse: Parser, s: State, lines: seq<Text>)
    ensures var n, r := Taken(parse, s, lines), ProcessLines(parse, s, lines);
            && ProcessLines(parse, s, lines[..n]) == Progressed(r.state, None)
            && if r.thrown.None? then n == |lines|
               else n < |lines| && ProcessLine(parse, r.state, lines[n]) == Throws(r.thrown.value)
    decreases lines
  {
    if lines != [] {
      var step := ProcessLine(parse, s, lines[0]);
      if step.Next? {
        var rest, n := lines[1..], Taken(parse, s, lines);
        TakenMeans(parse, step.state, rest);
        assert lines[..n][1..] == rest[..n - 1];
      }
    }
  }

  lemma SaidMore(parse: Parser, from: State, s: State, said: seq<ProxyEvent>, line: Text)
    requires ProcessEvents(parse, from, said) == Next(s) && ProcessLine(parse, s, line).Next?
    ensures ProcessEvents(parse, from, said + EventOf(parse, line)) == ProcessLine(parse, s, line)
  {
    if EventOf(parse, line) == [] {
      assert said + [] == said;
    } else {
      assert (said + EventOf(parse, line))[..|said|] == said;
    }
  }

  /** Lines that do not throw come to what their events come to. */
  lemma {:induction false} LinesSay(parse: Parser, s: State, lines: seq<Text>)
    requires ProcessLines(parse, s, lines).thrown.None?
    ensures ProcessEvents(parse, s, Said(parse, lines)) == Next(ProcessLines(parse, s, lines).state)
  {
    if lines != [] {
      var init, last := lines[..|lines| - 1], lines[|lines| - 1];
      assert init + [last] == lines;
      LinesConcat(parse, s, init, [last]);
      LinesSay(parse, s, init);
      SaidMore(parse, s, ProcessLines(parse, s, init).state, Said(parse, init), last);
    }
  }

  /** What the lines before one that throws say. */
  function SaidBefore(parse: Parser, s: State, lines: seq<Text>): seq<ProxyEvent> {
    Said(parse, lines[..Taken(parse, s, lines)])
  }

  lemma SaidBeforeMeans(parse: Parser, s: State, lines: seq<Text>)
    ensures ProcessEvents(parse, s, SaidBefore(parse, s, lines)) == Next(ProcessLines(parse, s, lines).state)
  {
    TakenMeans(parse, s, lines);
    LinesSay(parse, s, lines[..Taken(parse, s, lines)]);
  }

  lemma FinishHolds(parse: Parser, r: Progressed, ending: Ending, aborted: bool, i: int, deltas: seq<Text>)
    requires Holds(parse, r.state, i, deltas)
    ensures Holds(parse, Finish(r, ending, aborted), i, deltas)
  {}

  /** And so in every run, with the deltas on the lines that were processed. */
  lemma RunBlocksAreDeltas(parse: Parser, reach: Reach, i: int)
    ensures Holds(parse, Outcome(parse, reach), i, Deltas(SaidBefore(parse, INITIAL, LinesOf(reach.bytes, reach.ending)), i))
  {
    var lines := LinesOf(reach.bytes, reach.ending);
    var said := SaidBefore(parse, INITIAL, lines);
    SaidBeforeMeans(parse, INITIAL, lines);
    BlocksAreDeltas(parse, said, i);
    FinishHolds(parse, ProcessLines(parse, INITIAL, lines), reach.ending, reach.aborted, i, Deltas(said, i));
  }

  // ---- Parts apart ----

  function PartAfter(parse: Parser, p: Part, events: seq<ProxyEvent>, i: int): Part {
    if events == [] then p else PartNext(parse, PartAfter(parse, p, events[..|events| - 1], i), events[|events| - 1], i)
  }

  function ClosingAfter(c: Closing, events: seq<ProxyEvent>): Closing {
    if events == [] then c else ClosingNext(ClosingAfter(c, events[..|events| - 1]), events[|events| - 1])
  }

  /** Parts do not depend on what is said of others, in whatever order. */
  lemma {:induction false} PartsApart(parse: Parser, s: State, events: seq<ProxyEvent>, i: int)
    requires ProcessEvents(parse, s, events).Next?
    ensures var after := ProcessEvents(parse, s, events).state;
            && PartAt(after.partial, after.toolArguments, i) == PartAfter(parse, PartAt(s.partial, s.toolArguments, i), events, i)
            && after.partial.closing == ClosingAfter(s.partial.closing, events)
  {
    if events != [] {
      var init, last := events[..|events| - 1], events[|events| - 1];
      PartsApart(parse, s, init, i);
      OwnPartAlone(parse, ProcessEvents(parse, s, init).state, last, i);
    }
  }

  // ---- After the end ----

  /** What a line does to a message: nothing to be seen in it, change it, or throw. */
  datatype Effect = Leaves | Changes | Breaks(message: Problem)

  function EffectOf(parse: Parser, m: Message, streams: Streams, e: ProxyEvent): Effect {
    if IndexOf(e).Some? then
      var i := IndexOf(e).value;
      var p := PartAt(m, streams, i);
      if ProblemOf(p, e).Some? then Breaks(ProblemOf(p, e).value)
      else if Leaving(parse, p, e) then Leaves
      else Changes
    else if ClosingNext(m.closing, e) == m.closing then Leaves
    else Changes
  }

  /** An event that does not throw leaves the block it is about. */
  predicate Leaving(parse: Parser, p: Part, e: ProxyEvent)
    requires ProblemOf(p, e) == None
  {
    match e
    case TextStart(_) => p.block == Some(TextBlock([], None))
    case TextDelta(_, d) => d == []
    case TextEnd(_, signature) => p.block.value.signature == signature
    case ThinkingStart(_) => p.block == Some(ThinkingBlock([], None))
    case ThinkingDelta(_, d) => d == []
    case ThinkingEnd(_, signature) => p.block.value.signature == signature
    case ToolCallStart(_, id, name) => p.block == Some(ToolCallBlock(id, name, parse.arguments([]), map[]))
    case ToolCallDelta(_, d) => parse.arguments(p.pieces.value + [d]) == p.block.value.arguments
    case ToolCallEnd(_, id, name, arguments, more) =>
      p.block.Some? && p.block.value.ToolCallBlock? ==>
        p.block.value.id == id && p.block.value.name == name && p.block.value.arguments == arguments
        && p.block.value.more + more == p.block.value.more
    case _ => true
  }

  /** The argument streams after an event that leaves the message. */
  function StreamsNext(m: Message, streams: Streams, e: ProxyEvent): Streams {
    match e
    case ToolCallStart(i, _, _) => streams[i := []]
    case ToolCallDelta(i, d) => if i in streams then streams[i := streams[i] + [d]] else streams
    case ToolCallEnd(i, _, _, _, _) => if i in m.content && m.content[i].ToolCallBlock? then streams - {i} else streams
    case _ => streams
  }

  function LineEffect(parse: Parser, m: Message, streams: Streams, line: Text): Effect {
    if !(PREFIX <= line) then Leaves
    else
      match parse.event(line[|PREFIX|..])
      case Nothing => Leaves
      case Malformed(message) => Breaks(message)
      case Event(e) => EffectOf(parse, m, streams, e)
  }

  function StreamsAfter(parse: Parser, m: Message, streams: Streams, line: Text): Streams {
    if EventOf(parse, line) == [] then streams else StreamsNext(m, streams, EventOf(parse, line)[0])
  }

  /** The message is already one that failed like this. */
  predicate Shows(m: Message, message: Problem, aborted: bool) {
    m.closing.reason == (if aborted then Aborted else Error) && m.closing.error == Some(message)
  }

  /** No line changes the message, and neither does what is thrown or how reading ends. */
  predicate Stands(parse: Parser, m: Message, streams: Streams, lines: seq<Text>, ending: Ending, aborted: bool)
    decreases lines
  {
    if lines == [] then ending.ReadFails? ==> Shows(m, ending.message, aborted)
    else
      match LineEffect(parse, m, streams, lines[0])
      case Leaves => Stands(parse, m, StreamsAfter(parse, m, streams, lines[0]), lines[1..], ending, aborted)
      case Changes => false
      case Breaks(message) => Shows(m, message, false)
  }

  lemma BlockSame(content: map<int, Block>, i: int, b: Block)
    ensures content[i := b] == content <==> i in content && content[i] == b
  {
    assert i in content[i := b] && content[i := b][i] == b;
  }

  /** Leaving a block is leaving its part's block as it is. */
  lemma LeavingMeans(parse: Parser, p: Part, e: ProxyEvent)
    requires IndexOf(e).Some? && ProblemOf(p, e) == None
    ensures Leaving(parse, p, e) <==> PartNext(parse, p, e, IndexOf(e).value).block == p.block
  {
    if e.TextDelta? || e.ThinkingDelta? {
      assert p.block.value.text + e.delta == p.block.value.text <==> e.delta == [];
    }
  }

  /** An event about a block changes no other. */
  lemma OneBlock(parse: Parser, s: State, e: ProxyEvent, i: int)
    requires IndexOf(e) == Some(i) && ProcessProxyEvent(parse, s, e).Next?
    ensures var before, after := s.partial.content, ProcessProxyEvent(parse, s, e).state.partial.content;
            after == before || (i in after && after == before[i := after[i]])
  {}

  lemma SameIff(parse: Parser, s: State, e: ProxyEvent, i: int)
    requires IndexOf(e) == Some(i) && ProcessProxyEvent(parse, s, e).Next?
    ensures var p := PartAt(s.partial, s.toolArguments, i);
            ProcessProxyEvent(parse, s, e).state.partial == s.partial <==> PartNext(parse, p, e, i).block == p.block
  {
    var content, after := s.partial.content, ProcessProxyEvent(parse, s, e).state.partial.content;
    OneBlock(parse, s, e, i);
    OwnPartAlone(parse, s, e, i);
    if i in after {
      BlockSame(content, i, after[i]);
    }
  }

  lemma StreamsMean(parse: Parser, s: State, e: ProxyEvent)
    requires ProcessProxyEvent(parse, s, e).Next?
    ensures ProcessProxyEvent(parse, s, e).state.toolArguments == StreamsNext(s.partial, s.toolArguments, e)
  {}

  lemma EffectMeans(parse: Parser, s: State, e: ProxyEvent)
    ensures match EffectOf(parse, s.partial, s.toolArguments, e)
            case Leaves =>
              && ProcessProxyEvent(parse, s, e).Next? && ProcessProxyEvent(parse, s, e).state.partial == s.partial
              && ProcessProxyEvent(parse, s, e).state.toolArguments == StreamsNext(s.partial, s.toolArguments, e)
            case Changes => ProcessProxyEvent(parse, s, e).Next? && ProcessProxyEvent(parse, s, e).state.partial != s.partial
            case Breaks(message) => ProcessProxyEvent(parse, s, e) == Throws(message)
  {
    ThrowsBy(parse, s, e);
    if ProcessProxyEvent(parse, s, e).Next? {
      StreamsMean(parse, s, e);
      if IndexOf(e).Some? {
        var i := IndexOf(e).value;
        SameIff(parse, s, e, i);
        LeavingMeans(parse, PartAt(s.partial, s.toolArguments, i), e);
      } else {
        OwnPartAlone(parse, s, e, 0);
        SameContentIfUnindexed(parse, s, e);
      }
    }
  }

  lemma SameContentIfUnindexed(parse: Parser, s: State, e: ProxyEvent)
    requires IndexOf(e).None? && ProcessProxyEvent(parse, s, e).Next?
    ensures ProcessProxyEvent(parse, s, e).state.partial.content == s.partial.content
  {}

  /** A run that has ended, as far as its consumer can see. */
  predicate Announced(s: State) {
    s.sawTerminalEvent && Ended(s.sent)
  }

  lemma LineEffectMeans(parse: Parser, s: State, line: Text)
    requires Announced(s)
    ensures ProcessLine(parse, s, line).Next? ==>
              Announced(ProcessLine(parse, s, line).state) && ProcessLine(parse, s, line).state.sent == s.sent
    ensures match LineEffect(parse, s.partial, s.toolArguments, line)
            case Leaves =>
              && ProcessLine(parse, s, line).Next? && ProcessLine(parse, s, line).state.partial == s.partial
              && ProcessLine(parse, s, line).state.toolArguments == StreamsAfter(parse, s.partial, s.toolArguments, line)
            case Changes => ProcessLine(parse, s, line).Next? && ProcessLine(parse, s, line).state.partial != s.partial
            case Breaks(message) => ProcessLine(parse, s, line) == Throws(message)
  {
    if PREFIX <= line && parse.event(line[|PREFIX|..]).Event? {
      var e := parse.event(line[|PREFIX|..]).event;
      EffectMeans(parse, s, e);
      if ProcessProxyEvent(parse, s, e).Next? {
        EventSends(parse, s, e);
      }
    }
  }

  /** The message stays as it is after every line, and at the end of the run. */
  ghost predicate AlwaysShown(parse: Parser, s: State, m: Message, lines: seq<Text>, ending: Ending, aborted: bool) {
    && (forall n :: 0 <= n <= |lines| ==> ProcessLines(parse, s, lines[..n]).state.partial == m)
    && Finish(ProcessLines(parse, s, lines), ending, aborted).partial == m
  }

  lemma ShownOneLess(parse: Parser, s: State, after: State, m: Message, lines: seq<Text>, ending: Ending, aborted: bool)
    requires lines != [] && ProcessLine(parse, s, lines[0]) == Next(after) && s.partial == m
    ensures AlwaysShown(parse, s, m, lines, ending, aborted) <==> AlwaysShown(parse, after, m, lines[1..], ending, aborted)
  {
    var rest := lines[1..];
    assert forall n :: 0 <= n < |lines| ==> lines[..n + 1][1..] == rest[..n] && lines[..n + 1][0] == lines[0];
    forall n | 0 <= n < |lines|
      ensures ProcessLines(parse, s, lines[..n + 1]) == ProcessLines(parse, after, rest[..n])
    {
      assert lines[..n + 1] != [];
    }
    if AlwaysShown(parse, after, m, rest, ending, aborted) {
      forall n | 0 <= n <= |lines| ensures ProcessLines(parse, s, lines[..n]).state.partial == m {
        if n > 0 {
          assert ProcessLines(parse, s, lines[..n - 1 + 1]) == ProcessLines(parse, after, rest[..n - 1]);
        }
      }
    }
    if AlwaysShown(parse, s, m, lines, ending, aborted) {
      forall n | 0 <= n <= |rest| ensures ProcessLines(parse, after, rest[..n]).state.partial == m {
        assert ProcessLines(parse, s, lines[..n + 1]) == ProcessLines(parse, after, rest[..n]);
      }
    }
  }

  /** After its end a message is left as it is exactly when every later line leaves it, and nothing is thrown that it does
      not already show; whatever happens to it, nothing more is sent. */
  lemma {:induction false} StandsIff(parse: Parser, s: State, lines: seq<Text>, ending: Ending, aborted: bool)
    requires Announced(s)
    ensures AlwaysShown(parse, s, s.partial, lines, ending, aborted) <==>
            Stands(parse, s.partial, s.toolArguments, lines, ending, aborted)
    ensures Finish(ProcessLines(parse, s, lines), ending, aborted).sent == s.sent
    decreases lines
  {
    if lines == [] {
      assert AlwaysShown(parse, s, s.partial, lines, ending, aborted) <==> Finish(Progressed(s, None), ending, aborted).partial == s.partial;
    } else {
      LineEffectMeans(parse, s, lines[0]);
      var step := ProcessLine(parse, s, lines[0]);
      if step.Next? {
        StandsIff(parse, step.state, lines[1..], ending, aborted);
        if step.state.partial == s.partial {
          ShownOneLess(parse, s, step.state, s.partial, lines, ending, aborted);
        } else {
          assert ProcessLines(parse, s, lines[..1]).state.partial == step.state.partial;
        }
      } else {
        assert forall n :: 0 <= n <= |lines| ==> ProcessLines(parse, s, lines[..n]).state == s;
      }
    }
  }

  // ---- Whether a run's message stays as announced ----

  predicate Steady(s: State) {
    Ended(s.sent) <==> s.sawTerminalEvent
  }

  lemma {:induction false} LinesSteady(parse: Parser, s: State, lines: seq<Text>)
    requires Steady(s)
    ensures Steady(ProcessLines(parse, s, lines).state)
    decreases lines
  {
    if lines != [] {
      var line, step := lines[0], ProcessLine(parse, s, lines[0]);
      if step.Next? {
        if PREFIX <= line && parse.event(line[|PREFIX|..]).Event? {
          EventSends(parse, s, parse.event(line[|PREFIX|..]).event);
        }
        LinesSteady(parse, step.state, lines[1..]);
      }
    }
  }

  /** A line ends the message: its event is the first terminal one. */
  predicate Announces(parse: Parser, lines: seq<Text>, k: nat) {
    && k < |lines|
    && !Ended(ProcessLines(parse, INITIAL, lines[..k]).state.sent)
    && var r := ProcessLines(parse, INITIAL, lines[..k + 1]);
       r.thrown.None? && Ended(r.state.sent)
  }

  lemma After(parse: Parser, lines: seq<Text>, k: nat, n: nat)
    requires k < n <= |lines| && ProcessLines(parse, INITIAL, lines[..k + 1]).thrown.None?
    ensures ProcessLines(parse, INITIAL, lines[..n])
         == ProcessLines(parse, ProcessLines(parse, INITIAL, lines[..k + 1]).state, lines[k + 1..][..n - k - 1])
  {
    CutAt(lines, k + 1, n);
    LinesConcat(parse, INITIAL, lines[..k + 1], lines[k + 1..][..n - k - 1]);
  }

  lemma CutAt<T>(s: seq<T>, m: nat, n: nat)
    requires m <= n <= |s|
    ensures s[..n] == s[..m] + s[m..][..n - m]
  {}

  /** The message is the announced one after every line from there on, and at the end of the run. */
  ghost predicate StaysAnnounced(parse: Parser, lines: seq<Text>, k: nat, ending: Ending, aborted: bool)
    requires k < |lines|
  {
    var m := ProcessLines(parse, INITIAL, lines[..k + 1]).state.partial;
    && (forall n :: k < n <= |lines| ==> ProcessLines(parse, INITIAL, lines[..n]).state.partial == m)
    && Finish(ProcessLines(parse, INITIAL, lines), ending, aborted).partial == m
  }

  /** The message a terminal event came with is the one still being built. A run leaves it as announced exactly when every
      later line leaves it, and neither a line nor the end of reading throws what it does not already show. In any case the
      consumer is sent nothing more. */
  lemma AnnouncedStaysIff(parse: Parser, lines: seq<Text>, k: nat, ending: Ending, aborted: bool)
    requires Announces(parse, lines, k)
    ensures var announced := ProcessLines(parse, INITIAL, lines[..k + 1]).state;
            && (StaysAnnounced(parse, lines, k, ending, aborted)
                <==> Stands(parse, announced.partial, announced.toolArguments, lines[k + 1..], ending, aborted))
            && Finish(ProcessLines(parse, INITIAL, lines), ending, aborted).sent == announced.sent
  {
    var s, rest := ProcessLines(parse, INITIAL, lines[..k + 1]).state, lines[k + 1..];
    LinesSteady(parse, INITIAL, lines[..k + 1]);
    StandsIff(parse, s, rest, ending, aborted);
    After(parse, lines, k, |lines|);
    assert lines[..|lines|] == lines && rest[..|rest|] == rest;
    forall n | k < n <= |lines|
      ensures ProcessLines(parse, INITIAL, lines[..n]) == ProcessLines(parse, s, rest[..n - k - 1])
    {
      After(parse, lines, k, n);
    }
    if StaysAnnounced(parse, lines, k, ending, aborted) {
      forall n | 0 <= n <= |rest| ensures ProcessLines(parse, s, rest[..n]).state.partial == s.partial {
        assert ProcessLines(parse, INITIAL, lines[..n + k + 1]) == ProcessLines(parse, s, rest[..n]);
      }
    }
  }

  // ---- The message in the end ----

  lemma {:induction false} Untouched(parse: Parser, p: Part, events: seq<ProxyEvent>, i: int)
    requires forall e :: e in events ==> IndexOf(e) != Some(i)
    ensures PartAfter(parse, p, events, i) == p
  {
    if events != [] {
      Untouched(parse, p, events[..|events| - 1], i);
      assert events[|events| - 1] in events;
    }
  }

  /** Why a line throws, if it does, after others that did not: by what those said of the part it is about. */
  function BreakAt(parse: Parser, m: Message, streams: Streams, lines: seq<Text>, k: nat): Option<Problem>
    requires k < |lines|
  {
    if !(PREFIX <= lines[k]) then None
    else
      match parse.event(lines[k][|PREFIX|..])
      case Nothing => None
      case Malformed(message) => Some(message)
      case Event(e) =>
        if IndexOf(e).None? then None
        else
          var i := IndexOf(e).value;
          ProblemOf(PartAfter(parse, PartAt(m, streams, i), Said(parse, lines[..k]), i), e)
  }

  /** The first line from `k` on that throws, or the end of the lines. */
  function FirstBreak(parse: Parser, m: Message, streams: Streams, lines: seq<Text>, k: nat): (n: nat)
    requires k <= |lines|
    ensures k <= n <= |lines| && (n < |lines| ==> BreakAt(parse, m, streams, lines, n).Some?)
    decreases |lines| - k
  {
    if k == |lines| || BreakAt(parse, m, streams, lines, k).Some? then k else FirstBreak(parse, m, streams, lines, k + 1)
  }

  lemma BreakMeans(parse: Parser, s: State, lines: seq<Text>, k: nat)
    requires k < |lines| && ProcessLines(parse, s, lines[..k]).thrown.None?
    ensures match BreakAt(parse, s.partial, s.toolArguments, lines, k)
            case Some(message) =>
              ProcessLine(parse, ProcessLines(parse, s, lines[..k]).state, lines[k]) == Throws(message)
            case None => ProcessLine(parse, ProcessLines(parse, s, lines[..k]).state, lines[k]).Next?
  {
    var line, before := lines[k], ProcessLines(parse, s, lines[..k]).state;
    if PREFIX <= line && parse.event(line[|PREFIX|..]).Event? {
      var e := parse.event(line[|PREFIX|..]).event;
      LinesSay(parse, s, lines[..k]);
      ThrowsBy(parse, before, e);
      if IndexOf(e).Some? {
        PartsApart(parse, s, Said(parse, lines[..k]), IndexOf(e).value);
      }
    }
  }

  /** Up to the first line that throws lines are processed, and that line decides the rest. */
  lemma {:induction false} FirstBreakMeans(parse: Parser, s: State, lines: seq<Text>, k: nat)
    requires k <= |lines| && ProcessLines(parse, s, lines[..k]).thrown.None?
    ensures var n := FirstBreak(parse, s.partial, s.toolArguments, lines, k);
            && ProcessLines(parse, s, lines[..n]).thrown.None?
            && ProcessLines(parse, s, lines) == Progressed(ProcessLines(parse, s, lines[..n]).state,
                 if n == |lines| then None else BreakAt(parse, s.partial, s.toolArguments, lines, n))
    decreases |lines| - k
  {
    if k == |lines| {
      assert lines[..k] == lines;
    } else {
      BreakMeans(parse, s, lines, k);
      LineMore(parse, s, lines, k);
      if BreakAt(parse, s.partial, s.toolArguments, lines, k).None? {
        FirstBreakMeans(parse, s, lines, k + 1);
      }
    }
  }

  lemma LineMore(parse: Parser, s: State, lines: seq<Text>, k: nat)
    requires k < |lines| && ProcessLines(parse, s, lines[..k]).thrown.None?
    ensures match ProcessLine(parse, ProcessLines(parse, s, lines[..k]).state, lines[k])
            case Next(after) => ProcessLines(parse, s, lines[..k + 1]) == Progressed(after, None)
            case Throws(message) =>
              ProcessLines(parse, s, lines) == Progressed(ProcessLines(parse, s, lines[..k]).state, Some(message))
  {
    assert lines[..k + 1] == lines[..k] + [lines[k]] && lines == lines[..k] + lines[k..];
    LinesConcat(parse, s, lines[..k], [lines[k]]);
    LinesConcat(parse, s, lines[..k], lines[k..]);
  }

  /** What is said later makes every block it is about what it was. */
  predicate RestoresBlocks(parse: Parser, m: Message, streams: Streams, later: seq<ProxyEvent>) {
    forall e :: e in later && IndexOf(e).Some? ==>
      var i := IndexOf(e).value; PartAfter(parse, PartAt(m, streams, i), later, i).block == PartAt(m, streams, i).block
  }

  /** The lines before the first that throws restore every block they are about, and how the message stops; or else what is
      thrown in the end is what the message shows, with nothing else of how it stops changed before. */
  predicate Restores(parse: Parser, m: Message, streams: Streams, lines: seq<Text>, ending: Ending, aborted: bool) {
    var n := FirstBreak(parse, m, streams, lines, 0);
    var later := Said(parse, lines[..n]);
    var stopped := ClosingAfter(m.closing, later);
    && RestoresBlocks(parse, m, streams, later)
    && if n < |lines| then
         Shows(m, BreakAt(parse, m, streams, lines, n).value, false) && SameUse(stopped, m.closing)
       else if ending.ReadFails? then Shows(m, ending.message, aborted) && SameUse(stopped, m.closing)
       else stopped == m.closing
  }

  predicate SameUse(c: Closing, d: Closing) {
    c.usage == d.usage && c.level == d.level
  }

  lemma SameContent(m: Message, n: Message, streams: Streams, others: Streams)
    requires forall i :: PartAt(m, streams, i).block == PartAt(n, others, i).block
    ensures m.content == n.content
  {
    forall i ensures i in m.content <==> i in n.content
    {
      assert PartAt(m, streams, i).block == PartAt(n, others, i).block;
    }
    forall i | i in m.content ensures m.content[i] == n.content[i] {
      assert PartAt(m, streams, i).block == PartAt(n, others, i).block;
    }
  }

  lemma ContentIff(parse: Parser, s: State, later: seq<ProxyEvent>)
    requires ProcessEvents(parse, s, later).Next?
    ensures ProcessEvents(parse, s, later).state.partial.content == s.partial.content <==>
            RestoresBlocks(parse, s.partial, s.toolArguments, later)
  {
    var m, after := s.partial, ProcessEvents(parse, s, later).state;
    forall i
      ensures PartAt(after.partial, after.toolArguments, i) == PartAfter(parse, PartAt(m, s.toolArguments, i), later, i)
    {
      PartsApart(parse, s, later, i);
    }
    if RestoresBlocks(parse, m, s.toolArguments, later) {
      forall i ensures PartAt(after.partial, after.toolArguments, i).block == PartAt(m, s.toolArguments, i).block {
        if forall e :: e in later ==> IndexOf(e) != Some(i) {
          Untouched(parse, PartAt(m, s.toolArguments, i), later, i);
        }
      }
      SameContent(after.partial, m, after.toolArguments, s.toolArguments);
    }
  }

  lemma {:induction false} StillAnnounced(parse: Parser, s: State, lines: seq<Text>)
    requires Announced(s)
    ensures Announced(ProcessLines(parse, s, lines).state)
    decreases lines
  {
    if lines != [] {
      LineEffectMeans(parse, s, lines[0]);
      var step := ProcessLine(parse, s, lines[0]);
      if step.Next? {
        StillAnnounced(parse, step.state, lines[1..]);
      }
    }
  }

  /** Once it has been announced, a message ends as it was, or as one that failed. */
  lemma FinishShows(r: Progressed, ending: Ending, aborted: bool, m: Message)
    requires r.state.sawTerminalEvent
    ensures Finish(r, ending, aborted).partial == m <==>
            && r.state.partial.content == m.content
            && if r.thrown.Some? then Shows(m, r.thrown.value, false) && SameUse(r.state.partial.closing, m.closing)
               else if ending.ReadFails? then Shows(m, ending.message, aborted) && SameUse(r.state.partial.closing, m.closing)
               else r.state.partial.closing == m.closing
  {}

  /** The final message is the announced one exactly when the later lines restore it. */
  lemma FinalIff(parse: Parser, s: State, lines: seq<Text>, ending: Ending, aborted: bool)
    requires Announced(s)
    ensures Finish(ProcessLines(parse, s, lines), ending, aborted).partial == s.partial <==>
            Restores(parse, s.partial, s.toolArguments, lines, ending, aborted)
  {
    var n := FirstBreak(parse, s.partial, s.toolArguments, lines, 0);
    assert lines[..0] == [];
    FirstBreakMeans(parse, s, lines, 0);
    var later := Said(parse, lines[..n]);
    LinesSay(parse, s, lines[..n]);
    StillAnnounced(parse, s, lines);
    PartsApart(parse, s, later, 0);
    ContentIff(parse, s, later);
    FinishShows(ProcessLines(parse, s, lines), ending, aborted, s.partial);
  }

  lemma AnnouncedFinallyIff(parse: Parser, lines: seq<Text>, k: nat, ending: Ending, aborted: bool)
    requires Announces(parse, lines, k)
    ensures var announced := ProcessLines(parse, INITIAL, lines[..k + 1]).state;
            Finish(ProcessLines(parse, INITIAL, lines), ending, aborted).partial == announced.partial <==>
            Restores(parse, announced.partial, announced.toolArguments, lines[k + 1..], ending, aborted)
  {
    LinesSteady(parse, INITIAL, lines[..k + 1]);
    After(parse, lines, k, |lines|);
    assert lines[..|lines|] == lines && lines[k + 1..][..|lines| - k - 1] == lines[k + 1..];
    FinalIff(parse, ProcessLines(parse, INITIAL, lines[..k + 1]).state, lines[k + 1..], ending, aborted);
  }

  // ---- Inputs that change an announced message ----

  const DONE: Text := [0x44]
  const OTHER: Text := [0x21]

  /** Two lines, the first of which ends the message. */
  lemma TwoLines(parse: Parser, usage: Value)
    requires parse.event(DONE) == Event(Done(Stop, usage, None))
    ensures var lines := [PREFIX + DONE, PREFIX + OTHER];
            && Announces(parse, lines, 0)
            && ProcessLines(parse, INITIAL, lines[..1])
               == Progressed(State(Message(map[], Closing(Stop, None, usage, None)), map[], true, [Finished(Stop)]), None)
            && lines[1..] == [PREFIX + OTHER] && (PREFIX + OTHER)[|PREFIX|..] == OTHER
  {
    var lines := [PREFIX + DONE, PREFIX + OTHER];
    assert (PREFIX + DONE)[|PREFIX|..] == DONE && (PREFIX + OTHER)[|PREFIX|..] == OTHER;
    assert lines[..0] == [] && lines[..1] == [PREFIX + DONE];
    var after := ProcessLine(parse, INITIAL, PREFIX + DONE).state;
    assert after.sent == [Finished(Stop)];
    assert [PREFIX + DONE][1..] == [];
    assert ProcessLines(parse, after, []) == Progressed(after, None);
  }

  /** A line that cannot be parsed after the terminal one: nothing is sent, and the message is a failed one. */
  lemma LaterThrowOverwrites(parse: Parser, usage: Value, problem: Problem)
    requires parse.event(DONE) == Event(Done(Stop, usage, None)) && parse.event(OTHER) == Malformed(problem)
    ensures var r := ProcessLines(parse, INITIAL, [PREFIX + DONE, PREFIX + OTHER]);
            && r.thrown == Some(problem) && r.state.partial.closing.reason == Stop
            && Finish(r, Eof, false).partial.closing.reason == Error && Finish(r, Eof, false).sent == [Finished(Stop)]
  {
    TwoLines(parse, usage);
    LineMore(parse, INITIAL, [PREFIX + DONE, PREFIX + OTHER], 1);
  }

  /** The message ends a second time, with other tokens used: nothing is sent, and the message says so. */
  lemma SecondEndOverwrites(parse: Parser, usage: Value, other: Value)
    requires parse.event(DONE) == Event(Done(Stop, usage, None)) && parse.event(OTHER) == Event(Done(Stop, other, None))
    requires usage != other
    ensures var lines := [PREFIX + DONE, PREFIX + OTHER];
            var r := ProcessLines(parse, INITIAL, lines);
            && Announces(parse, lines, 0) && !StaysAnnounced(parse, lines, 0, Eof, false)
            && r.thrown == None && r.state.partial.closing.usage == other && r.state.sent == [Finished(Stop)]
  {
    var lines := [PREFIX + DONE, PREFIX + OTHER];
    TwoLines(parse, usage);
    LineMore(parse, INITIAL, lines, 1);
    assert lines[..2] == lines;
  }

  /** Later lines may take back what earlier ones did: started again, a block that gets its text back changes the message
      which yet is the announced one in the end. */
  lemma EditsMayCancel(parse: Parser, m: Message, text: Text)
    requires m.content == map[0 := TextBlock(text, None)] && text != []
    ensures var later := [TextStart(0), TextDelta(0, text)];
            && RestoresBlocks(parse, m, map[], later) && ClosingAfter(m.closing, later) == m.closing
            && EffectOf(parse, m, map[], later[0]).Changes?
  {
    var first: seq<ProxyEvent> := [TextStart(0)];
    var later: seq<ProxyEvent> := [TextStart(0), TextDelta(0, text)];
    var p := PartAt(m, map[], 0);
    assert later[..1] == first && first[..0] == [];
    assert PartAfter(parse, p, [], 0) == p;
    assert PartAfter(parse, p, first, 0) == p.(block := Some(TextBlock([], None)));
    assert [] + text == text;
    assert PartAfter(parse, p, later, 0) == p;
    assert ClosingAfter(m.closing, first) == m.closing;
  }
}
