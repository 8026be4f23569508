/** The events of an agent run and the grammar they follow. */
module AgentEvents {
  import opened Options
  import opened Transcript

  datatype Event =
    | AgentStart
    | AgentEnd(messages: seq<Message>)
    | TurnStart
    | TurnEnd(message: Message, results: seq<Message>)
    | MessageStart(message: Message)
    | MessageUpdate(message: Message)
    | MessageEnd(message: Message)
    | ToolStart(callId: string)
    | ToolUpdate(callId: string)
    | ToolEnd(callId: string, isError: bool)

  /** Where a run stands. In a turn: the message being written, if any, the calls being executed, the latest assistant
      message, the tool results since, and how many of its calls have started. */
  datatype Phase =
    | Fresh
    | Between
    | Turn(open: Option<Message>, running: multiset<string>, answer: Option<Message>, results: seq<Message>, started: nat)
    | Over
    | Broken

  /** A message ends as it started, except that an assistant message is written while it streams. */
  predicate SameMessage(start: Message, end: Message) {
    start == end || (start.Assistant? && end.Assistant?)
  }

  /** The call of an answer that starts next: they start in order. */
  function NextCall(answer: Option<Message>, started: nat): Option<string> {
    if answer.Some? && answer.value.Assistant? && started < |answer.value.calls| then Some(answer.value.calls[started].id)
    else None
  }

  function Next(p: Phase, e: Event): Phase {
    match p
    case Fresh => if e.AgentStart? then Between else Broken
    case Between =>
      if e.TurnStart? then Turn(None, multiset{}, None, [], 0) else if e.AgentEnd? then Over else Broken
    case Turn(open, running, answer, results, started) => (
      match e
      case MessageStart(m) =>
        if open.None? && running == multiset{} then p.(open := Some(m)) else Broken
      case MessageUpdate(m) => if open.Some? && open.value.Assistant? && m.Assistant? then p.(open := Some(m)) else Broken
      case MessageEnd(m) =>
        if open.None? || !SameMessage(open.value, m) then Broken
        else if m.Assistant? then Turn(None, running, Some(m), [], 0)
        else Turn(None, running, answer, if m.ToolResult? then results + [m] else results, started)
      case ToolStart(id) =>
        if open.None? && NextCall(answer, started) == Some(id) then
          p.(running := running + multiset{id}, started := started + 1)
        else Broken
      case ToolUpdate(id) => if open.None? && id in running then p else Broken
      case ToolEnd(id, _) => if open.None? && id in running then p.(running := running - multiset{id}) else Broken
      case TurnEnd(m, rs) =>
        if open.None? && running == multiset{} && answer == Some(m) && results == rs && started == |rs| then Between else Broken
      case _ => Broken)
    case Over => Broken
    case Broken => Broken
  }

  /** The set of pending call ids: a set, so of two running calls with one id it forgets both when the first ends. */
  function Reduce(calls: set<string>, e: Event): set<string> {
    match e
    case ToolStart(id) => calls + {id}
    case ToolEnd(id, _) => calls - {id}
    case _ => calls
  }

  /** Where a run stands, the messages it has completed, in order, and the ids pending. */
  datatype Mark = Mark(phase: Phase, ended: seq<Message>, calls: set<string>)

  const FIRST_MARK := Mark(Fresh, [], {})

  function Pass(m: Mark, e: Event): Mark {
    Mark(Next(m.phase, e), m.ended + (if e.MessageEnd? then [e.message] else []), Reduce(m.calls, e))
  }

  function MarkOf(events: seq<Event>): Mark {
    if events == [] then FIRST_MARK else Pass(MarkOf(events[..|events| - 1]), events[|events| - 1])
  }

  function After(events: seq<Event>): Phase {
    MarkOf(events).phase
  }

  function Ends(events: seq<Event>): seq<Message> {
    MarkOf(events).ended
  }

  function PendingCalls(events: seq<Event>): set<string> {
    MarkOf(events).calls
  }

  /** A trail of marks, one before and after each event. */
  ghost predicate Recorded(events: seq<Event>, trail: seq<Mark>) {
    && |trail| == |events| + 1 && trail[0] == FIRST_MARK
    && forall i {:trigger Pass(trail[i], events[i])} :: 0 <= i < |events| ==> trail[i + 1] == Pass(trail[i], events[i])
  }

  lemma RecordedGrows(events: seq<Event>, trail: seq<Mark>, e: Event)
    requires Recorded(events, trail)
    ensures Recorded(events + [e], trail + [Pass(trail[|events|], e)])
  {
    var more, next := events + [e], trail + [Pass(trail[|events|], e)];
    forall i | 0 <= i < |more| ensures next[i + 1] == Pass(next[i], more[i]) {
      assert i < |events| ==> trail[i + 1] == Pass(trail[i], events[i]);
    }
  }

  lemma {:induction false} RecordedAt(events: seq<Event>, trail: seq<Mark>, k: nat)
    requires Recorded(events, trail) && k <= |events|
    ensures trail[k] == MarkOf(events[..k])
  {
    if k > 0 {
      RecordedAt(events, trail, k - 1);
      var n := k - 1;
      MarkNext(events[..n], events[n]);
      assert events[..k] == events[..n] + [events[n]];
      assert trail[n + 1] == Pass(trail[n], events[n]);
    }
  }

  lemma MarkNext(events: seq<Event>, e: Event)
    ensures MarkOf(events + [e]) == Pass(MarkOf(events), e)
  {
    assert (events + [e])[..|events|] == events;
  }

  /** The trail of a run ends where the grammar puts it. */
  lemma RecordedMeans(events: seq<Event>, trail: seq<Mark>)
    requires Recorded(events, trail)
    ensures trail[|events|] == Mark(After(events), Ends(events), PendingCalls(events))
  {
    RecordedAt(events, trail, |events|);
    assert events[..|events|] == events;
  }

  lemma {:induction false} Marks(events: seq<Event>) returns (trail: seq<Mark>)
    ensures Recorded(events, trail) && trail[|events|] == MarkOf(events)
  {
    if events == [] {
      trail := [FIRST_MARK];
    } else {
      var n := |events| - 1;
      var before := Marks(events[..n]);
      RecordedGrows(events[..n], before, events[n]);
      trail := before + [Pass(before[n], events[n])];
      assert events[..n] + [events[n]] == events;
    }
  }

  /** A series in the grammar, with a mark before and after each event. */
  ghost predicate InGrammar(events: seq<Event>, trail: seq<Mark>) {
    Recorded(events, trail) && trail[|events|].phase != Broken
  }

  lemma {:induction false} NotBroken(events: seq<Event>, trail: seq<Mark>, k: nat)
    requires InGrammar(events, trail) && k <= |events|
    ensures trail[k].phase != Broken
    decreases |events| - k
  {
    if k < |events| {
      NotBroken(events, trail, k + 1);
      assert trail[k + 1] == Pass(trail[k], events[k]);
    }
  }

  lemma Passes(events: seq<Event>, trail: seq<Mark>, k: nat)
    requires InGrammar(events, trail) && k < |events|
    ensures trail[k + 1] == Pass(trail[k], events[k]) && Next(trail[k].phase, events[k]) != Broken
  {
    NotBroken(events, trail, k + 1);
    assert trail[k + 1] == Pass(trail[k], events[k]);
  }

  // ---- What the grammar means ----

  lemma LifecycleStep(p: Phase, e: Event)
    requires Next(p, e) != Broken
    ensures e.AgentStart? <==> p == Fresh
    ensures e.AgentEnd? <==> Next(p, e) == Over
    ensures Next(p, e) != Fresh && p != Over
  {}

  /** What the events around a mark say of it. */
  lemma Around(events: seq<Event>, trail: seq<Mark>, k: nat)
    requires InGrammar(events, trail) && k <= |events|
    ensures trail[k].phase == Fresh <==> k == 0
    ensures k < |events| ==> trail[k].phase != Over && (events[k].AgentStart? <==> k == 0)
    ensures k > 0 ==> (events[k - 1].AgentEnd? <==> trail[k].phase == Over)
  {
    if k < |events| {
      Passes(events, trail, k);
      LifecycleStep(trail[k].phase, events[k]);
    }
    if k > 0 {
      Passes(events, trail, k - 1);
      LifecycleStep(trail[k - 1].phase, events[k - 1]);
    }
  }

  /** A run in the grammar begins with its only `agent_start`. */
  lemma StartsOnce(events: seq<Event>, i: nat)
    requires After(events) != Broken && i < |events|
    ensures events[i].AgentStart? <==> i == 0
  {
    var trail := Marks(events);
    Around(events, trail, i);
  }

  /** Its only `agent_end` is its last event. */
  lemma EndsOnce(events: seq<Event>, i: nat)
    requires After(events) != Broken && i < |events|
    ensures events[i].AgentEnd? <==> After(events) == Over && i == |events| - 1
  {
    var trail := Marks(events);
    EndsAt(events, trail, i);
  }

  lemma EndsAt(events: seq<Event>, trail: seq<Mark>, i: nat)
    requires InGrammar(events, trail) && i < |events|
    ensures events[i].AgentEnd? <==> trail[|events|].phase == Over && i == |events| - 1
  {
    Around(events, trail, i + 1);
  }

  function Turns(events: seq<Event>): int {
    if events == [] then 0
    else Turns(events[..|events| - 1]) + var e := events[|events| - 1];
                                         if e.TurnStart? then 1 else if e.TurnEnd? then -1 else 0
  }

  /** Turns start and end by turns: at every point either none is open or exactly one is. */
  lemma {:induction false} TurnsAlternate(events: seq<Event>)
    requires After(events) != Broken
    ensures Turns(events) == if After(events).Turn? then 1 else 0
  {
    if events != [] {
      TurnsAlternate(events[..|events| - 1]);
    }
  }

  function Started(events: seq<Event>): multiset<string> {
    if events == [] then multiset{}
    else Started(events[..|events| - 1]) + var e := events[|events| - 1]; if e.ToolStart? then multiset{e.callId} else multiset{}
  }

  function Ended(events: seq<Event>): multiset<string> {
    if events == [] then multiset{}
    else Ended(events[..|events| - 1]) + var e := events[|events| - 1]; if e.ToolEnd? then multiset{e.callId} else multiset{}
  }

  function Running(p: Phase): multiset<string> {
    if p.Turn? then p.running else multiset{}
  }

  lemma RunningStep(p: Phase, e: Event)
    requires Next(p, e) != Broken
    ensures e.ToolStart? ==> Running(Next(p, e)) == Running(p) + multiset{e.callId}
    ensures e.ToolEnd? ==> e.callId in Running(p) && Running(Next(p, e)) == Running(p) - multiset{e.callId}
    ensures !e.ToolStart? && !e.ToolEnd? ==> Running(Next(p, e)) == Running(p)
  {}

  /** Every executed call that started has ended exactly once, but for those running now; so between turns, all have. */
  lemma {:induction false} CallsBalance(events: seq<Event>)
    requires After(events) != Broken
    ensures Started(events) == Ended(events) + Running(After(events))
  {
    if events != [] {
      var before := events[..|events| - 1];
      CallsBalance(before);
      RunningStep(After(before), events[|events| - 1]);
    }
  }

  // ---- Pending and running calls ----

  ghost predicate Exact(m: Mark) {
    forall id :: id in m.calls <==> id in Running(m.phase)
  }

  /** At every point the pending ids are those of the running calls. */
  ghost predicate AlwaysExact(trail: seq<Mark>) {
    forall k :: 0 <= k < |trail| ==> Exact(trail[k])
  }

  /** No call ends while another with its id runs. */
  ghost predicate EndsAlone(events: seq<Event>, trail: seq<Mark>)
    requires |trail| == |events| + 1
  {
    forall k :: 0 <= k < |events| && events[k].ToolEnd? ==> Running(trail[k].phase)[events[k].callId] <= 1
  }

  /** No call starts while another with its id runs. */
  ghost predicate NeverTwice(events: seq<Event>, trail: seq<Mark>)
    requires |trail| == |events| + 1
  {
    forall k :: 0 <= k < |events| && events[k].ToolStart? ==> events[k].callId !in Running(trail[k].phase)
  }

  /** Every pending id is that of a running call. */
  lemma {:induction false} PendingAreRunning(events: seq<Event>, trail: seq<Mark>, k: nat)
    requires InGrammar(events, trail) && k <= |events|
    ensures forall id :: id in trail[k].calls ==> id in Running(trail[k].phase)
  {
    if k > 0 {
      PendingAreRunning(events, trail, k - 1);
      Passes(events, trail, k - 1);
      RunningStep(trail[k - 1].phase, events[k - 1]);
    }
  }

  lemma ExactNext(m: Mark, e: Event)
    requires Next(m.phase, e) != Broken && Exact(m)
    ensures Exact(Pass(m, e)) <==> (e.ToolEnd? ==> Running(m.phase)[e.callId] <= 1)
  {
    RunningStep(m.phase, e);
    if e.ToolEnd? {
      assert Running(Next(m.phase, e))[e.callId] == Running(m.phase)[e.callId] - 1;
    }
  }

  lemma {:induction false} ExactAt(events: seq<Event>, trail: seq<Mark>, k: nat)
    requires InGrammar(events, trail) && EndsAlone(events, trail) && k <= |events|
    ensures Exact(trail[k])
  {
    if k > 0 {
      ExactAt(events, trail, k - 1);
      Passes(events, trail, k - 1);
      ExactNext(trail[k - 1], events[k - 1]);
    }
  }

  /** Pending and running agree at every point of a series exactly when no call of it ends beside another with its id. */
  lemma ExactIffEndsAlone(events: seq<Event>, trail: seq<Mark>)
    requires InGrammar(events, trail)
    ensures AlwaysExact(trail) <==> EndsAlone(events, trail)
  {
    if EndsAlone(events, trail) {
      forall k | 0 <= k < |trail| ensures Exact(trail[k]) {
        ExactAt(events, trail, k);
      }
    }
    if AlwaysExact(trail) {
      forall k | 0 <= k < |events| && events[k].ToolEnd? ensures Running(trail[k].phase)[events[k].callId] <= 1 {
        Passes(events, trail, k);
        assert Exact(trail[k]) && Exact(trail[k + 1]);
        ExactNext(trail[k], events[k]);
      }
    }
  }

  lemma {:induction false} RunsOnce(events: seq<Event>, trail: seq<Mark>, k: nat, id: string)
    requires InGrammar(events, trail) && NeverTwice(events, trail) && k <= |events|
    ensures Running(trail[k].phase)[id] <= 1
  {
    if k > 0 {
      RunsOnce(events, trail, k - 1, id);
      Passes(events, trail, k - 1);
      RunningStep(trail[k - 1].phase, events[k - 1]);
    }
  }

  /** Calls with one id go on running together, when none of them ends beside another. */
  lemma {:induction false} StillTwo(events: seq<Event>, trail: seq<Mark>, from: nat, k: nat, id: string)
    requires InGrammar(events, trail) && EndsAlone(events, trail) && from <= k <= |events|
    requires Running(trail[from].phase)[id] >= 2
    ensures Running(trail[k].phase)[id] >= 2
  {
    if from < k {
      StillTwo(events, trail, from, k - 1, id);
      Passes(events, trail, k - 1);
      RunningStep(trail[k - 1].phase, events[k - 1]);
    }
  }

  /** Even while calls still run. */
  lemma NeverTwiceIsExact(events: seq<Event>, trail: seq<Mark>)
    requires InGrammar(events, trail) && NeverTwice(events, trail)
    ensures EndsAlone(events, trail) && AlwaysExact(trail)
  {
    forall k | 0 <= k < |events| && events[k].ToolEnd? ensures Running(trail[k].phase)[events[k].callId] <= 1 {
      RunsOnce(events, trail, k, events[k].callId);
    }
    ExactIffEndsAlone(events, trail);
  }

  lemma NoneBeside(events: seq<Event>, trail: seq<Mark>, k: nat)
    requires InGrammar(events, trail) && EndsAlone(events, trail) && Running(trail[|events|].phase) == multiset{}
    requires k < |events| && events[k].ToolStart?
    ensures events[k].callId !in Running(trail[k].phase)
  {
    var id := events[k].callId;
    if id in Running(trail[k].phase) {
      Passes(events, trail, k);
      RunningStep(trail[k].phase, events[k]);
      StillTwo(events, trail, k + 1, |events|, id);
    }
  }

  /** In a series whose calls have all ended, pending and running agree at every point exactly when no call starts while
      another with its id runs. */
  lemma ExactIffNeverTwice(events: seq<Event>, trail: seq<Mark>)
    requires InGrammar(events, trail) && Running(trail[|events|].phase) == multiset{}
    ensures AlwaysExact(trail) <==> NeverTwice(events, trail)
  {
    ExactIffEndsAlone(events, trail);
    if NeverTwice(events, trail) {
      NeverTwiceIsExact(events, trail);
    } else if EndsAlone(events, trail) {
      var k :| 0 <= k < |events| && events[k].ToolStart? && events[k].callId in Running(trail[k].phase);
      NoneBeside(events, trail, k);
    }
  }

  // ---- Distinct ids ----

  predicate DistinctIds(calls: seq<ToolCall>) {
    forall i, j :: 0 <= i < j < |calls| ==> calls[i].id != calls[j].id
  }

  /** No answer calls twice with one id. */
  predicate Tidy(messages: seq<Message>) {
    forall m :: m in messages && m.Assistant? ==> DistinctIds(m.calls)
  }

  /** The running calls are among the answer's that have started, and no message is being written beside them. */
  ghost predicate Among(p: Phase) {
    p.Turn? && p.running != multiset{} ==>
      && p.open.None? && p.answer.Some? && p.answer.value.Assistant? && p.started <= |p.answer.value.calls|
      && forall id :: id in p.running ==> StartedWith(p.answer.value.calls, p.started, id)
  }

  predicate StartedWith(calls: seq<ToolCall>, n: nat, id: string)
    requires n <= |calls|
  {
    exists j :: 0 <= j < n && calls[j].id == id
  }

  lemma StartedMore(calls: seq<ToolCall>, n: nat, id: string)
    requires n < |calls| && (StartedWith(calls, n, id) || calls[n].id == id)
    ensures StartedWith(calls, n + 1, id)
  {
    if calls[n].id != id {
      var j :| 0 <= j < n && calls[j].id == id;
      assert 0 <= j < n + 1;
    }
  }

  lemma AmongNext(p: Phase, e: Event)
    requires Among(p) && Next(p, e) != Broken
    ensures Among(Next(p, e))
  {
    RunningStep(p, e);
    if e.ToolStart? {
      forall id | id in p.running + multiset{e.callId} ensures StartedWith(p.answer.value.calls, p.started + 1, id) {
        StartedMore(p.answer.value.calls, p.started, id);
      }
    }
  }

  lemma {:induction false} RunningAmong(events: seq<Event>, trail: seq<Mark>, k: nat)
    requires InGrammar(events, trail) && k <= |events|
    ensures Among(trail[k].phase)
    ensures trail[k].phase.Turn? && trail[k].phase.answer.Some? ==> trail[k].phase.answer.value in trail[k].ended
  {
    if k > 0 {
      RunningAmong(events, trail, k - 1);
      Passes(events, trail, k - 1);
      AmongNext(trail[k - 1].phase, events[k - 1]);
    }
  }

  lemma {:induction false} EndedGrows(events: seq<Event>, trail: seq<Mark>, k: nat)
    requires Recorded(events, trail) && k <= |events|
    ensures trail[k].ended <= trail[|events|].ended
    decreases |events| - k
  {
    if k < |events| {
      assert trail[k + 1] == Pass(trail[k], events[k]);
      EndedGrows(events, trail, k + 1);
    }
  }

  lemma NextIsNew(p: Phase, id: string)
    requires Among(p) && p.Turn? && NextCall(p.answer, p.started) == Some(id) && DistinctIds(p.answer.value.calls)
    ensures id !in p.running
  {
    var calls := p.answer.value.calls;
    assert forall j :: 0 <= j < p.started ==> calls[j].id != calls[p.started].id;
  }

  /** Where no answer calls twice with one id, no call starts while another with its id runs. */
  lemma TidyNeverTwice(events: seq<Event>, trail: seq<Mark>)
    requires InGrammar(events, trail) && Tidy(trail[|events|].ended)
    ensures NeverTwice(events, trail) && AlwaysExact(trail)
  {
    forall k | 0 <= k < |events| && events[k].ToolStart? ensures events[k].callId !in Running(trail[k].phase) {
      Passes(events, trail, k);
      RunningAmong(events, trail, k);
      EndedGrows(events, trail, k);
      NextIsNew(trail[k].phase, events[k].callId);
    }
    NeverTwiceIsExact(events, trail);
  }

  /** An answer whose first two calls have one id, started side by side. */
  function TwiceStarted(answer: Message, x: string): seq<Event> {
    [AgentStart, TurnStart, MessageStart(answer), MessageEnd(answer), ToolStart(x), ToolStart(x), ToolEnd(x, false)]
  }

  /** When the first of them has ended the second still runs, but is no longer pending. */
  lemma TwiceForgets(answer: Message, x: string) returns (trail: seq<Mark>)
    requires answer.Assistant? && |answer.calls| >= 2 && answer.calls[0].id == answer.calls[1].id == x
    ensures InGrammar(TwiceStarted(answer, x), trail) && !AlwaysExact(trail)
    ensures x in Running(trail[7].phase) && x !in trail[7].calls
  {
    var m4 := Mark(Turn(None, multiset{}, Some(answer), [], 0), [answer], {});
    var m5 := Pass(m4, ToolStart(x));
    var m6 := Pass(m5, ToolStart(x));
    var m7 := Pass(m6, ToolEnd(x, false));
    assert m5.phase == Turn(None, multiset{} + multiset{x}, Some(answer), [], 1);
    assert m6.phase == Turn(None, multiset{} + multiset{x} + multiset{x}, Some(answer), [], 2);
    trail := [FIRST_MARK, Mark(Between, [], {}), Mark(Turn(None, multiset{}, None, [], 0), [], {}),
              Mark(Turn(Some(answer), multiset{}, None, [], 0), [], {}), m4, m5, m6, m7];
    var events := TwiceStarted(answer, x);
    forall i | 0 <= i < 7 ensures trail[i + 1] == Pass(trail[i], events[i]) {
      assert i == 0 || i == 1 || i == 2 || i == 3 || i == 4 || i == 5 || i == 6;
    }
    assert x in m7.phase.running && !Exact(trail[7]);
  }
}
