/** One assistant answer: streaming it, and executing the calls it makes, one by one or side by side. What the model, the
    tools, the hooks and the abort signal do comes from a script; each reading of the signal is an entry of its own. */
module AgentTools {
  import opened Options
  import opened Transcript
  import opened AgentEvents
  import opened Agent

  type Answer = m: Message | m.Assistant? witness Assistant("", [], Stop)

  datatype StreamEvent = Begin(partial: Answer) | Delta(partial: Answer) | Finish

  /** The partial messages a stream opens before it finishes. */
  function Begins(stream: seq<StreamEvent>): nat {
    if stream == [] || stream[0].Finish? then 0
    else (if stream[0].Begin? then 1 else 0) + Begins(stream[1..])
  }

  datatype Block = Block(reason: string, terminate: bool)
  datatype Execution = Returned(content: string, isError: bool, terminate: bool) | Threw(message: string)
  datatype AfterHook =
    | Keep
    | Replace(content: Option<string>, isError: Option<bool>, terminate: Option<bool>)
    | HookThrew(message: string)

  /** What happens to one call, whatever of it is asked for. */
  datatype CallScript = CallScript(
    invalid: Option<string>, abortedInHook: bool, block: Option<Block>, abortedPreparing: bool, abortedStarting: bool,
    updates: nat, execution: Execution, hook: AfterHook, abortedAfter: bool)

  const DEFAULT_SCRIPT := CallScript(None, false, None, false, false, 0, Threw(""), Keep, false)

  function ScriptOf(scripts: seq<CallScript>, i: nat): CallScript {
    if i < |scripts| then scripts[i] else DEFAULT_SCRIPT
  }

  datatype Final = Final(call: ToolCall, content: string, isError: bool, terminate: bool)

  function Failed(call: ToolCall, message: string): Final {
    Final(call, message, true, false)
  }

  function FindTool(tools: seq<Tool>, name: string): Option<Tool> {
    if tools == [] then None
    else if tools[0].declaration.name == name then Some(tools[0])
    else FindTool(tools[1..], name)
  }

  /** A call that is settled without executing, or nothing when it may execute. */
  function PrepareToolCall(tools: seq<Tool>, call: ToolCall, s: CallScript): Option<Final> {
    if FindTool(tools, call.name).None? then Some(Failed(call, "Tool " + call.name + " not found"))
    else if s.invalid.Some? then Some(Failed(call, s.invalid.value))
    else if s.abortedInHook then Some(Failed(call, "Operation aborted"))
    else if s.block.Some? then
      var reason := s.block.value.reason;
      Some(Final(call, if reason == "" then "Tool execution was blocked" else reason, true, s.block.value.terminate))
    else if s.abortedPreparing then Some(Failed(call, "Operation aborted"))
    else None
  }

  function FinalizeToolCall(call: ToolCall, s: CallScript): Final {
    var executed := match s.execution
      case Returned(content, isError, terminate) => Final(call, content, isError, terminate)
      case Threw(message) => Failed(call, message);
    match s.hook
    case Keep => executed
    case Replace(content, isError, terminate) =>
      Final(call, content.Or(executed.content), isError.Or(executed.isError), terminate.Or(executed.terminate))
    case HookThrew(message) => Failed(call, message)
  }

  /** What becomes of a call, whatever happens to the others meanwhile. */
  function FinalOf(tools: seq<Tool>, call: ToolCall, s: CallScript, parallel: bool): Final {
    var settled := PrepareToolCall(tools, call, s);
    if settled.Some? then settled.value
    else if parallel && s.abortedStarting then Failed(call, "Operation aborted")
    else FinalizeToolCall(call, s)
  }

  function FinalsOf(tools: seq<Tool>, calls: seq<ToolCall>, scripts: seq<CallScript>, n: nat, parallel: bool): (r: seq<Final>)
    requires n <= |calls|
    ensures |r| == n
  {
    seq(n, i requires 0 <= i < n => FinalOf(tools, calls[i], ScriptOf(scripts, i), parallel))
  }

  function ResultMessage(f: Final): Message {
    ToolResult(f.call.id, f.call.name, f.content, f.isError)
  }

  function ResultMessages(finals: seq<Final>): (r: seq<Message>)
    ensures |r| == |finals|
  {
    seq(|finals|, i requires 0 <= i < |finals| => ResultMessage(finals[i]))
  }

  predicate ShouldTerminate(finals: seq<Final>) {
    finals != [] && forall f :: f in finals ==> f.terminate
  }

  /** Result messages answer the calls of a message from the first on, in its order. */
  predicate Answers(results: seq<Message>, calls: seq<ToolCall>) {
    |results| <= |calls| && forall i :: 0 <= i < |results| ==>
      results[i].ToolResult? && results[i].callId == calls[i].id && results[i].toolName == calls[i].name
  }

  // ---- Emitting ----

  method EmitMessage(agent: Agent, m: Message)
    requires agent.Reduced() && agent.Here().Idle()
    modifies agent
    ensures agent.Reduced() && agent.Here() == old(agent.Here()).Completing(m)
  {
    agent.ProcessEvent(MessageStart(m));
    agent.ProcessEvent(MessageEnd(m));
  }

  method EmitResult(agent: Agent, f: Final)
    requires agent.Reduced() && agent.Here().Idle()
    modifies agent
    ensures agent.Reduced() && agent.Here() == old(agent.Here()).Reporting([ResultMessage(f)])
  {
    EmitMessage(agent, ResultMessage(f));
  }

  /** The call to start next has this id. */
  predicate Calls(s: Spot, id: string) {
    s.InTurn() && NextCall(s.phase.answer, s.phase.started) == Some(id)
  }

  method EmitToolStart(agent: Agent, id: string)
    requires agent.Reduced() && Calls(agent.Here(), id)
    modifies agent
    ensures agent.Reduced()
    ensures agent.Here() == old(agent.Here()).Preparing(old(agent.phase.running) + multiset{id}, old(agent.phase.started) + 1)
  {
    agent.ProcessEvent(ToolStart(id));
  }

  method EmitToolEnd(agent: Agent, id: string, isError: bool)
    requires agent.Reduced() && agent.Here().InTurn() && id in agent.phase.running
    modifies agent
    ensures agent.Reduced() && agent.Here() == old(agent.Here()).Executing(old(agent.phase.running) - multiset{id})
  {
    agent.ProcessEvent(ToolEnd(id, isError));
  }

  /** Progress reports of an executing call. */
  method EmitUpdates(agent: Agent, id: string, count: nat)
    requires agent.Reduced() && agent.Here().InTurn() && id in agent.phase.running
    modifies agent
    ensures agent.Reduced() && agent.Here() == old(agent.Here())
  {
    for k := 0 to count
      invariant agent.Reduced() && agent.Here() == old(agent.Here())
    {
      agent.ProcessEvent(ToolUpdate(id));
    }
  }

  // ---- Streaming an answer ----

  /** The answer joins the context where its partial forms stood. The stream may open at most one partial message. */
  method StreamAssistantResponse(agent: Agent, messages: seq<Message>, stream: seq<StreamEvent>, answer: Answer)
    returns (after: seq<Message>)
    requires agent.Reduced() && agent.Here().Idle() && Begins(stream) <= 1
    modifies agent
    ensures agent.Reduced() && agent.Here() == old(agent.Here()).Completing(answer)
    ensures after == messages + [answer]
  {
    after := messages;
    var addedPartial := false;
    var i := 0;
    while i < |stream| && !stream[i].Finish?
      invariant 0 <= i <= |stream| && agent.Reduced() && agent.phase.Turn?
      invariant agent.Here() == old(agent.Here()).(phase := old(agent.phase).(open := agent.phase.open))
      invariant if addedPartial
                then agent.phase.open.Some? && agent.phase.open.value.Assistant? && |after| == |messages| + 1
                     && after[..|messages|] == messages && Begins(stream[i..]) == 0
                else agent.phase.open.None? && after == messages && Begins(stream[i..]) <= 1
    {
      match stream[i] {
        case Begin(partial) =>
          after := after + [partial];
          addedPartial := true;
          agent.ProcessEvent(MessageStart(partial));
        case Delta(partial) =>
          if addedPartial {
            after := after[|after| - 1 := partial];
            agent.ProcessEvent(MessageUpdate(partial));
          }
        case Finish =>
      }
      i := i + 1;
    }
    if addedPartial {
      after := after[|after| - 1 := answer];
    } else {
      after := after + [answer];
      agent.ProcessEvent(MessageStart(answer));
    }
    agent.ProcessEvent(MessageEnd(answer));
  }

  // ---- Executing calls ----

  /** Ready to execute the calls of the answer just completed. */
  ghost predicate Answered(s: Spot, calls: seq<ToolCall>) {
    && s.Idle() && s.phase.answer.Some? && s.phase.answer.value.Assistant? && s.phase.answer.value.calls == calls
    && s.phase.started == 0
  }

  /** An answer cut off by the token limit: every call is reported as an error, and none is executed. */
  method FailTruncated(agent: Agent, calls: seq<ToolCall>) returns (messages: seq<Message>)
    requires agent.Reduced() && Answered(agent.Here(), calls)
    modifies agent
    ensures agent.Reduced() && agent.Here() == old(agent.Here()).Answering(messages)
    ensures Answers(messages, calls) && |messages| == |calls| && forall m :: m in messages ==> m.isError
  {
    messages := [];
    for i := 0 to |calls|
      invariant agent.Reduced() && agent.Here() == old(agent.Here()).Answering(messages)
      invariant Answers(messages, calls) && |messages| == i && forall m :: m in messages ==> m.isError
    {
      EmitToolStart(agent, calls[i].id);
      var final := Failed(calls[i], "Tool call \"" + calls[i].name + "\" was not executed");
      EmitToolEnd(agent, calls[i].id, final.isError);
      EmitResult(agent, final);
      messages := messages + [ResultMessage(final)];
    }
  }

  /** Whether a tool is asked to execute a call. */
  predicate Executes(tools: seq<Tool>, call: ToolCall, s: CallScript, parallel: bool) {
    PrepareToolCall(tools, call, s).None? && !(parallel && s.abortedStarting)
  }

  /** The calls executed among the first `n`, in order. */
  function ExecutedCalls(tools: seq<Tool>, calls: seq<ToolCall>, scripts: seq<CallScript>, n: nat, parallel: bool): seq<ToolCall>
    requires n <= |calls|
  {
    if n == 0 then []
    else ExecutedCalls(tools, calls, scripts, n - 1, parallel)
         + ExecutedCall(tools, calls[n - 1], ScriptOf(scripts, n - 1), parallel)
  }

  function ExecutedCall(tools: seq<Tool>, call: ToolCall, s: CallScript, parallel: bool): seq<ToolCall> {
    if Executes(tools, call, s, parallel) then [call] else []
  }

  /** Ask the tool of a call to execute it, and pass on the progress it reports. */
  method BeginExecuting(agent: Agent, call: ToolCall, s: CallScript)
    requires agent.Reduced() && agent.Here().InTurn() && call.id in agent.phase.running
    modifies agent
    ensures agent.Reduced() && agent.Here() == old(agent.Here()).Having([call])
  {
    agent.executed := agent.executed + [call];
    EmitUpdates(agent, call.id, s.updates);
  }

  /** One call from its start to its result message. */
  method ExecuteOne(agent: Agent, tools: seq<Tool>, call: ToolCall, s: CallScript) returns (final: Final)
    requires agent.Reduced() && agent.Here().Idle() && Calls(agent.Here(), call.id)
    modifies agent
    ensures agent.Reduced() && final.call == call && final == FinalOf(tools, call, s, false)
    ensures agent.Here() == old(agent.Here()).Having(ExecutedCall(tools, call, s, false))
                                             .Answering([ResultMessage(final)])
  {
    EmitToolStart(agent, call.id);
    var settled := PrepareToolCall(tools, call, s);
    if settled.Some? {
      final := settled.value;
    } else {
      BeginExecuting(agent, call, s);
      final := FinalizeToolCall(call, s);
    }
    EmitToolEnd(agent, call.id, final.isError);
    EmitResult(agent, final);
  }

  lemma OneMore(s: Spot, a: seq<ToolCall>, m: seq<Message>, b: seq<ToolCall>, n: Message)
    requires s.phase.Turn?
    ensures s.Having(a).Answering(m).Having(b).Answering([n]) == s.Having(a + b).Answering(m + [n])
  {
    Associate(s.phase.results, m, [n]);
    Associate(s.ended, m, [n]);
    Associate(s.executed, a, b);
  }

  lemma FinalsMore(tools: seq<Tool>, calls: seq<ToolCall>, scripts: seq<CallScript>, n: nat, parallel: bool)
    requires n < |calls|
    ensures var before, f := FinalsOf(tools, calls, scripts, n, parallel), FinalOf(tools, calls[n], ScriptOf(scripts, n), parallel);
            && FinalsOf(tools, calls, scripts, n + 1, parallel) == before + [f]
            && ResultMessages(before + [f]) == ResultMessages(before) + [ResultMessage(f)]
  {}

  lemma FinalsAnswer(tools: seq<Tool>, calls: seq<ToolCall>, scripts: seq<CallScript>, n: nat, parallel: bool)
    requires n <= |calls|
    ensures Answers(ResultMessages(FinalsOf(tools, calls, scripts, n, parallel)), calls)
  {}

  /** The state after the first `n` calls of a batch were executed one after another. */
  ghost function InSequence(s: Spot, tools: seq<Tool>, calls: seq<ToolCall>, scripts: seq<CallScript>, n: nat): Spot
    requires s.phase.Turn? && n <= |calls|
  {
    s.Having(ExecutedCalls(tools, calls, scripts, n, false)).Answering(ResultMessages(FinalsOf(tools, calls, scripts, n, false)))
  }

  method ExecuteNext(agent: Agent, tools: seq<Tool>, calls: seq<ToolCall>, scripts: seq<CallScript>, i: nat, ghost start: Spot)
    returns (final: Final)
    requires agent.Reduced() && Answered(start, calls) && i < |calls| && agent.Here() == InSequence(start, tools, calls, scripts, i)
    modifies agent
    ensures agent.Reduced() && agent.Here() == InSequence(start, tools, calls, scripts, i + 1)
    ensures final == FinalOf(tools, calls[i], ScriptOf(scripts, i), false)
  {
    final := ExecuteOne(agent, tools, calls[i], ScriptOf(scripts, i));
    FinalsMore(tools, calls, scripts, i, false);
    OneMore(start, ExecutedCalls(tools, calls, scripts, i, false), ResultMessages(FinalsOf(tools, calls, scripts, i, false)),
            ExecutedCall(tools, calls[i], ScriptOf(scripts, i), false), ResultMessage(final));
  }

  /** Calls one after another; an abort after a call leaves the rest alone. */
  method ExecuteSequential(agent: Agent, tools: seq<Tool>, calls: seq<ToolCall>, scripts: seq<CallScript>)
    returns (messages: seq<Message>, terminate: bool)
    requires agent.Reduced() && Answered(agent.Here(), calls)
    modifies agent
    ensures agent.Reduced() && |messages| <= |calls| && CutAt(messages, calls, scripts)
    ensures agent.Here() == InSequence(old(agent.Here()), tools, calls, scripts, |messages|)
    ensures var finals := FinalsOf(tools, calls, scripts, |messages|, false);
            messages == ResultMessages(finals) && terminate == ShouldTerminate(finals)
  {
    messages := [];
    var finals := [];
    for i := 0 to |calls|
      invariant agent.Reduced() && agent.Here() == InSequence(old(agent.Here()), tools, calls, scripts, i)
      invariant finals == FinalsOf(tools, calls, scripts, i, false) && messages == ResultMessages(finals)
    {
      var final := ExecuteNext(agent, tools, calls, scripts, i, old(agent.Here()));
      FinalsMore(tools, calls, scripts, i, false);
      finals := finals + [final];
      messages := messages + [ResultMessage(final)];
      if ScriptOf(scripts, i).abortedAfter {
        break;
      }
    }
    terminate := ShouldTerminate(finals);
  }

  /** Fewer results than calls only where the abort signal was read. */
  predicate CutAt(messages: seq<Message>, calls: seq<ToolCall>, scripts: seq<CallScript>) {
    |messages| == |calls| || (messages != [] && ScriptOf(scripts, |messages| - 1).abortedAfter)
  }

  /** A call of a parallel batch: settled, waiting to start, or executing. */
  datatype Entry = Settled(final: Final) | Waiting(call: ToolCall, script: CallScript) | Active(call: ToolCall, script: CallScript) {
    function Call(): ToolCall {
      if Settled? then final.call else call
    }
  }

  /** What the executing calls do next, in whatever order. */
  datatype Tick = Update(entry: nat) | Complete(entry: nat)

  /** The ids of the calls among the first `n` entries that have not settled. */
  function OpenUpTo(entries: seq<Entry>, n: nat): multiset<string>
    requires n <= |entries|
  {
    if n == 0 then multiset{} else OpenUpTo(entries, n - 1) + OpenCall(entries[n - 1])
  }

  function Open(entries: seq<Entry>): multiset<string> {
    OpenUpTo(entries, |entries|)
  }

  function OpenCall(e: Entry): multiset<string> {
    if e.Settled? then multiset{} else multiset{e.Call().id}
  }

  lemma {:induction false} OpenPrefix(entries: seq<Entry>, e: Entry, n: nat)
    requires n <= |entries|
    ensures OpenUpTo(entries + [e], n) == OpenUpTo(entries, n)
  {
    if n > 0 {
      OpenPrefix(entries, e, n - 1);
    }
  }

  lemma OpenAppended(entries: seq<Entry>, e: Entry)
    ensures Open(entries + [e]) == Open(entries) + OpenCall(e)
  {
    OpenPrefix(entries, e, |entries|);
  }

  /** The call that a change of its entry closes. */
  function Closing(before: Entry, after: Entry): multiset<string> {
    if !before.Settled? && after.Settled? then multiset{before.Call().id} else multiset{}
  }

  /** What is open after the change and what it closes, at the changed entry, and further on. */
  lemma ClosesHere(open: multiset<string>, before: Entry, after: Entry)
    requires after.Call() == before.Call() && (before.Settled? ==> after.Settled?)
    ensures (open + OpenCall(after)) + Closing(before, after) == open + OpenCall(before)
  {}

  lemma ClosesFurther(after: multiset<string>, closing: multiset<string>, before: multiset<string>, more: multiset<string>)
    requires after + closing == before
    ensures (after + more) + closing == before + more
  {}

  lemma {:induction false} OpenBefore(entries: seq<Entry>, i: nat, e: Entry, n: nat)
    requires n <= i < |entries|
    ensures OpenUpTo(entries[i := e], n) == OpenUpTo(entries, n)
  {
    if n > 0 {
      OpenBefore(entries, i, e, n - 1);
    }
  }

  lemma {:induction false} OpenAfter(entries: seq<Entry>, i: nat, e: Entry, n: nat)
    requires i < n <= |entries| && e.Call() == entries[i].Call() && (entries[i].Settled? ==> e.Settled?)
    ensures OpenUpTo(entries[i := e], n) + Closing(entries[i], e) == OpenUpTo(entries, n)
  {
    var updated := entries[i := e];
    if n - 1 == i {
      OpenBefore(entries, i, e, i);
      ClosesHere(OpenUpTo(entries, i), entries[i], e);
      assert updated[i] == e;
    } else {
      OpenAfter(entries, i, e, n - 1);
      ClosesFurther(OpenUpTo(updated, n - 1), Closing(entries[i], e), OpenUpTo(entries, n - 1), OpenCall(entries[n - 1]));
      assert updated[n - 1] == entries[n - 1];
    }
  }

  lemma {:induction false} OpenHas(entries: seq<Entry>, i: nat, n: nat)
    requires i < n <= |entries| && !entries[i].Settled?
    ensures entries[i].Call().id in OpenUpTo(entries, n)
  {
    if n - 1 > i {
      OpenHas(entries, i, n - 1);
    }
  }

  lemma Without(a: multiset<string>, b: multiset<string>, c: multiset<string>)
    requires a + c == b
    ensures a == b - c
  {}

  lemma OpenUpdated(entries: seq<Entry>, i: nat, e: Entry)
    requires i < |entries| && e.Call() == entries[i].Call() && (entries[i].Settled? ==> e.Settled?)
    ensures !entries[i].Settled? ==> entries[i].Call().id in Open(entries)
    ensures Open(entries[i := e]) == Open(entries) - Closing(entries[i], e)
  {
    if !entries[i].Settled? {
      OpenHas(entries, i, |entries|);
    }
    OpenAfter(entries, i, e, |entries|);
    Without(Open(entries[i := e]), Open(entries), Closing(entries[i], e));
  }

  /** The entries are those of the first calls, in their order. */
  predicate Cover(entries: seq<Entry>, calls: seq<ToolCall>) {
    |entries| <= |calls| && forall i :: 0 <= i < |entries| ==> entries[i].Call() == calls[i]
  }

  /** An entry waits exactly when its call may execute. */
  predicate Prepared(tools: seq<Tool>, call: ToolCall, s: CallScript, entry: Entry) {
    match PrepareToolCall(tools, call, s)
    case None => entry == Waiting(call, s)
    case Some(final) => entry == Settled(final)
  }

  /** What an entry may have become by a later moment. */
  predicate Leads(from: Entry, to: Entry) {
    || to == from
    || match from
       case Settled(_) => false
       case Waiting(call, s) =>
         if s.abortedStarting then to == Settled(Failed(call, "Operation aborted"))
         else to == Active(call, s) || to == Settled(FinalizeToolCall(call, s))
       case Active(call, s) => to == Settled(FinalizeToolCall(call, s))
  }

  predicate AllLead(from: seq<Entry>, to: seq<Entry>) {
    |to| == |from| && forall i :: 0 <= i < |from| ==> Leads(from[i], to[i])
  }

  /** Whenever it settles, a prepared call settles the one way. */
  lemma SettlesAs(tools: seq<Tool>, call: ToolCall, s: CallScript, prepared: Entry, entry: Entry)
    requires Prepared(tools, call, s, prepared) && Leads(prepared, entry) && entry.Settled?
    ensures entry.final == FinalOf(tools, call, s, true)
  {}

  method PrepareOne(agent: Agent, tools: seq<Tool>, call: ToolCall, s: CallScript) returns (entry: Entry)
    requires agent.Reduced() && Calls(agent.Here(), call.id)
    modifies agent
    ensures agent.Reduced() && entry.Call() == call && Prepared(tools, call, s, entry)
    ensures agent.Here() == old(agent.Here()).Preparing(
              old(agent.phase.running) + (if entry.Settled? then multiset{} else multiset{call.id}), old(agent.phase.started) + 1)
  {
    EmitToolStart(agent, call.id);
    var settled := PrepareToolCall(tools, call, s);
    if settled.None? {
      return Waiting(call, s);
    }
    EmitToolEnd(agent, call.id, settled.value.isError);
    assert old(agent.phase.running) + multiset{call.id} - multiset{call.id} == old(agent.phase.running) + multiset{};
    return Settled(settled.value);
  }

  method PrepareNext(agent: Agent, tools: seq<Tool>, call: ToolCall, s: CallScript, entries: seq<Entry>)
    returns (after: seq<Entry>)
    requires agent.Reduced() && Calls(agent.Here(), call.id)
    requires agent.phase.running == Open(entries) && agent.phase.started == |entries|
    modifies agent
    ensures agent.Reduced() && agent.Here() == old(agent.Here()).Preparing(Open(after), |after|)
    ensures |after| == |entries| + 1 && after[..|entries|] == entries
    ensures after[|entries|].Call() == call && Prepared(tools, call, s, after[|entries|])
  {
    var entry := PrepareOne(agent, tools, call, s);
    OpenAppended(entries, entry);
    after := entries + [entry];
  }

  /** Prepare calls in order; one that may execute waits for the others. An abort leaves the rest alone. */
  method PrepareAll(agent: Agent, tools: seq<Tool>, calls: seq<ToolCall>, scripts: seq<CallScript>)
    returns (entries: seq<Entry>)
    requires agent.Reduced() && Answered(agent.Here(), calls)
    modifies agent
    ensures agent.Reduced() && agent.Here() == old(agent.Here()).Preparing(Open(entries), |entries|)
    ensures Cover(entries, calls)
    ensures |entries| == |calls| || (entries != [] && ScriptOf(scripts, |entries| - 1).abortedAfter)
    ensures forall i :: 0 <= i < |entries| ==> Prepared(tools, calls[i], ScriptOf(scripts, i), entries[i])
  {
    entries := [];
    for i := 0 to |calls|
      invariant agent.Reduced() && agent.Here() == old(agent.Here()).Preparing(Open(entries), |entries|)
      invariant Cover(entries, calls) && |entries| == i
      invariant forall k :: 0 <= k < i ==> Prepared(tools, calls[k], ScriptOf(scripts, k), entries[k])
    {
      entries := PrepareNext(agent, tools, calls[i], ScriptOf(scripts, i), entries);
      if ScriptOf(scripts, i).abortedAfter {
        break;
      }
    }
  }

  predicate Starts(e: Entry) {
    e.Waiting? && !e.script.abortedStarting
  }

  /** The calls that start among the first `n` entries. */
  function StartedCalls(waiting: seq<Entry>, n: nat): seq<ToolCall>
    requires n <= |waiting|
  {
    if n == 0 then []
    else StartedCalls(waiting, n - 1) + if Starts(waiting[n - 1]) then [waiting[n - 1].call] else []
  }

  lemma {:induction false} StartedAreExecuted(
    tools: seq<Tool>, calls: seq<ToolCall>, scripts: seq<CallScript>, waiting: seq<Entry>, n: nat)
    requires n <= |waiting| && Cover(waiting, calls)
    requires forall i :: 0 <= i < |waiting| ==> Prepared(tools, calls[i], ScriptOf(scripts, i), waiting[i])
    ensures StartedCalls(waiting, n) == ExecutedCalls(tools, calls, scripts, n, true)
  {
    if n > 0 {
      StartedAreExecuted(tools, calls, scripts, waiting, n - 1);
      assert Prepared(tools, calls[n - 1], ScriptOf(scripts, n - 1), waiting[n - 1]);
    }
  }

  /** Start a call that waits, unless it finds the run aborted. */
  method StartOne(agent: Agent, waiting: Entry) returns (entry: Entry)
    requires agent.Reduced() && agent.Here().InTurn() && !waiting.Active?
    requires !waiting.Settled? ==> waiting.Call().id in agent.phase.running
    modifies agent
    ensures agent.Reduced() && entry.Call() == waiting.Call() && !entry.Waiting? && Leads(waiting, entry)
    ensures agent.Here() == old(agent.Here()).Having(if Starts(waiting) then [waiting.call] else [])
                                             .Executing(old(agent.phase.running) - Closing(waiting, entry))
  {
    if waiting.Settled? {
      return waiting;
    }
    var call, s := waiting.call, waiting.script;
    if s.abortedStarting {
      EmitToolEnd(agent, call.id, true);
      return Settled(Failed(call, "Operation aborted"));
    }
    BeginExecuting(agent, call, s);
    return Active(call, s);
  }

  /** Let one entry move on: what it closes leaves the open calls. */
  method StartAt(agent: Agent, entries: seq<Entry>, i: nat) returns (after: seq<Entry>)
    requires agent.Reduced() && agent.Here().InTurn() && agent.phase.running == Open(entries)
    requires i < |entries| && !entries[i].Active?
    modifies agent
    ensures agent.Reduced() && |after| == |entries| && after == entries[i := after[i]] && Leads(entries[i], after[i])
    ensures !after[i].Waiting?
    ensures agent.Here() == old(agent.Here()).Having(if Starts(entries[i]) then [entries[i].call] else []).Executing(Open(after))
  {
    OpenUpdated(entries, i, entries[i]);
    var entry := StartOne(agent, entries[i]);
    OpenUpdated(entries, i, entry);
    after := entries[i := entry];
  }

  lemma StartedMore(s: Spot, waiting: seq<Entry>, i: nat, before: multiset<string>, after: multiset<string>)
    requires s.phase.Turn? && i < |waiting|
    ensures s.Having(StartedCalls(waiting, i)).Executing(before)
             .Having(if Starts(waiting[i]) then [waiting[i].call] else []).Executing(after)
         == s.Having(StartedCalls(waiting, i + 1)).Executing(after)
  {
    Associate(s.executed, StartedCalls(waiting, i), if Starts(waiting[i]) then [waiting[i].call] else []);
  }

  predicate NoneWaits(entries: seq<Entry>) {
    forall i :: 0 <= i < |entries| ==> !entries[i].Waiting?
  }

  /** Start the waiting calls, in order. */
  method StartAll(agent: Agent, waiting: seq<Entry>) returns (entries: seq<Entry>)
    requires agent.Reduced() && agent.Here().InTurn() && agent.phase.running == Open(waiting)
    requires forall i :: 0 <= i < |waiting| ==> !waiting[i].Active?
    modifies agent
    ensures agent.Reduced() && AllLead(waiting, entries) && NoneWaits(entries)
    ensures agent.Here() == old(agent.Here()).Having(StartedCalls(waiting, |waiting|)).Executing(Open(entries))
  {
    entries := waiting;
    for i := 0 to |waiting|
      invariant agent.Reduced() && AllLead(waiting, entries)
      invariant agent.Here() == old(agent.Here()).Having(StartedCalls(waiting, i)).Executing(Open(entries))
      invariant forall k :: i <= k < |entries| ==> entries[k] == waiting[k]
      invariant forall k :: 0 <= k < i ==> !entries[k].Waiting?
    {
      var after := StartAt(agent, entries, i);
      StartedMore(old(agent.Here()), waiting, i, Open(entries), Open(after));
      entries := after;
    }
  }

  method TickOne(agent: Agent, active: Entry, tick: Tick) returns (entry: Entry)
    requires agent.Reduced() && agent.Here().InTurn() && active.Active? && active.call.id in agent.phase.running
    modifies agent
    ensures agent.Reduced() && Leads(active, entry) && (tick.Complete? ==> entry.Settled?)
    ensures agent.Here() == old(agent.Here()).Executing(
              old(agent.phase.running) - if entry.Settled? then multiset{entry.Call().id} else multiset{})
  {
    if tick.Update? {
      EmitUpdates(agent, active.call.id, 1);
      return active;
    }
    var final := FinalizeToolCall(active.call, active.script);
    EmitToolEnd(agent, active.call.id, final.isError);
    return Settled(final);
  }

  method TickAt(agent: Agent, entries: seq<Entry>, i: nat, tick: Tick) returns (after: seq<Entry>)
    requires agent.Reduced() && agent.Here().InTurn() && agent.phase.running == Open(entries)
    requires i < |entries| && entries[i].Active?
    modifies agent
    ensures agent.Reduced() && |after| == |entries| && after == entries[i := after[i]] && Leads(entries[i], after[i])
    ensures tick.Complete? ==> after[i].Settled?
    ensures agent.Here() == old(agent.Here()).Executing(Open(after))
  {
    OpenUpdated(entries, i, entries[i]);
    var entry := TickOne(agent, entries[i], tick);
    OpenUpdated(entries, i, entry);
    after := entries[i := entry];
  }

  /** A tick of a call that is not executing is none. */
  method TickNext(agent: Agent, entries: seq<Entry>, tick: Tick) returns (after: seq<Entry>)
    requires agent.Reduced() && agent.Here().InTurn() && agent.phase.running == Open(entries) && NoneWaits(entries)
    modifies agent
    ensures agent.Reduced() && agent.Here() == old(agent.Here()).Executing(Open(after)) && AllLead(entries, after)
    ensures NoneWaits(after) && (tick.Complete? && tick.entry < |after| ==> after[tick.entry].Settled?)
  {
    after := entries;
    if tick.entry < |entries| && entries[tick.entry].Active? {
      after := TickAt(agent, entries, tick.entry, tick);
    }
  }

  /** The calls that ticks complete. */
  predicate Completed(ticks: seq<Tick>, n: nat, entries: seq<Entry>)
    requires n <= |ticks|
  {
    forall k :: 0 <= k < n && ticks[k].Complete? && ticks[k].entry < |entries| ==> entries[ticks[k].entry].Settled?
  }

  lemma LaterEntries(started: seq<Entry>, entries: seq<Entry>, after: seq<Entry>, ticks: seq<Tick>, n: nat)
    requires AllLead(started, entries) && AllLead(entries, after) && n <= |ticks| && Completed(ticks, n, entries)
    ensures AllLead(started, after) && Completed(ticks, n, after)
  {
    forall i | 0 <= i < |started| ensures Leads(started[i], after[i]) {
      assert Leads(entries[i], after[i]);
    }
    forall k | 0 <= k < n && ticks[k].Complete? && ticks[k].entry < |after| ensures after[ticks[k].entry].Settled? {
      assert Leads(entries[ticks[k].entry], after[ticks[k].entry]);
    }
  }

  /** Calls executing side by side report and complete in any order. */
  method Interleave(agent: Agent, started: seq<Entry>, ticks: seq<Tick>) returns (entries: seq<Entry>)
    requires agent.Reduced() && agent.Here().InTurn() && agent.phase.running == Open(started) && NoneWaits(started)
    modifies agent
    ensures agent.Reduced() && agent.Here() == old(agent.Here()).Executing(Open(entries)) && AllLead(started, entries)
    ensures Completed(ticks, |ticks|, entries)
  {
    entries := started;
    for k := 0 to |ticks|
      invariant agent.Reduced() && agent.Here() == old(agent.Here()).Executing(Open(entries)) && AllLead(started, entries)
      invariant NoneWaits(entries) && Completed(ticks, k, entries)
    {
      var after := TickNext(agent, entries, ticks[k]);
      LaterEntries(started, entries, after, ticks, k);
      entries := after;
    }
  }

  predicate Finished(entries: seq<Entry>) {
    forall i :: 0 <= i < |entries| ==> entries[i].Settled?
  }

  lemma {:induction false} AllSettled(entries: seq<Entry>, n: nat)
    requires Finished(entries) && n <= |entries|
    ensures OpenUpTo(entries, n) == multiset{}
  {
    if n > 0 {
      AllSettled(entries, n - 1);
    }
  }

  function FinalsIn(entries: seq<Entry>): (r: seq<Final>)
    requires Finished(entries)
    ensures |r| == |entries|
  {
    seq(|entries|, i requires 0 <= i < |entries| => entries[i].final)
  }

  /** The finals of a batch are the same whatever the order its calls completed in. */
  lemma FinalsAreFixed(
    tools: seq<Tool>, calls: seq<ToolCall>, scripts: seq<CallScript>, prepared: seq<Entry>, started: seq<Entry>, entries: seq<Entry>)
    requires |prepared| <= |calls| && AllLead(prepared, started) && AllLead(started, entries) && Finished(entries)
    requires forall i :: 0 <= i < |prepared| ==> Prepared(tools, calls[i], ScriptOf(scripts, i), prepared[i])
    ensures FinalsIn(entries) == FinalsOf(tools, calls, scripts, |entries|, true)
  {
    forall i | 0 <= i < |entries| ensures entries[i].final == FinalOf(tools, calls[i], ScriptOf(scripts, i), true) {
      assert Leads(prepared[i], started[i]) && Leads(started[i], entries[i]);
      SettlesAs(tools, calls[i], ScriptOf(scripts, i), prepared[i], entries[i]);
    }
  }

  /** The results of a finished batch, reported in the order of its calls. */
  method ReportAll(agent: Agent, entries: seq<Entry>) returns (messages: seq<Message>, terminate: bool)
    requires agent.Reduced() && agent.Here().Idle() && Finished(entries)
    modifies agent
    ensures agent.Reduced() && agent.Here() == old(agent.Here()).Reporting(messages)
    ensures messages == ResultMessages(FinalsIn(entries)) && terminate == ShouldTerminate(FinalsIn(entries))
  {
    messages := [];
    var finals := [];
    for i := 0 to |entries|
      invariant agent.Reduced() && agent.Here() == old(agent.Here()).Reporting(messages)
      invariant finals == FinalsIn(entries)[..i] && messages == ResultMessages(finals)
    {
      EmitResult(agent, entries[i].final);
      messages := messages + [ResultMessage(entries[i].final)];
      finals := finals + [entries[i].final];
    }
    terminate := ShouldTerminate(finals);
  }

  /** Calls side by side: prepared and started in order, finished in any order, reported in order. `alive` is false when
      some call never completes. */
  method ExecuteParallel(agent: Agent, tools: seq<Tool>, calls: seq<ToolCall>, scripts: seq<CallScript>, ticks: seq<Tick>)
    returns (messages: seq<Message>, terminate: bool, alive: bool)
    requires agent.Reduced() && Answered(agent.Here(), calls)
    modifies agent
    ensures agent.Reduced() && |messages| <= |calls|
    ensures (forall i :: 0 <= i < |calls| ==> Complete(i) in ticks) ==> alive
    ensures !alive ==> agent.ended == old(agent.ended)
    ensures alive ==>
              agent.Here() == old(agent.Here()).Having(ExecutedCalls(tools, calls, scripts, |messages|, true)).Answering(messages)
    ensures alive ==> CutAt(messages, calls, scripts)
    ensures alive ==> var finals := FinalsOf(tools, calls, scripts, |messages|, true);
                      messages == ResultMessages(finals) && terminate == ShouldTerminate(finals)
  {
    var entries := ExecuteEntries(agent, tools, calls, scripts, ticks);
    messages, terminate := [], false;
    alive := Finished(entries);
    if alive {
      AllSettled(entries, |entries|);
      messages, terminate := ReportAll(agent, entries);
    }
  }

  /** Up to the point where every call has completed that ever does. */
  method ExecuteEntries(agent: Agent, tools: seq<Tool>, calls: seq<ToolCall>, scripts: seq<CallScript>, ticks: seq<Tick>)
    returns (entries: seq<Entry>)
    requires agent.Reduced() && Answered(agent.Here(), calls)
    modifies agent
    ensures agent.Reduced() && |entries| <= |calls|
    ensures |entries| == |calls| || (entries != [] && ScriptOf(scripts, |entries| - 1).abortedAfter)
    ensures agent.Here() == old(agent.Here()).Preparing(multiset{}, |entries|)
                                             .Having(ExecutedCalls(tools, calls, scripts, |entries|, true)).Executing(Open(entries))
    ensures (forall i :: 0 <= i < |calls| ==> Complete(i) in ticks) ==> Finished(entries)
    ensures Finished(entries) ==> FinalsIn(entries) == FinalsOf(tools, calls, scripts, |entries|, true)
  {
    var prepared := PrepareAll(agent, tools, calls, scripts);
    StartedAreExecuted(tools, calls, scripts, prepared, |prepared|);
    var started := StartAll(agent, prepared);
    entries := Interleave(agent, started, ticks);
    forall i | 0 <= i < |entries| && Complete(i) in ticks ensures entries[i].Settled? {
      var k :| 0 <= k < |ticks| && ticks[k] == Complete(i);
    }
    if Finished(entries) {
      FinalsAreFixed(tools, calls, scripts, prepared, started, entries);
    }
  }
}
