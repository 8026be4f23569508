/** The agent loop: turns of steering messages, answers and tool calls, until nothing is left to do. Hooks, the model,
    the tools and the users of the queues come from a script, one entry per request. */
module AgentLoop {
  import opened Options
  import opened Transcript
  import opened AgentEvents
  import opened Agent
  import opened AgentTools
  import opened AgentLedger
  import opened AgentRun

  /** What `prepareNextTurn` may answer. */
  datatype NextTurn = NextTurn(context: Option<Context>, messages: seq<Message>)

  datatype Decision = Proceed | End | Continue

  /** What happens around one request: what users do to the queues while it is prepared, while it runs and when it is
      over, the answers of the hooks, the stream, and the calls. */
  datatype Request = Request(
    preparing: seq<QueueAction>, next: Option<NextTurn>, context: Option<Context>,
    stream: seq<StreamEvent>, answer: Answer, calls: seq<CallScript>, ticks: seq<Tick>,
    decision: Decision, meanwhile: seq<QueueAction>, idle: seq<QueueAction>)
  {
    /** An answer that broke off ends the run, and so may a hook. */
    predicate Stops() {
      answer.stop.Error? || answer.stop.Aborted? || decision.End?
    }
  }

  predicate WellBehaved(script: seq<Request>) {
    forall i :: 0 <= i < |script| ==> Begins(script[i].stream) <= 1
  }

  predicate AnySequential(tools: seq<Tool>, calls: seq<ToolCall>) {
    exists i :: 0 <= i < |calls| && var t := FindTool(tools, calls[i].name); t.Some? && t.value.sequential
  }

  lemma {:induction false} ExecutedAreCalls(tools: seq<Tool>, calls: seq<ToolCall>, scripts: seq<CallScript>, n: nat, parallel: bool)
    requires n <= |calls|
    ensures forall c :: c in ExecutedCalls(tools, calls, scripts, n, parallel) ==> c in calls
  {
    if n > 0 {
      ExecutedAreCalls(tools, calls, scripts, n - 1, parallel);
    }
  }

  predicate Parallel(tools: seq<Tool>, sequentialTools: bool, calls: seq<ToolCall>) {
    !sequentialTools && !AnySequential(tools, calls)
  }

  /** Results are those of the calls' own scripts; and a batch calls for another request unless all its calls, of which
      there are some, would rather not. */
  predicate Settles(tools: seq<Tool>, sequentialTools: bool, request: Request, results: seq<Message>, more: bool) {
    var calls, stop := request.answer.calls, request.answer.stop;
    if stop == Error || stop == Aborted || calls == [] then results == [] && !more
    else if stop == Length then more
    else
      && |results| <= |calls|
      && var finals := FinalsOf(tools, calls, request.calls, |results|, Parallel(tools, sequentialTools, calls));
         results == ResultMessages(finals) && (more <==> !ShouldTerminate(finals))
  }

  // ---- The steps of a turn ----

  predicate Looks(s: Step, source: Source) {
    s.Poll? && s.batch.source == source
  }

  predicate LooksOnce(made: seq<Step>, source: Source) {
    |made| == 1 && Looks(made[0], source)
  }

  /** After preparing a turn: a hook may replace the context; with nothing pending, another look at the steering queue. */
  function StepsPrepared(before: seq<Step>, request: Request, look: seq<Step>): seq<Step> {
    (if request.next.Some? then before + [Step.Replace(request.next.value.context)] else before) + look + [Signal(OPENED)]
  }

  function PreparedMessages(request: Request): seq<Message> {
    if request.next.Some? then request.next.value.messages else []
  }

  /** Some call of the answer never completes. */
  predicate NeverCompletes(request: Request) {
    exists i :: 0 <= i < |request.answer.calls| && Complete(i) !in request.ticks
  }

  /** The request: an answer with its results, or without if a call never completes. */
  predicate Conversing(s: Step, request: Request, alive: bool) {
    if alive then s.Converse? && s.exchange.answer == request.answer && s.exchange.scripts == request.calls
    else s.Stall? && s.answer == request.answer && NeverCompletes(request)
  }

  /** After a turn up to its request; the first look at the steering queue, if any, and what was submitted. */
  function StepsOpened(before: seq<Step>, request: Request, lastCompleted: bool, look: seq<Step>, submit: Step): seq<Step> {
    (if lastCompleted then StepsPrepared(before, request, look) else before) + [submit]
  }

  /** After the rest of a turn; the last step is the end of the run or another look at the steering queue. */
  function StepsClosed(before: seq<Step>, request: Request, converse: Step, last: seq<Step>): seq<Step> {
    StepsAsked(before + [Step.Replace(request.context)], converse, last)
  }

  function StepsAsked(before: seq<Step>, converse: Step, last: seq<Step>): seq<Step> {
    if converse.Stall? then before + [converse] else before + [converse] + [Signal(Between)] + last
  }

  predicate Opens(request: Request, lastCompleted: bool, idle: bool, look: seq<Step>, submit: Step) {
    && (if lastCompleted && idle then LooksOnce(look, Steering) else look == [])
    && submit.Submit? && submit.supplied == if lastCompleted then PreparedMessages(request) else []
  }

  predicate Closes(request: Request, stuck: bool, converse: Step, last: seq<Step>) {
    && Conversing(converse, request, !stuck)
    && (!stuck ==> if request.Stops() then last == [Signal(Over)] else LooksOnce(last, Steering))
  }

  const OPENED := Turn(None, multiset{}, None, [], 0)

  /** What became of a turn: a call never completed, the run is over, or it goes on. */
  datatype Outcome = Stuck | Finished | Onward(hasMoreToolCalls: bool, explicitContinuation: bool)

  /** How a run ends: not within its script, by an answer or a hook, by itself, or without having begun. */
  datatype Ending = Unfinished | Stopped | Settled | Refused(reason: string)

  /** The finished turns are those of the script's first requests. */
  predicate Played(script: seq<Request>, turns: seq<TurnLog>) {
    |turns| <= |script| && forall i :: 0 <= i < |turns| ==>
      turns[i].exchange.answer == script[i].answer && turns[i].exchange.scripts == script[i].calls
  }

  /** The script is used up, or a call of its next request never completes. */
  predicate Starved(script: seq<Request>, turns: seq<TurnLog>, stalled: bool) {
    if stalled then |turns| < |script| && NeverCompletes(script[|turns|]) else |turns| == |script|
  }

  lemma PlayedMore(script: seq<Request>, turns: seq<TurnLog>, more: seq<TurnLog>)
    requires Played(script, turns) && |turns| < |script| && |more| == |turns| + 1 && turns <= more
    requires more[|turns|].exchange.answer == script[|turns|].answer && more[|turns|].exchange.scripts == script[|turns|].calls
    ensures Played(script, more)
  {
    forall i | 0 <= i < |more|
      ensures more[i].exchange.answer == script[i].answer && more[i].exchange.scripts == script[i].calls
    {
      assert i < |turns| ==> more[i] == turns[i];
    }
  }

  predicate NeverIdle(script: seq<Request>) {
    forall i :: 0 <= i < |script| ==> script[i].idle == []
  }

  /** A turn is logged unless one of its calls never completes. */
  predicate Advances(before: seq<TurnLog>, after: seq<TurnLog>, request: Request, outcome: Outcome) {
    if outcome.Stuck? then after == before && NeverCompletes(request)
    else |after| == |before| + 1 && before <= after
         && after[|before|].exchange.answer == request.answer && after[|before|].exchange.scripts == request.calls
  }

  lemma NothingUpcoming(l: Ledger)
    requires l.commits == [] && l.awaiting == []
    ensures l.Upcoming() == []
  {}

  /** Only an empty queue delivers nothing. */
  predicate Emptied(delivered: seq<Message>, queue: PendingMessageQueue, before: seq<Message>)
    reads queue
  {
    if delivered == [] then before == queue.messages == [] else before != []
  }

  lemma NothingAnswered(s: Spot)
    requires s.phase.Turn?
    ensures s.Having([]).Answering([]) == s
  {
    assert s.executed + [] == s.executed && s.ended + [] == s.ended && s.phase.results + [] == s.phase.results;
  }

  class Run {
    const agent: Agent
    const sequentialTools: bool
    var context: Context
    var newMessages: seq<Message>
    var pendingMessages: seq<Message>
    var skipInitialSteeringPoll: bool
    /** The account of the run so far, whether a hook replaced the context, whether a call never completed, what the
        queues had delivered before, and the steps taken with the views before and after each. */
    ghost var ledger: Ledger
    ghost var replaced: bool
    ghost var stalled: bool
    ghost const steeredBefore: seq<Message>
    ghost const followedBefore: seq<Message>
    ghost var steps: seq<Step>
    ghost var trail: seq<View>

    ghost function Seen(): View
      reads this, agent, agent.steering, agent.followUp
    {
      View(agent.Here(), context, replaced, newMessages, pendingMessages, stalled, steeredBefore, followedBefore,
           agent.steering.delivered, agent.followUp.delivered, ledger)
    }

    ghost predicate Sane()
      reads this, agent, agent.steering, agent.followUp
    {
      agent.Reduced() && agent.QueuesValid()
    }

    /** The run got to where it stands by the steps on record. */
    ghost predicate OnRecord()
      reads this, agent, agent.steering, agent.followUp
    {
      Sane() && Traced(steps, trail) && trail[|steps|] == Seen() && !stalled && (pendingMessages == [] ==> ledger.awaiting == [])
    }

    constructor (agent: Agent, tools: seq<Tool>, sequentialTools: bool)
      requires agent.Reduced() && agent.QueuesValid() && agent.ended == [] && agent.executed == []
      ensures OnRecord() && !skipInitialSteeringPoll && this.agent == agent && context == Context(agent.messages, tools)
      ensures newMessages == []
      ensures pendingMessages == [] && ledger == Ledger([], [], []) && Seen().spot == agent.Here()
      ensures steeredBefore == agent.steering.delivered && followedBefore == agent.followUp.delivered
    {
      this.agent, this.sequentialTools := agent, sequentialTools;
      context, newMessages, pendingMessages := Context(agent.messages, tools), [], [];
      skipInitialSteeringPoll := false;
      ledger, replaced, stalled := Ledger([], [], []), false, false;
      steeredBefore, followedBefore := agent.steering.delivered, agent.followUp.delivered;
      steps := [];
      new;
      trail := [Seen()];
    }

    /** Put the step just taken on record. */
    ghost method Log(s: Step)
      requires Traced(steps, trail) && Legal(trail[|steps|], s) && Seen() == Take(trail[|steps|], s)
      modifies this`steps, this`trail
      ensures Traced(steps, trail) && trail[|steps|] == Seen() == old(Seen()) && steps == old(steps) + [s]
    {
      TracedGrows(steps, trail, s);
      steps, trail := steps + [s], trail + [Take(trail[|steps|], s)];
    }

    // ---- Queues ----

    method Act(actions: seq<QueueAction>)
      requires Sane()
      modifies agent.steering, agent.followUp
      ensures Sane() && Seen() == old(Seen()) && (actions == [] ==> agent.steering.messages == old(agent.steering.messages))
    {
      agent.ActAll(actions);
    }

    method Drain(source: Source) returns (ghost batch: Batch)
      requires Sane()
      modifies this`pendingMessages, this`ledger, agent.steering, agent.followUp
      ensures Sane() && Seen() == AfterPoll(old(Seen()), batch)
      ensures batch.source == source && (batch.mode.OneAtATime? ==> |batch.messages| <= 1)
      ensures batch.messages == old(if source == Steering then agent.steering.Peek() else agent.followUp.Peek())
      ensures if source == Steering
              then Emptied(pendingMessages, agent.steering, old(agent.steering.messages))
                   && agent.followUp.messages == old(agent.followUp.messages) && agent.followUp.mode == old(agent.followUp.mode)
              else Emptied(pendingMessages, agent.followUp, old(agent.followUp.messages))
                   && agent.steering.messages == old(agent.steering.messages)
    {
      if source == Steering {
        ghost var mode := agent.steering.mode;
        pendingMessages := agent.steering.Drain();
        batch := Batch(source, pendingMessages, mode);
      } else {
        ghost var mode := agent.followUp.mode;
        pendingMessages := agent.followUp.Drain();
        batch := Batch(source, pendingMessages, mode);
      }
      ledger := Polled(ledger, batch);
    }

    method Poll(source: Source) returns (ghost batch: Batch)
      requires OnRecord() && pendingMessages == [] && NoneFrom(ledger.Upcoming(), source)
      modifies this`pendingMessages, this`ledger, this`steps, this`trail, agent.steering, agent.followUp
      ensures OnRecord() && agent.Here() == old(agent.Here()) && newMessages == old(newMessages)
      ensures steps == old(steps) + [Step.Poll(batch)]
      ensures ledger == Polled(old(ledger), batch) && batch.source == source && batch.messages == pendingMessages
      ensures pendingMessages == old(if source == Steering then agent.steering.Peek() else agent.followUp.Peek())
      ensures if source == Steering
              then Emptied(pendingMessages, agent.steering, old(agent.steering.messages))
                   && agent.followUp.messages == old(agent.followUp.messages) && agent.followUp.mode == old(agent.followUp.mode)
              else Emptied(pendingMessages, agent.followUp, old(agent.followUp.messages))
                   && agent.steering.messages == old(agent.steering.messages)
    {
      batch := Drain(source);
      Log(Step.Poll(batch));
    }

    /** Steering messages; the first poll of a run begun with steering messages finds none. */
    method PollSteering() returns (ghost made: seq<Step>)
      requires OnRecord() && pendingMessages == [] && (skipInitialSteeringPoll || NoneFrom(ledger.Upcoming(), Steering))
      modifies this`skipInitialSteeringPoll, this`pendingMessages, this`ledger, this`steps, this`trail
      modifies agent.steering, agent.followUp
      ensures OnRecord() && !skipInitialSteeringPoll && agent.Here() == old(agent.Here())
      ensures steps == old(steps) + made
      ensures if old(skipInitialSteeringPoll) then made == [] else |made| == 1 && Looks(made[0], Steering)
      ensures ledger.commits == old(ledger.commits) && ledger.turns == old(ledger.turns)
      ensures !old(skipInitialSteeringPoll) && pendingMessages == [] ==> agent.steering.messages == []
    {
      made := [];
      if skipInitialSteeringPoll {
        skipInitialSteeringPoll := false;
      } else {
        ghost var batch := Poll(Steering);
        made := [Step.Poll(batch)];
      }
    }

    // ---- Events and messages ----

    /** An event between messages. */
    method Emit(e: Event)
      requires OnRecord() && Next(agent.phase, e) != Broken && !e.MessageEnd?
      modifies this`steps, this`trail, agent
      ensures OnRecord() && agent.Here() == old(agent.Here()).(phase := Next(old(agent.phase), e))
      ensures agent.events == old(agent.events) + [e] && steps == old(steps) + [Signal(agent.phase)]
    {
      agent.ProcessEvent(e);
      Log(Signal(agent.phase));
    }

    method ReplaceContext(replacement: Option<Context>)
      requires OnRecord()
      modifies this`context, this`replaced, this`steps, this`trail
      ensures steps == old(steps) + [Step.Replace(replacement)]
      ensures OnRecord() && (replacement.Some? ==> context == replacement.value) && (replacement.None? ==> context == old(context))
    {
      if replacement.Some? {
        context, replaced := replacement.value, true;
      }
      Log(Step.Replace(replacement));
    }

    method SubmitOne(m: Message)
      requires Sane() && agent.Here().Idle()
      modifies this`context, this`newMessages, agent
      ensures Sane() && Seen() == Emitting(old(Seen()), [m], agent.phase)
      ensures agent.Here().Idle()
    {
      EmitMessage(agent, m);
      context := context.(messages := context.messages + [m]);
      newMessages := newMessages + [m];
    }

    method SubmitAll(emitted: seq<Message>)
      requires Sane() && agent.Here().Idle()
      modifies this`context, this`newMessages, agent
      ensures Sane() && Seen() == Emitting(old(Seen()), emitted, agent.phase)
      ensures agent.Here().Idle()
    {
      for i := 0 to |emitted|
        invariant Sane() && agent.Here().Idle()
        invariant Seen() == Emitting(old(Seen()), emitted[..i], agent.phase)
      {
        ghost var between := agent.phase;
        SubmitOne(emitted[i]);
        assert emitted[..i + 1] == emitted[..i] + [emitted[i]];
        EmittingMore(old(Seen()), emitted[..i], emitted[i], between, agent.phase);
      }
      assert emitted[..|emitted|] == emitted;
    }

    /** Supplied and pending messages join the transcript, with the tool changes they must declare. */
    method Submit(supplied: seq<Message>)
      requires OnRecord() && agent.Here().Idle()
      modifies this`context, this`newMessages, this`pendingMessages, this`ledger, this`steps, this`trail, agent
      ensures OnRecord() && pendingMessages == [] && agent.Here().Idle()
      ensures ledger.awaiting == [] && ledger.Upcoming() == old(ledger).Upcoming() && ledger.turns == old(ledger.turns)
      ensures newMessages == old(newMessages) + DeclareToolChanges(old(context), supplied + old(pendingMessages))
      ensures steps == old(steps) + [Step.Submit(supplied, agent.phase)]
    {
      ghost var commit := Seen().NextCommit(supplied);
      CommittedUpcoming(ledger, commit);
      SubmitAll(DeclareToolChanges(context, supplied + pendingMessages));
      pendingMessages := [];
      ledger := Committed(ledger, commit);
      Log(Step.Submit(supplied, agent.phase));
    }

    // ---- Requests ----

    /** Execute the calls of an answer, the way it asks for. */
    method ExecuteCalls(request: Request)
      returns (results: seq<Message>, terminate: bool, alive: bool, ghost x: Exchange)
      requires Sane() && Answered(agent.Here(), request.answer.calls) && request.answer.calls != []
      requires !request.answer.stop.Error? && !request.answer.stop.Aborted?
      modifies agent
      ensures Sane() && x == Exchange(request.answer, request.calls, x.executed, results)
      ensures !alive ==> Seen() == old(Seen()).(spot := agent.Here()) && NeverCompletes(request)
      ensures alive ==> ExchangeOk(x) && Settles(context.tools, sequentialTools, request, results, !terminate)
      ensures alive ==> Seen() == old(Seen()).(spot := old(agent.Here()).Having(x.executed).Answering(results))
    {
      ghost var executed := [];
      alive := true;
      var tools, calls, scripts := context.tools, request.answer.calls, request.calls;
      if request.answer.stop == Length {
        results := FailTruncated(agent, calls);
        terminate := false;
      } else if sequentialTools || AnySequential(tools, calls) {
        results, terminate := ExecuteSequential(agent, tools, calls, scripts);
        executed := ExecutedCalls(tools, calls, scripts, |results|, false);
        ExecutedAreCalls(tools, calls, scripts, |results|, false);
        FinalsAnswer(tools, calls, scripts, |results|, false);
      } else {
        results, terminate, alive := ExecuteParallel(agent, tools, calls, scripts, request.ticks);
        executed := ExecutedCalls(tools, calls, scripts, |results|, true);
        ExecutedAreCalls(tools, calls, scripts, |results|, true);
        FinalsAnswer(tools, calls, scripts, |results|, true);
      }
      x := Exchange(request.answer, scripts, executed, results);
    }

    /** One request and its answer. */
    method Ask(request: Request)
      requires Sane() && agent.Here().Idle() && Begins(request.stream) <= 1
      modifies this`context, this`newMessages, agent
      ensures Sane() && Seen() == AfterAnswer(old(Seen()), request.answer) && context.tools == old(context).tools
    {
      var messages := StreamAssistantResponse(agent, context.messages, request.stream, request.answer);
      context := context.(messages := messages);
      newMessages := newMessages + [request.answer];
    }

    /** One request and what follows from it, up to the end of the turn. */
    method Respond(request: Request) returns (results: seq<Message>, more: bool, alive: bool, ghost x: Exchange)
      requires Sane() && agent.Here().Idle() && Begins(request.stream) <= 1
      modifies this`context, this`newMessages, this`ledger, agent
      ensures Sane() && x == Exchange(request.answer, request.calls, x.executed, results)
      ensures alive ==> ExchangeOk(x) && Seen() == AfterCalls(AfterAnswer(old(Seen()), request.answer), x)
      ensures alive ==> context.tools == old(context).tools && Settles(context.tools, sequentialTools, request, results, more)
      ensures !alive ==> Seen() == AfterAnswer(old(Seen()), request.answer).(spot := agent.Here()) && NeverCompletes(request)
    {
      Ask(request);
      results, more, alive, x := Settle(request);
      if alive {
        KeepResults(results, x);
      }
    }

    /** The calls of an answer that did not break off. */
    method Settle(request: Request) returns (results: seq<Message>, more: bool, alive: bool, ghost x: Exchange)
      requires Sane() && Answered(agent.Here(), request.answer.calls)
      modifies agent
      ensures Sane() && x == Exchange(request.answer, request.calls, x.executed, results)
      ensures !alive ==> Seen() == old(Seen()).(spot := agent.Here()) && NeverCompletes(request)
      ensures alive ==> ExchangeOk(x) && Settles(context.tools, sequentialTools, request, results, more)
      ensures alive ==> Seen() == old(Seen()).(spot := old(agent.Here()).Having(x.executed).Answering(results))
    {
      var answer := request.answer;
      if answer.stop == Error || answer.stop == Aborted || |answer.calls| == 0 {
        NothingAnswered(agent.Here());
        return [], false, true, Exchange(answer, request.calls, [], []);
      }
      var terminate;
      results, terminate, alive, x := ExecuteCalls(request);
      more := !terminate;
    }

    method KeepResults(results: seq<Message>, ghost x: Exchange)
      requires Sane() && x.results == results
      modifies this`context, this`newMessages, this`ledger
      ensures Sane() && Seen() == AfterResults(old(Seen()), x) && context.tools == old(context).tools
    {
      context := context.(messages := context.messages + results);
      newMessages := newMessages + results;
      ledger := Closed(ledger, x);
    }

    /** The request of a turn and what follows from it. */
    method Converse(request: Request) returns (results: seq<Message>, more: bool, alive: bool, ghost made: Step)
      requires OnRecord() && agent.Here().Idle() && Begins(request.stream) <= 1
      requires pendingMessages == []
      modifies this`context, this`newMessages, this`ledger, this`stalled, this`steps, this`trail, agent
      ensures if alive then OnRecord() && agent.phase == Turn(None, multiset{}, Some(request.answer), results, |results|)
                            && ledger.commits == [] && pendingMessages == []
              else Hanging() && stalled && ledger.turns == old(ledger.turns)
      ensures old(newMessages) <= newMessages
      ensures steps == old(steps) + [made] && Conversing(made, request, alive)
      ensures alive ==> ledger.turns == old(ledger.turns) + [TurnLog(old(ledger.commits), made.exchange)]
      ensures alive ==> made.exchange.results == results && Settles(context.tools, sequentialTools, request, results, more)
    {
      ghost var x;
      results, more, alive, x := Respond(request);
      if alive {
        ConverseInSteps(old(Seen()), x);
        made := Step.Converse(x, agent.phase);
      } else {
        stalled := true;
        made := Stall(request.answer, agent.Here());
      }
      Log(made);
    }

    // ---- Turns ----

    /** Where a turn may begin: inside the first one, or after an earlier one. */
    ghost predicate Ready(lastCompleted: bool)
      reads this, agent, agent.steering, agent.followUp
    {
      && OnRecord() && !skipInitialSteeringPoll
      && if lastCompleted then agent.phase == Between && ledger.commits == []
         else agent.Here().Idle()
    }

    /** Everything is reported, and nothing taken from a queue is left over. */
    ghost predicate Complete()
      reads this, agent, agent.steering, agent.followUp
    {
      && OnRecord() && agent.phase == Over && ledger.commits == [] && ledger.awaiting == []
      && agent.events != [] && agent.events[|agent.events| - 1] == AgentEnd(newMessages)
    }

    /** A call never completes. */
    ghost predicate Hanging()
      reads this, agent, agent.steering, agent.followUp
    {
      Sane() && Traced(steps, trail) && trail[|steps|] == Seen()
    }

    /** Open a later turn: let hooks prepare it, and look at the steering queue again if nothing is pending. */
    method PrepareTurn(request: Request) returns (prepared: seq<Message>, ghost look: seq<Step>)
      requires Ready(true)
      modifies this`context, this`replaced, this`skipInitialSteeringPoll, this`pendingMessages, this`ledger, this`steps, this`trail
      modifies agent, agent.steering, agent.followUp
      ensures Ready(false) && prepared == PreparedMessages(request)
      ensures steps == StepsPrepared(old(steps), request, look) && ledger.turns == old(ledger.turns)
      ensures if old(pendingMessages) == [] then LooksOnce(look, Steering) else look == []
    {
      Act(request.preparing);
      prepared, look := [], [];
      if request.next.Some? {
        ReplaceContext(request.next.value.context);
        prepared := request.next.value.messages;
      }
      look := LookAgain();
      Emit(TurnStart);
    }

    method LookAgain() returns (ghost look: seq<Step>)
      requires Ready(true)
      modifies this`skipInitialSteeringPoll, this`pendingMessages, this`ledger, this`steps, this`trail
      modifies agent.steering, agent.followUp
      ensures Ready(true) && steps == old(steps) + look && ledger.turns == old(ledger.turns)
      ensures if old(pendingMessages) == [] then LooksOnce(look, Steering) else look == []
      ensures pendingMessages == [] ==> agent.steering.messages == []
    {
      look := [];
      if |pendingMessages| == 0 {
        NothingUpcoming(ledger);
        look := PollSteering();
      }
    }

    /** Put everything on record that the next request is to carry. */
    method OpenTurn(request: Request, lastCompleted: bool) returns (ghost first: seq<Step>, ghost submit: Step)
      requires Ready(lastCompleted)
      modifies this`context, this`newMessages, this`replaced, this`skipInitialSteeringPoll, this`pendingMessages, this`ledger
      modifies this`steps, this`trail, agent, agent.steering, agent.followUp
      ensures Ready(false) && pendingMessages == [] && ledger.turns == old(ledger.turns) && old(newMessages) <= newMessages
      ensures Opens(request, lastCompleted, old(pendingMessages) == [], first, submit)
      ensures steps == StepsOpened(old(steps), request, lastCompleted, first, submit)
    {
      var prepared := [];
      first := [];
      if lastCompleted {
        prepared, first := PrepareTurn(request);
      }
      Submit(prepared);
      submit := Step.Submit(prepared, agent.phase);
    }

    /** After a turn its answer or a hook may have ended the run; otherwise steering messages come first. */
    method EndTurn(request: Request, results: seq<Message>, more: bool) returns (outcome: Outcome, ghost last: seq<Step>)
      requires OnRecord() && agent.phase == Turn(None, multiset{}, Some(request.answer), results, |results|)
      requires pendingMessages == [] && ledger.commits == [] && !skipInitialSteeringPoll
      modifies this`skipInitialSteeringPoll, this`pendingMessages, this`ledger, this`steps, this`trail
      modifies agent, agent.steering, agent.followUp
      ensures if request.Stops() then outcome.Finished? && Complete() && last == [Signal(Over)]
              else outcome == Onward(more, request.decision.Continue? && !more && pendingMessages == []) && Ready(true)
                   && (pendingMessages == [] ==> agent.steering.messages == []) && LooksOnce(last, Steering)
      ensures steps == old(steps) + [Signal(Between)] + last && ledger.turns == old(ledger.turns)
    {
      Emit(TurnEnd(request.answer, results));
      if request.Stops() {
        Emit(AgentEnd(newMessages));
        return Finished, [Signal(Over)];
      }
      Act(request.meanwhile);
      last := LookAgain();
      outcome := Onward(more, request.decision.Continue? && !more && pendingMessages == []);
    }

    method AskAndEnd(request: Request) returns (outcome: Outcome, ghost converse: Step, ghost last: seq<Step>)
      requires Ready(false) && pendingMessages == [] && Begins(request.stream) <= 1
      modifies this`context, this`newMessages, this`skipInitialSteeringPoll, this`pendingMessages, this`ledger
      modifies this`stalled, this`steps, this`trail, agent, agent.steering, agent.followUp
      ensures match outcome
              case Onward(_, _) => Ready(true) && (pendingMessages == [] ==> agent.steering.messages == [])
              case Finished => Complete()
              case Stuck => Hanging() && stalled
      ensures Advances(old(ledger.turns), ledger.turns, request, outcome) && old(newMessages) <= newMessages
      ensures Closes(request, outcome.Stuck?, converse, last)
      ensures steps == StepsAsked(old(steps), converse, last)
      ensures outcome.Onward? ==>
                && Settles(context.tools, sequentialTools, request, converse.exchange.results, outcome.hasMoreToolCalls)
                && (outcome.explicitContinuation <==>
                      request.decision.Continue? && !outcome.hasMoreToolCalls && pendingMessages == [])
    {
      var results, more, alive;
      results, more, alive, converse := Converse(request);
      last := [];
      if alive {
        outcome, last := EndTurn(request, results, more);
      } else {
        outcome := Stuck;
      }
    }

    /** The request of a turn, and the end of it. */
    method CloseTurn(request: Request) returns (outcome: Outcome, ghost converse: Step, ghost last: seq<Step>)
      requires Ready(false) && pendingMessages == [] && Begins(request.stream) <= 1
      modifies this`context, this`newMessages, this`replaced, this`skipInitialSteeringPoll, this`pendingMessages, this`ledger
      modifies this`stalled, this`steps, this`trail, agent, agent.steering, agent.followUp
      ensures match outcome
              case Onward(_, _) => Ready(true) && (pendingMessages == [] ==> agent.steering.messages == [])
              case Finished => Complete()
              case Stuck => Hanging() && stalled
      ensures Advances(old(ledger.turns), ledger.turns, request, outcome) && old(newMessages) <= newMessages
      ensures Closes(request, outcome.Stuck?, converse, last) && steps == StepsClosed(old(steps), request, converse, last)
      ensures outcome.Onward? ==>
                && Settles(context.tools, sequentialTools, request, converse.exchange.results, outcome.hasMoreToolCalls)
                && (outcome.explicitContinuation <==>
                      request.decision.Continue? && !outcome.hasMoreToolCalls && pendingMessages == [])
    {
      ReplaceContext(request.context);
      outcome, converse, last := AskAndEnd(request);
    }

    /** One turn. */
    method RunTurn(request: Request, lastCompleted: bool)
      returns (outcome: Outcome, ghost first: seq<Step>, ghost submit: Step, ghost converse: Step, ghost last: seq<Step>)
      requires Ready(lastCompleted) && Begins(request.stream) <= 1
      modifies this`context, this`newMessages, this`replaced, this`skipInitialSteeringPoll, this`pendingMessages, this`ledger
      modifies this`stalled, this`steps, this`trail, agent, agent.steering, agent.followUp
      ensures match outcome
              case Onward(_, _) => Ready(true) && (pendingMessages == [] ==> agent.steering.messages == [])
              case Finished => Complete()
              case Stuck => Hanging() && stalled
      ensures Advances(old(ledger.turns), ledger.turns, request, outcome) && old(newMessages) <= newMessages
      ensures Opens(request, lastCompleted, old(pendingMessages) == [], first, submit)
      ensures Closes(request, outcome.Stuck?, converse, last)
      ensures steps == StepsClosed(StepsOpened(old(steps), request, lastCompleted, first, submit), request, converse, last)
      ensures outcome.Onward? ==>
                && Settles(context.tools, sequentialTools, request, converse.exchange.results, outcome.hasMoreToolCalls)
                && (outcome.explicitContinuation <==>
                      request.decision.Continue? && !outcome.hasMoreToolCalls && pendingMessages == [])
    {
      first, submit := OpenTurn(request, lastCompleted);
      outcome, converse, last := CloseTurn(request);
    }

    /** With nothing pending, follow-up messages are next. */
    method PollFollowUp(idle: seq<QueueAction>)
      requires Ready(true) && pendingMessages == []
      modifies this`pendingMessages, this`ledger, this`steps, this`trail, agent.steering, agent.followUp
      ensures Ready(true) && (pendingMessages == [] ==> agent.followUp.messages == []) && ledger.turns == old(ledger.turns)
      ensures idle == [] ==> agent.steering.messages == old(agent.steering.messages)
    {
      Act(idle);
      NothingUpcoming(ledger);
      ghost var _ := Poll(FollowUp);
    }

    /** A run that ends by itself leaves no follow-up messages waiting, and no steering messages but those sent after its
        last look at that queue. */
    ghost predicate Exhaustive(script: seq<Request>)
      reads agent, agent.steering, agent.followUp
    {
      agent.followUp.messages == [] && (NeverIdle(script) ==> agent.steering.messages == [])
    }

    /** How a run that began has ended. */
    ghost predicate Ran(ending: Ending, script: seq<Request>)
      reads this, agent, agent.steering, agent.followUp
    {
      && Played(script, ledger.turns)
      && match ending
         case Unfinished => Hanging() && Starved(script, ledger.turns, stalled)
         case Stopped => Complete()
         case Settled => Complete() && Exhaustive(script)
         case Refused(_) => false
    }

    /** Turns until neither calls nor steering messages call for another; `early` when the run does not get there. */
    method RunTurns(script: seq<Request>, start: nat, after: bool)
      returns (k: nat, early: Option<Ending>, explicitContinuation: bool)
      requires Ready(after) && WellBehaved(script) && Played(script, ledger.turns) && start == |ledger.turns|
      modifies this`context, this`newMessages, this`replaced, this`skipInitialSteeringPoll, this`pendingMessages, this`ledger
      modifies this`stalled, this`steps, this`trail, agent, agent.steering, agent.followUp
      ensures start <= k <= |script|
      ensures match early
              case None => start < k && Ready(true) && pendingMessages == [] && agent.steering.messages == []
              case Some(e) => (e == Unfinished && Hanging() && Starved(script, ledger.turns, stalled)) || (e == Stopped && Complete())
      ensures Played(script, ledger.turns) && (early.None? ==> k == |ledger.turns|) && old(newMessages) <= newMessages
    {
      var lastCompleted, hasMoreToolCalls := after, true;
      k, explicitContinuation := start, false;
      while hasMoreToolCalls || |pendingMessages| > 0
        invariant Ready(lastCompleted) && start <= k == |ledger.turns| && Played(script, ledger.turns)
        invariant old(newMessages) <= newMessages
        invariant if k == start then hasMoreToolCalls else lastCompleted
        invariant k > start && pendingMessages == [] ==> agent.steering.messages == []
        decreases |script| - k
      {
        if k == |script| {
          return k, Some(Unfinished), false;
        }
        ghost var before := ledger.turns;
        var outcome, _, _, _, _ := RunTurn(script[k], lastCompleted);
        k := k + 1;
        if !outcome.Stuck? {
          PlayedMore(script, before, ledger.turns);
        }
        if !outcome.Onward? {
          return k, Some(if outcome.Finished? then Stopped else Unfinished), false;
        }
        lastCompleted := true;
        hasMoreToolCalls, explicitContinuation := outcome.hasMoreToolCalls, outcome.explicitContinuation;
      }
      early := None;
    }

    /** Turns, and then a look at the follow-up messages; `more` when there is more to do. */
    method RunRound(script: seq<Request>, start: nat, after: bool) returns (k: nat, early: Option<Ending>, more: bool)
      requires Ready(after) && WellBehaved(script) && Played(script, ledger.turns) && start == |ledger.turns|
      modifies this`context, this`newMessages, this`replaced, this`skipInitialSteeringPoll, this`pendingMessages, this`ledger
      modifies this`stalled, this`steps, this`trail, agent, agent.steering, agent.followUp
      ensures match early
              case None => Ready(true) && k > start && (!more ==> pendingMessages == [] && Exhaustive(script))
              case Some(e) => !more && Ran(e, script)
      ensures Played(script, ledger.turns) && (early.None? ==> k == |ledger.turns|) && old(newMessages) <= newMessages
    {
      var explicitContinuation;
      k, early, explicitContinuation := RunTurns(script, start, after);
      more := false;
      if early.None? {
        PollFollowUp(script[k - 1].idle);
        more := |pendingMessages| > 0 || explicitContinuation;
      }
    }

    /** Turn after turn, until nothing is left to do; unless the script or a call stops short of that. */
    method RunLoop(script: seq<Request>) returns (ending: Ending)
      requires Ready(false) && WellBehaved(script) && ledger.turns == []
      modifies this`context, this`newMessages, this`replaced, this`skipInitialSteeringPoll, this`pendingMessages, this`ledger
      modifies this`stalled, this`steps, this`trail, agent, agent.steering, agent.followUp
      ensures Ran(ending, script) && old(newMessages) <= newMessages
    {
      var k, lastCompleted := 0, false;
      while true
        invariant Ready(lastCompleted) && k == |ledger.turns| && Played(script, ledger.turns) && old(newMessages) <= newMessages
        decreases |script| - k
      {
        var early, more;
        k, early, more := RunRound(script, k, lastCompleted);
        if early.Some? {
          return early.value;
        }
        lastCompleted := true;
        if !more {
          break;
        }
      }
      Emit(AgentEnd(newMessages));
      return Ending.Settled;
    }

    // ---- Runs ----

    /** Nothing has happened yet, but that messages may have been taken from one queue. */
    ghost predicate AtStart()
      reads this, agent, agent.steering, agent.followUp
    {
      && OnRecord() && agent.phase == Fresh && agent.ended == [] && ledger.turns == [] && ledger.commits == []
      && |ledger.awaiting| <= 1 && newMessages == []
    }

    method Begin()
      requires AtStart()
      modifies this`steps, this`trail, agent
      ensures OnRecord() && agent.Here() == Spot(agent.base, OPENED, [], old(agent.executed))
    {
      Emit(AgentStart);
      Emit(TurnStart);
    }

    /** The loop begins with a look at the steering queue: users may have typed meanwhile. */
    method BeginLoop(opening: seq<QueueAction>)
      requires OnRecord() && agent.Here().Idle() && pendingMessages == []
      requires skipInitialSteeringPoll || NoneFrom(ledger.Upcoming(), Steering)
      modifies this`skipInitialSteeringPoll, this`pendingMessages, this`ledger, this`steps, this`trail
      modifies agent.steering, agent.followUp
      ensures Ready(false) && ledger.turns == old(ledger.turns)
    {
      Act(opening);
      ghost var _ := PollSteering();
    }

    /** A run begins, and puts its first messages on record. */
    method SubmitPrompts(prompts: seq<Message>)
      requires AtStart()
      modifies this`context, this`newMessages, this`pendingMessages, this`ledger, this`steps, this`trail, agent
      ensures OnRecord() && agent.Here().Idle() && pendingMessages == []
      ensures ledger.turns == [] && ledger.Upcoming() == old(ledger.awaiting)
      ensures newMessages == DeclareToolChanges(old(context), prompts + old(pendingMessages))
    {
      OnlyAwaiting(ledger);
      Begin();
      Submit(prompts);
    }

    method OpenPrompt(prompts: seq<Message>, opening: seq<QueueAction>)
      requires AtStart() && (skipInitialSteeringPoll || NoneFrom(ledger.awaiting, Steering))
      modifies this`context, this`newMessages, this`skipInitialSteeringPoll, this`pendingMessages, this`ledger
      modifies this`steps, this`trail, agent, agent.steering, agent.followUp
      ensures Ready(false) && ledger.turns == []
      ensures newMessages == DeclareToolChanges(old(context), prompts + old(pendingMessages))
    {
      SubmitPrompts(prompts);
      BeginLoop(opening);
    }

    /** A run on new messages: those supplied, or those just taken from a queue. */
    method RunPrompt(prompts: seq<Message>, script: seq<Request>, opening: seq<QueueAction>) returns (ending: Ending)
      requires AtStart() && WellBehaved(script)
      requires skipInitialSteeringPoll || NoneFrom(ledger.awaiting, Steering)
      modifies this`context, this`newMessages, this`replaced, this`skipInitialSteeringPoll, this`pendingMessages, this`ledger
      modifies this`stalled, this`steps, this`trail, agent, agent.steering, agent.followUp
      ensures Ran(ending, script)
      ensures DeclareToolChanges(old(context), prompts + old(pendingMessages)) <= newMessages
    {
      OpenPrompt(prompts, opening);
      ending := RunLoop(script);
    }

    /** A run on the transcript as it is. */
    method RunContinuation(script: seq<Request>, opening: seq<QueueAction>) returns (ending: Ending)
      requires AtStart() && WellBehaved(script) && pendingMessages == []
      modifies this`context, this`newMessages, this`replaced, this`skipInitialSteeringPoll, this`pendingMessages, this`ledger
      modifies this`stalled, this`steps, this`trail, agent, agent.steering, agent.followUp
      ensures Ran(ending, script)
    {
      NothingUpcoming(ledger);
      Begin();
      BeginLoop(opening);
      ending := RunLoop(script);
    }

    /** After an assistant message, on steering messages if any wait, and otherwise on follow-up messages. */
    method ContinueQueued(script: seq<Request>, opening: seq<QueueAction>) returns (ending: Ending)
      requires AtStart() && WellBehaved(script) && pendingMessages == []
      modifies this`context, this`newMessages, this`replaced, this`skipInitialSteeringPoll, this`pendingMessages, this`ledger
      modifies this`stalled, this`steps, this`trail, agent, agent.steering, agent.followUp
      ensures if ending.Refused? then AtStart() && pendingMessages == [] else Ran(ending, script)
      ensures ending.Refused? <==> old(agent.steering.messages) == [] && old(agent.followUp.messages) == []
      ensures !ending.Refused? ==> DeclareToolChanges(old(context), old(Queued())) <= newMessages
    {
      TakeQueued();
      if |pendingMessages| == 0 {
        return Refused("Cannot continue from message role: assistant");
      }
      ending := RunTaken(script, opening);
    }

    /** A run on messages just taken from a queue. */
    method RunTaken(script: seq<Request>, opening: seq<QueueAction>) returns (ending: Ending)
      requires AtStart() && WellBehaved(script)
      requires skipInitialSteeringPoll || NoneFrom(ledger.awaiting, Steering)
      modifies this`context, this`newMessages, this`replaced, this`skipInitialSteeringPoll, this`pendingMessages, this`ledger
      modifies this`stalled, this`steps, this`trail, agent, agent.steering, agent.followUp
      ensures Ran(ending, script) && DeclareToolChanges(old(context), old(pendingMessages)) <= newMessages
    {
      assert [] + pendingMessages == pendingMessages;
      ending := RunPrompt([], script, opening);
    }

    /** What an agent that goes on after an assistant message takes from its queues. */
    function Queued(): seq<Message>
      reads agent, agent.steering, agent.followUp
    {
      if agent.steering.messages != [] then agent.steering.Peek() else agent.followUp.Peek()
    }

    method TakeQueued()
      requires AtStart() && pendingMessages == []
      modifies this`skipInitialSteeringPoll, this`pendingMessages, this`ledger, this`steps, this`trail
      modifies agent.steering, agent.followUp
      ensures AtStart() && pendingMessages == old(Queued())
      ensures skipInitialSteeringPoll || NoneFrom(ledger.awaiting, Steering)
    {
      NothingUpcoming(ledger);
      ghost var _ := Poll(Steering);
      if |pendingMessages| > 0 {
        skipInitialSteeringPoll := true;
      } else {
        ghost var _ := Poll(FollowUp);
      }
    }

    /** Continue from the transcript: after an assistant message only on messages that wait in a queue. */
    method Continue(script: seq<Request>, opening: seq<QueueAction>) returns (ending: Ending)
      requires AtStart() && WellBehaved(script) && pendingMessages == []
      modifies this`context, this`newMessages, this`replaced, this`skipInitialSteeringPoll, this`pendingMessages, this`ledger
      modifies this`stalled, this`steps, this`trail, agent, agent.steering, agent.followUp
      ensures if ending.Refused? then AtStart() && pendingMessages == [] else Ran(ending, script)
      ensures ending.Refused? <==> Refuses(old(agent.messages), old(agent.steering.messages), old(agent.followUp.messages))
      ensures !ending.Refused? && AfterAssistant(old(agent.messages)) ==>
                DeclareToolChanges(old(context), old(Queued())) <= newMessages
    {
      if OnlySystem(agent.messages) {
        return Refused("No messages to continue from");
      }
      if agent.messages[|agent.messages| - 1].Assistant? {
        ending := ContinueQueued(script, opening);
      } else {
        ending := RunContinuation(script, opening);
      }
    }

    method Start(start: Start, script: seq<Request>, opening: seq<QueueAction>) returns (ending: Ending)
      requires AtStart() && WellBehaved(script) && pendingMessages == [] && !skipInitialSteeringPoll
      modifies this`context, this`newMessages, this`replaced, this`skipInitialSteeringPoll, this`pendingMessages, this`ledger
      modifies this`stalled, this`steps, this`trail, agent, agent.steering, agent.followUp
      ensures if ending.Refused? then start.Resume? && AtStart() && pendingMessages == [] else Ran(ending, script)
      ensures start.Prompt? ==> DeclareToolChanges(old(context), start.messages) <= newMessages
    {
      match start {
        case Prompt(prompts) =>
          OnlyAwaiting(ledger);
          assert prompts + pendingMessages == prompts;
          ending := RunPrompt(prompts, script, opening);
        case Resume =>
          ending := Continue(script, opening);
      }
    }
  }

  predicate OnlySystem(messages: seq<Message>) {
    forall m :: m in messages ==> m.System?
  }

  predicate AfterAssistant(messages: seq<Message>) {
    messages != [] && messages[|messages| - 1].Assistant?
  }

  /** When there is nothing to continue from. */
  predicate Refuses(messages: seq<Message>, steering: seq<Message>, followUp: seq<Message>) {
    OnlySystem(messages) || (AfterAssistant(messages) && steering == [] && followUp == [])
  }

  lemma OnlyAwaiting(l: Ledger)
    requires l.commits == []
    ensures l.Upcoming() == l.awaiting
  {}

  datatype Start = Prompt(messages: seq<Message>) | Resume

  /** What the users, the listeners and the model of an agent can rely on after a run, however it ends. */
  ghost predicate Consistent(
    transcript: seq<Message>, messages: seq<Message>, events: seq<Event>, view: View, steering: History, followUp: History)
  {
    // The events follow the grammar, and the transcript has grown by exactly the messages they completed.
    && After(events) != Broken && messages == transcript + Ends(events)
    // Each queue delivered in order, and all it delivered is accounted for.
    && steering.Orderly() && steering.delivered == view.ledger.Accounted(Steering)
    && followUp.Orderly() && followUp.delivered == view.ledger.Accounted(FollowUp)
    // In every turn: one batch from each queue at most, tool changes declared, results that answer the calls in order.
    && Sound(view.ledger)
  }

  /** What holds besides when the run came to its end. */
  ghost predicate Concluded(messages: seq<Message>, newMessages: seq<Message>, events: seq<Event>, view: View) {
    && After(events) == Over && events[|events| - 1] == AgentEnd(newMessages)
    && newMessages == Ends(events) == view.ledger.Messages()
    && view.ledger.Upcoming() == []
    && Embeds(view.ledger.Accounted(Steering), newMessages) && Embeds(view.ledger.Accounted(FollowUp), newMessages)
    && view.spot.executed == AllExecuted(view.ledger.turns)
    && (!view.replaced ==> view.context.messages == messages)
  }

  method NewRun(
    transcript: seq<Message>, tools: seq<Tool>, sequentialTools: bool, steeringMode: QueueMode, followUpMode: QueueMode,
    queued: seq<QueueAction>)
    returns (run: Run)
    ensures fresh(run) && fresh(run.agent) && fresh(run.agent.steering) && fresh(run.agent.followUp)
    ensures run.AtStart() && run.pendingMessages == [] && !run.skipInitialSteeringPoll
    ensures run.steeredBefore == run.followedBefore == [] && run.agent.base == run.agent.messages == transcript
    ensures run.context == Context(transcript, tools)
  {
    var steering := new PendingMessageQueue(steeringMode);
    var followUp := new PendingMessageQueue(followUpMode);
    var agent := new Agent(transcript, steering, followUp);
    agent.ActAll(queued);
    run := new Run(agent, tools, sequentialTools);
  }

  /** What the steps on record amount to. */
  lemma HangingMeans(run: Run)
    requires run.Hanging() && run.steeredBefore == run.followedBefore == []
    ensures var agent := run.agent;
            Consistent(agent.base, agent.messages, agent.events, run.Seen(), agent.steering.History(), agent.followUp.History())
    ensures run.Seen().Kept() && After(run.agent.events) == run.agent.phase && Ends(run.agent.events) == run.agent.ended
  {
    RunKeeps(run.steps, run.trail, |run.steps|);
    run.agent.Grammatical();
  }

  lemma CompleteMeans(run: Run)
    requires run.Complete() && run.steeredBefore == run.followedBefore == []
    ensures Concluded(run.agent.messages, run.newMessages, run.agent.events, run.Seen())
  {
    HangingMeans(run);
    NothingUpcoming(run.ledger);
    DeliveredIsSaid(run.ledger, Steering);
    DeliveredIsSaid(run.ledger, FollowUp);
  }

  /** Run an agent on prompts, or let it continue, with whatever is in its queues. */
  method RunAgent(
    transcript: seq<Message>, tools: seq<Tool>, sequentialTools: bool, steeringMode: QueueMode, followUpMode: QueueMode,
    queued: seq<QueueAction>, start: Start, opening: seq<QueueAction>, script: seq<Request>)
    returns (ending: Ending, messages: seq<Message>, newMessages: seq<Message>, ghost events: seq<Event>, ghost view: View,
             ghost steering: History, ghost followUp: History)
    requires WellBehaved(script)
    ensures Consistent(transcript, messages, events, view, steering, followUp)
    ensures ending.Stopped? || ending.Settled? ==> Concluded(messages, newMessages, events, view)
    ensures ending.Settled? ==> followUp.waiting == [] && (NeverIdle(script) ==> steering.waiting == [])
    ensures ending.Refused? ==> start.Resume? && messages == transcript
    ensures start.Prompt? ==> DeclareToolChanges(Context(transcript, tools), start.messages) <= newMessages
    ensures Played(script, view.ledger.turns) && (ending.Unfinished? ==> Starved(script, view.ledger.turns, view.stalled))
  {
    var run := NewRun(transcript, tools, sequentialTools, steeringMode, followUpMode, queued);
    ending := run.Start(start, script, opening);
    messages, newMessages := run.agent.messages, run.newMessages;
    events, view := run.agent.events, run.Seen();
    steering, followUp := run.agent.steering.History(), run.agent.followUp.History();
    HangingMeans(run);
    if ending.Stopped? || ending.Settled? {
      CompleteMeans(run);
    }
  }
}
