/** A run as a series of steps, and what every run keeps: the accounts of its messages agree, and every message taken from
    a queue is in exactly one of them. */
module AgentRun {
  import opened Options
  import opened Transcript
  import opened AgentEvents
  import opened Agent
  import opened AgentTools
  import opened AgentLedger

  /** A run at one moment: where its events stand, the loop's context, its list of new messages and those pending, what
      the queues delivered before and up to now, and the account of it all. A run is stalled when a call it waits for
      never completes. */
  datatype View = View(
    spot: Spot, context: Context, replaced: bool, newMessages: seq<Message>, pending: seq<Message>, stalled: bool,
    steeredBefore: seq<Message>, followedBefore: seq<Message>, steered: seq<Message>, followed: seq<Message>, ledger: Ledger)
  {
    /** A run about to begin. */
    predicate Initial() {
      && spot.ended == [] && spot.executed == [] && newMessages == [] && pending == [] && !replaced
      && context.messages == spot.base && steered == steeredBefore && followed == followedBefore
      && ledger == Ledger([], [], [])
    }

    /** Every message taken from a queue is accounted for. */
    ghost predicate Conserved() {
      && steered == steeredBefore + ledger.Accounted(Steering)
      && followed == followedBefore + ledger.Accounted(FollowUp)
    }

    /** The three accounts of the run agree: its events, the loop's own list and the ledger; and the loop's context is the
        agent's transcript until a hook replaces it. */
    ghost predicate Balanced() {
      && newMessages == spot.ended == ledger.Messages()
      && spot.executed == AllExecuted(ledger.turns)
      && pending == Taken(ledger.awaiting) && (pending == [] ==> ledger.awaiting == [])
      && (!replaced ==> context.messages == spot.base + spot.ended)
    }

    /** What every run keeps. */
    ghost predicate Kept() {
      Sound(ledger) && Conserved() && (stalled || Balanced())
    }

    function NextCommit(supplied: seq<Message>): Commit {
      Commit(context, supplied, ledger.awaiting, DeclareToolChanges(context, supplied + pending))
    }
  }

  // ---- Steps ----

  /** A poll of a queue; an event between messages; a hook that may replace the context; supplied and pending messages put
      on record with the tool changes they must declare; an answer with its results; or an answer without. */
  datatype Step =
    | Poll(batch: Batch)
    | Signal(phase: Phase)
    | Replace(context: Option<Context>)
    | Submit(supplied: seq<Message>, phase: Phase)
    | Converse(exchange: Exchange, phase: Phase)
    | Stall(answer: Answer, spot: Spot)

  ghost predicate Legal(v: View, s: Step) {
    && !v.stalled
    && match s
       case Poll(b) => v.pending == [] && NoneFrom(v.ledger.Upcoming(), b.source) && (b.mode.OneAtATime? ==> |b.messages| <= 1)
       case Converse(x, _) => v.pending == [] && ExchangeOk(x)
       case _ => true
  }

  function AfterPoll(v: View, b: Batch): View {
    v.(pending := b.messages, ledger := AgentLedger.Polled(v.ledger, b),
       steered := v.steered + (if b.source == Steering then b.messages else []),
       followed := v.followed + if b.source == FollowUp then b.messages else [])
  }

  function AfterReplace(v: View, c: Option<Context>): View {
    if c.Some? then v.(context := c.value, replaced := true) else v
  }

  /** After putting messages on record. */
  function Emitting(v: View, emitted: seq<Message>, phase: Phase): View {
    v.(spot := v.spot.(phase := phase, ended := v.spot.ended + emitted),
       context := v.context.(messages := v.context.messages + emitted), newMessages := v.newMessages + emitted)
  }

  function AfterSubmit(v: View, supplied: seq<Message>, phase: Phase): View {
    var commit := v.NextCommit(supplied);
    Emitting(v, commit.emitted, phase).(pending := [], ledger := AgentLedger.Committed(v.ledger, commit))
  }

  function AfterConverse(v: View, x: Exchange, phase: Phase): View {
    v.(spot := Spot(v.spot.base, phase, v.spot.ended + [x.answer] + x.results, v.spot.executed + x.executed),
       context := v.context.(messages := v.context.messages + [x.answer] + x.results),
       newMessages := v.newMessages + [x.answer] + x.results, ledger := Closed(v.ledger, x))
  }

  function AfterStall(v: View, answer: Answer, spot: Spot): View {
    v.(spot := spot, context := v.context.(messages := v.context.messages + [answer]),
       newMessages := v.newMessages + [answer], stalled := true)
  }

  /** After an answer, before what follows from it. */
  function AfterAnswer(v: View, answer: Answer): View
    requires v.spot.phase.Turn?
  {
    v.(spot := v.spot.Completing(answer), context := v.context.(messages := v.context.messages + [answer]),
       newMessages := v.newMessages + [answer])
  }

  /** After the calls of an answer, on top of it. */
  function AfterCalls(v: View, x: Exchange): View
    requires v.spot.phase.Turn?
  {
    AfterResults(v.(spot := v.spot.Having(x.executed).Answering(x.results)), x)
  }

  /** Once the results of an exchange are on record. */
  function AfterResults(v: View, x: Exchange): View {
    v.(context := v.context.(messages := v.context.messages + x.results),
       newMessages := v.newMessages + x.results, ledger := Closed(v.ledger, x))
  }

  lemma ConverseInSteps(v: View, x: Exchange)
    requires v.spot.Idle()
    ensures AfterCalls(AfterAnswer(v, x.answer), x)
         == AfterConverse(v, x, Turn(None, multiset{}, Some(x.answer), x.results, |x.results|))
  {
    assert [] + x.results == x.results;
  }

  lemma EmittingMore(v: View, emitted: seq<Message>, m: Message, between: Phase, phase: Phase)
    ensures Emitting(Emitting(v, emitted, between), [m], phase) == Emitting(v, emitted + [m], phase)
  {
    Associate(v.spot.ended, emitted, [m]);
    Associate(v.context.messages, emitted, [m]);
    Associate(v.newMessages, emitted, [m]);
  }

  function Take(v: View, s: Step): View {
    match s
    case Poll(b) => AfterPoll(v, b)
    case Signal(phase) => v.(spot := v.spot.(phase := phase))
    case Replace(c) => AfterReplace(v, c)
    case Submit(supplied, phase) => AfterSubmit(v, supplied, phase)
    case Converse(x, phase) => AfterConverse(v, x, phase)
    case Stall(answer, spot) => AfterStall(v, answer, spot)
  }

  lemma PollKeeps(v: View, b: Batch)
    requires v.Kept() && Legal(v, Poll(b))
    ensures AfterPoll(v, b).Kept()
  {
    PolledIsSound(v.ledger, b);
    PolledAccounts(v.ledger, b, Steering, v.steeredBefore);
    PolledAccounts(v.ledger, b, FollowUp, v.followedBefore);
    PolledMessages(v.ledger, b);
  }

  lemma SubmitKeeps(v: View, supplied: seq<Message>, phase: Phase)
    requires v.Kept() && !v.stalled
    ensures AfterSubmit(v, supplied, phase).Kept()
  {
    var commit := v.NextCommit(supplied);
    CommittedIsSound(v.ledger, commit);
    CommittedUpcoming(v.ledger, commit);
    CommittedMessages(v.ledger, commit);
    Associate(v.spot.base, v.spot.ended, commit.emitted);
  }

  lemma ConverseKeeps(v: View, x: Exchange, phase: Phase)
    requires v.Kept() && Legal(v, Converse(x, phase))
    ensures AfterConverse(v, x, phase).Kept()
  {
    ClosedIsSound(v.ledger, x);
    ClosedAccounts(v.ledger, x, Steering);
    ClosedAccounts(v.ledger, x, FollowUp);
    ClosedMessages(v.ledger, x);
    Associate(v.spot.base, v.spot.ended, [x.answer]);
    Associate(v.spot.base, v.spot.ended + [x.answer], x.results);
  }

  /** Every legal step keeps the accounts. */
  lemma StepKeeps(v: View, s: Step)
    requires v.Kept() && Legal(v, s)
    ensures Take(v, s).Kept()
  {
    match s
    case Poll(b) => PollKeeps(v, b);
    case Submit(supplied, phase) => SubmitKeeps(v, supplied, phase);
    case Converse(x, phase) => ConverseKeeps(v, x, phase);
    case _ =>
  }

  /** A run of legal steps, with a view before and after each. */
  ghost predicate Traced(steps: seq<Step>, trail: seq<View>) {
    && |trail| == |steps| + 1 && trail[0].Initial()
    && forall i {:trigger Take(trail[i], steps[i])} :: 0 <= i < |steps| ==>
         Legal(trail[i], steps[i]) && trail[i + 1] == Take(trail[i], steps[i])
  }

  lemma TracedGrows(steps: seq<Step>, trail: seq<View>, s: Step)
    requires Traced(steps, trail) && Legal(trail[|steps|], s)
    ensures Traced(steps + [s], trail + [Take(trail[|steps|], s)])
  {
    var more, next := steps + [s], trail + [Take(trail[|steps|], s)];
    forall i | 0 <= i < |more| ensures Legal(next[i], more[i]) && next[i + 1] == Take(next[i], more[i]) {
      assert i < |steps| ==> trail[i + 1] == Take(trail[i], steps[i]);
    }
  }

  lemma TracedAt(steps: seq<Step>, trail: seq<View>, i: nat)
    requires Traced(steps, trail) && i < |steps|
    ensures Legal(trail[i], steps[i]) && trail[i + 1] == Take(trail[i], steps[i])
  {
    var next := Take(trail[i], steps[i]);
    assert trail[i + 1] == next;
  }

  /** What holds at first and is kept by every legal step holds along a run. */
  lemma {:induction false} KeptAlong(holds: View -> bool, steps: seq<Step>, trail: seq<View>, n: nat)
    requires Traced(steps, trail) && n <= |steps| && holds(trail[0])
    requires forall v: View, s: Step {:trigger Take(v, s)} :: holds(v) && Legal(v, s) ==> holds(Take(v, s))
    ensures holds(trail[n])
  {
    if n > 0 {
      KeptAlong(holds, steps, trail, n - 1);
      TracedAt(steps, trail, n - 1);
    }
  }

  lemma InitialIsKept(v: View)
    requires v.Initial()
    ensures v.Kept()
  {
    assert BatchesOf([]) == [] && AllSaid([]) == [] && Emitted([]) == [] && Taken([]) == [] && AllExecuted([]) == [];
    assert forall s :: Delivering([], s) == [] && TakenFrom([], s) == [];
  }

  /** So every run keeps them, whatever its users, hooks, answers and tools do, and wherever it stands. */
  lemma RunKeeps(steps: seq<Step>, trail: seq<View>, n: nat)
    requires Traced(steps, trail) && n <= |steps|
    ensures trail[n].Kept()
  {
    InitialIsKept(trail[0]);
    forall v: View, s: Step | v.Kept() && Legal(v, s) ensures Take(v, s).Kept() {
      StepKeeps(v, s);
    }
    KeptAlong((v: View) => v.Kept(), steps, trail, n);
  }
}
