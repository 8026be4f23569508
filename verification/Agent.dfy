/** The stateful side of an agent: the queues users fill while it works, and the transcript it keeps from events. */
module Agent {
  import opened Options
  import opened Transcript
  import opened AgentEvents

  datatype QueueMode = All | OneAtATime

  lemma Associate<T>(a: seq<T>, b: seq<T>, c: seq<T>)
    ensures a + (b + c) == a + b + c
  {}

  /** The positions `from`, `from + 1`, and so on, `count` of them. */
  function Range(from: nat, count: nat): (r: seq<nat>)
    ensures |r| == count && forall i :: 0 <= i < count ==> r[i] == from + i
  {
    seq(count, i requires 0 <= i < count => from + i)
  }

  /** A queue at one moment: everything ever enqueued, how much of it has left, and which of that, in order, was
      delivered; the rest of what has left was cleared. */
  datatype History = History(enqueued: seq<Message>, left: nat, picks: seq<nat>, delivered: seq<Message>, waiting: seq<Message>) {
    /** Each enqueued message is in exactly one place: delivered, cleared, or waiting; and none overtakes another. */
    ghost predicate Orderly() {
      && left <= |enqueued| && waiting == enqueued[left..]
      && |delivered| == |picks|
      && (forall i :: 0 <= i < |picks| ==> picks[i] < left && delivered[i] == enqueued[picks[i]])
      && (forall i, j :: 0 <= i < j < |picks| ==> picks[i] < picks[j])
    }
  }

  const NO_HISTORY := History([], 0, [], [], [])

  datatype QueueStep = Enqueue(message: Message) | Drain(count: nat) | Clear

  /** What a step makes of a queue. */
  function Perform(h: History, s: QueueStep): History
    requires s.Drain? ==> s.count <= |h.waiting|
  {
    match s
    case Enqueue(m) => h.(enqueued := h.enqueued + [m], waiting := h.waiting + [m])
    case Drain(n) =>
      History(h.enqueued, h.left + n, h.picks + Range(h.left, n), h.delivered + h.waiting[..n], h.waiting[n..])
    case Clear => h.(left := |h.enqueued|, waiting := [])
  }

  /** A queue's steps, and its histories before and after each. */
  ghost predicate Lived(steps: seq<QueueStep>, lives: seq<History>) {
    && |lives| == |steps| + 1 && lives[0] == NO_HISTORY
    && forall i {:trigger Lives(lives[i], steps[i], lives[i + 1])} :: 0 <= i < |steps| ==>
         Lives(lives[i], steps[i], lives[i + 1])
  }

  ghost predicate Lives(h: History, s: QueueStep, next: History) {
    (s.Drain? ==> s.count <= |h.waiting|) && next == Perform(h, s)
  }

  lemma LivedGrows(steps: seq<QueueStep>, lives: seq<History>, s: QueueStep, next: History)
    requires Lived(steps, lives) && Lives(lives[|steps|], s, next)
    ensures Lived(steps + [s], lives + [next])
  {
    forall i | 0 <= i < |steps + [s]|
      ensures Lives((lives + [next])[i], (steps + [s])[i], (lives + [next])[i + 1])
    {
      assert i < |steps| ==> Lives(lives[i], steps[i], lives[i + 1]);
    }
  }

  lemma LivesOrderly(h: History, s: QueueStep)
    requires h.Orderly() && (s.Drain? ==> s.count <= |h.waiting|)
    ensures Perform(h, s).Orderly()
  {}

  /** Whatever is done to a queue, no message is lost, duplicated or overtaken. */
  lemma {:induction false} LivedOrderly(steps: seq<QueueStep>, lives: seq<History>, n: nat)
    requires Lived(steps, lives) && n <= |steps|
    ensures lives[n].Orderly()
  {
    if n > 0 {
      var i := n - 1;
      LivedOrderly(steps, lives, i);
      assert Lives(lives[i], steps[i], lives[i + 1]);
      LivesOrderly(lives[i], steps[i]);
    }
  }

  class PendingMessageQueue {
    var messages: seq<Message>
    var mode: QueueMode
    /** What was delivered so far, and the steps of the queue with its histories. */
    ghost var delivered: seq<Message>
    ghost var steps: seq<QueueStep>
    ghost var lives: seq<History>

    ghost predicate Valid()
      reads this
    {
      Lived(steps, lives) && lives[|steps|].waiting == messages && lives[|steps|].delivered == delivered
    }

    ghost function History(): (h: History)
      requires Valid()
      reads this
      ensures h.Orderly() && h.waiting == messages && h.delivered == delivered
    {
      LivedOrderly(steps, lives, |steps|);
      lives[|steps|]
    }

    constructor (mode: QueueMode)
      ensures Valid() && messages == [] && delivered == [] && this.mode == mode
    {
      this.mode := mode;
      messages, delivered, steps, lives := [], [], [], [NO_HISTORY];
    }

    ghost method Log(s: QueueStep)
      requires Lived(steps, lives) && (s.Drain? ==> s.count <= |lives[|steps|].waiting|)
      modifies this`steps, this`lives
      ensures Lived(steps, lives) && lives[|steps|] == Perform(old(lives[|steps|]), s)
    {
      LivedGrows(steps, lives, s, Perform(lives[|steps|], s));
      steps, lives := steps + [s], lives + [Perform(lives[|steps|], s)];
    }

    method Enqueue(message: Message)
      requires Valid()
      modifies this`messages, this`steps, this`lives
      ensures Valid() && messages == old(messages) + [message]
    {
      Log(QueueStep.Enqueue(message));
      messages := messages + [message];
    }

    function Peek(): (r: seq<Message>)
      reads this
      ensures r <= messages && (messages != [] ==> r != [])
      ensures mode.OneAtATime? ==> |r| <= 1
    {
      if mode == All then messages else if messages == [] then [] else messages[..1]
    }

    method Drain() returns (drained: seq<Message>)
      requires Valid()
      modifies this`messages, this`delivered, this`steps, this`lives
      ensures Valid() && drained == old(Peek()) && old(messages) == drained + messages
      ensures delivered == old(delivered) + drained
    {
      drained := Peek();
      Log(QueueStep.Drain(|drained|));
      messages := messages[|drained|..];
      delivered := delivered + drained;
    }

    method Clear()
      requires Valid()
      modifies this`messages, this`steps, this`lives
      ensures Valid() && messages == []
    {
      Log(QueueStep.Clear);
      messages := [];
    }
  }

  datatype Source = Steering | FollowUp

  /** What a user may do to the queues while the agent works. */
  datatype QueueAction = Add(source: Source, message: Message) | ClearQueue(source: Source) | SetMode(source: Source, mode: QueueMode)

  lemma StreamingStep(phase: Phase, e: Event)
    requires Next(phase, e) != Broken
    ensures Writing(Next(phase, e)) ==
            if e.MessageStart? || e.MessageUpdate? then Some(e.message)
            else if e.MessageEnd? || e.AgentEnd? then None
            else Writing(phase)
  {}

  function Writing(phase: Phase): Option<Message> {
    if phase.Turn? then phase.open else None
  }

  /** A run at one moment: the transcript it began with, where it stands, what it completed, and the calls it has had
      executed. */
  datatype Spot = Spot(base: seq<Message>, phase: Phase, ended: seq<Message>, executed: seq<ToolCall>) {
    /** Between two messages of a turn. */
    predicate InTurn() {
      phase.Turn? && phase.open.None?
    }

    /** With no call running either. */
    predicate Idle() {
      InTurn() && phase.running == multiset{}
    }

    function Executing(running: multiset<string>): Spot
      requires phase.Turn?
    {
      this.(phase := phase.(running := running))
    }

    /** After starting calls, up to a number of them. */
    function Preparing(running: multiset<string>, started: nat): Spot
      requires phase.Turn?
    {
      this.(phase := phase.(running := running, started := started))
    }

    /** After calls came to these results. */
    function Answering(messages: seq<Message>): Spot
      requires phase.Turn?
    {
      this.(phase := phase.(results := phase.results + messages, started := phase.started + |messages|), ended := ended + messages)
    }

    /** After completing messages that are tool results. */
    function Reporting(messages: seq<Message>): Spot
      requires phase.Turn?
    {
      this.(phase := phase.(results := phase.results + messages), ended := ended + messages)
    }

    function Completing(m: Message): Spot
      requires phase.Turn?
    {
      Spot(base, if m.Assistant? then Turn(None, phase.running, Some(m), [], 0)
                 else Turn(None, phase.running, phase.answer, if m.ToolResult? then phase.results + [m] else phase.results,
                           phase.started),
           ended + [m], executed)
    }

    function Having(calls: seq<ToolCall>): Spot {
      this.(executed := executed + calls)
    }
  }

  class Agent {
    var messages: seq<Message>
    var streamingMessage: Option<Message>
    var pendingToolCalls: set<string>
    const steering: PendingMessageQueue
    const followUp: PendingMessageQueue
    /** The transcript before the run, the run's events, where they stand in the grammar and what they completed. */
    ghost const base: seq<Message>
    ghost var events: seq<Event>
    ghost var trail: seq<Mark>
    ghost var phase: Phase
    ghost var ended: seq<Message>
    /** The calls whose tools were asked to execute. */
    ghost var executed: seq<ToolCall>

    ghost function Here(): Spot
      reads this
    {
      Spot(base, phase, ended, executed)
    }

    ghost predicate QueuesValid()
      reads this, steering, followUp
    {
      steering != followUp && steering.Valid() && followUp.Valid()
    }

    /** The state kept from events is what the events say. */
    ghost predicate Reduced()
      reads this
    {
      && Recorded(events, trail) && trail[|events|] == Mark(phase, ended, pendingToolCalls) && phase != Broken
      && messages == base + ended
      && streamingMessage == Writing(phase)
    }

    constructor (transcript: seq<Message>, steering: PendingMessageQueue, followUp: PendingMessageQueue)
      requires steering != followUp && steering.Valid() && followUp.Valid()
      ensures Reduced() && QueuesValid() && base == messages == transcript && events == [] && Here() == Spot(transcript, Fresh, [], [])
      ensures this.steering == steering && this.followUp == followUp
    {
      messages, streamingMessage, pendingToolCalls := transcript, None, {};
      this.steering, this.followUp := steering, followUp;
      base, events, trail, phase, ended, executed := transcript, [], [FIRST_MARK], Fresh, [], [];
    }

    /** Put an event on record. */
    ghost method Record(e: Event, calls: set<string>)
      requires Recorded(events, trail) && trail[|events|] == Mark(phase, ended, calls)
      modifies this`events, this`trail, this`phase, this`ended
      ensures Recorded(events, trail) && trail[|events|] == Mark(phase, ended, Reduce(calls, e))
      ensures phase == Next(old(phase), e) && events == old(events) + [e]
      ensures ended == old(ended) + if e.MessageEnd? then [e.message] else []
    {
      RecordedGrows(events, trail, e);
      trail := trail + [Pass(Mark(phase, ended, calls), e)];
      events := events + [e];
      phase := Next(phase, e);
      ended := ended + if e.MessageEnd? then [e.message] else [];
    }

    /** Reduce state for an event, in the order the loop emits them. */
    method ProcessEvent(e: Event)
      requires Reduced() && Next(phase, e) != Broken
      modifies this
      ensures Reduced() && events == old(events) + [e]
      ensures Here() == Spot(base, Next(old(phase), e), old(ended) + (if e.MessageEnd? then [e.message] else []),
                             old(executed))
    {
      ghost var calls := pendingToolCalls;
      StreamingStep(phase, e);
      match e {
        case MessageStart(m) => streamingMessage := Some(m);
        case MessageUpdate(m) => streamingMessage := Some(m);
        case MessageEnd(m) =>
          streamingMessage := None;
          messages := messages + [m];
        case ToolStart(id) => pendingToolCalls := pendingToolCalls + {id};
        case ToolEnd(id, _) => pendingToolCalls := pendingToolCalls - {id};
        case AgentEnd(_) => streamingMessage := None;
        case _ =>
      }
      Record(e, calls);
    }

    /** What the recorded state means for the events as a whole. */
    lemma Grammatical()
      requires Reduced()
      ensures After(events) == phase && Ends(events) == ended && messages == base + Ends(events)
      ensures InGrammar(events, trail) && pendingToolCalls == PendingCalls(events)
      ensures forall id :: id in pendingToolCalls ==> id in Running(phase)
    {
      RecordedMeans(events, trail);
      PendingAreRunning(events, trail, |events|);
    }

    /** Where no answer calls twice with one id, the pending ids are those of the calls that run. */
    lemma PendingExactly()
      requires Reduced() && Tidy(ended)
      ensures forall id :: id in pendingToolCalls <==> id in Running(phase)
    {
      TidyNeverTwice(events, trail);
      assert Exact(trail[|events|]);
    }

    method Act(action: QueueAction)
      requires QueuesValid()
      modifies steering, followUp
      ensures QueuesValid()
      ensures steering.delivered == old(steering.delivered)
      ensures followUp.delivered == old(followUp.delivered)
    {
      var queue := if action.source == Steering then steering else followUp;
      match action {
        case Add(_, m) => queue.Enqueue(m);
        case ClearQueue(_) => queue.Clear();
        case SetMode(_, mode) => queue.mode := mode;
      }
    }

    method ActAll(actions: seq<QueueAction>)
      requires QueuesValid()
      modifies steering, followUp
      ensures QueuesValid()
      ensures steering.delivered == old(steering.delivered)
      ensures followUp.delivered == old(followUp.delivered)
      ensures actions == [] ==> steering.messages == old(steering.messages)
    {
      for i := 0 to |actions|
        invariant QueuesValid()
        invariant steering.delivered == old(steering.delivered)
        invariant followUp.delivered == old(followUp.delivered)
        invariant i == 0 ==> steering.messages == old(steering.messages)
      {
        Act(actions[i]);
      }
    }
  }
}
