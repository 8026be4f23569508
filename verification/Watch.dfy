/** Watching a JSON source: what comes while its listener is at work is made into one call for when it returns. */
module Watch {
  import opened Options
  import opened Delta
  import P = PendingOps
  import L = WatchLifecycle

  /** A frame a source hands its watch, and a call its listener gets. */
  datatype WatchCall = Value(value: Json, ops: seq<Op>, retired: bool) | Failed(error: string)

  type ValueCall = c: WatchCall | c.Value? witness Value(Null, [], false)

  /** A frame's context, passed on to the listener. */
  type Context = nat

  /** What is pending: folded operations, the source's own call as long as no other has come, the newest frame's value and
      context, whether a retirement is due, and what a failure leaves. */
  datatype Queue = Queue(
    ops: P.State, lone: Option<ValueCall>, newest: Option<Json>, context: Option<Context>, retired: bool,
    failure: Option<string>, replace: bool)
  {
    /** A call that is pending has its value. */
    predicate Ready() {
      && (context.Some? ==> newest.Some? || (replace && failure.Some?))
      && (ops.Folding? ==> P.Indexed(ops.folded))
    }
  }

  const NOTHING := Queue(P.Empty, None, None, None, false, None, false)

  ghost function AdvanceQueue(q: Queue, call: ValueCall, context: Context): Queue
    requires q.ops.Folding? ==> P.Indexed(q.ops.folded)
  {
    (if q.replace then q.(failure := None)
     else q.(lone := if q.context.None? then Some(call) else None, ops := P.Pushed(q.ops, call.ops)))
    .(newest := Some(call.value), context := Some(context), retired := q.retired || call.retired)
  }

  function FailQueue(q: Queue, error: string, context: Context): Queue {
    q.(ops := P.Empty, lone := None, newest := None, failure := Some(error), context := Some(context), replace := true)
  }

  /** The next call, and what is left to come. */
  function NextCall(q: Queue): (WatchCall, Queue)
    requires q.context.Some? && q.Ready()
  {
    if q.replace then
      if q.failure.Some? then (Failed(q.failure.value), q.(context := None, failure := None))
      else (Value(q.newest.value, [Replace(q.newest.value)], q.retired),
            q.(newest := None, context := None, retired := false, replace := false))
    else
      var left := q.(ops := P.Empty, lone := None, newest := None, context := None, retired := false);
      if q.lone.Some? then (q.lone.value, left)
      else
        var ops := match P.Handed(q.ops)
          case Ops(ops) => ops
          case ReplaceAll => [Replace(q.newest.value)];
        (Value(q.newest.value, ops, q.retired), left)
  }

  // ---- The machine ----

  /** What the watch took and gave, oldest first. */
  datatype Item = Took(retired: bool) | Gave(call: WatchCall)

  /** A watch: its life, what is pending, the value it shows; and for the account, the value it began with, the source's
      value as far as the watch was told, the operations since the last value call, and the history. */
  datatype State = State(
    life: L.Life, queue: Queue, value: Json, initial: Json, source: Option<Json>, since: seq<Op>, history: seq<Item>)

  datatype Action =
    | Advance(call: ValueCall, context: Context)
    | Fail(error: string, context: Context)
    | Start
    | Stop
    | ObserveAbort(aborted: bool)
    | Abort
    | End(end: L.WatchEnd)
    | EndAfterDelivery
    | Microtask
    | Return(thrown: Option<string>)

  function Initial(value: Json): State {
    State(L.FRESH, NOTHING, value, value, Some(value), [], [])
  }

  /** A source tells the truth: a frame's operations turn the value before it into its value; after a failure they need
      not. A call returns only while one is made. */
  predicate Enabled(s: State, a: Action) {
    match a
    case Advance(call, _) => s.source.Some? ==> ApplyAll(s.source.value, call.ops) == Some(call.value)
    case Return(_) => s.life.running
    case _ => true
  }

  /** When a watch ends it drops what is pending. */
  function Released(s: State): State {
    if s.life.end.Some? then s.(queue := NOTHING, since := []) else s
  }

  /** A drain makes its call. */
  function Giving(s: State, life: L.Life): State
    requires s.queue.context.Some? && s.queue.Ready()
  {
    var (call, left) := NextCall(s.queue);
    s.(life := life, queue := left, value := if call.Value? then call.value else s.value,
       since := if call.Value? then [] else s.since, history := s.history + [Gave(call)])
  }

  ghost function Step(s: State, a: Action): State
    requires s.queue.Ready()
  {
    var pending := s.queue.context.Some?;
    match a
    case Advance(call, context) =>
      if !s.life.Open() then s
      else s.(life := L.Pend(s.life), queue := AdvanceQueue(s.queue, call, context), source := Some(call.value),
              since := if s.queue.replace then s.since else s.since + call.ops, history := s.history + [Took(call.retired)])
    case Fail(error, context) =>
      if !s.life.Open() then s
      else s.(life := L.Pend(s.life), queue := FailQueue(s.queue, error, context), source := None, since := [])
    case Start => s.(life := L.Start(s.life))
    case Stop => Released(s.(life := L.Terminate(s.life, L.Stopped)))
    case ObserveAbort(aborted) => Released(s.(life := L.ObserveAbort(s.life, aborted)))
    case Abort => Released(s.(life := L.Terminate(s.life, L.Aborted)))
    case End(end) => Released(s.(life := L.Terminate(s.life, end)))
    case EndAfterDelivery => Released(s.(life := L.EndAfterDelivery(s.life, pending)))
    case Microtask =>
      var life := L.Microtask(s.life, pending);
      if L.Drains(s.life) && s.life.Delivers() && pending then Giving(s, life) else Released(s.(life := life))
    case Return(thrown) =>
      var life := L.Return(s.life, thrown, pending);
      if thrown.None? && s.life.Delivers() && pending then Giving(s, life) else Released(s.(life := life))
  }

  // ---- What the history says ----

  /** The value of a listener that starts from the first value and applies every value call's operations in order. */
  function Replayed(initial: Json, history: seq<Item>): Option<Json> {
    if history == [] then Some(initial)
    else
      var before, item := Replayed(initial, history[..|history| - 1]), history[|history| - 1];
      if item.Gave? && item.call.Value? then
        if before.Some? then ApplyAll(before.value, item.call.ops) else None
      else before
  }

  /** Whether a retirement was taken since the last value call. */
  predicate Unreported(history: seq<Item>) {
    history != [] && var item, before := history[|history| - 1], history[..|history| - 1];
                     match item
                     case Took(retired) => retired || Unreported(before)
                     case Gave(call) => call.Failed? && Unreported(before)
  }

  /** Every value call brought the listener to its value, and reported exactly the retirements since the one before. */
  predicate Faithful(initial: Json, history: seq<Item>) {
    history == [] ||
    var item, before := history[|history| - 1], history[..|history| - 1];
    && Faithful(initial, before)
    && (item.Gave? && item.call.Value? ==>
          Replayed(initial, history) == Some(item.call.value) && item.call.retired == Unreported(before))
  }

  lemma HistoryMore(initial: Json, history: seq<Item>, item: Item)
    ensures var more := history + [item];
            && Replayed(initial, more) ==
               (if item.Gave? && item.call.Value? then
                  if Replayed(initial, history).Some? then ApplyAll(Replayed(initial, history).value, item.call.ops) else None
                else Replayed(initial, history))
            && (Unreported(more) <==>
                  match item
                  case Took(retired) => retired || Unreported(history)
                  case Gave(call) => call.Failed? && Unreported(history))
            && (Faithful(initial, more) <==>
                  && Faithful(initial, history)
                  && (item.Gave? && item.call.Value? ==>
                        Replayed(initial, more) == Some(item.call.value) && item.call.retired == Unreported(history)))
  {
    assert (history + [item])[..|history|] == history;
  }

  // ---- What every watch keeps ----

  /** What is pending brings the listener to the source's value. */
  ghost predicate Content(s: State) {
    var q := s.queue;
    && q.Ready()
    && (q.context.None? ==> q.lone.None? && q.failure.None? && q.ops == P.Empty)
    && (if q.replace then
          && q.ops == P.Empty && q.lone.None? && s.since == []
          && (if q.failure.Some? then q.context.Some? && s.source.None?
              else if q.context.Some? then s.source == q.newest
              else s.source.None?)
        else
          && q.failure.None? && s.source.Some? && P.Holds(q.ops, s.since) && ApplyAll(s.value, s.since) == s.source
          && (if q.context.Some? then q.newest == s.source else s.since == []))
    && (q.lone.Some? ==> q.lone.value.ops == s.since && Some(q.lone.value.value) == s.source && q.lone.value.retired == q.retired)
    && (q.context.None? && !q.replace ==> !q.retired)
    && q.retired == Unreported(s.history)
  }

  ghost predicate Kept(s: State) {
    && L.Keeps(s.life, s.queue.context.Some?)
    && Faithful(s.initial, s.history)
    && Replayed(s.initial, s.history) == Some(s.value)
    && (if s.life.end.None? then Content(s) else s.queue == NOTHING)
  }

  lemma AdvanceKeeps(s: State, call: ValueCall, context: Context)
    requires Kept(s) && Enabled(s, Advance(call, context))
    ensures Kept(Step(s, Advance(call, context)))
  {
    if s.life.Open() {
      HistoryMore(s.initial, s.history, Took(call.retired));
      L.PendKeeps(s.life, s.queue.context.Some?);
      if !s.queue.replace {
        P.PushedHolds(s.queue.ops, s.since, call.ops);
        ApplyConcat(s.value, s.since, call.ops);
        assert [] + call.ops == call.ops;
      }
    }
  }

  lemma FailKeeps(s: State, error: string, context: Context)
    requires Kept(s)
    ensures Kept(Step(s, Fail(error, context)))
  {
    if s.life.Open() {
      L.PendKeeps(s.life, s.queue.context.Some?);
    }
  }

  /** The next call brings the listener to the newest value. */
  lemma NextCallApplies(s: State)
    requires Content(s) && s.queue.context.Some? && NextCall(s.queue).0.Value?
    ensures var call := NextCall(s.queue).0;
            ApplyAll(s.value, call.ops) == Some(call.value) && Some(call.value) == s.source
            && call.retired == s.queue.retired
  {
    var q := s.queue;
    if q.newest.Some? {
      ApplyOne(s.value, Replace(q.newest.value));
    }
  }

  lemma GivingKeeps(s: State, life: L.Life)
    requires Kept(s) && s.queue.context.Some? && s.life.end.None? && L.Keeps(life, false) && life.end.None?
    ensures Kept(Giving(s, life))
  {
    var call := NextCall(s.queue).0;
    HistoryMore(s.initial, s.history, Gave(call));
    if call.Value? {
      NextCallApplies(s);
    }
  }

  /** A watch goes on with another life, or ends with it. */
  lemma LifeKeeps(s: State, life: L.Life)
    requires Kept(s) && L.Keeps(life, s.queue.context.Some? && life.end.None?) && (s.life.end.Some? ==> life.end.Some?)
    ensures Kept(Released(s.(life := life)))
  {}

  lemma StartKeeps(s: State)
    requires Kept(s) && Enabled(s, Start)
    ensures Kept(Step(s, Start))
  {
    L.StartKeeps(s.life, s.queue.context.Some?);
  }

  lemma TerminateKeeps(s: State, end: L.WatchEnd)
    requires Kept(s)
    ensures Kept(Released(s.(life := L.Terminate(s.life, end))))
  {
    L.EndKeeps(s.life, s.queue.context.Some?, end);
    LifeKeeps(s, L.Terminate(s.life, end));
  }

  lemma ObserveAbortKeeps(s: State, aborted: bool)
    requires Kept(s) && Enabled(s, ObserveAbort(aborted))
    ensures Kept(Step(s, ObserveAbort(aborted)))
  {
    L.ObserveAbortKeeps(s.life, s.queue.context.Some?, aborted);
    LifeKeeps(s, L.ObserveAbort(s.life, aborted));
  }

  lemma EndAfterDeliveryKeeps(s: State)
    requires Kept(s)
    ensures Kept(Step(s, EndAfterDelivery))
  {
    L.EndAfterDeliveryKeeps(s.life, s.queue.context.Some?);
    LifeKeeps(s, L.EndAfterDelivery(s.life, s.queue.context.Some?));
  }

  lemma MicrotaskKeeps(s: State)
    requires Kept(s)
    ensures Kept(Step(s, Microtask))
  {
    var pending := s.queue.context.Some?;
    L.MicrotaskKeeps(s.life, pending, false);
    if L.Drains(s.life) && pending {
      GivingKeeps(s, L.Microtask(s.life, pending));
    } else {
      LifeKeeps(s, L.Microtask(s.life, pending));
    }
  }

  lemma ReturnKeeps(s: State, thrown: Option<string>)
    requires Kept(s) && Enabled(s, Return(thrown))
    ensures Kept(Step(s, Return(thrown)))
  {
    var pending := s.queue.context.Some?;
    L.ReturnKeeps(s.life, thrown, pending, false);
    if thrown.None? && s.life.end.None? && pending {
      GivingKeeps(s, L.Return(s.life, thrown, pending));
    } else {
      LifeKeeps(s, L.Return(s.life, thrown, pending));
    }
  }

  /** Every step of a watch, its source and its listener keeps what the watch promises. */
  lemma StepKeeps(s: State, a: Action)
    requires Kept(s) && Enabled(s, a)
    ensures Kept(Step(s, a))
  {
    match a
    case Advance(call, context) => AdvanceKeeps(s, call, context);
    case Fail(error, context) => FailKeeps(s, error, context);
    case Start => StartKeeps(s);
    case Stop => TerminateKeeps(s, L.Stopped);
    case ObserveAbort(aborted) => ObserveAbortKeeps(s, aborted);
    case Abort => TerminateKeeps(s, L.Aborted);
    case End(end) => TerminateKeeps(s, end);
    case EndAfterDelivery => EndAfterDeliveryKeeps(s);
    case Microtask => MicrotaskKeeps(s);
    case Return(thrown) => ReturnKeeps(s, thrown);
  }

  ghost predicate AllEnabled(s: State, actions: seq<Action>)
    requires Kept(s)
    decreases actions
  {
    actions == [] || (Enabled(s, actions[0]) && (StepKeeps(s, actions[0]); AllEnabled(Step(s, actions[0]), actions[1..])))
  }

  ghost function Run(s: State, actions: seq<Action>): State
    requires Kept(s) && AllEnabled(s, actions)
    decreases actions
  {
    if actions == [] then s
    else
      StepKeeps(s, actions[0]);
      Run(Step(s, actions[0]), actions[1..])
  }

  lemma {:induction false} KeptOverRuns(s: State, actions: seq<Action>)
    requires Kept(s) && AllEnabled(s, actions)
    ensures Kept(Run(s, actions))
    decreases actions
  {
    if actions != [] {
      StepKeeps(s, actions[0]);
      KeptOverRuns(Step(s, actions[0]), actions[1..]);
    }
  }

  lemma StepBeganWith(s: State, a: Action)
    requires s.queue.Ready()
    ensures Step(s, a).initial == s.initial
  {}

  lemma {:induction false} BeganWith(s: State, actions: seq<Action>)
    requires Kept(s) && AllEnabled(s, actions)
    ensures Run(s, actions).initial == s.initial
    decreases actions
  {
    if actions != [] {
      StepKeeps(s, actions[0]);
      StepBeganWith(s, actions[0]);
      var next := Step(s, actions[0]);
      BeganWith(next, actions[1..]);
      assert Run(s, actions) == Run(next, actions[1..]);
    }
  }

  /** Over every run of sources, listeners and users: the listener's replay shows the watch's value after every call,
      retirements are reported once, calls never overlap, and a pending call is always on its way; with nothing pending the
      listener has the source's value, and every retirement is reported. */
  lemma RunKeeps(value: Json, actions: seq<Action>)
    requires AllEnabled(Initial(value), actions)
    ensures var s := Run(Initial(value), actions);
            && L.Keeps(s.life, s.queue.context.Some?)
            && Faithful(value, s.history) && Replayed(value, s.history) == Some(s.value)
            && (s.life.end.None? && s.queue.context.None? && s.source.Some? ==>
                  Some(s.value) == s.source && !Unreported(s.history))
  {
    KeptOverRuns(Initial(value), actions);
    BeganWith(Initial(value), actions);
  }

  /** A watch that ends because its source has ended has given everything: its listener has the source's value, unless
      the source failed, in which case the failure was given. */
  lemma EndsDelivered(s: State, a: Action)
    requires Kept(s) && Enabled(s, a) && (a.EndAfterDelivery? || a.Microtask? || (a.Return? && a.thrown.None?))
    requires s.life.end.None? && Step(s, a).life.end.Some?
    ensures Step(s, a).life.end == Some(L.Ended) && s.queue.context.None?
    ensures s.source.Some? ==> Some(s.value) == s.source && Step(s, a).value == s.value
    ensures s.source.None? ==> s.queue.replace && s.queue.failure.None?
  {
    var pending := s.queue.context.Some?;
    match a
    case EndAfterDelivery => L.EndAfterDeliveryKeeps(s.life, pending);
    case Microtask => L.MicrotaskKeeps(s.life, pending, false);
    case Return(_) => L.ReturnKeeps(s.life, None, pending, false);
  }

  // ---- The class ----

  class Watch {
    const life: L.WatchLifecycle
    const ops: P.PendingOps
    var value: Json
    var lone: Option<ValueCall>
    var newestValue: Option<Json>
    var newestContext: Option<Context>
    var retired: bool
    var failure: Option<string>
    var replace: bool
    ghost const initial: Json
    ghost var source: Option<Json>
    ghost var since: seq<Op>
    ghost var history: seq<Item>

    ghost function Pending(): Queue
      reads this, ops
    {
      Queue(ops.state, lone, newestValue, newestContext, retired, failure, replace)
    }

    ghost function Now(): State
      reads this, ops, life
    {
      State(life.Now(), Pending(), value, initial, source, since, history)
    }

    ghost predicate Ready()
      reads this, ops
    {
      Pending().Ready()
    }

    /** What is pending can be delivered, and nothing is after the end. */
    ghost predicate Valid()
      reads this, ops, life
    {
      Ready() && (life.end.Some? ==> Pending() == NOTHING && since == [])
    }

    constructor (value: Json)
      ensures Valid() && Now() == Initial(value) && fresh(life) && fresh(ops)
    {
      life := new L.WatchLifecycle();
      ops := new P.PendingOps();
      this.value, lone, newestValue, newestContext, retired, failure, replace := value, None, None, None, false, None, false;
      initial, source, since, history := value, Some(value), [], [];
    }

    method QueueFrame(call: ValueCall, context: Context)
      requires Ready()
      modifies this`lone, this`newestValue, this`newestContext, this`retired, this`failure, ops
      ensures Ready() && Pending() == AdvanceQueue(old(Pending()), call, context)
    {
      if replace {
        failure := None;
      } else {
        lone := if newestContext == None then Some(call) else None;
        ops.Push(call.ops);
      }
      newestValue := Some(call.value);
      newestContext := Some(context);
      if call.retired {
        retired := true;
      }
    }

    method QueueFailure(error: string, context: Context)
      requires Ready()
      modifies this`lone, this`newestValue, this`newestContext, this`failure, this`replace, ops
      ensures Ready() && Pending() == FailQueue(old(Pending()), error, context)
    {
      var _ := ops.Take();
      lone, newestValue := None, None;
      failure, newestContext, replace := Some(error), Some(context), true;
    }

    /** Queue a value frame. */
    method Advance(call: ValueCall, context: Context)
      requires Valid()
      modifies this, ops, life
      ensures Valid() && Now() == Step(old(Now()), Action.Advance(call, context))
    {
      if life.Open() {
        if !replace {
          since := since + call.ops;
        }
        QueueFrame(call, context);
        source, history := Some(call.value), history + [Took(call.retired)];
        life.SomethingPends();
      }
    }

    /** The source failed, if not for good. */
    method Fail(error: string, context: Context)
      requires Valid()
      modifies this, ops, life
      ensures Valid() && Now() == Step(old(Now()), Action.Fail(error, context))
    {
      if life.Open() {
        QueueFailure(error, context);
        source, since := None, [];
        life.SomethingPends();
      }
    }

    method Take() returns (call: WatchCall)
      requires Ready() && newestContext.Some?
      modifies this`lone, this`newestValue, this`newestContext, this`retired, this`failure, this`replace, ops
      ensures Ready() && (call, Pending()) == NextCall(old(Pending()))
    {
      if replace {
        call := TakeAfterFailure();
        return;
      }
      var first, newest, due := lone, newestValue.value, retired;
      var batch := ops.Take();
      lone, newestValue, newestContext, retired := None, None, None, false;
      match first {
        case Some(only) => call := only;
        case None =>
          call := Value(newest, match batch case Ops(ops) => ops case ReplaceAll => [Replace(newest)], due);
      }
    }

    /** With no operations to build on, the call is the failure itself or a replacement of everything. */
    method TakeAfterFailure() returns (call: WatchCall)
      requires Ready() && newestContext.Some? && replace
      modifies this`lone, this`newestValue, this`newestContext, this`retired, this`failure, this`replace
      ensures Ready() && (call, Pending()) == NextCall(old(Pending()))
    {
      newestContext := None;
      if failure != None {
        call := Failed(failure.value);
        failure := None;
        return;
      }
      var newest, due := newestValue.value, retired;
      newestValue, retired, replace := None, false, false;
      call := Value(newest, [Replace(newest)], due);
    }

    /** Drop everything pending. */
    method Release()
      requires Ready()
      modifies this`lone, this`newestValue, this`newestContext, this`retired, this`failure, this`replace, this`since, ops
      ensures Pending() == NOTHING && since == []
    {
      var _ := ops.Take();
      lone, newestValue, newestContext, retired, failure, replace := None, None, None, false, None, false;
      since := [];
    }

    // ---- Users and sources ----

    method StartWith() returns (ok: bool)
      requires Valid()
      modifies life
      ensures Valid() && Now() == Step(old(Now()), Start) && ok == old(life.Now()).CanStart()
    {
      ok := life.TryStart();
    }

    method StopWatch() returns (end: L.WatchEnd)
      requires Valid()
      modifies this, ops, life
      ensures Valid() && Now() == Step(old(Now()), Stop) && Some(end) == life.end
    {
      var first := life.TerminateWith(L.Stopped);
      if first {
        Release();
      }
      return life.end.value;
    }

    method AbortWatch()
      requires Valid()
      modifies this, ops, life
      ensures Valid() && Now() == Step(old(Now()), Abort)
    {
      var first := life.TerminateWith(L.Aborted);
      if first {
        Release();
      }
    }

    method EndWatch(end: L.WatchEnd)
      requires Valid()
      modifies this, ops, life
      ensures Valid() && Now() == Step(old(Now()), End(end))
    {
      var first := life.TerminateWith(end);
      if first {
        Release();
      }
    }

    method Observe(aborted: bool) returns (ok: bool)
      requires Valid()
      modifies this, ops, life
      ensures Valid() && Now() == Step(old(Now()), ObserveAbort(aborted)) && ok == !old(life.observing)
    {
      var ended;
      ok, ended := life.Observe(aborted);
      if ended {
        Release();
      }
    }

    method SourceEnds()
      requires Valid()
      modifies this, ops, life
      ensures Valid() && Now() == Step(old(Now()), EndAfterDelivery)
    {
      var ended := life.SourceEnds(newestContext != None);
      if ended {
        Release();
      }
    }

    // ---- Delivery ----

    /** Take the call the drain is to make. */
    method Give() returns (call: WatchCall)
      requires Ready() && newestContext.Some? && life.end.None?
      modifies this, ops
      ensures Valid() && Now() == Giving(old(Now()), life.Now()) && call == NextCall(old(Pending())).0
    {
      call := Take();
      if call.Value? {
        value, since := call.value, [];
      }
      history := history + [Gave(call)];
    }

    /** The scheduled drain begins; the call it makes, if any, with its frame's context. */
    method OnMicrotask() returns (call: Option<(WatchCall, Context)>)
      requires Valid()
      modifies this, ops, life
      ensures Valid() && Now() == Step(old(Now()), Microtask)
      ensures call.Some? ==> life.running && old(newestContext) == Some(call.value.1) && call.value.0 == NextCall(old(Pending())).0
    {
      var context := newestContext;
      var calls, ended := life.OnMicrotask(context != None);
      call := None;
      if calls {
        var c := Give();
        call := Some((c, context.value));
      } else if ended {
        Release();
      }
    }

    /** The listener's call is over, and the drain goes on. */
    method OnReturn(thrown: Option<string>) returns (call: Option<(WatchCall, Context)>)
      requires Valid() && life.running
      modifies this, ops, life
      ensures Valid() && Now() == Step(old(Now()), Return(thrown))
      ensures call.Some? ==> life.running && old(newestContext) == Some(call.value.1) && call.value.0 == NextCall(old(Pending())).0
    {
      var context := newestContext;
      var calls, ended := life.OnReturn(thrown, context != None);
      call := None;
      if calls {
        var c := Give();
        call := Some((c, context.value));
      } else if ended {
        Release();
      }
    }
  }
}
