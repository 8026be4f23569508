/** Watching a native source: its listener is shown values one by one, and those still to come stand in an array, two slots
    each, read from an index on and limited in number. */
module NativeWatch {
  import opened Options
  import L = WatchLifecycle

  const MAX_PENDING_NATIVE_VALUES := 100

  /** Native values are told apart by identity only. */
  type Native = nat
  type Context = nat

  datatype Call = Value(value: Native) | Failed(error: string)

  /** A pending value with its frame's context. */
  datatype Entry = Entry(value: Native, context: Context)

  // ---- The queue as an array ----

  /** The array alternates values and contexts; slots already taken are cleared. */
  datatype Slot = ValueSlot(value: Native) | ContextSlot(context: Context) | Cleared

  predicate EntryAt(slots: seq<Slot>, i: nat) {
    i + 1 < |slots| && slots[i].ValueSlot? && slots[i + 1].ContextSlot?
  }

  /** Everything from the read index on is pending, and the array stays short. */
  predicate Laid(slots: seq<Slot>, head: nat) {
    && |slots| % 2 == 0 && head % 2 == 0
    && head < 2 * MAX_PENDING_NATIVE_VALUES && head <= |slots| <= head + 2 * MAX_PENDING_NATIVE_VALUES
    && (|slots| == head ==> head == 0)
    && (forall k :: 0 <= k < (|slots| - head) / 2 ==> EntryAt(slots, head + 2 * k))
    && (forall i :: 0 <= i < head ==> slots[i].Cleared?)
  }

  /** The pending entries, oldest first. */
  function Entries(slots: seq<Slot>, head: nat): (r: seq<Entry>)
    requires Laid(slots, head)
    ensures |r| == (|slots| - head) / 2
  {
    seq((|slots| - head) / 2, k requires 0 <= k < (|slots| - head) / 2 =>
      assert EntryAt(slots, head + 2 * k);
      Entry(slots[head + 2 * k].value, slots[head + 2 * k + 1].context))
  }

  /** `array.copyWithin(0, start)`: the end of the array copied to its beginning. */
  function CopiedWithin(slots: seq<Slot>, start: nat): (r: seq<Slot>)
    requires start <= |slots|
    ensures |r| == |slots|
  {
    slots[start..] + slots[|slots| - start..]
  }

  lemma PushedEntries(slots: seq<Slot>, head: nat, value: Native, context: Context)
    requires Laid(slots, head) && |slots| - head < 2 * MAX_PENDING_NATIVE_VALUES
    ensures var more := slots + [ValueSlot(value), ContextSlot(context)];
            Laid(more, head) && Entries(more, head) == Entries(slots, head) + [Entry(value, context)]
  {
    var more := slots + [ValueSlot(value), ContextSlot(context)];
    forall k | 0 <= k < (|more| - head) / 2 ensures EntryAt(more, head + 2 * k) {
      if k < (|slots| - head) / 2 {
        assert EntryAt(slots, head + 2 * k);
      }
    }
  }

  /** Taking an entry, by moving on or by dropping the taken part. */
  lemma TakenEntries(slots: seq<Slot>, head: nat)
    requires Laid(slots, head) && head + 2 < |slots|
    ensures Laid(slots[head + 2..], 0) && Entries(slots[head + 2..], 0) == Entries(slots, head)[1..]
    ensures head + 2 < 2 * MAX_PENDING_NATIVE_VALUES ==>
              var moved := slots[head := Cleared][head + 1 := Cleared];
              Laid(moved, head + 2) && Entries(moved, head + 2) == Entries(slots, head)[1..]
  {
    var n := (|slots| - head) / 2;
    var rest := slots[head + 2..];
    var moved := slots[head := Cleared][head + 1 := Cleared];
    forall k | 0 <= k < n - 1
      ensures EntryAt(rest, 2 * k) && EntryAt(moved, head + 2 + 2 * k)
      ensures rest[2 * k] == slots[head + 2 * (k + 1)] && rest[2 * k + 1] == slots[head + 2 * (k + 1) + 1]
    {
      assert EntryAt(slots, head + 2 * (k + 1));
    }
  }

  /** Taking the oldest entry clears its slots. When none is left behind it the array starts over, and from a hundred
      entries on what has been taken is cut off. */
  function AfterTaking(slots: seq<Slot>, head: nat): (seq<Slot>, nat)
    requires head + 2 <= |slots|
  {
    if head + 2 == |slots| then ([], 0)
    else if head + 2 >= 2 * MAX_PENDING_NATIVE_VALUES then (CopiedWithin(slots, head + 2)[..|slots| - (head + 2)], 0)
    else (slots[head := Cleared][head + 1 := Cleared], head + 2)
  }

  lemma AfterTakingEntries(slots: seq<Slot>, head: nat)
    requires Laid(slots, head) && head < |slots|
    ensures var (after, at) := AfterTaking(slots, head);
            Laid(after, at) && Entries(after, at) == Entries(slots, head)[1..]
  {
    if head + 2 < |slots| {
      TakenEntries(slots, head);
      assert CopiedWithin(slots, head + 2)[..|slots| - (head + 2)] == slots[head + 2..];
    }
  }

  lemma FirstEntry(slots: seq<Slot>, head: nat)
    requires Laid(slots, head) && head < |slots|
    ensures EntryAt(slots, head) && Entries(slots, head)[0] == Entry(slots[head].value, slots[head + 1].context)
  {
    assert EntryAt(slots, head + 2 * 0);
  }

  // ---- The machine ----

  /** A watch: its life, the pending values or the pending failure with its context, the value it shows, and whether its
      source can name a replacement for values that were dropped. For the account: every entry queued, how many of them
      have left, which of those, in order, were given and what they were, whether any was dropped, and the source's
      newest value since its last failure. */
  datatype State = State(
    life: L.Life, queue: seq<Entry>, failure: Option<(string, Context)>, value: Native, substitutes: bool,
    entered: seq<Entry>, left: nat, picks: seq<nat>, given: seq<Native>, lossy: bool, newest: Option<Native>)
  {
    predicate Pending() {
      failure.Some? || queue != []
    }
  }

  datatype Action =
    | Advance(value: Native, context: Context, replacement: Native)
    | Fail(error: string, context: Context)
    | Start
    | Stop
    | ObserveAbort(aborted: bool)
    | Abort
    | End(end: L.WatchEnd)
    | EndAfterDelivery
    | Microtask
    | Return(thrown: Option<string>)

  function Initial(value: Native, substitutes: bool): State {
    State(L.FRESH, [], None, value, substitutes, [], 0, [], [], false, Some(value))
  }

  predicate Enabled(s: State, a: Action) {
    a.Return? ==> s.life.running
  }

  /** A value enters: behind the others, or alone when there are too many. */
  function Enter(s: State, value: Native, context: Context, replacement: Native): State {
    var full := |s.queue| >= MAX_PENDING_NATIVE_VALUES;
    var entry := Entry(if full && s.substitutes then replacement else value, context);
    s.(failure := None, newest := Some(value), entered := s.entered + [entry],
       queue := if full then [entry] else s.queue + [entry],
       left := if full then |s.entered| else s.left, lossy := s.lossy || full)
  }

  /** Everything pending is dropped. */
  function Dropped(s: State): State {
    s.(queue := [], failure := None, left := |s.entered|, lossy := s.lossy || s.queue != [])
  }

  function Released(s: State): State {
    if s.life.end.Some? then Dropped(s).(substitutes := false) else s
  }

  function NextCall(s: State): Call
    requires s.Pending()
  {
    if s.failure.Some? then Failed(s.failure.value.0) else Value(s.queue[0].value)
  }

  function Giving(s: State, life: L.Life): State
    requires s.Pending()
  {
    if s.failure.Some? then s.(life := life, failure := None)
    else s.(life := life, queue := s.queue[1..], value := s.queue[0].value, left := s.left + 1, picks := s.picks + [s.left],
            given := s.given + [s.queue[0].value])
  }

  /** A drain that goes on with its next call, or does not. */
  function Drained(s: State, life: L.Life, calls: bool): State
    requires calls ==> s.Pending()
  {
    if calls then Giving(s, life) else Released(s.(life := life))
  }

  function Step(s: State, a: Action): State {
    match a
    case Advance(value, context, replacement) =>
      if s.life.Open() then Enter(s, value, context, replacement).(life := L.Pend(s.life)) else s
    case Fail(error, context) =>
      if s.life.Open() then Dropped(s).(life := L.Pend(s.life), failure := Some((error, context)), newest := None) else s
    case Start => s.(life := L.Start(s.life))
    case Stop => Released(s.(life := L.Terminate(s.life, L.Stopped)))
    case ObserveAbort(aborted) => Released(s.(life := L.ObserveAbort(s.life, aborted)))
    case Abort => Released(s.(life := L.Terminate(s.life, L.Aborted)))
    case End(end) => Released(s.(life := L.Terminate(s.life, end)))
    case EndAfterDelivery => Released(s.(life := L.EndAfterDelivery(s.life, s.Pending())))
    case Microtask =>
      Drained(s, L.Microtask(s.life, s.Pending()), L.Drains(s.life) && s.life.Delivers() && s.Pending())
    case Return(thrown) =>
      Drained(s, L.Return(s.life, thrown, s.Pending()), thrown.None? && s.life.Delivers() && s.Pending())
  }

  // ---- What every watch keeps ----

  /** What is pending is the end of what entered; what was given is a part of what left, in order, and all of what entered
      but for what is pending when nothing was dropped. */
  predicate InOrder(s: State) {
    && s.left <= |s.entered| && s.queue == s.entered[s.left..] && |s.queue| <= MAX_PENDING_NATIVE_VALUES
    && |s.given| == |s.picks|
    && (forall i :: 0 <= i < |s.picks| ==> s.picks[i] < s.left && s.given[i] == s.entered[s.picks[i]].value)
    && (forall i, j :: 0 <= i < j < |s.picks| ==> s.picks[i] < s.picks[j])
    && (!s.lossy ==> |s.given| == s.left && forall i :: 0 <= i < |s.picks| ==> s.picks[i] == i)
  }

  /** Without a replacement of its own, a source's newest value is the last pending one, or else the one shown. */
  predicate EndsNewest(s: State, plain: bool) {
    plain && s.newest.Some? ==>
      s.newest.value == if s.queue == [] then s.value else s.queue[|s.queue| - 1].value
  }

  predicate Kept(s: State, plain: bool) {
    && L.Keeps(s.life, s.Pending()) && InOrder(s)
    && (s.failure.Some? ==> s.queue == [] && s.newest.None?)
    && (plain ==> !s.substitutes)
    && (s.life.end.None? ==> EndsNewest(s, plain))
  }

  lemma EnterKeeps(s: State, value: Native, context: Context, replacement: Native, plain: bool)
    requires Kept(s, plain) && s.life.Open()
    ensures Kept(Step(s, Advance(value, context, replacement)), plain)
  {
    L.PendKeeps(s.life, s.Pending());
  }

  lemma TakenInOrder(s: State)
    requires InOrder(s) && s.queue != []
    ensures InOrder(s.(queue := s.queue[1..], left := s.left + 1, picks := s.picks + [s.left],
                       given := s.given + [s.queue[0].value]))
  {
    assert s.entered[s.left..][1..] == s.entered[s.left + 1..];
  }

  lemma GivingKeeps(s: State, life: L.Life, plain: bool)
    requires Kept(s, plain) && s.Pending() && s.life.end.None? && life.end.None?
    requires L.Keeps(life, Giving(s, life).Pending())
    ensures Kept(Giving(s, life), plain)
  {
    if s.failure.None? {
      TakenInOrder(s);
    }
  }

  lemma FailKeeps(s: State, error: string, context: Context, plain: bool)
    requires Kept(s, plain) && s.life.Open()
    ensures Kept(Step(s, Fail(error, context)), plain)
  {
    L.PendKeeps(s.life, s.Pending());
  }

  /** A watch goes on with another life, or ends with it. */
  lemma LifeKeeps(s: State, life: L.Life, plain: bool)
    requires Kept(s, plain) && L.Keeps(life, s.Pending() && life.end.None?) && (s.life.end.Some? ==> life.end.Some?)
    ensures Kept(Released(s.(life := life)), plain)
  {}

  lemma MicrotaskKeeps(s: State, plain: bool)
    requires Kept(s, plain)
    ensures Kept(Step(s, Microtask), plain)
  {
    var pending := s.Pending();
    var life := L.Microtask(s.life, pending);
    L.MicrotaskKeeps(s.life, pending, pending && Giving(s, s.life).Pending());
    if L.Drains(s.life) && pending {
      GivingKeeps(s, life, plain);
    } else {
      LifeKeeps(s, life, plain);
    }
  }

  lemma ReturnKeeps(s: State, thrown: Option<string>, plain: bool)
    requires Kept(s, plain) && s.life.running
    ensures Kept(Step(s, Return(thrown)), plain)
  {
    var pending := s.Pending();
    var life := L.Return(s.life, thrown, pending);
    L.ReturnKeeps(s.life, thrown, pending, pending && Giving(s, s.life).Pending());
    if thrown.None? && s.life.end.None? && pending {
      GivingKeeps(s, life, plain);
    } else {
      LifeKeeps(s, life, plain);
    }
  }

  lemma TerminateKeeps(s: State, end: L.WatchEnd, plain: bool)
    requires Kept(s, plain)
    ensures Kept(Released(s.(life := L.Terminate(s.life, end))), plain)
  {
    L.EndKeeps(s.life, s.Pending(), end);
    LifeKeeps(s, L.Terminate(s.life, end), plain);
  }

  lemma ObserveAbortKeeps(s: State, aborted: bool, plain: bool)
    requires Kept(s, plain) && Enabled(s, ObserveAbort(aborted))
    ensures Kept(Step(s, ObserveAbort(aborted)), plain)
  {
    L.ObserveAbortKeeps(s.life, s.Pending(), aborted);
    LifeKeeps(s, L.ObserveAbort(s.life, aborted), plain);
  }

  lemma EndAfterDeliveryKeeps(s: State, plain: bool)
    requires Kept(s, plain)
    ensures Kept(Step(s, EndAfterDelivery), plain)
  {
    L.EndAfterDeliveryKeeps(s.life, s.Pending());
    LifeKeeps(s, L.EndAfterDelivery(s.life, s.Pending()), plain);
  }

  lemma StartKeeps(s: State, plain: bool)
    requires Kept(s, plain) && Enabled(s, Start)
    ensures Kept(Step(s, Start), plain)
  {
    L.StartKeeps(s.life, s.Pending());
  }

  lemma ArrivalKeeps(s: State, a: Action, plain: bool)
    requires Kept(s, plain) && (a.Advance? || a.Fail?)
    ensures Kept(Step(s, a), plain)
  {
    if s.life.Open() {
      match a
      case Advance(value, context, replacement) => EnterKeeps(s, value, context, replacement, plain);
      case Fail(error, context) => FailKeeps(s, error, context, plain);
    }
  }

  /** Every step of a watch, its source and its listener keeps what the watch promises. */
  lemma StepKeeps(s: State, a: Action, plain: bool)
    requires Kept(s, plain) && Enabled(s, a)
    ensures Kept(Step(s, a), plain)
  {
    match a
    case Advance(_, _, _) => ArrivalKeeps(s, a, plain);
    case Fail(_, _) => ArrivalKeeps(s, a, plain);
    case Start => StartKeeps(s, plain);
    case Stop => TerminateKeeps(s, L.Stopped, plain);
    case ObserveAbort(aborted) => ObserveAbortKeeps(s, aborted, plain);
    case Abort => TerminateKeeps(s, L.Aborted, plain);
    case End(end) => TerminateKeeps(s, end, plain);
    case EndAfterDelivery => EndAfterDeliveryKeeps(s, plain);
    case Microtask => MicrotaskKeeps(s, plain);
    case Return(thrown) => ReturnKeeps(s, thrown, plain);
  }

  predicate AllEnabled(s: State, actions: seq<Action>)
    decreases actions
  {
    actions == [] || (Enabled(s, actions[0]) && AllEnabled(Step(s, actions[0]), actions[1..]))
  }

  function Run(s: State, actions: seq<Action>): State
    decreases actions
  {
    if actions == [] then s else Run(Step(s, actions[0]), actions[1..])
  }

  lemma {:induction false} KeptOverRuns(s: State, actions: seq<Action>, plain: bool)
    requires Kept(s, plain) && AllEnabled(s, actions)
    ensures Kept(Run(s, actions), plain)
    decreases actions
  {
    if actions != [] {
      StepKeeps(s, actions[0], plain);
      KeptOverRuns(Step(s, actions[0]), actions[1..], plain);
    }
  }

  /** Over every run: values are given in the order they came, each once, none dropped but by an overflow, a failure or
      the end; and a watch that has given everything shows its source's newest value, unless the source named another. */
  lemma RunKeeps(value: Native, substitutes: bool, actions: seq<Action>)
    requires AllEnabled(Initial(value, substitutes), actions)
    ensures var s := Run(Initial(value, substitutes), actions);
            && InOrder(s) && L.Keeps(s.life, s.Pending())
            && (!substitutes && s.life.end.None? && s.newest.Some? && !s.Pending() ==> s.value == s.newest.value)
            && (!s.lossy ==> forall i :: 0 <= i < |s.given| ==> s.given[i] == s.entered[i].value)
  {
    KeptOverRuns(Initial(value, substitutes), actions, !substitutes);
  }

  /** A watch that ends because its source has ended has given everything. */
  lemma EndsDelivered(s: State, a: Action, plain: bool)
    requires Kept(s, plain) && Enabled(s, a) && (a.EndAfterDelivery? || a.Microtask? || (a.Return? && a.thrown.None?))
    requires s.life.end.None? && Step(s, a).life.end.Some?
    ensures Step(s, a).life.end == Some(L.Ended) && !s.Pending() && Step(s, a).given == s.given
    ensures !s.lossy ==> |s.given| == |s.entered|
  {
    LifeEndsDelivered(s.life, s.Pending(), a);
  }

  /** The life of a watch ends so only with nothing pending. */
  lemma LifeEndsDelivered(life: L.Life, pending: bool, a: Action)
    requires L.Keeps(life, pending) && life.end.None? && (a.Return? ==> life.running && a.thrown.None?)
    ensures L.EndAfterDelivery(life, pending).end.Some? ==> L.EndAfterDelivery(life, pending).end == Some(L.Ended) && !pending
    ensures L.Microtask(life, pending).end.Some? ==> L.Microtask(life, pending).end == Some(L.Ended) && !pending
    ensures a.Return? && L.Return(life, a.thrown, pending).end.Some? ==>
              L.Return(life, a.thrown, pending).end == Some(L.Ended) && !pending
  {
    L.EndAfterDeliveryKeeps(life, pending);
    L.MicrotaskKeeps(life, pending, false);
    if a.Return? {
      L.ReturnKeeps(life, None, pending, false);
    }
  }

  // ---- The class ----

  class NativeWatch {
    const life: L.WatchLifecycle
    var pending: seq<Slot>
    var head: nat
    var value: Native
    var failure: Option<string>
    var failureContext: Option<Context>
    /** Whether the source can name a replacement. */
    var substitutes: bool
    ghost var account: State

    /** The state the array and the fields stand for. */
    ghost predicate Valid()
      reads this, life
    {
      Holding() && account.life == life.Now() && (life.end.Some? ==> !account.Pending() && !substitutes)
    }

    /** But for its life. */
    ghost predicate Holding()
      reads this
    {
      && Laid(pending, head) && account.queue == Entries(pending, head)
      && account.value == value && account.substitutes == substitutes
      && account.failure == (if failure.Some? && failureContext.Some? then Some((failure.value, failureContext.value)) else None)
      && (failure.Some? <==> failureContext.Some?)
    }

    constructor (value: Native, substitutes: bool)
      ensures Valid() && account == Initial(value, substitutes) && fresh(life)
    {
      life := new L.WatchLifecycle();
      pending, head, this.value, failure, failureContext, this.substitutes := [], 0, value, None, None, substitutes;
      account := Initial(value, substitutes);
    }

    /** The context the next call will have, if there is to be one. */
    function PendingContext(): (c: Option<Context>)
      requires Laid(pending, head)
      reads this
      ensures c.Some? <==> failureContext.Some? || Entries(pending, head) != []
      ensures c.Some? ==> c == if failureContext.Some? then failureContext else Some(Entries(pending, head)[0].context)
    {
      if failureContext.Some? then failureContext
      else if head + 1 < |pending| then
        FirstEntry(pending, head);
        Some(pending[head + 1].context)
      else None
    }

    /** A new value goes to the end, and there is no failure to tell any more. */
    method Queue(v: Native, context: Context, replacement: Native)
      requires Laid(pending, head)
      modifies this`pending, this`head, this`failure, this`failureContext
      ensures Laid(pending, head) && failure == None && failureContext == None
      ensures var before := old(Entries(pending, head));
              Entries(pending, head) ==
              if |before| < MAX_PENDING_NATIVE_VALUES then before + [Entry(v, context)]
              else [Entry(if substitutes then replacement else v, context)]
    {
      failure, failureContext := None, None;
      if |pending| - head < 2 * MAX_PENDING_NATIVE_VALUES {
        PushedEntries(pending, head, v, context);
        pending := pending + [ValueSlot(v), ContextSlot(context)];
      } else {
        pending, head := [], 0;
        PushedEntries(pending, head, if substitutes then replacement else v, context);
        pending := pending + [ValueSlot(if substitutes then replacement else v), ContextSlot(context)];
      }
    }

    /** Take the oldest value. */
    method Take() returns (v: Native)
      requires Laid(pending, head) && head < |pending|
      modifies this`pending, this`head
      ensures (pending, head) == AfterTaking(old(pending), old(head))
      ensures v == old(Entries(pending, head))[0].value
    {
      FirstEntry(pending, head);
      v := pending[head].value;
      if head + 2 == |pending| {
        pending, head := [], 0;
      } else if head + 2 >= 2 * MAX_PENDING_NATIVE_VALUES {
        var moved := CopiedWithin(pending, head + 2);
        pending, head := moved[..|pending| - (head + 2)], 0;
      } else {
        pending, head := pending[head := Cleared][head + 1 := Cleared], head + 2;
      }
    }

    /** Drop everything pending. */
    method Release()
      modifies this`pending, this`head, this`substitutes, this`failure, this`failureContext
      ensures pending == [] && head == 0 && !substitutes && failure == None && failureContext == None
    {
      pending, head, substitutes, failure, failureContext := [], 0, false, None, None;
    }

    // ---- Users and sources ----

    method Advance(v: Native, context: Context, replacement: Native)
      requires Valid()
      modifies this, life
      ensures Valid() && account == Step(old(account), Action.Advance(v, context, replacement))
    {
      if life.Open() {
        Queue(v, context, replacement);
        life.SomethingPends();
        account := Step(account, Action.Advance(v, context, replacement));
      }
    }

    method Fail(error: string, context: Context)
      requires Valid()
      modifies this, life
      ensures Valid() && account == Step(old(account), Action.Fail(error, context))
    {
      if life.Open() {
        pending, head := [], 0;
        failure, failureContext := Some(error), Some(context);
        life.SomethingPends();
        account := Step(account, Action.Fail(error, context));
      }
    }

    method StartWith() returns (ok: bool)
      requires Valid()
      modifies this`account, life
      ensures Valid() && account == Step(old(account), Start) && ok == old(life.Now()).CanStart()
    {
      ok := life.TryStart();
      account := Step(account, Start);
    }

    method StopWatch() returns (end: L.WatchEnd)
      requires Valid()
      modifies this, life
      ensures Valid() && account == Step(old(account), Stop) && Some(end) == life.end
    {
      var first := life.TerminateWith(L.Stopped);
      if first {
        Release();
      }
      account := Step(account, Stop);
      return life.end.value;
    }

    method AbortWatch()
      requires Valid()
      modifies this, life
      ensures Valid() && account == Step(old(account), Abort)
    {
      var first := life.TerminateWith(L.Aborted);
      if first {
        Release();
      }
      account := Step(account, Abort);
    }

    method EndWatch(end: L.WatchEnd)
      requires Valid()
      modifies this, life
      ensures Valid() && account == Step(old(account), End(end))
    {
      var first := life.TerminateWith(end);
      if first {
        Release();
      }
      account := Step(account, End(end));
    }

    method Observe(aborted: bool) returns (ok: bool)
      requires Valid()
      modifies this, life
      ensures Valid() && account == Step(old(account), ObserveAbort(aborted)) && ok == !old(life.observing)
    {
      var ended;
      ok, ended := life.Observe(aborted);
      if ended {
        Release();
      }
      account := Step(account, ObserveAbort(aborted));
    }

    method SourceEnds()
      requires Valid()
      modifies this, life
      ensures Valid() && account == Step(old(account), EndAfterDelivery)
    {
      var ended := life.SourceEnds(PendingContext() != None);
      if ended {
        Release();
      }
      account := Step(account, EndAfterDelivery);
    }

    // ---- Delivery ----

    /** Take the call the drain is to make. */
    method Give() returns (call: Call)
      requires Laid(pending, head) && (failure.Some? || head < |pending|)
      modifies this`pending, this`head, this`value, this`failure, this`failureContext
      ensures Laid(pending, head)
      ensures if old(failure).Some? then
                && call == Failed(old(failure).value) && failure == None && failureContext == None
                && pending == old(pending) && head == old(head) && value == old(value)
              else
                && call == Value(old(Entries(pending, head))[0].value) && value == call.value
                && Entries(pending, head) == old(Entries(pending, head))[1..]
                && failure == None && failureContext == old(failureContext)
    {
      match failure {
        case Some(error) =>
          failure, failureContext := None, None;
          call := Failed(error);
        case None =>
          AfterTakingEntries(pending, head);
          value := Take();
          call := Value(value);
      }
    }

    /** The scheduled drain begins; the call it makes, if any, with its frame's context. */
    method OnMicrotask() returns (call: Option<(Call, Context)>)
      requires Valid()
      modifies this, life
      ensures Valid() && account == Step(old(account), Microtask)
      ensures call.Some? ==> life.running && old(PendingContext()) == Some(call.value.1) && call.value.0 == NextCall(old(account))
    {
      var context := PendingContext();
      var calls, ended := life.OnMicrotask(context != None);
      call := Follow(calls, ended, context);
    }

    /** Make the call of a drain that goes on, or let go of everything when the watch has ended. */
    method Follow(calls: bool, ended: bool, context: Option<Context>) returns (call: Option<(Call, Context)>)
      requires Holding() && context == PendingContext() && (calls ==> context.Some? && life.end.None?)
      requires (account.life.end.Some? ==> life.end.Some? && !account.Pending() && !substitutes)
      requires ended <==> account.life.end.None? && life.end.Some?
      modifies this
      ensures Valid() && (calls ==> old(account.Pending())) && account == Drained(old(account), life.Now(), calls)
      ensures call == if calls then Some((NextCall(old(account)), context.value)) else None
    {
      call := None;
      if calls {
        var c := Give();
        call := Some((c, context.value));
      } else if ended {
        Release();
      }
      account := Drained(account, life.Now(), calls);
    }

    /** The listener's call is over, and the drain goes on. */
    method OnReturn(thrown: Option<string>) returns (call: Option<(Call, Context)>)
      requires Valid() && life.running
      modifies this, life
      ensures Valid() && account == Step(old(account), Return(thrown))
      ensures call.Some? ==> life.running && old(PendingContext()) == Some(call.value.1) && call.value.0 == NextCall(old(account))
    {
      var context := PendingContext();
      var calls, ended := life.OnReturn(thrown, context != None);
      call := Follow(calls, ended, context);
    }
  }
}
