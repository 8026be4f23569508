/** Adaptive progress commits: one write at a time, paced by what the last one wrote, and no change forgotten. The clock,
    the timer and the write are the environment's; each step of theirs is an action. */
module Progress {
  import opened Options

  /** 100 KiB per second, in bytes per millisecond. */
  const BYTES_PER_MS: real := 102.4

  /** The write under way: settled by the environment, then cleared by its `finally` callback. */
  datatype Flight = Idle | Writing(started: real, waiters: seq<nat>) | Clearing

  /** What can be observed, oldest first. */
  datatype Event =
    | Marked(waiter: Option<nat>)
    | Started(at: real, waiters: seq<nat>)
    | Finished(ok: bool, bytes: nat, waiters: seq<nat>)
    | Stopped
    | HandedBack(waiters: seq<nat>)

  datatype State = State(
    minInterval: real, dirty: bool, timer: bool, flight: Flight, nextAt: real, stopped: bool, waiters: seq<nat>,
    clock: real, log: seq<Event>)

  /** One uninterrupted stretch of execution. `now` and `start` are the clock readings it may take, in order. */
  datatype Action =
    | Mark(now: real, start: real)
    | MarkAndWait(waiter: nat, now: real, start: real)
    | TimerFires(now: real, start: real)
    | WriteSettles(ok: bool, bytes: nat)
    | Clear(now: real, start: real)
    | Stop
    | HandBack

  predicate Reads(s: State, a: Action) {
    a.Mark? || a.MarkAndWait? || a.TimerFires? || a.Clear? ==> s.clock <= a.now <= a.start
  }

  /** What the environment may do: the clock never runs back, a waiter is new, and only what was begun can end. */
  predicate Enabled(s: State, a: Action) {
    && Reads(s, a)
    && (a.MarkAndWait? ==> a.waiter == |Issued(s.log)|)
    && (a.TimerFires? ==> s.timer)
    && (a.WriteSettles? ==> s.flight.Writing?)
    && (a.Clear? ==> s.flight.Clearing?)
    && (a.HandBack? ==> s.stopped && s.flight.Idle?)
  }

  function Flush(s: State, start: real): State {
    if s.stopped || !s.dirty then s
    else s.(dirty := false, waiters := [], clock := start, flight := Writing(start, s.waiters),
            log := s.log + [Started(start, s.waiters)])
  }

  function Schedule(s: State, now: real, start: real): State {
    if s.stopped || s.timer || !s.flight.Idle? then s
    else if s.nextAt - now <= 0.0 then Flush(s.(clock := now), start)
    else s.(clock := now, timer := true)
  }

  function Pause(minInterval: real, bytes: nat): real {
    var size := bytes as real / BYTES_PER_MS;
    if minInterval >= size then minInterval else size
  }

  /** A change, and the waiter that waits for it to be written, if any. */
  function Dirtied(s: State, w: Option<nat>): State {
    s.(dirty := true, waiters := s.waiters + (if w.Some? then [w.value] else []), log := s.log + [Marked(w)])
  }

  function Step(s: State, a: Action): State {
    match a
    case Mark(now, start) => Schedule(Dirtied(s, None), now, start)
    case MarkAndWait(w, now, start) => Schedule(Dirtied(s, Some(w)), now, start)
    case TimerFires(now, start) => Schedule(s.(timer := false), now, start)
    case WriteSettles(ok, bytes) =>
      if !s.flight.Writing? then s
      else
        var pause := if ok then Pause(s.minInterval, bytes) else s.minInterval;
        s.(nextAt := s.flight.started + pause, flight := Clearing,
           log := s.log + [Finished(ok, if ok then bytes else 0, s.flight.waiters)])
    case Clear(now, start) =>
      var cleared := s.(flight := Idle);
      if s.dirty then Schedule(cleared, now, start) else cleared
    case Stop => s.(stopped := true, timer := false, log := s.log + [Stopped])
    case HandBack => s.(waiters := [], log := s.log + [HandedBack(s.waiters)])
  }

  function Initial(minInterval: real, clock: real): State {
    State(minInterval, false, false, Idle, 0.0, false, [], clock, [])
  }

  predicate AllEnabled(s: State, actions: seq<Action>)
    decreases actions
  {
    actions == [] || (Enabled(s, actions[0]) && AllEnabled(Step(s, actions[0]), actions[1..]))
  }

  function Run(s: State, actions: seq<Action>): State
    decreases actions
  {
    if actions == [] then s else Run(Step(s, actions[0]), actions[1..])
  }

  // ---- What a log says ----

  /** Waiters handed out, settled and handed back, in order. */
  function Issued(log: seq<Event>): seq<nat> {
    if log == [] then []
    else
      var e := log[|log| - 1];
      Issued(log[..|log| - 1]) + if e.Marked? && e.waiter.Some? then [e.waiter.value] else []
  }

  function Settled(log: seq<Event>): seq<nat> {
    if log == [] then []
    else
      var e := log[|log| - 1];
      Settled(log[..|log| - 1]) + if e.Finished? || e.HandedBack? then e.waiters else []
  }

  /** Whether a change was made that no write has started after. */
  predicate Unwritten(log: seq<Event>) {
    log != [] && var e := log[|log| - 1]; e.Marked? || (!e.Started? && Unwritten(log[..|log| - 1]))
  }

  /** The waiters that changes since the last write start, or since they were handed back, wait with. */
  function Waiting(log: seq<Event>): seq<nat> {
    if log == [] then []
    else
      var e, before := log[|log| - 1], log[..|log| - 1];
      match e
      case Marked(w) => Waiting(before) + if w.Some? then [w.value] else []
      case Started(_, _) => []
      case HandedBack(_) => []
      case _ => Waiting(before)
  }

  datatype Write = Write(at: real, waiters: seq<nat>)

  /** The last write started and not yet finished, if any. */
  function Open(log: seq<Event>): Option<Write> {
    if log == [] then None
    else
      var e := log[|log| - 1];
      if e.Started? then Some(Write(e.at, e.waiters)) else if e.Finished? then None else Open(log[..|log| - 1])
  }

  /** Bytes that successful writes have written. */
  function Sent(log: seq<Event>): nat {
    if log == [] then 0
    else Sent(log[..|log| - 1]) + var e := log[|log| - 1]; if e.Finished? && e.ok then e.bytes else 0
  }

  function FirstStart(log: seq<Event>): Option<real> {
    if log == [] then None
    else
      var first := FirstStart(log[..|log| - 1]);
      var e := log[|log| - 1];
      if first.Some? then first else if e.Started? then Some(e.at) else None
  }

  predicate HasStopped(log: seq<Event>) {
    log != [] && (log[|log| - 1].Stopped? || HasStopped(log[..|log| - 1]))
  }

  /** What a well-behaved log looks like at its end: at most one write open, each write carrying exactly the waiters of
      the changes made since the last one, each end settling exactly its own write's waiters, no write for nothing, none
      after a stop, and the rate kept. */
  predicate Lawful(log: seq<Event>) {
    if log == [] then true
    else
      var e, before := log[|log| - 1], log[..|log| - 1];
      && Lawful(before)
      && match e
         case Started(at, waiters) =>
           && Open(before).None? && !HasStopped(before) && Unwritten(before) && waiters == Waiting(before)
           && (FirstStart(before).Some? ==> Sent(before) as real <= BYTES_PER_MS * (at - FirstStart(before).value))
         case Finished(_, _, waiters) => Open(before).Some? && waiters == Open(before).value.waiters
         case HandedBack(waiters) => Open(before).None? && HasStopped(before) && waiters == Waiting(before)
         case Marked(w) => w.Some? ==> w.value == |Issued(before)|
         case Stopped => true
  }

  // ---- What every step keeps ----

  /** The fields are what the log says, and a change not yet written has something coming that will write it. */
  ghost predicate Inv(s: State) {
    && Lawful(s.log)
    && s.dirty == Unwritten(s.log)
    && s.waiters == Waiting(s.log)
    && s.stopped == HasStopped(s.log)
    && (s.flight.Writing? <==> Open(s.log).Some?)
    && (s.flight.Writing? ==> Open(s.log) == Some(Write(s.flight.started, s.flight.waiters)))
    && (s.flight.Writing? ==> s.flight.started <= s.clock)
    && (s.timer ==> !s.stopped && s.dirty && s.flight.Idle?)
    && (s.dirty && !s.stopped ==> s.timer || !s.flight.Idle?)
    && (FirstStart(s.log).None? ==> Sent(s.log) == 0)
    && (FirstStart(s.log).Some? ==>
          Sent(s.log) as real <= BYTES_PER_MS * (Due(s) - FirstStart(s.log).value))
  }

  /** The earliest time a next write can start. */
  function Due(s: State): real {
    if s.flight.Writing? then s.flight.started else if s.nextAt >= s.clock then s.nextAt else s.clock
  }

  lemma Last(log: seq<Event>, e: Event)
    ensures (log + [e])[..|log + [e]| - 1] == log && (log + [e])[|log + [e]| - 1] == e
  {}

  /** Inv, but for what is to write a change: that is what `Schedule` sees to. */
  ghost predicate Unscheduled(s: State) {
    !s.stopped && s.flight.Idle? && !s.timer && s.dirty && Inv(s.(timer := true))
  }

  lemma FlushKeeps(s: State, start: real)
    requires Unscheduled(s) && s.nextAt <= s.clock <= start
    ensures Inv(Flush(s, start))
  {
    Last(s.log, Started(start, s.waiters));
  }

  lemma ScheduleKeeps(s: State, now: real, start: real)
    requires s.clock <= now <= start && s.dirty && (Inv(s) || Unscheduled(s))
    ensures Inv(Schedule(s, now, start))
  {
    if !s.stopped && !s.timer && s.flight.Idle? {
      if s.nextAt - now <= 0.0 {
        FlushKeeps(s.(clock := now), start);
      } else {
        assert Due(s.(clock := now, timer := true)) == s.nextAt;
      }
    }
  }

  lemma DirtiedKeeps(s: State, w: Option<nat>)
    requires Inv(s) && (w.Some? ==> w.value == |Issued(s.log)|)
    ensures var t := Dirtied(s, w); Inv(t) || Unscheduled(t)
  {
    Last(s.log, Marked(w));
    var t := Dirtied(s, w);
    if !s.stopped && s.flight.Idle? && !s.timer {
      assert Inv(t.(timer := true));
    }
  }

  lemma MarkKeeps(s: State, w: Option<nat>, now: real, start: real)
    requires Inv(s) && s.clock <= now <= start && (w.Some? ==> w.value == |Issued(s.log)|)
    ensures Inv(Schedule(Dirtied(s, w), now, start))
  {
    DirtiedKeeps(s, w);
    ScheduleKeeps(Dirtied(s, w), now, start);
  }

  lemma SettleKeeps(s: State, ok: bool, bytes: nat)
    requires Inv(s) && s.flight.Writing?
    ensures Inv(Step(s, WriteSettles(ok, bytes)))
  {
    var e := Finished(ok, if ok then bytes else 0, s.flight.waiters);
    Last(s.log, e);
    assert FirstStart(s.log).Some? by { OpenHasStart(s.log); }
    var t := Step(s, WriteSettles(ok, bytes));
    assert Sent(t.log) == Sent(s.log) + if ok then bytes else 0;
    if ok {
      assert bytes as real <= BYTES_PER_MS * Pause(s.minInterval, bytes);
      assert t.nextAt - s.flight.started >= bytes as real / BYTES_PER_MS;
    }
  }

  lemma {:induction false} OpenHasStart(log: seq<Event>)
    requires Open(log).Some?
    ensures FirstStart(log).Some?
  {
    if !log[|log| - 1].Started? {
      OpenHasStart(log[..|log| - 1]);
    }
  }

  lemma StopKeeps(s: State)
    requires Inv(s)
    ensures Inv(Step(s, Stop))
  {
    Last(s.log, Stopped);
  }

  lemma HandBackKeeps(s: State)
    requires Inv(s) && s.stopped && s.flight.Idle?
    ensures Inv(Step(s, HandBack))
  {
    Last(s.log, HandedBack(s.waiters));
  }

  lemma StepKeeps(s: State, a: Action)
    requires Inv(s) && Enabled(s, a)
    ensures Inv(Step(s, a))
  {
    match a
    case Mark(now, start) =>
      MarkKeeps(s, None, now, start);
    case MarkAndWait(w, now, start) => MarkKeeps(s, Some(w), now, start);
    case TimerFires(now, start) =>
      assert s.(timer := false).(timer := true) == s;
      ScheduleKeeps(s.(timer := false), now, start);
    case WriteSettles(ok, bytes) => SettleKeeps(s, ok, bytes);
    case Clear(now, start) =>
      var cleared := s.(flight := Idle);
      if s.dirty {
        assert s.stopped || Inv(cleared.(timer := true));
        ScheduleKeeps(cleared, now, start);
      }
    case Stop => StopKeeps(s);
    case HandBack => HandBackKeeps(s);
  }

  lemma {:induction false} RunKeeps(s: State, actions: seq<Action>)
    requires Inv(s) && AllEnabled(s, actions)
    ensures Inv(Run(s, actions))
    decreases actions
  {
    if actions != [] {
      StepKeeps(s, actions[0]);
      RunKeeps(Step(s, actions[0]), actions[1..]);
    }
  }

  lemma InitialInv(minInterval: real, clock: real)
    ensures Inv(Initial(minInterval, clock))
  {}

  // ---- What lawful logs promise ----

  function OpenWaiters(log: seq<Event>): seq<nat> {
    if Open(log).Some? then Open(log).value.waiters else []
  }

  /** Every waiter handed out is settled once, in order, or is with the write under way, or still waits: none is lost,
      repeated or overtaken. */
  lemma {:induction false} WaitersConserved(log: seq<Event>)
    requires Lawful(log)
    ensures Issued(log) == Settled(log) + OpenWaiters(log) + Waiting(log)
    ensures forall i :: 0 <= i < |Issued(log)| ==> Issued(log)[i] == i
  {
    if log != [] {
      WaitersConserved(log[..|log| - 1]);
    }
  }

  /** Before any write starts, the successful writes before it have sent no more than the rate allows. */
  lemma {:induction false} RateKept(log: seq<Event>, i: nat)
    requires Lawful(log) && i < |log| && log[i].Started?
    ensures FirstStart(log).Some?
    ensures Sent(log[..i]) as real <= BYTES_PER_MS * (log[i].at - FirstStart(log).value)
  {
    var before := log[..|log| - 1];
    if i < |before| {
      RateKept(before, i);
      assert before[..i] == log[..i];
    } else if FirstStart(before).None? {
      NothingSent(before);
    }
  }

  lemma {:induction false} NothingSent(log: seq<Event>)
    requires Lawful(log) && FirstStart(log).None?
    ensures Sent(log) == 0
  {
    if log != [] {
      NothingSent(log[..|log| - 1]);
      if Open(log[..|log| - 1]).Some? {
        OpenHasStart(log[..|log| - 1]);
      }
    }
  }

  /** At most one write is under way: between two starts lies a finish. */
  lemma {:induction false} OneAtATime(log: seq<Event>, i: nat, j: nat)
    requires Lawful(log) && i < j < |log| && log[i].Started? && log[j].Started?
    ensures exists k :: i < k < j && log[k].Finished?
  {
    if j < |log| - 1 {
      OneAtATime(log[..|log| - 1], i, j);
    } else {
      Closed(log[..j], i);
    }
  }

  lemma {:induction false} Closed(log: seq<Event>, i: nat)
    requires i < |log| && log[i].Started? && Open(log).None?
    ensures exists k :: i < k < |log| && log[k].Finished?
  {
    var last := |log| - 1;
    if !log[last].Finished? {
      Closed(log[..last], i);
    }
  }

  /** A change is followed by a write that starts after it, unless it is still unwritten. */
  lemma {:induction false} ChangesAreWritten(log: seq<Event>, i: nat)
    requires i < |log| && log[i].Marked?
    ensures Unwritten(log) || exists j :: i < j < |log| && log[j].Started?
  {
    var last := |log| - 1;
    if i < last && !log[last].Started? && !log[last].Marked? {
      ChangesAreWritten(log[..last], i);
    }
  }

  /** All of it, for every run: the log keeps the rate, the one-at-a-time order and every waiter, and a change that no
      write has started after has a timer or a write under way ahead of it, or was left to `stop`. */
  lemma RunsAreLawful(minInterval: real, clock: real, actions: seq<Action>)
    requires AllEnabled(Initial(minInterval, clock), actions)
    ensures var s := Run(Initial(minInterval, clock), actions);
            && Lawful(s.log)
            && s.waiters == Waiting(s.log)
            && (forall i :: 0 <= i < |s.log| && s.log[i].Marked? ==>
                  || (exists j :: i < j < |s.log| && s.log[j].Started?)
                  || s.timer || !s.flight.Idle? || s.stopped)
  {
    InitialInv(minInterval, clock);
    RunKeeps(Initial(minInterval, clock), actions);
    var s := Run(Initial(minInterval, clock), actions);
    forall i | 0 <= i < |s.log| && s.log[i].Marked?
      ensures (exists j :: i < j < |s.log| && s.log[j].Started?) || s.timer || !s.flight.Idle? || s.stopped
    {
      ChangesAreWritten(s.log, i);
    }
  }

  /** What the environment still owes an unwritten change: the end of the write under way, and the timer. */
  function Owed(s: State, ok: bool, bytes: nat, at: real): seq<Action> {
    (if s.flight.Writing? then [WriteSettles(ok, bytes)] else [])
    + (if s.flight.Idle? then [] else [Clear(at, at)])
    + (if s.timer then [TimerFires(at, at)] else [])
  }

  /** Once that has come, late enough for the pause, the change is being written, with everyone waiting for it. */
  lemma NoLostWakeup(s: State, ok: bool, bytes: nat, at: real)
    requires Inv(s) && s.dirty && !s.stopped
    requires at >= s.clock && at >= s.nextAt
    requires s.flight.Writing? ==> at >= s.flight.started + s.minInterval && at >= s.flight.started + Pause(s.minInterval, bytes)
    ensures AllEnabled(s, Owed(s, ok, bytes, at))
    ensures Run(s, Owed(s, ok, bytes, at)).flight == Writing(at, s.waiters)
  {
    var actions := Owed(s, ok, bytes, at);
    if s.flight.Writing? {
      assert actions == [WriteSettles(ok, bytes), Clear(at, at)];
      var written := Step(s, WriteSettles(ok, bytes));
      assert actions[1..] == [Clear(at, at)] && actions[1..][1..] == [];
      assert Step(written, Clear(at, at)).flight == Writing(at, s.waiters);
      assert Run(written, actions[1..]) == Step(written, Clear(at, at));
    } else {
      assert |actions| == 1 && actions[1..] == [];
    }
  }

  // ---- The class ----

  class Progress {
    const minInterval: real
    var dirty: bool
    /** Whether a timer is armed. */
    var timer: bool
    var inFlight: Flight
    var nextAt: real
    var stopped: bool
    var waiters: seq<nat>
    ghost var clock: real
    ghost var log: seq<Event>

    ghost function Now(): State
      reads this
    {
      State(minInterval, dirty, timer, inFlight, nextAt, stopped, waiters, clock, log)
    }

    constructor (minInterval: real, ghost clock: real)
      ensures Now() == Initial(minInterval, clock)
    {
      this.minInterval := minInterval;
      dirty, timer, inFlight, nextAt, stopped, waiters := false, false, Idle, 0.0, false, [];
      this.clock, log := clock, [];
    }

    method ScheduleNow(now: real, start: real)
      modifies this
      ensures Now() == Schedule(old(Now()), now, start)
    {
      if stopped || timer || !inFlight.Idle? {
        return;
      }
      clock := now;
      var wait := nextAt - now;
      if wait <= 0.0 {
        FlushNow(start);
      } else {
        timer := true;
      }
    }

    method FlushNow(start: real)
      modifies this
      ensures Now() == Flush(old(Now()), start)
    {
      if stopped || !dirty {
        return;
      }
      dirty := false;
      var taken := waiters;
      waiters := [];
      clock := start;
      log := log + [Started(start, taken)];
      inFlight := Writing(start, taken);
    }

    method MarkDirty(now: real, start: real)
      modifies this
      ensures Now() == Step(old(Now()), Mark(now, start))
    {
      dirty := true;
      log := log + [Marked(None)];
      assert old(waiters) + [] == waiters;
      ScheduleNow(now, start);
    }

    /** The waiter is the promise handed out; the environment numbers them. */
    method MarkAndWaitFor(waiter: nat, now: real, start: real)
      modifies this
      ensures Now() == Step(old(Now()), MarkAndWait(waiter, now, start))
    {
      waiters := waiters + [waiter];
      dirty := true;
      log := log + [Marked(Some(waiter))];
      ScheduleNow(now, start);
    }

    method OnTimer(now: real, start: real)
      requires timer
      modifies this
      ensures Now() == Step(old(Now()), TimerFires(now, start))
    {
      timer := false;
      ScheduleNow(now, start);
    }

    /** The write's promise settled: the waiters it took are settled with it. */
    method OnWritten(ok: bool, bytes: nat) returns (settled: seq<nat>)
      requires inFlight.Writing?
      modifies this
      ensures Now() == Step(old(Now()), WriteSettles(ok, bytes)) && settled == old(inFlight).waiters
    {
      var started := inFlight.started;
      settled := inFlight.waiters;
      if ok {
        var size := bytes as real / BYTES_PER_MS;
        nextAt := started + if minInterval >= size then minInterval else size;
      } else {
        nextAt := started + minInterval;
      }
      log := log + [Finished(ok, if ok then bytes else 0, settled)];
      inFlight := Clearing;
    }

    method OnCleared(now: real, start: real)
      requires inFlight.Clearing?
      modifies this
      ensures Now() == Step(old(Now()), Clear(now, start))
    {
      inFlight := Idle;
      if dirty {
        ScheduleNow(now, start);
      }
    }

    method BeginStop()
      modifies this
      ensures Now() == Step(old(Now()), Stop)
    {
      stopped := true;
      timer := false;
      log := log + [Stopped];
    }

    /** What `stop` returns once the write under way, if any, is over. */
    method EndStop() returns (left: seq<nat>)
      requires stopped && inFlight.Idle?
      modifies this
      ensures Now() == Step(old(Now()), HandBack) && left == old(waiters)
    {
      left := waiters;
      waiters := [];
      log := log + [HandedBack(left)];
    }
  }
}
