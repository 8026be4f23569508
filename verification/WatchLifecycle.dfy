/** The lifecycle every watch handle has: serialized delivery and termination. What is pending belongs to the kind of
    watch; the lifecycle is told whether anything is. */
module WatchLifecycle {
  import opened Options

  datatype WatchEnd = Stopped | Aborted | Ended | ListenerError(error: string) | SourceFailed(error: string)

  /** What can be observed, oldest first: the listener's calls, its report, the detachment and the settled promise. */
  datatype Event = Called | Returned | Reported | Detached | Closed(end: WatchEnd)

  datatype Life = Life(
    started: bool, listening: bool, scheduled: bool, running: bool, ending: bool, end: Option<WatchEnd>, attached: bool,
    observing: bool, log: seq<Event>)
  {
    /** Frames are still welcome. */
    predicate Open() {
      end.None? && !ending
    }

    predicate CanStart() {
      !started && end.None?
    }

    /** Whether a drain may deliver something now. */
    predicate Delivers() {
      end.None? && listening
    }
  }

  const FRESH := Life(false, false, false, false, false, None, true, false, [])

  // ---- Steps ----

  function Schedule(l: Life): Life {
    if l.scheduled || l.running || l.end.Some? then l else l.(scheduled := true)
  }

  function Terminate(l: Life, end: WatchEnd): Life {
    if l.end.Some? then l
    else l.(end := Some(end), attached := false, listening := false, observing := false,
            log := l.log + (if l.attached then [Detached] else []) + [Closed(end)])
  }

  function Start(l: Life): Life {
    if l.CanStart() then Schedule(l.(started := true, listening := true)) else l
  }

  /** Something became pending. */
  function Pend(l: Life): Life {
    if l.started then Schedule(l) else l
  }

  function EndAfterDelivery(l: Life, pending: bool): Life {
    if l.end.Some? || l.ending then l
    else if !l.running && !pending then Terminate(l.(ending := true), Ended)
    else l.(ending := true)
  }

  /** The signal was handed over, aborted already or not; a second one is refused. */
  function ObserveAbort(l: Life, aborted: bool): Life {
    if l.observing || l.end.Some? then l
    else if aborted then Terminate(l.(observing := true), Aborted)
    else l.(observing := true)
  }

  /** A drain that finds no call to make: the end of the source may have waited for this. */
  function Rest(l: Life): Life {
    (if l.Delivers() && l.ending then Terminate(l, Ended) else l).(running := false)
  }

  /** A drain goes on: it makes a call when something is pending. */
  function Deliver(l: Life, pending: bool): Life {
    if l.Delivers() && pending then l.(running := true, log := l.log + [Called]) else Rest(l)
  }

  /** The microtask scheduled for a drain. */
  function Microtask(l: Life, pending: bool): Life {
    var m := l.(scheduled := false);
    if m.running || m.end.Some? || !m.started then m else Deliver(m, pending)
  }

  /** The listener's call is over; a throw is reported and ends the watch. */
  function Return(l: Life, error: Option<string>, pending: bool): Life {
    var r := l.(log := l.log + [Returned]);
    match error
    case None => Deliver(r, pending)
    case Some(e) =>
      (if r.end.Some? then r else Terminate(r.(log := r.log + [Reported]), ListenerError(e))).(running := false)
  }

  // ---- What the log says ----

  /** Where a watch stands: whether its listener is being called, whether it is attached to its source, how it ended. */
  datatype Standing = Standing(calling: bool, attached: bool, end: Option<WatchEnd>) | Broken

  function Next(s: Standing, e: Event): Standing {
    if s.Broken? then Broken
    else
      match e
      case Called => if s.calling || s.end.Some? then Broken else s.(calling := true)
      case Returned => if s.calling then s.(calling := false) else Broken
      case Reported => if s.end.None? && !s.calling then s else Broken
      case Detached => if s.attached && s.end.None? then s.(attached := false) else Broken
      case Closed(end) => if s.end.None? && !s.attached then s.(end := Some(end)) else Broken
  }

  /** One call at a time, none after the end; detached once, closed once, in that order. */
  function After(log: seq<Event>): Standing {
    if log == [] then Standing(false, true, None) else Next(After(log[..|log| - 1]), log[|log| - 1])
  }

  lemma AfterMore(log: seq<Event>, e: Event)
    ensures After(log + [e]) == Next(After(log), e)
  {
    assert (log + [e])[..|log|] == log;
  }

  /** What every watch keeps. Something pending on a started, open watch implies that a drain is due or running. */
  predicate Keeps(l: Life, pending: bool) {
    && After(l.log) == Standing(l.running, l.attached, l.end)
    && (l.attached <==> l.end.None?)
    && (l.listening <==> l.started && l.end.None?)
    && (pending ==> l.end.None?)
    && (l.started && l.end.None? && pending ==> l.scheduled || l.running)
    && (l.ending && l.end.None? ==> pending || l.running)
    && (l.running ==> l.started)
  }

  lemma TerminateKeeps(l: Life, pending: bool, end: WatchEnd)
    requires Keeps(l, pending) || (l.end.None? && l.attached && After(l.log) == Standing(l.running, true, None))
    ensures Terminate(l, end).end.Some? && (l.end.None? ==> Terminate(l, end).end == Some(end))
    ensures After(Terminate(l, end).log) == Standing(l.running, false, Terminate(l, end).end)
    ensures l.end.None? ==> !Terminate(l, end).attached && !Terminate(l, end).listening
  {
    if l.end.None? {
      AfterMore(l.log, Detached);
      AfterMore(l.log + [Detached], Closed(end));
    }
  }

  /** Ending a watch at once. */
  lemma EndKeeps(l: Life, pending: bool, end: WatchEnd)
    requires Keeps(l, pending)
    ensures Keeps(Terminate(l, end), false) && Terminate(l, end).end.Some?
  {
    TerminateKeeps(l, pending, end);
  }

  lemma PendKeeps(l: Life, pending: bool)
    requires Keeps(l, pending) && l.Open()
    ensures Keeps(Pend(l), true)
  {}

  lemma StartKeeps(l: Life, pending: bool)
    requires Keeps(l, pending)
    ensures Keeps(Start(l), pending) && (l.CanStart() ==> Start(l).scheduled)
  {}

  lemma EndAfterDeliveryKeeps(l: Life, pending: bool)
    requires Keeps(l, pending)
    ensures Keeps(EndAfterDelivery(l, pending), pending)
    ensures l.end.None? && EndAfterDelivery(l, pending).end.Some? ==> !pending && EndAfterDelivery(l, pending).end == Some(Ended)
  {
    if l.end.None? && !l.ending && !l.running && !pending {
      TerminateKeeps(l.(ending := true), pending, Ended);
    }
  }

  lemma ObserveAbortKeeps(l: Life, pending: bool, aborted: bool)
    requires Keeps(l, pending)
    ensures var after := ObserveAbort(l, aborted); Keeps(after, pending && after.end.None?)
  {
    if !l.observing && l.end.None? && aborted {
      TerminateKeeps(l.(observing := true), pending, Aborted);
    }
  }

  /** Between calls of a drain: everything [Keeps] says, but for the listener being called. */
  predicate Between(l: Life) {
    && After(l.log) == Standing(false, l.attached, l.end)
    && (l.attached <==> l.end.None?)
    && (l.listening <==> l.started && l.end.None?)
    && l.started
  }

  /** A drain makes its call exactly when there is one to make; if it does not, nothing is pending, and the end of the
      source takes effect. */
  lemma DeliverKeeps(l: Life, pending: bool, left: bool)
    requires Between(l) && (pending ==> l.end.None?) && (left ==> pending)
    ensures var after := Deliver(l, pending);
            && Keeps(after, left)
            && (after.running <==> l.end.None? && pending)
            && (l.end.None? && l.ending && !pending ==> after.end == Some(Ended))
            && (after.running || !l.ending ==> after.end == l.end)
  {
    if l.Delivers() && pending {
      AfterMore(l.log, Called);
    } else if l.Delivers() && l.ending {
      TerminateKeeps(l.(running := false), pending, Ended);
    }
  }

  lemma MicrotaskKeeps(l: Life, pending: bool, left: bool)
    requires Keeps(l, pending) && (left ==> pending)
    ensures var after := Microtask(l, pending);
            && Keeps(after, if Drains(l) then left else pending)
            && (Drains(l) && pending ==> after.running && after.end.None?)
            && (Drains(l) && !pending ==> !after.running)
            && (!Drains(l) ==> after.end == l.end)
            && (l.end.None? && after.end.Some? ==> !pending && after.end == Some(Ended))
  {
    if Drains(l) {
      DeliverKeeps(l.(scheduled := false), pending, left);
    }
  }

  /** Whether the microtask has anything to do. */
  predicate Drains(l: Life) {
    !l.running && l.end.None? && l.started
  }

  lemma ReturnKeeps(l: Life, error: Option<string>, pending: bool, left: bool)
    requires Keeps(l, pending) && l.running && (left ==> pending)
    ensures var after := Return(l, error, pending);
            && Keeps(after, error.None? && left)
            && (error.None? && l.end.None? && pending ==> after.running && after.end.None?)
            && (!(error.None? && l.end.None? && pending) ==> !after.running)
            && (error.None? && l.end.None? && after.end.Some? ==> !pending && after.end == Some(Ended))
            && (error.Some? && l.end.None? ==> after.end == Some(ListenerError(error.value)))
            && (l.end.Some? ==> after.end == l.end)
  {
    AfterMore(l.log, Returned);
    var r := l.(log := l.log + [Returned]);
    match error {
      case None => DeliverKeeps(r, pending, left);
      case Some(e) =>
        if r.end.None? {
          AfterMore(r.log, Reported);
          TerminateKeeps(r.(log := r.log + [Reported], running := false), pending, ListenerError(e));
        }
    }
  }

  // ---- The class ----

  class WatchLifecycle {
    var started: bool
    var listening: bool
    var scheduled: bool
    var running: bool
    var ending: bool
    var end: Option<WatchEnd>
    var attached: bool
    var observing: bool
    ghost var log: seq<Event>

    ghost function Now(): Life
      reads this
    {
      Life(started, listening, scheduled, running, ending, end, attached, observing, log)
    }

    constructor ()
      ensures Now() == FRESH
    {
      started, listening, scheduled, running, ending, end, attached, observing := false, false, false, false, false, None, true, false;
      log := [];
    }

    predicate Open()
      reads this
    {
      end == None && !ending
    }

    method ScheduleDrain()
      modifies this
      ensures Now() == Schedule(old(Now()))
    {
      if scheduled || running || end != None {
        return;
      }
      scheduled := true;
    }

    /** End the watch, once; what is pending is the caller's to drop when `first` is true. */
    method TerminateWith(e: WatchEnd) returns (first: bool)
      modifies this
      ensures Now() == Terminate(old(Now()), e) && first == old(end).None?
    {
      if end != None {
        return false;
      }
      end := Some(e);
      listening := false;
      observing := false;
      if attached {
        attached := false;
        log := log + [Detached];
      }
      log := log + [Closed(e)];
      assert old(log) + [] == old(log);
      return true;
    }

    method TryStart() returns (ok: bool)
      modifies this
      ensures Now() == Start(old(Now())) && ok == old(Now()).CanStart()
    {
      if started || end != None {
        return false;
      }
      started, listening := true, true;
      ScheduleDrain();
      return true;
    }

    method SomethingPends()
      modifies this
      ensures Now() == Pend(old(Now()))
    {
      if started {
        ScheduleDrain();
      }
    }

    /** True when nothing is left to deliver and the watch ends at once. */
    method SourceEnds(pending: bool) returns (ended: bool)
      modifies this
      ensures Now() == EndAfterDelivery(old(Now()), pending)
      ensures ended <==> old(end).None? && end.Some?
    {
      if end != None || ending {
        return false;
      }
      ending := true;
      if !running && !pending {
        ended := TerminateWith(Ended);
      } else {
        ended := false;
      }
    }

    /** `ok` is false when a signal is observed already. */
    method Observe(aborted: bool) returns (ok: bool, ended: bool)
      modifies this
      ensures Now() == ObserveAbort(old(Now()), aborted) && ok == !old(observing)
      ensures ended <==> old(end).None? && end.Some?
    {
      if observing {
        return false, false;
      }
      if end != None {
        return true, false;
      }
      observing, ended := true, false;
      if aborted {
        ended := TerminateWith(Aborted);
      }
      ok := true;
    }

    /** The drain either makes a call, or is over. */
    method Drain(pending: bool) returns (calls: bool, ended: bool)
      modifies this
      ensures Now() == Deliver(old(Now()), pending) && calls == (old(Now()).Delivers() && pending)
      ensures ended <==> old(end).None? && end.Some?
    {
      calls, ended := false, false;
      running := true;
      if end == None && listening {
        if pending {
          log := log + [Called];
          return true, false;
        }
        if ending {
          ended := TerminateWith(Ended);
        }
      }
      running := false;
    }

    method OnMicrotask(pending: bool) returns (calls: bool, ended: bool)
      modifies this
      ensures Now() == Microtask(old(Now()), pending) && calls == (Drains(old(Now())) && old(Now()).Delivers() && pending)
      ensures ended <==> old(end).None? && end.Some?
    {
      scheduled := false;
      if running || end != None || !started {
        return false, false;
      }
      calls, ended := Drain(pending);
    }

    method OnReturn(error: Option<string>, pending: bool) returns (calls: bool, ended: bool)
      requires running
      modifies this
      ensures Now() == Return(old(Now()), error, pending) && calls == (error.None? && old(Now()).Delivers() && pending)
      ensures ended <==> old(end).None? && end.Some?
    {
      log := log + [Returned];
      match error {
        case None =>
          calls, ended := Drain(pending);
        case Some(e) =>
          calls, ended := false, false;
          if end == None {
            log := log + [Reported];
            ended := TerminateWith(ListenerError(e));
          }
          running := false;
      }
    }
  }
}
