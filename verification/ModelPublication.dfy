/** Publication of a provider's model catalog by concurrent refreshes. All tables of the source are keyed by provider and
    one provider's steps touch only its own entries, so this is one provider's part of them. */
module ModelPublication {
  import opened Options

  /** A model catalog, and what a store keeps of one. */
  type Catalog = seq<string>

  datatype Persist = Leave | Delete | Write(catalog: Catalog)

  /** What a refresh publishes: a change of the store, and a catalog for the memory of the provider object it refreshes. */
  datatype Publication = Publication(generation: nat, provider: nat, persist: Persist, update: Option<Catalog>)

  datatype Verdict = Published | Stale | Failed

  /** A publication waits for the one before it, has its store mutation under way, or is settled. */
  datatype Stage = Queued | Mutating | Settled(verdict: Verdict)

  /** What became of the promise handed to the publisher: an abort rejects it before its publication settles. */
  datatype Answer = Unanswered | Resolved(published: bool) | Rejected

  datatype Entry = Entry(publication: Publication, previous: Option<nat>, stage: Stage, answer: Answer)

  /** What happened, oldest first. Generations in it are those of publications. */
  datatype Event =
    | Newest(generation: nat)
    | Placed(place: Option<nat>)
    | MutationStarts(entry: nat, generation: nat)
    | MutationEnds(entry: nat)
    | Updated(entry: nat, generation: nat, provider: nat, catalog: Option<Catalog>)

  /** The newest generation, the refresh whose controller is registered, the provider object each refresh has begun with,
      those whose signal is aborted, the publications in the order they were asked for, the end of the chain, the provider
      object in place, and the fetched models each object has in memory. */
  datatype State = State(
    generation: nat, controller: Option<nat>, owners: map<nat, nat>, aborted: set<nat>, entries: seq<Entry>, chain: Option<nat>,
    provider: Option<nat>, memories: map<nat, Catalog>, log: seq<Event>)
  {
    predicate Current(generation: nat) {
      generation !in aborted && this.generation == generation
    }
  }

  const INITIAL := State(0, None, map[], {}, [], None, None, map[], [])

  /** One uninterrupted stretch of execution. */
  datatype Action =
    | SetProvider(provider: nat)                      // one never seen has no fetched models
    | DeleteProvider                                  // or clear all
    | BeginRefresh
    | EndRefresh(generation: nat)
    | AbortCaller(generation: nat)                    // the signal of the refresh's own caller
    | Publish(generation: nat, persist: Persist, update: Option<Catalog>)
    | Begin(entry: nat)                               // the publication before is settled
    | StoreSettles(entry: nat, ok: bool)
    | Unchain(entry: nat)                             // the callback of a settled chain
    | Answer(entry: nat)                              // the settled publication reaches its publisher

  predicate Enabled(s: State, a: Action) {
    match a
    case BeginRefresh => s.provider.Some?
    case EndRefresh(g) => g in s.owners
    case AbortCaller(g) => g in s.owners
    case Publish(g, _, _) => g in s.owners
    case Begin(k) =>
      k < |s.entries| && s.entries[k].stage.Queued?
      && var p := s.entries[k].previous; p.Some? ==> p.value < |s.entries| && s.entries[p.value].stage.Settled?
    case StoreSettles(k, _) => k < |s.entries| && s.entries[k].stage.Mutating?
    case Unchain(k) => k < |s.entries| && s.entries[k].stage.Settled?
    case Answer(k) => k < |s.entries| && s.entries[k].stage.Settled?
    case _ => true
  }

  // ---- Steps ----

  /** A signal aborts: publishers still waiting under it are turned away. */
  function Abort(s: State, g: nat): State {
    s.(aborted := s.aborted + {g}, entries := TurnedAway(s.entries, g))
  }

  function TurnedAway(entries: seq<Entry>, g: nat): (r: seq<Entry>)
    ensures |r| == |entries|
  {
    seq(|entries|, k requires 0 <= k < |entries| =>
      var e := entries[k];
      if e.publication.generation == g && e.answer.Unanswered? then e.(answer := Rejected) else e)
  }

  /** A new generation; the refresh before it is aborted if it is still registered. */
  function Superseded(s: State): State {
    var next := s.(generation := s.generation + 1, log := s.log + [Newest(s.generation + 1)]);
    match s.controller
    case None => next
    case Some(g) => Abort(next.(controller := None), g)
  }

  /** Another provider object, or none, takes the place of the one before. */
  function Place(s: State, provider: Option<nat>): State {
    var next := Superseded(s);
    next.(provider := provider, log := next.log + [Placed(provider)],
          memories := if provider.Some? && provider.value !in next.memories then next.memories[provider.value := []]
                      else next.memories)
  }

  function Settle(s: State, k: nat, verdict: Verdict): State
    requires k < |s.entries|
  {
    s.(entries := s.entries[k := s.entries[k].(stage := Settled(verdict))])
  }

  /** The second half of a publication: the update runs if its refresh is still the newest. */
  function Conclude(s: State, k: nat): State
    requires k < |s.entries|
  {
    var p := s.entries[k].publication;
    if !s.Current(p.generation) then Settle(s, k, Stale)
    else Settle(s, k, Published).(
           memories := if p.update.Some? then s.memories[p.provider := p.update.value] else s.memories,
           log := s.log + [Updated(k, p.generation, p.provider, p.update)])
  }

  function Begun(s: State, k: nat): State
    requires k < |s.entries|
  {
    var p := s.entries[k].publication;
    if !s.Current(p.generation) then Settle(s, k, Stale)
    else if p.persist.Leave? then Conclude(s, k)
    else s.(entries := s.entries[k := s.entries[k].(stage := Mutating)], log := s.log + [MutationStarts(k, p.generation)])
  }

  function StoreSettled(s: State, k: nat, ok: bool): State
    requires k < |s.entries|
  {
    var ended := s.(log := s.log + [MutationEnds(k)]);
    if ok then Conclude(ended, k) else Settle(ended, k, Failed)
  }

  function Answered(s: State, k: nat): State
    requires k < |s.entries| && s.entries[k].stage.Settled?
  {
    var e := s.entries[k];
    if !e.answer.Unanswered? then s
    else s.(entries := s.entries[k := e.(answer := if e.stage.verdict == Failed then Rejected
                                                   else Resolved(e.stage.verdict == Published))])
  }

  function Step(s: State, a: Action): State
    requires Enabled(s, a)
  {
    match a
    case SetProvider(p) => Place(s, Some(p))
    case DeleteProvider => Place(s, None)
    case BeginRefresh =>
      var next := Superseded(s);
      next.(controller := Some(next.generation), owners := next.owners[next.generation := s.provider.value])
    case EndRefresh(g) => if s.controller == Some(g) then s.(controller := None) else s
    case AbortCaller(g) => Abort(s, g)
    case Publish(g, persist, update) =>
      s.(entries := s.entries + [Entry(Publication(g, s.owners[g], persist, update), s.chain, Queued,
                                       if g in s.aborted then Rejected else Unanswered)],
         chain := Some(|s.entries|))
    case Begin(k) => Begun(s, k)
    case StoreSettles(k, ok) => StoreSettled(s, k, ok)
    case Unchain(k) => if s.chain == Some(k) then s.(chain := None) else s
    case Answer(k) => Answered(s, k)
  }

  // ---- What the log says ----

  /** The newest generation by now. */
  function NewestIn(log: seq<Event>): nat {
    if log == [] then 0
    else var e := log[|log| - 1]; if e.Newest? then e.generation else NewestIn(log[..|log| - 1])
  }

  /** The provider object in place by now. */
  function PlacedIn(log: seq<Event>): Option<nat> {
    if log == [] then None
    else var e := log[|log| - 1]; if e.Placed? then e.place else PlacedIn(log[..|log| - 1])
  }

  /** Generations only grow; a store mutation starts, and an update runs, only for the newest; and an update is of the
      provider object in place. */
  predicate InTime(before: seq<Event>, e: Event) {
    match e
    case Newest(g) => NewestIn(before) < g
    case MutationStarts(_, g) => g == NewestIn(before)
    case Updated(_, g, p, _) => g == NewestIn(before) && PlacedIn(before) == Some(p)
    case _ => true
  }

  predicate Timely(log: seq<Event>) {
    log == [] || (Timely(log[..|log| - 1]) && InTime(log[..|log| - 1], log[|log| - 1]))
  }

  /** The mutation under way, as long as bodies do not overlap. */
  datatype Body = None_ | Inside(entry: nat) | Overlap

  function BodyNext(b: Body, e: Event): Body {
    match e
    case Newest(_) => b
    case Placed(_) => b
    case MutationStarts(k, _) => if b == None_ then Inside(k) else Overlap
    case MutationEnds(k) => if b == Inside(k) then None_ else Overlap
    case Updated(_, _, _, _) => if b == None_ then None_ else Overlap
  }

  function BodyIn(log: seq<Event>): Body {
    if log == [] then None_ else BodyNext(BodyIn(log[..|log| - 1]), log[|log| - 1])
  }

  /** The fetched models a provider object has in memory: those of its last update. */
  function MemoryIn(log: seq<Event>, p: nat): Catalog {
    if log == [] then []
    else
      var e := log[|log| - 1];
      if e.Updated? && e.provider == p && e.catalog.Some? then e.catalog.value else MemoryIn(log[..|log| - 1], p)
  }

  /** How often the update of an entry ran. */
  function Updates(log: seq<Event>, k: nat): nat {
    if log == [] then 0
    else Updates(log[..|log| - 1], k) + var e := log[|log| - 1]; if e.Updated? && e.entry == k then 1 else 0
  }

  lemma LogMore(log: seq<Event>, e: Event)
    ensures var more := log + [e];
            && BodyIn(more) == BodyNext(BodyIn(log), e)
            && NewestIn(more) == (if e.Newest? then e.generation else NewestIn(log))
            && PlacedIn(more) == (if e.Placed? then e.place else PlacedIn(log))
            && (Timely(more) <==> Timely(log) && InTime(log, e))
  {
    assert (log + [e])[..|log|] == log;
  }

  lemma UpdatesMore(log: seq<Event>, e: Event, k: nat)
    ensures Updates(log + [e], k) == Updates(log, k) + if e.Updated? && e.entry == k then 1 else 0
  {
    assert (log + [e])[..|log|] == log;
  }

  lemma MemoryMore(log: seq<Event>, e: Event, p: nat)
    ensures MemoryIn(log + [e], p) ==
            if e.Updated? && e.provider == p && e.catalog.Some? then e.catalog.value else MemoryIn(log, p)
  {
    assert (log + [e])[..|log|] == log;
  }

  // ---- What every run keeps ----

  /** A publication that has begun has all earlier ones behind it; so has one that waits for none. */
  predicate InChain(s: State) {
    && (s.chain.Some? ==> s.chain.value == |s.entries| - 1)
    && (s.chain.None? ==> AllSettled(s.entries, |s.entries|))
    && (forall k :: 0 <= k < |s.entries| ==>
          match s.entries[k].previous
          case None => AllSettled(s.entries, k)
          case Some(p) => p == k - 1)
    && (forall k :: 0 <= k < |s.entries| && !s.entries[k].stage.Queued? ==> AllSettled(s.entries, k))
  }

  predicate AllSettled(entries: seq<Entry>, n: nat)
    requires n <= |entries|
  {
    forall j :: 0 <= j < n ==> entries[j].stage.Settled?
  }

  predicate BodyOpen(s: State) {
    match BodyIn(s.log)
    case None_ => forall k :: 0 <= k < |s.entries| ==> !s.entries[k].stage.Mutating?
    case Inside(k) => k < |s.entries| && s.entries[k].stage.Mutating?
    case Overlap => false
  }

  /** Updates ran exactly for publications that were published, once each; and publishers learn nothing else. */
  ghost predicate Told(s: State) {
    && (forall k: nat :: Updates(s.log, k) == if k < |s.entries| && s.entries[k].stage == Settled(Published) then 1 else 0)
    && (forall k :: 0 <= k < |s.entries| ==>
          (s.entries[k].answer == Resolved(true) ==> s.entries[k].stage == Settled(Published)))
  }

  /** The log tells of the newest generation, the object in place and the memory of every object. */
  ghost predicate Logged(s: State) {
    && Timely(s.log) && NewestIn(s.log) == s.generation && PlacedIn(s.log) == s.provider
    && (forall p: nat :: (if p in s.memories then s.memories[p] else []) == MemoryIn(s.log, p))
  }

  /** The newest refresh is one of the provider object in place, and publications are of the object their refresh began
      with. */
  predicate Owned(s: State) {
    && (forall g :: g in s.owners ==> g <= s.generation)
    && (s.generation in s.owners ==> s.provider == Some(s.owners[s.generation]))
    && (s.controller.Some? ==> s.controller.value in s.owners)
    && (forall k :: 0 <= k < |s.entries| ==>
          var p := s.entries[k].publication; p.generation in s.owners && p.provider == s.owners[p.generation])
  }

  ghost predicate Kept(s: State) {
    InChain(s) && BodyOpen(s) && Told(s) && Logged(s) && Owned(s)
  }

  /** A stage changes from queued or under way to settled, or to under way when all before it are settled. */
  lemma StageKeepsChain(s: State, k: nat, stage: Stage)
    requires InChain(s) && k < |s.entries| && !s.entries[k].stage.Settled? && !stage.Queued? && AllSettled(s.entries, k)
    requires stage.Mutating? ==> s.chain.Some?
    ensures InChain(s.(entries := s.entries[k := s.entries[k].(stage := stage)]))
  {}

  /** Publications begin one after the other. */
  lemma BeginsInOrder(s: State, k: nat)
    requires InChain(s) && Enabled(s, Begin(k))
    ensures AllSettled(s.entries, k) && s.chain.Some?
  {}

  predicate NoneMutatesBut(s: State, k: nat) {
    forall j :: 0 <= j < |s.entries| && j != k ==> !s.entries[j].stage.Mutating?
  }

  /** About to conclude a publication. */
  ghost predicate Closing(s: State, k: nat) {
    && InChain(s) && Told(s) && Logged(s) && Owned(s)
    && k < |s.entries| && !s.entries[k].stage.Settled? && AllSettled(s.entries, k)
    && BodyIn(s.log) == None_ && NoneMutatesBut(s, k)
  }

  lemma SettledOwned(s: State, k: nat, stage: Stage)
    requires Owned(s) && k < |s.entries|
    ensures Owned(s.(entries := s.entries[k := s.entries[k].(stage := stage)]))
  {}

  lemma SettleKeeps(s: State, k: nat, verdict: Verdict)
    requires Closing(s, k) && verdict != Published
    ensures Kept(Settle(s, k, verdict))
  {
    StageKeepsChain(s, k, Settled(verdict));
    SettledOwned(s, k, Settled(verdict));
    assert Told(Settle(s, k, verdict));
  }

  lemma ToldUpdated(s: State, k: nat, e: Event)
    requires Told(s) && k < |s.entries| && !s.entries[k].stage.Settled? && e.Updated? && e.entry == k
    ensures Told(Settle(s, k, Published).(log := s.log + [e]))
  {
    var t := Settle(s, k, Published).(log := s.log + [e]);
    forall j: nat ensures Updates(t.log, j) == if j < |t.entries| && t.entries[j].stage == Settled(Published) then 1 else 0 {
      UpdatesMore(s.log, e, j);
    }
  }

  lemma LoggedUpdated(s: State, k: nat)
    requires Logged(s) && Owned(s) && k < |s.entries| && s.Current(s.entries[k].publication.generation)
    ensures Logged(Conclude(s, k))
  {
    var p := s.entries[k].publication;
    var e := Updated(k, p.generation, p.provider, p.update);
    LogMore(s.log, e);
    forall q: nat
      ensures var t := Conclude(s, k); (if q in t.memories then t.memories[q] else []) == MemoryIn(t.log, q)
    {
      MemoryMore(s.log, e, q);
    }
  }

  lemma ConcludeKeeps(s: State, k: nat)
    requires Closing(s, k)
    ensures Kept(Conclude(s, k))
  {
    var p := s.entries[k].publication;
    if s.Current(p.generation) {
      var e := Updated(k, p.generation, p.provider, p.update);
      StageKeepsChain(s, k, Settled(Published));
      SettledOwned(s, k, Settled(Published));
      ToldUpdated(s, k, e);
      LoggedUpdated(s, k);
      LogMore(s.log, e);
    } else {
      SettleKeeps(s, k, Stale);
    }
  }

  /** An event of the log that is no update. */
  lemma ToldMore(s: State, e: Event)
    requires Told(s) && !e.Updated?
    ensures Told(s.(log := s.log + [e]))
  {
    forall k: nat ensures Updates(s.log + [e], k) == Updates(s.log, k) {
      UpdatesMore(s.log, e, k);
    }
  }

  lemma LoggedMore(s: State, e: Event)
    requires Logged(s) && (e.MutationEnds? || (e.MutationStarts? && e.generation == s.generation))
    ensures Logged(s.(log := s.log + [e]))
  {
    LogMore(s.log, e);
    forall p: nat ensures MemoryIn(s.log + [e], p) == MemoryIn(s.log, p) {
      MemoryMore(s.log, e, p);
    }
  }

  lemma MutatingKeeps(s: State, k: nat)
    requires Closing(s, k) && s.chain.Some? && s.Current(s.entries[k].publication.generation)
    ensures Kept(s.(entries := s.entries[k := s.entries[k].(stage := Mutating)],
                    log := s.log + [MutationStarts(k, s.entries[k].publication.generation)]))
  {
    var e := MutationStarts(k, s.generation);
    var started := s.(entries := s.entries[k := s.entries[k].(stage := Mutating)]);
    StageKeepsChain(s, k, Mutating);
    SettledOwned(s, k, Mutating);
    assert Told(started);
    ToldMore(started, e);
    LoggedMore(started, e);
    LogMore(s.log, e);
  }

  lemma ReadyToClose(s: State, k: nat)
    requires Kept(s) && Enabled(s, Begin(k))
    ensures Closing(s, k) && s.chain.Some?
  {
    BeginsInOrder(s, k);
    forall j | 0 <= j < |s.entries| && j != k ensures !s.entries[j].stage.Mutating? {
      assert s.entries[j].stage.Mutating? ==> AllSettled(s.entries, j);
    }
  }

  lemma BeginKeeps(s: State, k: nat)
    requires Kept(s) && Enabled(s, Begin(k))
    ensures Kept(Begun(s, k))
  {
    ReadyToClose(s, k);
    var p := s.entries[k].publication;
    if !s.Current(p.generation) {
      SettleKeeps(s, k, Stale);
    } else if p.persist.Leave? {
      ConcludeKeeps(s, k);
    } else {
      MutatingKeeps(s, k);
    }
  }

  lemma StoreSettlesKeeps(s: State, k: nat, ok: bool)
    requires Kept(s) && Enabled(s, StoreSettles(k, ok))
    ensures Kept(StoreSettled(s, k, ok))
  {
    var ended := s.(log := s.log + [MutationEnds(k)]);
    OneMutates(s, k);
    LogMore(s.log, MutationEnds(k));
    ToldMore(s, MutationEnds(k));
    LoggedMore(s, MutationEnds(k));
    assert Closing(ended, k);
    if ok {
      ConcludeKeeps(ended, k);
    } else {
      SettleKeeps(ended, k, Failed);
    }
  }

  /** Of two mutations under way, one would have begun before the other was settled. */
  lemma OneMutates(s: State, k: nat)
    requires InChain(s) && BodyOpen(s) && k < |s.entries| && s.entries[k].stage.Mutating?
    ensures AllSettled(s.entries, k) && BodyIn(s.log) == Inside(k) && NoneMutatesBut(s, k)
  {
    forall j | 0 <= j < |s.entries| && j != k ensures !s.entries[j].stage.Mutating? {
      assert s.entries[j].stage.Mutating? ==> AllSettled(s.entries, j);
    }
  }

  lemma PublishKeeps(s: State, g: nat, persist: Persist, update: Option<Catalog>)
    requires Kept(s) && g in s.owners
    ensures Kept(Step(s, Publish(g, persist, update)))
  {
    assert AllSettled(s.entries, |s.entries|) || s.chain.Some?;
  }

  lemma AbortKeeps(s: State, g: nat)
    requires Kept(s)
    ensures Kept(Abort(s, g))
  {
    var t := Abort(s, g);
    assert forall k :: 0 <= k < |s.entries| ==>
      && t.entries[k].stage == s.entries[k].stage && t.entries[k].previous == s.entries[k].previous
      && t.entries[k].publication == s.entries[k].publication;
  }

  /** A new generation that no refresh has yet. */
  lemma NewestKeeps(s: State)
    requires Kept(s)
    ensures Kept(s.(generation := s.generation + 1, log := s.log + [Newest(s.generation + 1)]))
  {
    var e := Newest(s.generation + 1);
    LogMore(s.log, e);
    ToldMore(s, e);
    LoggedNewest(s);
    OwnedNewest(s);
  }

  lemma LoggedNewest(s: State)
    requires Logged(s)
    ensures Logged(s.(generation := s.generation + 1, log := s.log + [Newest(s.generation + 1)]))
  {
    var e := Newest(s.generation + 1);
    LogMore(s.log, e);
    forall p: nat ensures MemoryIn(s.log + [e], p) == MemoryIn(s.log, p) {
      MemoryMore(s.log, e, p);
    }
  }

  lemma OwnedNewest(s: State)
    requires Owned(s)
    ensures Owned(s.(generation := s.generation + 1, log := s.log + [Newest(s.generation + 1)]))
  {}

  lemma SupersedeKeeps(s: State)
    requires Kept(s)
    ensures Kept(Superseded(s)) && Superseded(s).generation == s.generation + 1 && Superseded(s).owners == s.owners
    ensures Superseded(s).provider == s.provider
  {
    NewestKeeps(s);
    var next := s.(generation := s.generation + 1, log := s.log + [Newest(s.generation + 1)]);
    if s.controller.Some? {
      UnregisteredKeeps(next);
      AbortKeeps(next.(controller := None), s.controller.value);
    }
  }

  lemma UnregisteredKeeps(s: State)
    requires Kept(s)
    ensures Kept(s.(controller := None))
  {}

  lemma LoggedPlaced(s: State, provider: Option<nat>)
    requires Logged(s)
    ensures Logged(s.(provider := provider, log := s.log + [Placed(provider)],
                      memories := if provider.Some? && provider.value !in s.memories then s.memories[provider.value := []]
                                  else s.memories))
  {
    var e := Placed(provider);
    LogMore(s.log, e);
    forall p: nat ensures MemoryIn(s.log + [e], p) == MemoryIn(s.log, p) {
      MemoryMore(s.log, e, p);
    }
  }

  lemma PlaceKeeps(s: State, provider: Option<nat>)
    requires Kept(s)
    ensures Kept(Place(s, provider))
  {
    SupersedeKeeps(s);
    var next := Superseded(s);
    assert next.generation !in next.owners;
    PlacedKeeps(next, provider);
  }

  /** With no refresh of the newest generation, an object may take the place of another. */
  lemma PlacedKeeps(s: State, provider: Option<nat>)
    requires Kept(s) && s.generation !in s.owners
    ensures Kept(s.(provider := provider, log := s.log + [Placed(provider)],
                    memories := if provider.Some? && provider.value !in s.memories then s.memories[provider.value := []]
                                else s.memories))
  {
    var e := Placed(provider);
    LoggedPlaced(s, provider);
    OwnedPlaced(s, provider);
    LogMore(s.log, e);
    ToldMore(s, e);
    var memories := if provider.Some? && provider.value !in s.memories then s.memories[provider.value := []] else s.memories;
    PartsKept(s.(log := s.log + [e]), s.(provider := provider, log := s.log + [e], memories := memories));
  }

  /** What is kept of publications does not depend on providers. */
  lemma PartsKept(s: State, t: State)
    requires InChain(s) && BodyOpen(s) && Told(s) && t.entries == s.entries && t.chain == s.chain && t.log == s.log
    ensures InChain(t) && BodyOpen(t) && Told(t)
  {}

  lemma OwnedPlaced(s: State, provider: Option<nat>)
    requires Owned(s) && s.generation !in s.owners
    ensures Owned(s.(provider := provider))
  {}

  lemma UnchainKeeps(s: State, k: nat)
    requires Kept(s) && Enabled(s, Unchain(k))
    ensures Kept(Step(s, Unchain(k)))
  {
    assert AllSettled(s.entries, k);
  }

  lemma BeginRefreshKeeps(s: State)
    requires Kept(s) && s.provider.Some?
    ensures Kept(Step(s, BeginRefresh))
  {
    SupersedeKeeps(s);
    var next := Superseded(s);
    OwnerKeeps(next, s.provider.value);
  }

  lemma OwnerKeeps(s: State, p: nat)
    requires Kept(s) && s.generation !in s.owners && s.provider == Some(p)
    ensures Kept(s.(controller := Some(s.generation), owners := s.owners[s.generation := p]))
  {}

  lemma AnswerKeeps(s: State, k: nat)
    requires Kept(s) && Enabled(s, Action.Answer(k))
    ensures Kept(Answered(s, k))
  {}

  /** Every step of users, refreshes and the store keeps the publications apart and the catalog up to date. */
  lemma StepKeeps(s: State, a: Action)
    requires Kept(s) && Enabled(s, a)
    ensures Kept(Step(s, a))
  {
    match a
    case SetProvider(p) => PlaceKeeps(s, Some(p));
    case DeleteProvider => PlaceKeeps(s, None);
    case BeginRefresh => BeginRefreshKeeps(s);
    case EndRefresh(_) =>
    case AbortCaller(g) => AbortKeeps(s, g);
    case Publish(g, persist, update) => PublishKeeps(s, g, persist, update);
    case Begin(k) => BeginKeeps(s, k);
    case StoreSettles(k, ok) => StoreSettlesKeeps(s, k, ok);
    case Unchain(k) => UnchainKeeps(s, k);
    case Answer(k) => AnswerKeeps(s, k);
  }

  predicate AllEnabled(s: State, actions: seq<Action>)
    decreases actions
  {
    actions == [] || (Enabled(s, actions[0]) && AllEnabled(Step(s, actions[0]), actions[1..]))
  }

  function Run(s: State, actions: seq<Action>): State
    requires AllEnabled(s, actions)
    decreases actions
  {
    if actions == [] then s else Run(Step(s, actions[0]), actions[1..])
  }

  lemma {:induction false} KeptOverRuns(s: State, actions: seq<Action>)
    requires Kept(s) && AllEnabled(s, actions)
    ensures Kept(Run(s, actions))
    decreases actions
  {
    if actions != [] {
      StepKeeps(s, actions[0]);
      KeptOverRuns(Step(s, actions[0]), actions[1..]);
    }
  }

  // ---- What that means ----

  /** The generation of a store mutation that starts or of an update that runs. */
  function GenerationOf(e: Event): Option<nat> {
    match e
    case MutationStarts(_, g) => Some(g)
    case Updated(_, g, _, _) => Some(g)
    case _ => None
  }

  lemma {:induction false} TimelyAt(log: seq<Event>, i: nat)
    requires Timely(log) && i < |log|
    ensures GenerationOf(log[i]).Some? ==> GenerationOf(log[i]).value == NewestIn(log[..i])
    ensures log[i].Updated? ==> PlacedIn(log[..i]) == Some(log[i].provider)
    ensures NewestIn(log[..i]) <= NewestIn(log)
  {
    var n := |log| - 1;
    if i < n {
      TimelyAt(log[..n], i);
      assert log[..n][..i] == log[..i];
    }
  }

  /** Mutations start and updates run in the order of their generations, each while its generation is the newest. */
  lemma GenerationsGrow(log: seq<Event>, i: nat, j: nat)
    requires Timely(log) && i < j < |log| && GenerationOf(log[i]).Some? && GenerationOf(log[j]).Some?
    ensures GenerationOf(log[i]).value <= GenerationOf(log[j]).value
  {
    TimelyAt(log, j);
    TimelyAt(log, i);
    TimelyPrefix(log, j);
    TimelyAt(log[..j], i);
    assert log[..j][..i] == log[..i] && log[..j][i] == log[i];
  }

  lemma {:induction false} TimelyPrefix(log: seq<Event>, n: nat)
    requires Timely(log) && n <= |log|
    ensures Timely(log[..n])
  {
    if n < |log| {
      TimelyPrefix(log[..|log| - 1], n);
      assert log[..|log| - 1][..n] == log[..n];
    } else {
      assert log[..n] == log;
    }
  }

  /** Over every run: bodies do not overlap; mutations start and updates run only for the newest generation, and updates
      only for the provider object in place, so one that was replaced keeps its models; what an object has in memory is its
      last update, nothing for a new one; an update runs once, for its own publication; and a publisher told so was
      published. */
  lemma RunKeeps(actions: seq<Action>)
    requires AllEnabled(INITIAL, actions)
    ensures var s := Run(INITIAL, actions);
            && Timely(s.log) && BodyIn(s.log) != Overlap && NewestIn(s.log) == s.generation && PlacedIn(s.log) == s.provider
            && (forall p: nat :: (if p in s.memories then s.memories[p] else []) == MemoryIn(s.log, p))
            && (forall k :: 0 <= k < |s.entries| && s.entries[k].answer == Resolved(true) ==> Updates(s.log, k) == 1)
            && (forall k: nat :: Updates(s.log, k) <= 1)
  {
    KeptOverRuns(INITIAL, actions);
  }

  // ---- The class ----

  /** One provider's entries of the tables a `Models` keeps, with the publications asked for. */
  class ProviderModels {
    var refreshGeneration: nat
    var refreshController: Option<nat>
    var abortedSignals: set<nat>
    var publications: seq<Entry>
    var publicationChain: Option<nat>
    /** The provider object in place, those refreshes began with, and each object's `dynamicModels`. */
    var provider: Option<nat>
    var owners: map<nat, nat>
    var dynamicModels: map<nat, Catalog>
    ghost var log: seq<Event>

    ghost function Now(): State
      reads this
    {
      State(refreshGeneration, refreshController, owners, abortedSignals, publications, publicationChain, provider,
            dynamicModels, log)
    }

    constructor ()
      ensures Now() == INITIAL
    {
      refreshGeneration, refreshController, abortedSignals, publications := 0, None, {}, [];
      publicationChain, provider, owners, dynamicModels, log := None, None, map[], map[], [];
    }

    method AbortSignal(g: nat)
      modifies this
      ensures Now() == Abort(old(Now()), g)
    {
      abortedSignals := abortedSignals + {g};
      publications := TurnedAway(publications, g);
    }

    /** A provider is set or deleted, or a new refresh begins. */
    method SupersedeProviderRefresh() returns (generation: nat)
      modifies this
      ensures Now() == Superseded(old(Now())) && generation == refreshGeneration
    {
      refreshGeneration := refreshGeneration + 1;
      log := log + [Newest(refreshGeneration)];
      if refreshController != None {
        var previous := refreshController.value;
        refreshController := None;
        AbortSignal(previous);
      }
      return refreshGeneration;
    }

    method SetProvider(p: nat)
      modifies this
      ensures Now() == Step(old(Now()), Action.SetProvider(p))
    {
      var _ := SupersedeProviderRefresh();
      provider := Some(p);
      log := log + [Placed(provider)];
      if p !in dynamicModels {
        dynamicModels := dynamicModels[p := []];
      }
    }

    method DeleteProvider()
      modifies this
      ensures Now() == Step(old(Now()), Action.DeleteProvider)
    {
      var _ := SupersedeProviderRefresh();
      provider := None;
      log := log + [Placed(None)];
    }

    method BeginProviderRefresh() returns (generation: nat)
      requires provider.Some?
      modifies this
      ensures Now() == Step(old(Now()), BeginRefresh) && generation == refreshGeneration
    {
      generation := SupersedeProviderRefresh();
      refreshController := Some(generation);
      owners := owners[generation := provider.value];
    }

    method FinishProviderRefresh(generation: nat)
      requires generation in owners
      modifies this
      ensures Now() == Step(old(Now()), EndRefresh(generation))
    {
      if refreshController == Some(generation) {
        refreshController := None;
      }
    }

    /** Queue a publication behind the last one. */
    method PublishProviderModels(generation: nat, persist: Persist, update: Option<Catalog>) returns (entry: nat)
      requires generation in owners
      modifies this
      ensures Now() == Step(old(Now()), Publish(generation, persist, update)) && entry == |old(publications)|
    {
      entry := |publications|;
      var answer := if generation in abortedSignals then Rejected else Unanswered;
      publications := publications + [Entry(Publication(generation, owners[generation], persist, update), publicationChain, Queued, answer)];
      publicationChain := Some(entry);
    }

    predicate Current(generation: nat)
      reads this
    {
      generation !in abortedSignals && refreshGeneration == generation
    }

    method SetStage(entry: nat, stage: Stage)
      requires entry < |publications|
      modifies this`publications
      ensures publications == old(publications)[entry := old(publications)[entry].(stage := stage)]
    {
      publications := publications[entry := publications[entry].(stage := stage)];
    }

    /** The publication before is settled: start the store mutation, or go straight to the update. */
    method OnPreviousSettled(entry: nat)
      requires Enabled(Now(), Begin(entry))
      modifies this
      ensures Now() == Step(old(Now()), Begin(entry))
    {
      var publication := publications[entry].publication;
      if !Current(publication.generation) {
        SetStage(entry, Settled(Stale));
      } else if publication.persist == Leave {
        Finish(entry);
      } else {
        SetStage(entry, Mutating);
        log := log + [MutationStarts(entry, publication.generation)];
      }
    }

    /** Run the update if the refresh is still the newest. */
    method Finish(entry: nat)
      requires entry < |publications|
      modifies this
      ensures Now() == Conclude(old(Now()), entry)
    {
      var publication := publications[entry].publication;
      if !Current(publication.generation) {
        SetStage(entry, Settled(Stale));
        return;
      }
      if publication.update.Some? {
        dynamicModels := dynamicModels[publication.provider := publication.update.value];
      }
      log := log + [Updated(entry, publication.generation, publication.provider, publication.update)];
      SetStage(entry, Settled(Published));
    }

    method OnStoreSettled(entry: nat, ok: bool)
      requires Enabled(Now(), StoreSettles(entry, ok))
      modifies this
      ensures Now() == Step(old(Now()), StoreSettles(entry, ok))
    {
      log := log + [MutationEnds(entry)];
      if ok {
        Finish(entry);
      } else {
        SetStage(entry, Settled(Failed));
      }
    }

    method OnTailSettled(entry: nat)
      requires Enabled(Now(), Unchain(entry))
      modifies this
      ensures Now() == Step(old(Now()), Unchain(entry))
    {
      if publicationChain == Some(entry) {
        publicationChain := None;
      }
    }

    method OnAnswer(entry: nat)
      requires Enabled(Now(), Action.Answer(entry))
      modifies this
      ensures Now() == Step(old(Now()), Action.Answer(entry))
    {
      var e := publications[entry];
      if e.answer == Unanswered {
        var answer := if e.stage.verdict == Failed then Rejected else Resolved(e.stage.verdict == Published);
        publications := publications[entry := e.(answer := answer)];
      }
    }
  }
}
