/** What a run owes an account of: for every turn, the messages it took from the queues, what it committed before its
    request, the answer and the results. */
module AgentLedger {
  import opened Transcript
  import opened AgentEvents
  import opened Agent
  import opened AgentTools

  /** Messages one poll of a queue delivered, and the mode the queue was in. */
  datatype Batch = Batch(source: Source, messages: seq<Message>, mode: QueueMode)

  /** Messages joining the transcript before a request: supplied ones, then those of batches, with tool changes declared. */
  datatype Commit = Commit(context: Context, supplied: seq<Message>, batches: seq<Batch>, emitted: seq<Message>)

  /** A request's answer, what happened to each call, the calls executed, and the results. */
  datatype Exchange = Exchange(answer: Answer, scripts: seq<CallScript>, executed: seq<ToolCall>, results: seq<Message>)

  /** A finished turn: what was committed before the request, and the exchange. */
  datatype TurnLog = TurnLog(commits: seq<Commit>, exchange: Exchange)

  /** The finished turns, the commits toward the next request, and the batches taken for the next commit. */
  datatype Ledger = Ledger(turns: seq<TurnLog>, commits: seq<Commit>, awaiting: seq<Batch>) {
    /** The batches the next request will carry. */
    function Upcoming(): seq<Batch> {
      BatchesOf(commits) + awaiting
    }

    /** Every message, in order. */
    function Messages(): seq<Message> {
      AllSaid(turns) + Emitted(commits)
    }

    /** Everything taken from a queue: in a finished turn, or toward the next request. */
    function Accounted(source: Source): seq<Message> {
      Delivering(turns, source) + TakenFrom(Upcoming(), source)
    }
  }

  function Taken(batches: seq<Batch>): seq<Message> {
    if batches == [] then [] else Taken(batches[..|batches| - 1]) + batches[|batches| - 1].messages
  }

  function TakenFrom(batches: seq<Batch>, source: Source): seq<Message> {
    if batches == [] then []
    else TakenFrom(batches[..|batches| - 1], source)
         + var b := batches[|batches| - 1]; if b.source == source then b.messages else []
  }

  function Emitted(commits: seq<Commit>): seq<Message> {
    if commits == [] then [] else Emitted(commits[..|commits| - 1]) + commits[|commits| - 1].emitted
  }

  function BatchesOf(commits: seq<Commit>): seq<Batch> {
    if commits == [] then [] else BatchesOf(commits[..|commits| - 1]) + commits[|commits| - 1].batches
  }

  /** The messages of a turn, in order. */
  function Said(t: TurnLog): seq<Message> {
    Emitted(t.commits) + [t.exchange.answer] + t.exchange.results
  }

  function AllSaid(turns: seq<TurnLog>): seq<Message> {
    if turns == [] then [] else AllSaid(turns[..|turns| - 1]) + Said(turns[|turns| - 1])
  }

  /** The calls executed in finished turns, in order. */
  function AllExecuted(turns: seq<TurnLog>): seq<ToolCall> {
    if turns == [] then [] else AllExecuted(turns[..|turns| - 1]) + turns[|turns| - 1].exchange.executed
  }

  /** What the finished turns took from a queue. */
  function Delivering(turns: seq<TurnLog>, source: Source): seq<Message> {
    if turns == [] then []
    else Delivering(turns[..|turns| - 1], source) + TakenFrom(BatchesOf(turns[|turns| - 1].commits), source)
  }

  // ---- What holds of each turn ----

  predicate CommitOk(c: Commit) {
    c.emitted == DeclareToolChanges(c.context, c.supplied + Taken(c.batches))
  }

  /** At most one batch from each queue, none empty, and single messages from a queue in one-at-a-time mode. */
  predicate OneEach(batches: seq<Batch>) {
    && (forall i, j :: 0 <= i < j < |batches| ==> batches[i].source != batches[j].source)
    && (forall i :: 0 <= i < |batches| ==>
          batches[i].messages != [] && (batches[i].mode.OneAtATime? ==> |batches[i].messages| == 1))
  }

  /** Results answer the calls in order, all of them unless an abort cut them off; a truncated answer has every call
      fail; and a truncated or broken one has none executed. */
  predicate ExchangeOk(x: Exchange) {
    && Answers(x.results, x.answer.calls)
    && (forall c :: c in x.executed ==> c in x.answer.calls)
    && match x.answer.stop
       case Error => x.executed == [] && x.results == []
       case Aborted => x.executed == [] && x.results == []
       case Length => x.executed == [] && |x.results| == |x.answer.calls| && forall m :: m in x.results ==> m.isError
       case _ => CutAt(x.results, x.answer.calls, x.scripts)
  }

  predicate TurnOk(t: TurnLog) {
    AllCommitsOk(t.commits) && OneEach(BatchesOf(t.commits)) && ExchangeOk(t.exchange)
  }

  predicate AllCommitsOk(commits: seq<Commit>) {
    forall i :: 0 <= i < |commits| ==> CommitOk(commits[i])
  }

  predicate Sound(l: Ledger) {
    && (forall i :: 0 <= i < |l.turns| ==> TurnOk(l.turns[i]))
    && AllCommitsOk(l.commits)
    && OneEach(l.Upcoming())
  }

  // ---- Steps of a run ----

  /** A poll of a queue delivered a batch. */
  function Polled(l: Ledger, b: Batch): Ledger {
    if b.messages == [] then l else l.(awaiting := l.awaiting + [b])
  }

  function Committed(l: Ledger, c: Commit): Ledger {
    l.(commits := l.commits + [c], awaiting := [])
  }

  function Closed(l: Ledger, x: Exchange): Ledger {
    Ledger(l.turns + [TurnLog(l.commits, x)], [], l.awaiting)
  }

  lemma LastOf<T>(s: seq<T>, x: T)
    ensures (s + [x])[..|s + [x]| - 1] == s && (s + [x])[|s + [x]| - 1] == x
  {}

  predicate NoneFrom(batches: seq<Batch>, source: Source) {
    forall i :: 0 <= i < |batches| ==> batches[i].source != source
  }

  lemma PolledIsSound(l: Ledger, b: Batch)
    requires Sound(l) && NoneFrom(l.Upcoming(), b.source) && (b.mode.OneAtATime? ==> |b.messages| <= 1)
    ensures Sound(Polled(l, b))
  {
    if b.messages != [] {
      Associate(BatchesOf(l.commits), l.awaiting, [b]);
    }
  }

  lemma PolledMessages(l: Ledger, b: Batch)
    ensures Polled(l, b).Messages() == l.Messages()
    ensures Taken(Polled(l, b).awaiting) == Taken(l.awaiting) + b.messages
  {
    if b.messages != [] {
      LastOf(l.awaiting, b);
    }
  }

  /** A poll adds its messages to what is accounted for, in order. */
  lemma PolledAccounts(l: Ledger, b: Batch, s: Source, before: seq<Message>)
    ensures before + Polled(l, b).Accounted(s) == before + l.Accounted(s) + if s == b.source then b.messages else []
  {
    var more := if s == b.source then b.messages else [];
    if b.messages != [] {
      Associate(BatchesOf(l.commits), l.awaiting, [b]);
      LastOf(l.Upcoming(), b);
      Associate(Delivering(l.turns, s), TakenFrom(l.Upcoming(), s), more);
    }
    Associate(before, l.Accounted(s), more);
  }

  lemma CommittedUpcoming(l: Ledger, c: Commit)
    requires c.batches == l.awaiting
    ensures Committed(l, c).Upcoming() == l.Upcoming()
  {
    LastOf(l.commits, c);
    assert BatchesOf(l.commits + [c]) + [] == BatchesOf(l.commits) + c.batches;
  }

  lemma CommittedIsSound(l: Ledger, c: Commit)
    requires Sound(l) && CommitOk(c) && c.batches == l.awaiting
    ensures Sound(Committed(l, c))
  {
    CommittedUpcoming(l, c);
  }

  lemma CommittedMessages(l: Ledger, c: Commit)
    ensures Committed(l, c).Messages() == l.Messages() + c.emitted
  {
    LastOf(l.commits, c);
    Associate(AllSaid(l.turns), Emitted(l.commits), c.emitted);
  }

  lemma ClosedMessages(l: Ledger, x: Exchange)
    ensures Closed(l, x).Messages() == l.Messages() + [x.answer] + x.results
    ensures AllExecuted(Closed(l, x).turns) == AllExecuted(l.turns) + x.executed
  {
    var t := TurnLog(l.commits, x);
    LastOf(l.turns, t);
    Associate(AllSaid(l.turns), Emitted(l.commits) + [x.answer], x.results);
    Associate(AllSaid(l.turns), Emitted(l.commits), [x.answer]);
    assert Emitted([]) == [] && AllSaid(l.turns + [t]) + [] == AllSaid(l.turns + [t]);
  }

  lemma ClosedIsSound(l: Ledger, x: Exchange)
    requires Sound(l) && l.awaiting == [] && ExchangeOk(x)
    ensures Sound(Closed(l, x))
  {
    LastOf(l.turns, TurnLog(l.commits, x));
    assert BatchesOf(l.commits) + [] == BatchesOf(l.commits) && BatchesOf([]) == [];
  }

  lemma ClosedAccounts(l: Ledger, x: Exchange, s: Source)
    requires l.awaiting == []
    ensures Closed(l, x).Accounted(s) == l.Accounted(s)
  {
    var t := TurnLog(l.commits, x);
    LastOf(l.turns, t);
    assert BatchesOf(l.commits) + [] == BatchesOf(l.commits) && BatchesOf([]) == [] && TakenFrom([], s) == [];
    assert Delivering(l.turns + [t], s) + [] == Delivering(l.turns + [t], s);
  }

  /** Before each request, replaying the transcript just committed declares exactly what can be executed. */
  lemma CommitDeclares(c: Commit)
    requires CommitOk(c) && Consistent(Declarations(c.context.tools))
    ensures Replay(c.context.messages + c.emitted) == Executable(c.context.tools)
  {
    DeclaresExactly(c.context, c.supplied + Taken(c.batches));
  }

  // ---- What queues delivered is said ----

  /** Messages occur among others at these places, in order, but for tool changes the loop put into them. */
  predicate Places(a: seq<Message>, b: seq<Message>, at: seq<nat>) {
    && |at| == |a|
    && (forall i :: 0 <= i < |a| ==> at[i] < |b| && Plain(b[at[i]]) == Plain(a[i]))
    && (forall i, j :: 0 <= i < j < |a| ==> at[i] < at[j])
  }

  ghost predicate Embeds(a: seq<Message>, b: seq<Message>) {
    exists at :: Places(a, b, at)
  }

  lemma EmbedsJoined(a: seq<Message>, b: seq<Message>, c: seq<Message>, d: seq<Message>)
    requires Embeds(a, b) && Embeds(c, d)
    ensures Embeds(a + c, b + d)
  {
    var p :| Places(a, b, p);
    var q :| Places(c, d, q);
    assert Places(a + c, b + d, p + seq(|q|, i requires 0 <= i < |q| => |b| + q[i]));
  }

  lemma EmbedsChained(a: seq<Message>, b: seq<Message>, c: seq<Message>)
    requires Embeds(a, b) && Embeds(b, c)
    ensures Embeds(a, c)
  {
    var p :| Places(a, b, p);
    var q :| Places(b, c, q);
    assert Places(a, c, seq(|p|, i requires 0 <= i < |p| => q[p[i]]));
  }

  /** Messages kept in place at the end of a list occur in it. */
  lemma TailEmbeds(a: seq<Message>, b: seq<Message>)
    requires |a| <= |b| && forall i :: 0 <= i < |a| ==> Plain(b[|b| - |a| + i]) == Plain(a[i])
    ensures Embeds(a, b)
  {
    assert Places(a, b, Range(|b| - |a|, |a|));
  }

  lemma BatchEmbeds(b: Batch, source: Source)
    ensures Embeds(if b.source == source then b.messages else [], b.messages)
  {
    TailEmbeds(if b.source == source then b.messages else [], b.messages);
  }

  lemma {:induction false} OneSourceEmbeds(batches: seq<Batch>, source: Source)
    ensures Embeds(TakenFrom(batches, source), Taken(batches))
  {
    if batches != [] {
      var init, last := batches[..|batches| - 1], batches[|batches| - 1];
      OneSourceEmbeds(init, source);
      BatchEmbeds(last, source);
      EmbedsJoined(TakenFrom(init, source), Taken(init), if last.source == source then last.messages else [], last.messages);
    } else {
      TailEmbeds([], []);
    }
  }

  predicate KeptAtEnd(pending: seq<Message>, r: seq<Message>) {
    |pending| <= |r| && forall i :: 0 <= i < |pending| ==> Plain(r[|r| - |pending| + i]) == Plain(pending[i])
  }

  lemma LastKeptAtEnd(supplied: seq<Message>, taken: seq<Message>, r: seq<Message>)
    requires KeptAtEnd(supplied + taken, r)
    ensures KeptAtEnd(taken, r)
  {
    forall i | 0 <= i < |taken| ensures Plain(r[|r| - |taken| + i]) == Plain(taken[i]) {
      assert (supplied + taken)[|supplied| + i] == taken[i];
    }
  }

  lemma KeptAtEndEmbeds(a: seq<Message>, supplied: seq<Message>, taken: seq<Message>, r: seq<Message>)
    requires Embeds(a, taken) && KeptAtEnd(supplied + taken, r)
    ensures Embeds(a, r)
  {
    LastKeptAtEnd(supplied, taken, r);
    TailEmbeds(taken, r);
    EmbedsChained(a, taken, r);
  }

  lemma DeclaredKeptAtEnd(context: Context, pending: seq<Message>)
    ensures KeptAtEnd(pending, DeclareToolChanges(context, pending))
  {
    forall i | 0 <= i < |pending|
      ensures var r := DeclareToolChanges(context, pending);
              |pending| <= |r| && Plain(r[|r| - |pending| + i]) == Plain(pending[i])
    {
      DeclaredAt(context, pending, i);
    }
    if pending != [] {
      DeclaredAt(context, pending, 0);
    }
  }

  lemma CommitEmbeds(c: Commit, source: Source)
    requires CommitOk(c)
    ensures Embeds(TakenFrom(c.batches, source), c.emitted)
  {
    OneSourceEmbeds(c.batches, source);
    DeclaredKeptAtEnd(c.context, c.supplied + Taken(c.batches));
    KeptAtEndEmbeds(TakenFrom(c.batches, source), c.supplied, Taken(c.batches), c.emitted);
  }

  lemma {:induction false} TakenFromJoined(a: seq<Batch>, b: seq<Batch>, source: Source)
    ensures TakenFrom(a + b, source) == TakenFrom(a, source) + TakenFrom(b, source)
  {
    if b == [] {
      assert a + b == a;
    } else {
      var n := |b| - 1;
      TakenFromJoined(a, b[..n], source);
      assert (a + b)[..|a + b| - 1] == a + b[..n];
    }
  }

  lemma {:induction false} CommitsEmbed(commits: seq<Commit>, source: Source)
    requires AllCommitsOk(commits)
    ensures Embeds(TakenFrom(BatchesOf(commits), source), Emitted(commits))
  {
    if commits != [] {
      var n := |commits| - 1;
      CommitsEmbed(commits[..n], source);
      CommitEmbeds(commits[n], source);
      TakenFromJoined(BatchesOf(commits[..n]), commits[n].batches, source);
      EmbedsJoined(TakenFrom(BatchesOf(commits[..n]), source), Emitted(commits[..n]),
                   TakenFrom(commits[n].batches, source), commits[n].emitted);
    } else {
      TailEmbeds([], []);
    }
  }

  lemma TurnEmbeds(t: TurnLog, source: Source)
    requires TurnOk(t)
    ensures Embeds(TakenFrom(BatchesOf(t.commits), source), Said(t))
  {
    CommitsEmbed(t.commits, source);
    SaidEmbeds(TakenFrom(BatchesOf(t.commits), source), Emitted(t.commits), [t.exchange.answer], t.exchange.results);
  }

  lemma SaidEmbeds(a: seq<Message>, b: seq<Message>, c: seq<Message>, d: seq<Message>)
    requires Embeds(a, b)
    ensures Embeds(a, b + c + d)
  {
    var p :| Places(a, b, p);
    assert Places(a, b + c + d, p);
  }

  lemma {:induction false} TurnsEmbed(turns: seq<TurnLog>, source: Source)
    requires forall i :: 0 <= i < |turns| ==> TurnOk(turns[i])
    ensures Embeds(Delivering(turns, source), AllSaid(turns))
  {
    if turns != [] {
      var init, last := turns[..|turns| - 1], turns[|turns| - 1];
      TurnsEmbed(init, source);
      TurnEmbeds(last, source);
      EmbedsJoined(Delivering(init, source), AllSaid(init), TakenFrom(BatchesOf(last.commits), source), Said(last));
    } else {
      TailEmbeds([], []);
    }
  }

  /** Once nothing waits for the next commit, everything taken from a queue is said, in the order it was taken. */
  lemma DeliveredIsSaid(l: Ledger, source: Source)
    requires Sound(l) && l.awaiting == []
    ensures Embeds(l.Accounted(source), l.Messages())
  {
    TurnsEmbed(l.turns, source);
    CommitsEmbed(l.commits, source);
    assert l.Upcoming() == BatchesOf(l.commits);
    EmbedsJoined(Delivering(l.turns, source), AllSaid(l.turns), TakenFrom(BatchesOf(l.commits), source), Emitted(l.commits));
  }
}
