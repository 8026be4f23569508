# Verified model of Chord outputs and watches, the agent run, and its services

A Dafny model of the parts of the repository whose behaviour is decided by code rather than by the outside world, with
proofs over every input, every run and every interleaving. `dafny verify dfyconfig.toml` checks all of it.

| files | what they model |
|---|---|
| `Utf8`, `OutputWindow`, `OutputRanges`, `OutputBuffer` | bounded output streams: the window of a whole text, and the buffer that throws text away and still reports that window |
| `Progress` | paced progress commits on a clock, a timer and an asynchronous write |
| `Transcript`, `AgentEvents`, `Agent`, `AgentTools`, `AgentLedger`, `AgentRun`, `AgentLoop` | the agent run: messages and tool declarations, the event grammar, the queues and the state kept from events, one answer with its calls, the account of a run, a run as steps, and the loop |
| `Delta`, `PendingOps`, `WatchLifecycle`, `Watch`, `NativeWatch` | watches: JSON operations and how they fold while a listener is busy, the shared lifecycle, and the two handles |
| `ModelPublication`, `ModelOverlay` | publication of model catalogs by concurrent refreshes, and the overlay of fetched models |
| `DecimalKeys`, `Room` | the log of a remote room, compacted by snapshots and replayed from ordered keys |
| `JsonCopy` | strict JSON copying and checking of a heap graph |
| `Proxy` | a proxied model stream from bytes to lines to events to a message |
| `Catalog` | the order of versions and the choice of a model catalog |

How the models are made:

- A class has the fields of the source's class, and its methods change them in the same order. Concurrency is modelled by
  steps: a method runs from one `await` to the next, and the environment (timers, promises, listeners, users, stores)
  chooses the next step freely. Where a class has a pure step function beside it (`Progress`, `Watch`, `NativeWatch`,
  `ModelPublication`), each method is proved equal to its step, and the properties are proved for all runs of steps.
- What the world answers comes as parameters: the agent loop reads a script with one entry per request (what users do to the
  queues at each point, the answers of hooks, the stream, the tools, every reading of the abort signal).
- Text is a sequence of Unicode scalar values with its UTF-8 bytes (section 3 of RFC 3629); the streaming decoder, with its
  replacement of malformed input, is part of the model.
- Ghost histories (what was enqueued, taken, given, logged) are kept beside the real fields to say what a run conserves.

What the proofs found:

- `declareToolChanges` makes replay agree with the executable tools exactly when no tool name is declared in two ways; its
  comment says it always does (`Transcript.DeclaringIsExactIff`, `Transcript.InconsistentToolsBreak`).
- Version precedence is transitive exactly on versions of whose numeric prerelease identifiers no two are read as the same
  finite double, and a total order exactly where at most one is read as infinity besides. Two spellings of a number break it,
  and so do two numbers beyond 2^53 that round alike (`Catalog.TransitiveIff`, `Catalog.TotalOrderIff`,
  `Catalog.SpellingsBreak`, `Catalog.RoundingBreaks`).
- The keys of a room order as numbers exactly below 10^14 (`DecimalKeys.KeysOrderedIff`).
- A proxied message that ended is still the one being built: what comes later may change it, end it again with other usage,
  or turn it into a failed one, and the consumer is not told. It stays as announced exactly when every later line leaves it and
  nothing is thrown that it does not already show (`Proxy.AnnouncedStaysIff`, `Proxy.LaterThrowOverwrites`,
  `Proxy.SecondEndOverwrites`). Later lines can also take a change back, so the message in the end has a condition of its own
  (`Proxy.AnnouncedFinallyIff`, `Proxy.EditsMayCancel`).
- The pending tool calls in the agent's state are a set of ids. It is that of the running calls exactly when no call starts
  while another with its id runs, so whenever no answer calls twice with one id; otherwise the end of the first makes it
  forget the second (`AgentEvents.ExactIffNeverTwice`, `AgentEvents.TidyNeverTwice`, `AgentEvents.TwiceForgets`).

## Model

| member | source | states |
|---|---|---|
| `Utf8.FeedConcat` | packages/chord/src/output.ts:161-174 | the streaming decoder reads the same text however the bytes are cut into chunks |
| `Utf8.DecodeEncode` | packages/chord/src/output.ts:52-62 | decoding an encoded text gives it back |
| `Utf8.DecodeCut` | packages/chord/src/output.ts:104-116 | a piece of encoded text between character boundaries decodes to the same piece of the text |
| `OutputWindow.HeadIsLongest` | packages/chord/src/output.ts:64-79 | no prefix of whole lines beyond the head window fits; the window ends inside a line only where the first line alone is too long, and then at the last character boundary within the limit |
| `OutputWindow.TailIsLongest` | packages/chord/src/output.ts:81-102 | no suffix of whole lines that begins before the tail window fits; the window starts inside a line only where the last line alone is too long, and then at the first character boundary within the limit |
| `OutputWindow.WindowOnBoundaries` | packages/chord/src/output.ts:104-116 | the window of any text never splits a character |
| `OutputWindow.BoundIsExact` | packages/chord/src/output.ts:47-62 | the kept text is an exact prefix or suffix of the input, and the counts are measured on it |
| `OutputWindow.BoundIsIdempotent` | packages/chord/src/output.ts:47-62 | the result keeps both limits, and bounding it again drops nothing |
| `OutputWindow.SuffixDecides` | packages/chord/src/output.ts:245-248 | a suffix that does not fit the limits decides the tail window, whatever comes before it |
| `OutputWindow.PrefixDecides` | packages/chord/src/output.ts:203-207 | a prefix longer than the window, or with as many newlines as it has lines, decides the head window, whatever follows |
| `OutputRanges.CharacterEnd` | packages/chord/src/output.ts:104-109 | the loop finds the last character boundary at or before an index |
| `OutputRanges.CharacterStart` | packages/chord/src/output.ts:111-116 | the loop finds the first character boundary at or after an index |
| `OutputRanges.LineCount` | packages/chord/src/output.ts:118-123 | the newline search counts the lines, a final unterminated one included |
| `OutputRanges.HeadRange` | packages/chord/src/output.ts:64-79 | the search over newlines finds the end of the longest head window |
| `OutputRanges.TailRange` | packages/chord/src/output.ts:81-102 | the backward search over newlines finds the start of the longest tail window |
| `OutputRanges.BoundOutput` | packages/chord/src/output.ts:52-62 | the byte loops return the window defined on the whole text, its size and the exact dropped bytes and lines |
| `OutputRanges.TailMargin` | packages/chord/src/output.ts:245-263 | the kept text is the shortest suffix that is too much for the window by a byte or a line, or all of it when none is |
| `OutputRanges.ExceedingDecides` | packages/chord/src/output.ts:157-160 | text after a skip that is more than the window decides it, whatever was skipped |
| `OutputBuffer.CutBytes` | packages/chord/src/output.ts:132-137 | cutting a byte chunk in two accepts the same text and leaves decoder and byte-order-mark state the same |
| `OutputBuffer.ReportOfStored` | packages/chord/src/output.ts:222-243 | what is stored of a stream bounds to the window of the whole stream, with the same kept bytes and lines |
| `OutputBuffer.OutputBuffer.Accept` | packages/chord/src/output.ts:192-220 | accepting text keeps the stored chunks enough to decide every later window, and storage within the limits plus one chunk |
| `OutputBuffer.OutputBuffer.DropLeading` | packages/chord/src/output.ts:208-218 | dropping leading chunks leaves a suffix that still decides the tail window |
| `OutputBuffer.OutputBuffer.SkipOver` | packages/chord/src/output.ts:176-185 | only the counts of omitted text are added, and the stored text before it is let go |
| `OutputBuffer.OutputBuffer.Push` | packages/chord/src/output.ts:157-174 | the stream gains the pending character, the omitted text and the decoded chunk, in this order |
| `OutputBuffer.OutputBuffer.End` | packages/chord/src/output.ts:187-190 | an incomplete trailing character becomes U+FFFD, and the next chunk starts afresh |
| `OutputBuffer.OutputBuffer.Snapshot` | packages/chord/src/output.ts:222-243 | the report equals that of bounding the whole stream, and compacting what is stored changes no later report |
| `OutputBuffer.Run` | packages/chord/src/output.ts:125-243 | over every run of pushes, skips, ends and snapshots, head or tail, the snapshots are exactly those of the whole stream |
| `Progress.StepKeeps` | packages/chord/src/output.ts:327-408 | every step of callers, clock, timer and write keeps the pacing invariant |
| `Progress.RunsAreLawful` | packages/chord/src/output.ts:322-408 | over all runs: the log is lawful, waiters are those of unwritten changes, and a change no write has started after has a timer or write ahead of it or was left to `stop` |
| `Progress.WaitersConserved` | packages/chord/src/output.ts:357-372 | each waiter is settled once, in order, or is with the write under way, or still waits: none lost, repeated or overtaken |
| `Progress.RateKept` | packages/chord/src/output.ts:304-305 | before any write starts, earlier writes have sent at most 100 KiB/s times the time since the first start |
| `Progress.OneAtATime` | packages/chord/src/output.ts:322-326 | between two write starts lies a write's end |
| `Progress.ChangesAreWritten` | packages/chord/src/output.ts:351-355 | a change is followed by a write that starts after it, or is still unwritten |
| `Progress.NoLostWakeup` | packages/chord/src/output.ts:374-407 | once the environment has done what it owes, late enough for the pause, the change is being written with everyone waiting for it |
| `Progress.Progress.MarkDirty` | packages/chord/src/output.ts:351-355 | marks and schedules as the step does |
| `Progress.Progress.MarkAndWaitFor` | packages/chord/src/output.ts:357-363 | the waiter joins the next write's |
| `Progress.Progress.ScheduleNow` | packages/chord/src/output.ts:374-384 | starts a write, arms the timer, or leaves both to what is under way |
| `Progress.Progress.FlushNow` | packages/chord/src/output.ts:386-391 | a write starts with all waiters, once, unless stopped or clean |
| `Progress.Progress.OnTimer` | packages/chord/src/output.ts:379-383 | an early timer looks at the clock again |
| `Progress.Progress.OnWritten` | packages/chord/src/output.ts:391-402 | the pause follows from the start and the written size, or from the minimum after a failure |
| `Progress.Progress.OnCleared` | packages/chord/src/output.ts:403-406 | changes made meanwhile are scheduled |
| `Progress.Progress.BeginStop` | packages/chord/src/output.ts:365-370 | no write starts any more, and the timer is disarmed |
| `Progress.Progress.EndStop` | packages/chord/src/output.ts:370-372 | the waiters left are handed back |
| `Transcript.CurrentToolsMeans` | packages/ai/src/utils/transcript.ts:57-66 | replaying system messages into an insertion-ordered map gives each name once, with the meaning of the messages in order |
| `Transcript.ChangesReach` | packages/ai/src/utils/transcript.ts:149-167 | the added and removed tools turn the one tool set into the other |
| `Transcript.NoChangesMeans` | packages/ai/src/utils/transcript.ts:149-167 | there are no changes exactly when the sets agree |
| `Transcript.DeclaresExactly` | packages/agent/src/agent-loop.ts:333-383 | replaying the committed transcript plus the declared messages gives exactly the executable tools, whatever the pending tool fields said |
| `Transcript.DeclaringKeepsMessages` | packages/agent/src/agent-loop.ts:333-383 | the pending messages keep order and content, and a message is added exactly when the sets differ and nothing pending can carry it |
| `Transcript.InconsistentToolsBreak` | packages/agent/src/agent-loop.ts:333-383 | a tool list that declares one name in two ways makes replay differ from the executable tools |
| `Transcript.DeclaringIsExactIff` | packages/agent/src/agent-loop.ts:333-383 | declaring is exact for every transcript and batch if and only if no name is declared in two ways |
| `AgentEvents.RecordedMeans` | packages/agent/src/agent-loop.ts:173-331 | the phase kept step by step is where the event grammar puts the whole series |
| `AgentEvents.StartsOnce` | packages/agent/src/agent-loop.ts:112-136 | a run in the grammar has one `agent_start`, first |
| `AgentEvents.EndsOnce` | packages/agent/src/agent-loop.ts:299-331 | and one `agent_end`, last |
| `AgentEvents.TurnsAlternate` | packages/agent/src/agent-loop.ts:193-309 | at every point no turn is open or exactly one is |
| `AgentEvents.CallsBalance` | packages/agent/src/agent-loop.ts:487-669 | every started call has ended exactly once, but for those running; so between turns all have |
| `AgentEvents.RunningAmong` | packages/agent/src/agent-loop.ts:520-655 | calls start in the order of the answer, and those running are among the ones that have started |
| `Agent.LivedOrderly` | packages/agent/src/agent.ts:149-185 | over every life of a queue each enqueued message is in exactly one place, delivered, cleared or waiting, and none overtakes another |
| `Agent.PendingMessageQueue.Enqueue` | packages/agent/src/agent.ts:157-159 | a message joins the end |
| `Agent.PendingMessageQueue.Peek` | packages/agent/src/agent.ts:165-169 | a prefix of the queue, empty only when it is, one message at most in one-at-a-time mode |
| `Agent.PendingMessageQueue.Drain` | packages/agent/src/agent.ts:171-175 | what is drained leaves the front, and is all that leaves |
| `Agent.PendingMessageQueue.Clear` | packages/agent/src/agent.ts:177-179 | nothing waits any more |
| `AgentEvents.ExactIffEndsAlone` | packages/agent/src/agent.ts:588-600 | at every point of a series of events the pending ids are those of the running calls, exactly when no call of it ends while another with its id runs |
| `AgentEvents.ExactIffNeverTwice` | packages/agent/src/agent.ts:588-600 | so in a series whose calls have all ended, exactly when no call starts while another with its id runs |
| `AgentEvents.TidyNeverTwice` | packages/agent/src/agent.ts:588-600 | which holds wherever no answer calls twice with one id |
| `AgentEvents.TwiceForgets` | packages/agent/src/agent.ts:588-600 | any answer with two calls of one id, started side by side: when the first has ended the second still runs and is not pending |
| `Agent.Agent.PendingExactly` | packages/agent/src/agent.ts:588-600 | the pending ids an agent keeps are those of its running calls, where no answer calls twice with one id |
| `Agent.Agent.ProcessEvent` | packages/agent/src/agent.ts:572-620 | the transcript grows by exactly the completed messages, the streaming message is the open one, and the state stays what the events say |
| `Agent.Agent.Grammatical` | packages/agent/src/agent.ts:572-620 | the recorded state is that of all events: the transcript is the one before and the completed messages, and every pending id is that of a running call |
| `AgentTools.StreamAssistantResponse` | packages/agent/src/agent-loop.ts:389-478 | the answer takes the place of its partial forms in the context, and is bracketed by its events |
| `AgentTools.FailTruncated` | packages/agent/src/agent-loop.ts:480-512 | every call of a truncated answer is reported as an error in order, and none executes |
| `AgentTools.ExecuteOne` | packages/agent/src/agent-loop.ts:556-588 | one call from start to result: its final comes from its own script, its tool executes exactly when it is prepared |
| `AgentTools.ExecuteSequential` | packages/agent/src/agent-loop.ts:539-593 | results answer the calls in order, cut off only by an abort; the executed calls are the prepared ones; the batch terminates when all finals ask for it |
| `AgentTools.PrepareAll` | packages/agent/src/agent-loop.ts:603-652 | calls are prepared in order, those not ready are settled at once, an abort leaves the rest alone |
| `AgentTools.StartAll` | packages/agent/src/agent-loop.ts:626-655 | waiting calls start in order unless the run is aborted, and none waits any more |
| `AgentTools.Interleave` | packages/agent/src/agent-loop.ts:626-655 | calls report and complete in any order; each completion ends its own call once |
| `AgentTools.ReportAll` | packages/agent/src/agent-loop.ts:657-669 | results are reported in the order of the calls |
| `AgentTools.ExecuteParallel` | packages/agent/src/agent-loop.ts:595-669 | for every interleaving and abort point, results are a prefix of the calls in source order, all of them without an abort, with the same contents; it finishes when every call completes |
| `AgentLedger.PolledIsSound` | packages/agent/src/agent-loop.ts:211-216 | a turn takes one batch from each queue at most, and one message in one-at-a-time mode |
| `AgentLedger.PolledAccounts` | packages/agent/src/agent-loop.ts:305-318 | what a poll delivered is accounted for, in order |
| `AgentLedger.CommitDeclares` | packages/agent/src/agent-loop.ts:220-227 | before each request, replaying the transcript just committed declares exactly what can be executed |
| `AgentLedger.ClosedIsSound` | packages/agent/src/agent-loop.ts:268-297 | a finished turn keeps its calls and results in order, and a truncated or broken answer executes nothing |
| `AgentLedger.DeliveredIsSaid` | packages/agent/src/agent-loop.ts:211-227 | everything taken from a queue occurs in the run's messages, in the order it was taken |
| `AgentRun.StepKeeps` | packages/agent/src/agent-loop.ts:173-331 | every step of a run keeps its accounts: events, the loop's list and the ledger agree, the context is the transcript until a hook replaces it, and messages from queues are conserved |
| `AgentRun.RunKeeps` | packages/agent/src/agent-loop.ts:173-331 | so every run does, at every point, whatever users, hooks, answers and tools do |
| `AgentLoop.Run.PollSteering` | packages/agent/src/agent.ts:473-509 | the first poll of a run begun with steering messages finds none; later ones drain the queue, and only an empty queue delivers nothing |
| `AgentLoop.Run.Submit` | packages/agent/src/agent-loop.ts:220-227 | supplied and pending messages join transcript, context and list with their tool changes declared, and nothing stays pending |
| `AgentLoop.Run.ExecuteCalls` | packages/agent/src/agent-loop.ts:517-533 | truncated, sequential and parallel batches: results come from the calls' own scripts and answer them in order |
| `AgentLoop.Run.Respond` | packages/agent/src/agent-loop.ts:251-297 | one request adds its answer and results to context, list and ledger, and asks for more unless its calls all terminate |
| `AgentLoop.Run.PrepareTurn` | packages/agent/src/agent-loop.ts:195-218 | a later turn is prepared by hooks, and the steering queue is looked at again exactly when nothing is pending |
| `AgentLoop.Run.EndTurn` | packages/agent/src/agent-loop.ts:255-308 | an error, an abort or a hook ends the run; otherwise steering messages come first, and an explicit continuation counts only without other work |
| `AgentLoop.Run.RunTurn` | packages/agent/src/agent-loop.ts:193-309 | the steps of a turn, in their order, and what the next one is decided by |
| `AgentLoop.Run.RunTurns` | packages/agent/src/agent-loop.ts:190-309 | turns go on while calls or steering messages ask for them, and leave the steering queue empty |
| `AgentLoop.Run.RunLoop` | packages/agent/src/agent-loop.ts:183-331 | a run that ends by itself leaves no follow-up waiting and no steering sent before its last look |
| `AgentLoop.Run.Continue` | packages/agent/src/agent.ts:393-420 | a run goes on from the transcript unless there is nothing to go on from; after an assistant message it begins with what waits for steering, and with follow-ups only when nothing does |
| `AgentLoop.RunAgent` | packages/agent/src/agent-loop.ts:112-331 | over whole runs: events in the grammar, transcript = old one + completed messages, queues conserved and in order; the run begins with its prompts and plays the script in order, and falls short of an end only when the script is used up or a call never completes; a finished run ends with `agent_end` of exactly those messages, which are the ledger's, with every delivered message among them |
| `Delta.ApplyConcat` | packages/chord/src/delta/index.ts:344-420 | applying operations in two parts is applying them all |
| `Delta.LeafEditsCommute` | packages/chord/src/delta/pending.ts:42-50 | leaf writes at different places commute once the later one has a leaf to change |
| `Delta.LeafPasses` | packages/chord/src/delta/pending.ts:42-50 | a leaf operation passes any series of leaf operations on other paths that succeeds, including writes over its ancestors |
| `PendingOps.MergeReplays` | packages/chord/src/delta/pending.ts:138-173 | a merged operation in the earlier place replays as the two did over what lies between |
| `PendingOps.FoldOneFolds` | packages/chord/src/delta/pending.ts:107-134 | folding in one more operation keeps the meaning of all pending ones |
| `PendingOps.PushedHolds` | packages/chord/src/delta/pending.ts:54-80 | pushing a batch keeps the meaning of everything pending, in every state of the queue |
| `PendingOps.PendingOps.Push` | packages/chord/src/delta/pending.ts:54-80 | the queue's state after a batch is the specified one |
| `PendingOps.PendingOps.Fold` | packages/chord/src/delta/pending.ts:107-134 | the loop folds operation by operation, and gives up past the limit |
| `PendingOps.PendingOps.Take` | packages/chord/src/delta/pending.ts:92-105 | everything pending is handed over once |
| `PendingOps.PushAll` | packages/chord/src/delta/pending.ts:41-51 | whatever batches came, what is taken replays to the value they lead to; the whole value is asked for only past the limit |
| `WatchLifecycle.TerminateKeeps` | packages/chord/src/watch.ts:248-266 | a watch detaches once and settles once, in this order |
| `WatchLifecycle.EndAfterDeliveryKeeps` | packages/chord/src/watch.ts:175-185 | a watch whose source ended ends at once only with nothing pending and no call running |
| `WatchLifecycle.DeliverKeeps` | packages/chord/src/watch.ts:215-246 | a drain makes its call exactly when there is one to make, and otherwise lets the end of the source take effect |
| `WatchLifecycle.MicrotaskKeeps` | packages/chord/src/watch.ts:206-221 | a scheduled drain keeps calls one at a time and pending calls on their way |
| `WatchLifecycle.ReturnKeeps` | packages/chord/src/watch.ts:231-246 | so does the return of a call; a throw is reported and ends the watch |
| `WatchLifecycle.WatchLifecycle.TerminateWith` | packages/chord/src/watch.ts:248-266 | only the first end counts |
| `WatchLifecycle.WatchLifecycle.Drain` | packages/chord/src/watch.ts:219-246 | one stretch of the drain loop, up to the next call |
| `Watch.NextCallApplies` | packages/chord/src/watch.ts:348-381 | the next value call's operations turn the listener's value into the newest one, folded, overflowed or alone |
| `Watch.StepKeeps` | packages/chord/src/watch.ts:286-392 | every step of source, user and listener keeps the listener's replay at the watch's value |
| `Watch.RunKeeps` | packages/chord/src/watch.ts:286-392 | over every run of a watch from its start: replaying all calls gives each call's value and the value shown, each retirement is reported by the next value call and no other, calls never overlap, pending calls are on their way; with nothing pending the listener has the source's value |
| `Watch.EndsDelivered` | packages/chord/src/watch.ts:175-185 | a watch that ends because its source has ended has given everything first |
| `Watch.Watch.Advance` | packages/chord/src/watch.ts:303-323 | a value frame is queued, folded, or kept as the only one, as the step says |
| `Watch.Watch.Fail` | packages/chord/src/watch.ts:325-342 | a failure drops what is pending and makes the next value a replacement |
| `Watch.Watch.Take` | packages/chord/src/watch.ts:348-381 | the next call is taken and nothing else lost |
| `Watch.Watch.OnMicrotask` | packages/chord/src/watch.ts:206-234 | the drain's first call and its frame's context |
| `Watch.Watch.OnReturn` | packages/chord/src/watch.ts:219-246 | the drain's next call and its frame's context |
| `Watch.Watch.SourceEnds` | packages/chord/src/watch.ts:175-185 | the source's end as the step says |
| `NativeWatch.TakenEntries` | packages/chord/src/watch.ts:457-482 | moving the read index, or dropping the taken part, leaves the queue without its first entry |
| `NativeWatch.NativeWatch.Queue` | packages/chord/src/watch.ts:424-437 | the array stands for the queue with one entry more, or for the replacement alone when it is full |
| `NativeWatch.NativeWatch.Take` | packages/chord/src/watch.ts:457-482 | the first value is taken by clearing, emptying or compacting, and the array stays below four hundred slots |
| `NativeWatch.StepKeeps` | packages/chord/src/watch.ts:397-491 | every step keeps values in order and each at most once |
| `NativeWatch.RunKeeps` | packages/chord/src/watch.ts:397-491 | over every run: values given are in order, equal to those that came unless some were dropped, and the newest is shown once all are given and the source names no other |
| `NativeWatch.EndsDelivered` | packages/chord/src/watch.ts:175-185 | a native watch ended by its source has given everything pending |
| `NativeWatch.NativeWatch.OnMicrotask` | packages/chord/src/watch.ts:206-234 | the drain over the array makes the queue's next call, with its context |
| `NativeWatch.NativeWatch.OnReturn` | packages/chord/src/watch.ts:219-246 | and goes on with the one after |
| `ModelPublication.StepKeeps` | packages/ai/src/models.ts:498-543 | every step of users, refreshes and the store keeps publications apart and the catalog current |
| `ModelPublication.RunKeeps` | packages/ai/src/models.ts:498-543 | over every run: bodies never overlap, mutations start and updates run only for the newest generation, and updates only for the provider object in place; an object has its last update in memory, and nothing when it is new; an update runs once, and a publisher told true was published |
| `ModelPublication.GenerationsGrow` | packages/ai/src/models.ts:498-543 | store mutations and updates happen in the order of their generations |
| `ModelPublication.BeginsInOrder` | packages/ai/src/models.ts:522-524 | a publication begins when all earlier ones are settled, even where the chain was cut off |
| `ModelPublication.ProviderModels.SupersedeProviderRefresh` | packages/ai/src/models.ts:498-507 | a new generation, and the abort of the refresh still registered |
| `ModelPublication.ProviderModels.SetProvider` | packages/ai/src/models.ts:417-420 | another provider object takes the place of the one before, and refreshes of that one are superseded |
| `ModelPublication.PlaceKeeps` | packages/ai/src/models.ts:417-432 | setting or deleting a provider keeps all of this: no refresh of the newest generation is left, so none can update a replaced object |
| `ModelPublication.ProviderModels.PublishProviderModels` | packages/ai/src/models.ts:516-543 | a publication queues behind the last one, and is turned away under an aborted signal |
| `ModelPublication.ProviderModels.OnPreviousSettled` | packages/ai/src/models.ts:523-532 | the first check: a stale publication touches neither store nor memory |
| `ModelPublication.ProviderModels.OnStoreSettled` | packages/ai/src/models.ts:527-536 | the second check: the update runs only if the refresh is still the newest |
| `ModelOverlay.CurrentModels` | packages/ai/src/models.ts:1107-1115 | the loop builds the overlay |
| `ModelOverlay.OverlaidFinds` | packages/ai/src/models.ts:1107-1115 | a fetched model takes the place of the fixed one of its type and id, and of several the last counts |
| `ModelOverlay.OverlaidKeeps` | packages/ai/src/models.ts:1107-1115 | fixed models keep their places, and no key comes up twice that did not |
| `DecimalKeys.FrameKeyRoundTrip` | apps/remote/src/room.ts:34-36 | a key gives its number back, however many digits |
| `DecimalKeys.KeysOrdered` | apps/remote/src/room.ts:34-36 | below 10^14 keys are ordered as their numbers |
| `DecimalKeys.KeysOrderedIff` | apps/remote/src/room.ts:34-36 | keys up to a number are in numeric order exactly when it is below 10^14 |
| `Room.RemoteRoom.OnHostFrame` | apps/remote/src/room.ts:159-192 | stored keys stay a contiguous range up to `seq`, `bytes` their total, the oldest a snapshot unless it is frame 1; viewers get the stamped frame, or a stream frame as it came, which only takes its slot |
| `Room.RemoteRoom.OnHostGone` | apps/remote/src/room.ts:109-123 | when the last host goes the log stays, and the stream frame and the busy mark go |
| `Room.RemoteRoom.Replay` | apps/remote/src/room.ts:208-221 | what is sent is the history after the resume point, or all that is held when that lies before the last snapshot; then the stream frame in the slot, and last whether a host is there |
| `Room.ReplayReaches` | apps/remote/src/room.ts:208-221 | compaction is invisible: for every way viewers apply frames in which snapshots replace, a resuming viewer reaches the state of the full history |
| `Room.Resume` | apps/remote/src/room.ts:109-221 | the same for any series of frames and departures of hosts, any resume point and any such way of applying frames; the slot sent after it holds the last frame if that was a stream frame |
| `JsonCopy.UnfoldingUnique` | packages/chord/src/json.ts:35-85 | a value unfolds to one tree at most |
| `JsonCopy.UnfoldsIffAvoiding` | packages/chord/src/json.ts:35-44 | refusing to come back to the path loses no finite unfolding: only cycles are rejected |
| `JsonCopy.Walk.Copy` | packages/chord/src/json.ts:35-85 | terminates, restores the on-path set on every exit, and copies exactly when there is an unfolding off the path |
| `JsonCopy.Walk.CopyItems` | packages/chord/src/json.ts:45-60 | dense plain arrays of data slots, item by item into the slots of a new array |
| `JsonCopy.Walk.CopyFields` | packages/chord/src/json.ts:61-80 | plain objects of enumerable data properties in order, each defined on a new object, undefined ones left out when asked |
| `JsonCopy.Walk.Check` | packages/chord/src/json.ts:98-135 | terminates, restores the on-path set, and accepts exactly what unfolds off the path |
| `JsonCopy.CopyJson` | packages/chord/src/json.ts:30-85 | the copy consists of new arrays and objects alone, a different one for every place of the tree the input unfolds to, and unfolds to that tree; it fails exactly for cycles and for anything not strict JSON |
| `JsonCopy.NumberedUnfolds` | packages/chord/src/json.ts:30-91 | objects numbered depth first, each place its own, unfold to the tree they were made for |
| `JsonCopy.NumberedKept` | packages/chord/src/json.ts:87-91 | filling in other objects leaves the finished parts of a copy as they are |
| `JsonCopy.IsJsonValue` | packages/chord/src/json.ts:93-135 | true exactly for what has a finite unfolding, so exactly for what copies without options |
| `Proxy.DecodeConcat` | packages/agent/src/proxy.ts:176-217 | decoding, the byte-order mark included, does not depend on chunks |
| `Proxy.SplitConcat` | packages/agent/src/proxy.ts:202-208 | lines continue across chunks: the unfinished one is completed by what arrives |
| `Proxy.ThrownDecides` | packages/agent/src/proxy.ts:206-208 | once a line throws, what would arrive after it does not matter |
| `Proxy.ProxyStream.OnProxyEvent` | packages/agent/src/proxy.ts:260-397 | one event as its step, with usage, thinking level and the further fields of a finished call; deltas and ends of another kind throw and change nothing |
| `Proxy.OwnPartAlone` | packages/agent/src/proxy.ts:260-397 | an event changes its own block and arguments alone, by what these were, and only an ending changes how the message stops |
| `Proxy.PartsApart` | packages/agent/src/proxy.ts:260-397 | so after any events a block and its arguments are what the events about them make of them |
| `Proxy.ProxyStream.ReadBody` | packages/agent/src/proxy.ts:194-220 | the read loop comes to what the lines of the whole text come to |
| `Proxy.StreamProxy` | packages/agent/src/proxy.ts:143-252 | every run sends one terminal event, its last; and what a run sends and builds, aborted or not, depends on the bytes it reads alone, not on the chunks |
| `Proxy.BlocksAreDeltas` | packages/agent/src/proxy.ts:260-367 | a text or thinking block is the concatenation of its index's deltas under any interleaving, and an open call shows the arguments read of its deltas |
| `Proxy.RunBlocksAreDeltas` | packages/agent/src/proxy.ts:194-367 | so it is in every run, for the deltas on the lines processed |
| `Proxy.AnnouncedStaysIff` | packages/agent/src/proxy.ts:180-252 | after its terminal event a message, usage and thinking level included, stays as announced exactly when every later line leaves it, and neither a line nor the end of reading throws what it does not already show; in any case nothing more is sent |
| `Proxy.AnnouncedFinallyIff` | packages/agent/src/proxy.ts:180-252 | in the end it is the announced one exactly when the lines before the first that throws restore each block they are about, and the message stops the same way |
| `Proxy.LaterThrowOverwrites` | packages/agent/src/proxy.ts:236-246 | a `done` line and one that cannot be parsed: the consumer was told of a stopped message, which is now a failed one |
| `Proxy.SecondEndOverwrites` | packages/agent/src/proxy.ts:374-388 | two `done` lines with different usage: the consumer was told of the first, and the message says the second |
| `Proxy.EditsMayCancel` | packages/agent/src/proxy.ts:260-292 | a block that is started again and gets its text back: the message changes after its end, and is the announced one in the end |
| `Catalog.CompareOrdered` | scripts/model-catalog-protocol.ts:206-257 | a version is equal only to itself, and comparing turned round is the reverse, where no two numbers are read as the same finite one |
| `Catalog.CompareTransitive` | scripts/model-catalog-protocol.ts:206-257 | and there the comparison is transitive |
| `Catalog.TransitiveIff` | scripts/model-catalog-protocol.ts:206-257 | not being above is transitive over some identifiers exactly when no two numbers among them are read as the same finite number |
| `Catalog.TotalOrderIff` | scripts/model-catalog-protocol.ts:206-257 | the comparison is a partial order over them exactly then, and a total one exactly when no two are read as infinity either |
| `Catalog.ReadAlikeBreaks` | scripts/model-catalog-protocol.ts:206-257 | any two identifiers read as one finite number make three versions of which the first is not above the second, nor the second above the third, but the first above the third |
| `Catalog.SpellingsBreak` | scripts/model-catalog-protocol.ts:206-257 | two spellings of one number up to 2^53 break transitivity |
| `Catalog.RoundingBreaks` | scripts/model-catalog-protocol.ts:206-257 | and so do two numbers without leading zeros that are read alike |
| `Catalog.CanonicalDistinguished` | scripts/model-catalog-protocol.ts:206-257 | numbers up to 2^53 without leading zeros (items 9 and 11 of Semantic Versioning 2.0.0) meet the condition for a total order |
| `Catalog.LeadingZerosBreak` | scripts/model-catalog-protocol.ts:206-257 | with leading zeros equality is not transitive |
| `Catalog.SelectModelCatalog` | scripts/model-catalog-protocol.ts:129-155 | the default revision without a version, nothing for an unreadable one, and otherwise what the loop selects |
| `Catalog.SelectsGreatest` | scripts/model-catalog-protocol.ts:124-155 | the first entry of the greatest minimum not above the request; none only when none suits |
| `Catalog.SelectsMonotonically` | scripts/model-catalog-protocol.ts:124-155 | a newer client never gets a smaller minimum |

## Left out

- `sanitizeOutput` and its escape expressions: a parameter of the buffer, applied to the kept text last.
- Strings with lone surrogates: text is made of Unicode scalar values, so a chunk never splits a surrogate pair.
- Progress.RunsAreLawful: `write` neither throws nor marks synchronously before it returns its promise.
- Exceptions of listeners and hooks in the agent run, with the run failure they lead to: their contracts forbid them.
- AgentLoop.RunAgent: one run at a time; the guard against a second one, timestamps, telemetry, and the model and thinking level hooks may choose do not affect the events or messages modelled.
- AgentLoop.RunAgent: a stream opens at most one partial message (`WellBehaved`); one that opened two would leave two in the context and in the events.
- AgentTools.FailTruncated: the text of the error is shortened; that it is an error for each call is kept.
- Argument preparation, validation and the wrapping of tool results: each call's script says whether they fail.
- Delta.ApplyConcat: objects are maps, so the order of their keys, and numbers used as keys of objects, are not modelled; nor are the trackers that make operations, or structural sharing.
- Watch.RunKeeps: contexts are numbers; removing their abort signal and turning thrown values into errors are left out.
- Resolution of credentials, `fetchModels` and the phases of a refresh: any refresh that has begun may publish anything at any time.
- ModelPublication.RunKeeps: one provider's entries; the tables are keyed by provider and one provider's steps leave the others alone.
- Room.RemoteRoom.OnHostFrame: nothing is claimed of stored keys from frame 10^14 on; sockets, accounts, alarms and D1 are left out, and the encoded length of a frame is a given number.
- Room.ReplayReaches: a viewer that asks for more than was ever logged, say of a room deleted meanwhile, is not considered.
- JsonCopy.CopyJson: proxies, which could change objects during the walk, are left out.
- Proxy.StreamProxy: trimming and `JSON.parse`, and the best-effort parse of streamed arguments, are parameters; of a message the model, API, time and measured duration are left out, none of which changes once it has ended.
- Catalog.CompareOrdered: parsing a version with its expression is left out, how `Number` reads an identifier is a parameter that is exact up to 2^53, and `localeCompare` is any total order.
- Provider HTTP, WebSockets, windows, build scripts, schemas, user interfaces: input and output, or data.
