/** Messages of an agent transcript, the tools they declare, and how the loop declares a changed tool set. */
module Transcript {
  /** What the model is told about a tool. Two declarations are the same when they serialize alike. */
  datatype Declaration = Declaration(name: string, schema: string)
  datatype Tool = Tool(declaration: Declaration, sequential: bool)
  datatype ToolCall = ToolCall(id: string, name: string, arguments: string)
  datatype StopReason = Pending | Stop | Length | ToolUse | Error | Aborted

  datatype Message =
    | System(text: string, added: seq<Declaration>, removed: seq<string>)
    | User(text: string)
    | Assistant(text: string, calls: seq<ToolCall>, stop: StopReason)
    | ToolResult(callId: string, toolName: string, content: string, isError: bool)
    | Custom(text: string)

  datatype Context = Context(messages: seq<Message>, tools: seq<Tool>)

  // ---- Tool sets ----

  /** A JavaScript `Map` from names to declarations: its values in insertion order, each name once. */
  type ToolMap = seq<Declaration>
  type ToolSet = map<string, Declaration>

  /** What a list of declarations means, by name: the last one of each. */
  function Last(ds: seq<Declaration>): ToolSet {
    if ds == [] then map[] else map[ds[0].name := ds[0]] + Last(ds[1..])
  }

  predicate Distinct(tools: ToolMap) {
    tools == [] || (tools[0].name !in Last(tools[1..]) && Distinct(tools[1..]))
  }

  /** `map.set(d.name, d)`: in place when the name is there, else at the end. */
  function Put(tools: ToolMap, d: Declaration): ToolMap {
    if tools == [] then [d]
    else if tools[0].name == d.name then [d] + tools[1..]
    else [tools[0]] + Put(tools[1..], d)
  }

  /** `map.delete(name)`. */
  function Delete(tools: ToolMap, name: string): ToolMap {
    if tools == [] then []
    else if tools[0].name == name then tools[1..]
    else [tools[0]] + Delete(tools[1..], name)
  }

  function PutAll(tools: ToolMap, added: seq<Declaration>): ToolMap
    decreases added
  {
    if added == [] then tools else PutAll(Put(tools, added[0]), added[1..])
  }

  function DeleteAll(tools: ToolMap, removed: seq<string>): ToolMap
    decreases removed
  {
    if removed == [] then tools else DeleteAll(Delete(tools, removed[0]), removed[1..])
  }

  /** `getCurrentTools`: the tools available after every tool change of a transcript, in order. */
  function CurrentTools(messages: seq<Message>): ToolMap {
    if messages == [] then []
    else
      var before, m := CurrentTools(messages[..|messages| - 1]), messages[|messages| - 1];
      if m.System? then PutAll(DeleteAll(before, m.removed), m.added) else before
  }

  function Names(names: seq<string>): set<string> {
    set n | n in names
  }

  /** The effect of a message on a tool set, by name. */
  function Apply(tools: ToolSet, m: Message): ToolSet {
    if m.System? then (tools - Names(m.removed)) + Last(m.added) else tools
  }

  /** The tools a transcript declares, by name. */
  function Replay(messages: seq<Message>): ToolSet {
    if messages == [] then map[] else Apply(Replay(messages[..|messages| - 1]), messages[|messages| - 1])
  }

  lemma {:induction false} LastHas(ds: seq<Declaration>)
    ensures forall d :: d in ds ==> d.name in Last(ds)
    ensures forall n :: n in Last(ds) ==> Last(ds)[n] in ds && Last(ds)[n].name == n
  {
    if ds != [] {
      LastHas(ds[1..]);
      assert ds == [ds[0]] + ds[1..];
    }
  }

  lemma PutFirst(d: Declaration, rest: seq<Declaration>)
    ensures Last([d] + rest) == map[d.name := d] + Last(rest)
    ensures Distinct([d] + rest) <==> d.name !in Last(rest) && Distinct(rest)
  {
    assert ([d] + rest)[1..] == rest;
  }

  lemma {:induction false} PutMeans(tools: ToolMap, d: Declaration)
    requires Distinct(tools)
    ensures Distinct(Put(tools, d)) && Last(Put(tools, d)) == Last(tools)[d.name := d]
  {
    if tools == [] {
      PutFirst(d, []);
      assert [d] + [] == [d];
    } else if tools[0].name == d.name {
      PutFirst(d, tools[1..]);
    } else {
      var first, rest := tools[0], tools[1..];
      PutMeans(rest, d);
      PutFirst(first, Put(rest, d));
      assert Put(tools, d) == [first] + Put(rest, d);
      assert map[first.name := first] + Last(rest)[d.name := d] == (map[first.name := first] + Last(rest))[d.name := d];
    }
  }

  lemma {:induction false} DeleteMeans(tools: ToolMap, name: string)
    requires Distinct(tools)
    ensures Distinct(Delete(tools, name)) && Last(Delete(tools, name)) == Last(tools) - {name}
  {
    if tools != [] {
      if tools[0].name == name {
        assert Last(tools) - {name} == Last(tools[1..]);
      } else {
        DeleteMeans(tools[1..], name);
        PutFirst(tools[0], Delete(tools[1..], name));
      }
    }
  }

  lemma MergeOne(a: ToolSet, d: Declaration, b: ToolSet)
    ensures a[d.name := d] + b == a + (map[d.name := d] + b)
  {}

  lemma {:induction false} PutAllMeans(tools: ToolMap, added: seq<Declaration>)
    requires Distinct(tools)
    ensures Distinct(PutAll(tools, added)) && Last(PutAll(tools, added)) == Last(tools) + Last(added)
    decreases added
  {
    if added != [] {
      PutMeans(tools, added[0]);
      PutAllMeans(Put(tools, added[0]), added[1..]);
      MergeOne(Last(tools), added[0], Last(added[1..]));
    }
  }

  lemma {:induction false} DeleteAllMeans(tools: ToolMap, removed: seq<string>)
    requires Distinct(tools)
    ensures Distinct(DeleteAll(tools, removed)) && Last(DeleteAll(tools, removed)) == Last(tools) - Names(removed)
    decreases removed
  {
    if removed != [] {
      DeleteMeans(tools, removed[0]);
      DeleteAllMeans(Delete(tools, removed[0]), removed[1..]);
      assert removed == [removed[0]] + removed[1..];
    }
  }

  /** Replaying the ordered map gives the tool set a transcript declares by name. */
  lemma {:induction false} CurrentToolsMeans(messages: seq<Message>)
    ensures Distinct(CurrentTools(messages)) && Last(CurrentTools(messages)) == Replay(messages)
  {
    if messages != [] {
      var before, m := messages[..|messages| - 1], messages[|messages| - 1];
      CurrentToolsMeans(before);
      if m.System? {
        DeleteAllMeans(CurrentTools(before), m.removed);
        PutAllMeans(DeleteAll(CurrentTools(before), m.removed), m.added);
      }
    }
  }

  function Declarations(tools: seq<Tool>): (ds: seq<Declaration>)
    ensures |ds| == |tools| && forall i :: 0 <= i < |ds| ==> ds[i] == tools[i].declaration
  {
    seq(|tools|, i requires 0 <= i < |tools| => tools[i].declaration)
  }

  /** The tools a loop can execute, by name. */
  function Executable(tools: seq<Tool>): ToolSet {
    Last(Declarations(tools))
  }

  // ---- Tool changes ----

  datatype Changes = Changes(added: seq<Declaration>, removed: seq<string>)

  const NO_CHANGES := Changes([], [])

  /** Those of `ds` that `tools` does not have as they are. */
  function Unlike(ds: seq<Declaration>, tools: ToolSet): (r: seq<Declaration>)
    ensures forall d :: d in r <==> d in ds && !(d.name in tools && tools[d.name] == d)
  {
    if ds == [] then []
    else
      assert forall d :: d in ds <==> d == ds[0] || d in ds[1..];
      (if ds[0].name in tools && tools[ds[0].name] == ds[0] then [] else [ds[0]]) + Unlike(ds[1..], tools)
  }

  function NamesOf(ds: seq<Declaration>): (r: seq<string>)
    ensures |r| == |ds| && forall i :: 0 <= i < |r| ==> r[i] == ds[i].name
  {
    seq(|ds|, i requires 0 <= i < |ds| => ds[i].name)
  }

  /** `getToolStateChanges`: a name declared differently is removed and added again. */
  function ToolStateChanges(previous: seq<Declaration>, current: seq<Declaration>): Changes {
    Changes(Unlike(current, Last(previous)), NamesOf(Unlike(previous, Last(current))))
  }

  /** No name is declared in two ways. */
  predicate Consistent(ds: seq<Declaration>) {
    forall i, j :: 0 <= i < j < |ds| && ds[i].name == ds[j].name ==> ds[i] == ds[j]
  }

  function ApplyChanges(tools: ToolSet, c: Changes): ToolSet {
    (tools - Names(c.removed)) + Last(c.added)
  }

  lemma NothingApplied(tools: ToolSet)
    ensures ApplyChanges(tools, NO_CHANGES) == tools
  {}

  lemma ConsistentLast(ds: seq<Declaration>, d: Declaration)
    requires Consistent(ds) && d in ds
    ensures d.name in Last(ds) && Last(ds)[d.name] == d
  {
    LastHas(ds);
  }

  lemma {:induction false} DistinctIsConsistent(tools: ToolMap)
    requires Distinct(tools)
    ensures Consistent(tools)
  {
    if tools != [] {
      DistinctIsConsistent(tools[1..]);
      LastHas(tools[1..]);
      forall i, j | 0 <= i < j < |tools| ensures tools[i].name != tools[j].name || tools[i] == tools[j] {
        assert tools[j] == tools[1..][j - 1];
        if i > 0 {
          assert tools[i] == tools[1..][i - 1];
        }
      }
    }
  }

  /** The names to remove are those whose declaration is gone or changed. */
  lemma RemovedNames(previous: ToolMap, current: seq<Declaration>, n: string)
    requires Distinct(previous) && n in Last(previous)
    ensures var now := Last(current);
            n in ToolStateChanges(previous, current).removed
            <==> !(n in now && now[n] == Last(previous)[n])
  {
    DistinctIsConsistent(previous);
    LastHas(previous);
    var now := Last(current);
    var stale, removed := Unlike(previous, now), ToolStateChanges(previous, current).removed;
    if n in removed {
      var i :| 0 <= i < |removed| && removed[i] == n;
      assert stale[i] in previous;
      ConsistentLast(previous, stale[i]);
    }
    if !(n in now && now[n] == Last(previous)[n]) {
      var d := Last(previous)[n];
      assert d in stale;
      var i :| 0 <= i < |stale| && stale[i] == d;
      assert removed[i] == n;
    }
  }

  lemma ChangesReachAt(previous: ToolMap, current: seq<Declaration>, n: string)
    requires Distinct(previous) && Consistent(current)
    ensures var after := ApplyChanges(Last(previous), ToolStateChanges(previous, current));
            && (n in after <==> n in Last(current))
            && (n in after ==> after[n] == Last(current)[n])
  {
    var c := ToolStateChanges(previous, current);
    LastHas(current);
    LastHas(c.added);
    if n in Last(previous) {
      RemovedNames(previous, current, n);
    }
    if n in Last(c.added) {
      ConsistentLast(current, Last(c.added)[n]);
    } else if n in Last(current) {
      assert Last(current)[n] !in c.added;
    }
  }

  /** The changes turn the one tool set into the other. */
  lemma ChangesReach(previous: ToolMap, current: seq<Declaration>)
    requires Distinct(previous) && Consistent(current)
    ensures ApplyChanges(Last(previous), ToolStateChanges(previous, current)) == Last(current)
  {
    forall n: string {
      ChangesReachAt(previous, current, n);
    }
    var after := ApplyChanges(Last(previous), ToolStateChanges(previous, current));
    assert forall n :: n in after <==> n in Last(current);
  }

  /** There are no changes exactly when the tool sets agree. */
  lemma NoChangesMeans(previous: ToolMap, current: seq<Declaration>)
    requires Distinct(previous) && Consistent(current)
    ensures ToolStateChanges(previous, current) == NO_CHANGES <==> Last(previous) == Last(current)
  {
    var c := ToolStateChanges(previous, current);
    if Last(previous) == Last(current) {
      if c.added != [] {
        assert c.added[0] in c.added;
        ConsistentLast(current, c.added[0]);
      }
      if c.removed != [] {
        var d := Unlike(previous, Last(current))[0];
        assert d in Unlike(previous, Last(current));
        DistinctIsConsistent(previous);
        ConsistentLast(previous, d);
      }
    } else if c == NO_CHANGES {
      ChangesReach(previous, current);
      NothingApplied(Last(previous));
    }
  }

  // ---- Declaring changes to the model ----

  /** A system message that declares other changes. */
  function WithToolChanges(m: Message, c: Changes): Message
    requires m.System?
  {
    System(m.text, c.added, c.removed)
  }

  /** The last system message of a list. */
  function LastSystem(messages: seq<Message>): (i: int)
    ensures -1 <= i < |messages|
    ensures i >= 0 ==> messages[i].System?
    ensures forall j :: i < j < |messages| ==> !messages[j].System?
  {
    if messages == [] then -1
    else if messages[|messages| - 1].System? then |messages| - 1
    else LastSystem(messages[..|messages| - 1])
  }

  function FirstOther(messages: seq<Message>): (i: nat)
    ensures i <= |messages| && (i < |messages| ==> !messages[i].System?)
    ensures forall j :: 0 <= j < i ==> messages[j].System?
  {
    if messages == [] || !messages[0].System? then 0 else 1 + FirstOther(messages[1..])
  }

  /** The pending messages with the tool fields of their last system message taken as intent and set aside. */
  function Baseline(pending: seq<Message>): seq<Message> {
    var at := LastSystem(pending);
    if at >= 0 then pending[at := WithToolChanges(pending[at], NO_CHANGES)] else pending
  }

  function Missing(context: Context, pending: seq<Message>): Changes {
    ToolStateChanges(CurrentTools(context.messages + Baseline(pending)), Declarations(context.tools))
  }

  /** Before a request, the difference between the tools the transcript declares and those the loop can execute goes
      into the last pending system message, whatever its tool fields said, or else into a new one. */
  function DeclareToolChanges(context: Context, pending: seq<Message>): seq<Message> {
    Carrying(pending, Missing(context, pending))
  }

  /** The pending messages with `changes` declared by them. */
  function Carrying(pending: seq<Message>, changes: Changes): seq<Message> {
    var at := LastSystem(pending);
    var same := |changes.added| == 0 && |changes.removed| == 0;
    if at >= 0 then
      if same && pending[at].added == [] && pending[at].removed == [] then pending
      else Baseline(pending)[at := WithToolChanges(pending[at], changes)]
    else if same then pending
    else
      var index := FirstOther(pending);
      pending[..index] + [WithToolChanges(System("", [], []), changes)] + pending[index..]
  }

  lemma {:induction false} ReplayConcat(a: seq<Message>, b: seq<Message>)
    requires forall m :: m in b ==> !m.System?
    ensures Replay(a + b) == Replay(a)
  {
    if b == [] {
      assert a + b == a;
    } else {
      var c := a + b;
      assert c[..|c| - 1] == a + b[..|b| - 1];
      assert c[|c| - 1] == b[|b| - 1] && c[|c| - 1] in b;
      ReplayConcat(a, b[..|b| - 1]);
    }
  }

  /** Only the last system message matters once what precedes it is fixed. */
  lemma ReplayAt(committed: seq<Message>, pending: seq<Message>, at: nat, m: Message)
    requires at < |pending| && m.System? && (forall j :: at < j < |pending| ==> !pending[j].System?)
    ensures Replay(committed + pending[at := m]) == Apply(Replay(committed + pending[..at]), m)
  {
    var changed := pending[at := m];
    var head := committed + pending[..at] + [m];
    assert committed + changed == head + pending[at + 1..];
    assert forall x :: x in pending[at + 1..] ==> !x.System?;
    ReplayConcat(head, pending[at + 1..]);
    assert head[..|head| - 1] == committed + pending[..at];
  }

  /** The changes make up for what replaying the transcript so far, the set-aside fields left out, is missing. */
  lemma MissingReaches(context: Context, pending: seq<Message>)
    requires Consistent(Declarations(context.tools))
    ensures ApplyChanges(Replay(context.messages + Baseline(pending)), Missing(context, pending))
         == Executable(context.tools)
  {
    CurrentToolsMeans(context.messages + Baseline(pending));
    ChangesReach(CurrentTools(context.messages + Baseline(pending)), Declarations(context.tools));
  }

  lemma InPlace(pending: seq<Message>, at: nat, changes: Changes)
    requires LastSystem(pending) == at
    ensures Baseline(pending)[at := WithToolChanges(pending[at], changes)] == pending[at := WithToolChanges(pending[at], changes)]
    ensures changes == NO_CHANGES && pending[at].added == [] && pending[at].removed == []
            ==> pending[at := WithToolChanges(pending[at], changes)] == pending
  {}

  /** Changes written into the last system message. */
  lemma DeclaresInPlace(context: Context, pending: seq<Message>, at: nat)
    requires Consistent(Declarations(context.tools)) && LastSystem(pending) == at
    ensures Replay(context.messages + DeclareToolChanges(context, pending)) == Executable(context.tools)
  {
    var changes := Missing(context, pending);
    MissingReaches(context, pending);
    InPlace(pending, at, changes);
    ReplayAt(context.messages, pending, at, WithToolChanges(pending[at], NO_CHANGES));
    ReplayAt(context.messages, pending, at, WithToolChanges(pending[at], changes));
    NothingApplied(Replay(context.messages + pending[..at]));
  }

  /** A system message in front of others that are none. */
  lemma ReplayFront(committed: seq<Message>, m: Message, rest: seq<Message>)
    requires m.System? && forall x :: x in rest ==> !x.System?
    ensures Replay(committed + ([m] + rest)) == Apply(Replay(committed), m)
  {
    var head := committed + [m];
    assert committed + ([m] + rest) == head + rest;
    ReplayConcat(head, rest);
    assert head[..|head| - 1] == committed;
  }

  lemma InFront(pending: seq<Message>, changes: Changes)
    requires LastSystem(pending) == -1
    ensures FirstOther(pending) == 0 && Baseline(pending) == pending && forall x :: x in pending ==> !x.System?
    ensures Carrying(pending, changes) ==
            if changes == NO_CHANGES then pending else [WithToolChanges(System("", [], []), changes)] + pending
  {
    assert pending[..0] == [] && pending[0..] == pending;
  }

  /** Changes written into a new system message. */
  lemma DeclaresInFront(context: Context, pending: seq<Message>)
    requires Consistent(Declarations(context.tools)) && LastSystem(pending) == -1
    ensures Replay(context.messages + DeclareToolChanges(context, pending)) == Executable(context.tools)
  {
    var changes := Missing(context, pending);
    MissingReaches(context, pending);
    InFront(pending, changes);
    ReplayConcat(context.messages, pending);
    if changes == NO_CHANGES {
      NothingApplied(Replay(context.messages));
    } else {
      ReplayFront(context.messages, WithToolChanges(System("", [], []), changes), pending);
    }
  }

  /** After declaring, replaying the transcript with its new messages gives exactly what the loop can execute. */
  lemma DeclaresExactly(context: Context, pending: seq<Message>)
    requires Consistent(Declarations(context.tools))
    ensures Replay(context.messages + DeclareToolChanges(context, pending)) == Executable(context.tools)
  {
    if LastSystem(pending) >= 0 {
      DeclaresInPlace(context, pending, LastSystem(pending));
    } else {
      DeclaresInFront(context, pending);
    }
  }

  /** Of two declarations of one name, one is not what the list means, so it counts as missing. */
  lemma InconsistentlyMissing(ds: seq<Declaration>)
    requires !Consistent(ds)
    ensures Unlike(ds, Last(ds)) != []
  {
    var i, j :| 0 <= i < j < |ds| && ds[i].name == ds[j].name && ds[i] != ds[j];
    LastHas(ds);
    assert ds[i] in ds && ds[j] in ds;
    assert ds[i] in Unlike(ds, Last(ds)) || ds[j] in Unlike(ds, Last(ds));
  }

  /** Adding it again puts it in the place of what the list means. */
  lemma AddingUnlikeChanges(tools: ToolSet, ds: seq<Declaration>, removed: seq<string>)
    requires Unlike(ds, tools) != []
    ensures ApplyChanges(tools, Changes(Unlike(ds, tools), removed)) != tools
  {
    var added := Unlike(ds, tools);
    LastHas(added);
    assert added[0] in added;
    var n := added[0].name;
    assert Last(added)[n] in added;
  }

  /** With nothing else pending, declaring just adds the missing changes. */
  lemma DeclaresAlone(context: Context)
    requires Missing(context, []) != NO_CHANGES
    ensures Replay(context.messages + DeclareToolChanges(context, []))
         == ApplyChanges(Replay(context.messages), Missing(context, []))
  {
    var update := WithToolChanges(System("", [], []), Missing(context, []));
    InFront([], Missing(context, []));
    ReplayFront(context.messages, update, []);
  }

  /** A tool list that declares one name in two ways breaks that: when the transcript already declares what the list
      means, the other declaration is added again and takes its place. */
  lemma InconsistentToolsBreak(context: Context)
    requires !Consistent(Declarations(context.tools)) && Replay(context.messages) == Executable(context.tools)
    ensures Replay(context.messages + DeclareToolChanges(context, [])) != Executable(context.tools)
  {
    var ds := Declarations(context.tools);
    assert Baseline([]) == [] && context.messages + [] == context.messages;
    CurrentToolsMeans(context.messages);
    InconsistentlyMissing(ds);
    AddingUnlikeChanges(Last(ds), ds, Missing(context, []).removed);
    DeclaresAlone(context);
  }

  lemma DeclaredAtOnce(ds: seq<Declaration>)
    ensures Replay([System("", ds, [])]) == Last(ds)
  {
    assert [System("", ds, [])][..0] == [];
  }

  /** So declaring is exact for every transcript and every pending batch if and only if no name is declared in two ways. */
  lemma DeclaringIsExactIff(tools: seq<Tool>)
    ensures Consistent(Declarations(tools)) <==>
            forall messages: seq<Message>, pending: seq<Message> ::
              Replay(messages + DeclareToolChanges(Context(messages, tools), pending)) == Executable(tools)
  {
    if Consistent(Declarations(tools)) {
      forall messages: seq<Message>, pending: seq<Message>
        ensures Replay(messages + DeclareToolChanges(Context(messages, tools), pending)) == Executable(tools)
      {
        DeclaresExactly(Context(messages, tools), pending);
      }
    } else {
      DeclaredAtOnce(Declarations(tools));
      InconsistentToolsBreak(Context([System("", Declarations(tools), [])], tools));
    }
  }

  /** A message without its tool changes. */
  function Plain(m: Message): Message {
    if m.System? then m.(added := [], removed := []) else m
  }

  predicate SystemFree(messages: seq<Message>) {
    forall m :: m in messages ==> !m.System?
  }

  /** Every pending message kept in its place, all but the last system message unchanged; or one system message added in
      front of messages none of which could carry tool changes. */
  predicate KeepsMessages(r: seq<Message>, pending: seq<Message>) {
    || (|r| == |pending| && forall i :: 0 <= i < |r| ==>
          Plain(r[i]) == Plain(pending[i]) && (i != LastSystem(pending) ==> r[i] == pending[i]))
    || (SystemFree(pending) && r != [] && r[0].System? && r[0].text == "" && r[1..] == pending)
  }

  lemma CarryingKeepsMessages(pending: seq<Message>, changes: Changes)
    ensures KeepsMessages(Carrying(pending, changes), pending)
  {
    if LastSystem(pending) < 0 {
      assert FirstOther(pending) == 0 && pending[0..] == pending;
    }
  }

  /** Declaring keeps the pending messages; to messages none of which can carry a difference it adds one exactly when
      there is one. */
  lemma DeclaringKeepsMessages(context: Context, pending: seq<Message>)
    ensures KeepsMessages(DeclareToolChanges(context, pending), pending)
    ensures Consistent(Declarations(context.tools)) && SystemFree(pending) ==>
              (DeclareToolChanges(context, pending) == pending
               <==> Replay(context.messages + pending) == Executable(context.tools))
  {
    CarryingKeepsMessages(pending, Missing(context, pending));
    if Consistent(Declarations(context.tools)) && SystemFree(pending) {
      assert LastSystem(pending) == -1;
      CurrentToolsMeans(context.messages + pending);
      NoChangesMeans(CurrentTools(context.messages + pending), Declarations(context.tools));
    }
  }

  /** Counted from the end, each pending message is still where it was. */
  lemma CarriedAt(pending: seq<Message>, changes: Changes, i: nat)
    requires i < |pending|
    ensures var r := Carrying(pending, changes);
            |pending| <= |r| && Plain(r[|r| - |pending| + i]) == Plain(pending[i])
  {
    CarryingKeepsMessages(pending, changes);
    var r := Carrying(pending, changes);
    if |r| != |pending| {
      assert r[1..][i] == r[|r| - |pending| + i];
    }
  }

  lemma DeclaredAt(context: Context, pending: seq<Message>, i: nat)
    requires i < |pending|
    ensures var r := DeclareToolChanges(context, pending);
            |pending| <= |r| && Plain(r[|r| - |pending| + i]) == Plain(pending[i])
  {
    CarriedAt(pending, Missing(context, pending), i);
  }
}
