/** Operations on their way to a consumer that is not ready for them: the longer they wait, the fewer they become. */
module PendingOps {
  import opened Options
  import opened Delta

  const MAX_PENDING_OPS := 10_000

  /** Operations as folded so far, with the position of the last leaf operation on each path. */
  datatype Folded = Folded(ops: seq<Op>, leaves: map<NonEmptyPath, nat>)

  datatype State = Empty | Batch(ops: seq<Op>) | Folding(folded: Folded) | Overflow

  datatype Taken = Ops(ops: seq<Op>) | ReplaceAll

  // ---- Folding ----

  /** One leaf operation for two on the same path, if there is one. */
  function Merge(previous: Op, next: Op): Option<Op>
    requires IsLeaf(previous) && IsLeaf(next)
  {
    if next.Set? then Some(next)
    else if previous.Append? then Some(Append(previous.at, previous.text + next.text))
    else if previous.value.Str? then Some(Set(previous.at, Str(previous.value.s + next.text)))
    else None
  }

  /** A leaf operation on a path, after which come only leaf operations on other paths. */
  predicate LastLeaf(ops: seq<Op>, at: nat, path: NonEmptyPath) {
    && at < |ops| && IsLeaf(ops[at]) && ops[at].at == path
    && forall i :: at < i < |ops| ==> IsLeaf(ops[i]) && ops[i].at != path
  }

  predicate Indexed(f: Folded) {
    forall path :: path in f.leaves ==> LastLeaf(f.ops, f.leaves[path], path)
  }

  /** The operation a leaf operation merges into, and where. */
  function Merged(f: Folded, op: Op): Option<Op>
    requires Indexed(f) && IsLeaf(op)
  {
    if op.at in f.leaves then Merge(f.ops[f.leaves[op.at]], op) else None
  }

  function FoldOne(f: Folded, op: Op): Folded
    requires Indexed(f)
  {
    if op.Replace? then Folded([op], map[])
    else if !IsLeaf(op) then Folded(f.ops + [op], map[])
    else
      match Merged(f, op)
      case Some(merged) => f.(ops := f.ops[f.leaves[op.at] := merged])
      case None => Folded(f.ops + [op], f.leaves[op.at := |f.ops|])
  }

  /** The folded operations replay to what all of them do. */
  ghost predicate Folds(all: seq<Op>, ops: seq<Op>) {
    forall v :: ApplyAll(v, all).Some? ==> ApplyAll(v, ops) == ApplyAll(v, all)
  }

  lemma MergeFuses(x: Op, y: Op)
    requires IsLeaf(x) && IsLeaf(y) && x.at == y.at && Merge(x, y).Some?
    ensures IsLeaf(Merge(x, y).value) && Merge(x, y).value.at == x.at
    ensures Fuse(EditOf(x), EditOf(y), EditOf(Merge(x, y).value))
  {
    if y.Append? {
      var s := if x.Append? then x.text else x.value.s;
      forall t: string ensures t + (s + y.text) == t + s + y.text {}
    }
  }

  /** A later leaf operation merged into an earlier one over leaf operations elsewhere. */
  lemma MergeReplays(v: Json, x: Op, others: seq<Op>, y: Op)
    requires IsLeaf(x) && IsLeaf(y) && x.at == y.at && Merge(x, y).Some? && AllLeavesElsewhere(others, x.at)
    requires ApplyAll(v, [x] + others + [y]).Some?
    ensures ApplyAll(v, [Merge(x, y).value] + others) == ApplyAll(v, [x] + others + [y])
  {
    var m := Merge(x, y).value;
    assert [x] + others + [y] == [x] + (others + [y]);
    ApplyConcat(v, [x], others + [y]);
    ApplyOne(v, x);
    var w := Apply(v, x).value;
    LeafEditLeaves(Some(v), x.at, EditOf(x));
    LeafPasses(w, others, y);
    ApplyConcat(w, [y], others);
    ApplyOne(w, y);
    MergeFuses(x, y);
    FusedEdits(Some(v), x.at, EditOf(x), EditOf(y), EditOf(m));
    ApplyConcat(v, [m], others);
    ApplyOne(v, m);
  }

  lemma FoldOneIndexed(f: Folded, op: Op)
    requires Indexed(f)
    ensures Indexed(FoldOne(f, op)) && |FoldOne(f, op).ops| <= |f.ops| + 1
  {
    if IsLeaf(op) && Merged(f, op).Some? {
      MergeFuses(f.ops[f.leaves[op.at]], op);
    }
  }

  lemma MergedInside(v: Json, before: seq<Op>, x: Op, others: seq<Op>, y: Op)
    requires IsLeaf(x) && IsLeaf(y) && x.at == y.at && Merge(x, y).Some? && AllLeavesElsewhere(others, x.at)
    requires ApplyAll(v, before + ([x] + others + [y])).Some?
    ensures ApplyAll(v, before + ([Merge(x, y).value] + others)) == ApplyAll(v, before + ([x] + others + [y]))
  {
    ApplyConcat(v, before, [x] + others + [y]);
    ApplyConcat(v, before, [Merge(x, y).value] + others);
    MergeReplays(ApplyAll(v, before).value, x, others, y);
  }

  lemma MergedReplays(v: Json, f: Folded, op: Op)
    requires Indexed(f) && IsLeaf(op) && Merged(f, op).Some? && ApplyAll(v, f.ops + [op]).Some?
    ensures ApplyAll(v, FoldOne(f, op).ops) == ApplyAll(v, f.ops + [op])
  {
    var at, m := f.leaves[op.at], Merged(f, op).value;
    assert f.ops + [op] == f.ops[..at] + ([f.ops[at]] + f.ops[at + 1..] + [op]);
    assert f.ops[at := m] == f.ops[..at] + ([m] + f.ops[at + 1..]);
    MergedInside(v, f.ops[..at], f.ops[at], f.ops[at + 1..], op);
  }

  lemma AppendedReplays(v: Json, all: seq<Op>, ops: seq<Op>, op: Op)
    requires ApplyAll(v, all).Some? ==> ApplyAll(v, ops) == ApplyAll(v, all)
    requires ApplyAll(v, all + [op]).Some?
    ensures ApplyAll(v, ops + [op]) == ApplyAll(v, all + [op])
    ensures op.Replace? ==> ApplyAll(v, [op]) == ApplyAll(v, all + [op])
  {
    ApplyConcat(v, all, [op]);
    ApplyConcat(v, ops, [op]);
  }

  /** Folding one more operation keeps the meaning of them all. */
  lemma FoldOneFolds(all: seq<Op>, f: Folded, op: Op)
    requires Indexed(f) && Folds(all, f.ops)
    ensures Folds(all + [op], FoldOne(f, op).ops)
  {
    forall v | ApplyAll(v, all + [op]).Some? ensures ApplyAll(v, FoldOne(f, op).ops) == ApplyAll(v, all + [op]) {
      AppendedReplays(v, all, f.ops, op);
      if IsLeaf(op) && Merged(f, op).Some? {
        MergedReplays(v, f, op);
      }
    }
  }

  /** All of `ops` folded in, unless too many are left. */
  function FoldAll(f: Folded, ops: seq<Op>): (r: State)
    requires Indexed(f)
    ensures if r.Folding? then Indexed(r.folded) else r.Overflow?
    decreases ops
  {
    if ops == [] then Folding(f)
    else
      FoldOneIndexed(f, ops[0]);
      var g := FoldOne(f, ops[0]);
      if |g.ops| > MAX_PENDING_OPS then Overflow else FoldAll(g, ops[1..])
  }

  /** What pushing a batch makes of what is pending. */
  ghost function Pushed(s: State, ops: seq<Op>): State
    requires s.Folding? ==> Indexed(s.folded)
  {
    if ops == [] then s
    else if ops[0].Replace? then Batch(ops)
    else
      match s
      case Empty => Batch(ops)
      case Batch(first) =>
        var both := FoldAll(Folded([], map[]), first);
        if both.Folding? then FoldAll(both.folded, ops) else Overflow
      case Folding(f) => FoldAll(f, ops)
      case Overflow => Overflow
  }

  lemma {:induction false} FoldAllFolds(all: seq<Op>, f: Folded, ops: seq<Op>)
    requires Indexed(f) && Folds(all, f.ops) && |f.ops| <= MAX_PENDING_OPS
    ensures FoldAll(f, ops).Folding? ==>
              var g := FoldAll(f, ops).folded; Indexed(g) && Folds(all + ops, g.ops) && |g.ops| <= MAX_PENDING_OPS
    decreases ops
  {
    if ops == [] {
      assert all + ops == all;
    } else {
      FoldOneIndexed(f, ops[0]);
      FoldOneFolds(all, f, ops[0]);
      var g := FoldOne(f, ops[0]);
      if |g.ops| <= MAX_PENDING_OPS {
        FoldAllFolds(all + [ops[0]], g, ops[1..]);
        assert all + [ops[0]] + ops[1..] == all + ops;
      }
    }
  }

  /** What is pending replays to what all operations since the last taking do, unless there are too many to keep. */
  ghost predicate Holds(s: State, all: seq<Op>) {
    match s
    case Empty => Folds(all, [])
    case Batch(ops) => Folds(all, ops)
    case Folding(f) => Indexed(f) && Folds(all, f.ops) && |f.ops| <= MAX_PENDING_OPS
    case Overflow => true
  }

  lemma BatchFolds(all: seq<Op>, before: seq<Op>, ops: seq<Op>)
    requires Folds(all, before) && (before == [] || (ops != [] && ops[0].Replace?))
    ensures Folds(all + ops, ops)
  {
    forall v | ApplyAll(v, all + ops).Some? ensures ApplyAll(v, ops) == ApplyAll(v, all + ops) {
      ApplyConcat(v, all, ops);
    }
  }

  lemma ReplacingFolds(all: seq<Op>, ops: seq<Op>)
    requires ops != [] && ops[0].Replace?
    ensures Folds(all + ops, ops)
  {
    forall v | ApplyAll(v, all + ops).Some? ensures ApplyAll(v, ops) == ApplyAll(v, all + ops) {
      ApplyConcat(v, all, ops);
    }
  }

  lemma FoldsAfter(all: seq<Op>, first: seq<Op>, ops: seq<Op>)
    requires Folds(all, first) && Folds(first, ops)
    ensures Folds(all, ops)
  {}

  /** Pushing a batch keeps the meaning of all that is pending. */
  lemma PushedHolds(s: State, all: seq<Op>, ops: seq<Op>)
    requires Holds(s, all)
    ensures Holds(Pushed(s, ops), all + ops)
  {
    if ops == [] {
      assert all + ops == all;
    } else if ops[0].Replace? {
      ReplacingFolds(all, ops);
    } else {
      match s {
        case Empty => BatchFolds(all, [], ops);
        case Batch(first) =>
          FoldAllFolds([], Folded([], map[]), first);
          assert [] + first == first;
          var both := FoldAll(Folded([], map[]), first);
          if both.Folding? {
            FoldsAfter(all, first, both.folded.ops);
            FoldAllFolds(all, both.folded, ops);
          }
        case Folding(f) => FoldAllFolds(all, f, ops);
        case Overflow =>
      }
    }
  }

  function Handed(s: State): Taken {
    match s
    case Empty => Ops([])
    case Batch(ops) => Ops(ops)
    case Folding(f) => Ops(f.ops)
    case Overflow => ReplaceAll
  }

  class PendingOps {
    var state: State

    ghost predicate Valid()
      reads this
    {
      state.Folding? ==> Indexed(state.folded)
    }

    constructor ()
      ensures Valid() && state == Empty
    {
      state := Empty;
    }

    /** Queue the operations of one commit. */
    method Push(ops: seq<Op>)
      requires Valid()
      modifies this
      ensures Valid() && state == Pushed(old(state), ops)
    {
      if |ops| == 0 {
        return;
      }
      if ops[0].Replace? {
        state := Batch(ops);
        return;
      }
      match state {
        case Empty => state := Batch(ops);
        case Batch(first) =>
          state := Folding(Folded([], map[]));
          var folding := Fold(first);
          if folding {
            var _ := Fold(ops);
          }
        case Folding(_) =>
          var _ := Fold(ops);
        case Overflow =>
      }
    }

    /** Fold operations in, one by one; false once too many are left. */
    method Fold(ops: seq<Op>) returns (folding: bool)
      requires state.Folding? && Indexed(state.folded)
      modifies this
      ensures Valid() && state == FoldAll(old(state).folded, ops) && folding == state.Folding?
    {
      for i := 0 to |ops|
        invariant state.Folding? && Indexed(state.folded)
        invariant FoldAll(old(state).folded, ops) == FoldAll(state.folded, ops[i..])
      {
        assert ops[i..][1..] == ops[i + 1..];
        FoldOneIndexed(state.folded, ops[i]);
        state := Folding(FoldOne(state.folded, ops[i]));
        if |state.folded.ops| > MAX_PENDING_OPS {
          state := Overflow;
          return false;
        }
      }
      return true;
    }

    /** Everything is handed over, and nothing is pending any more. */
    method Take() returns (taken: Taken)
      requires Valid()
      modifies this
      ensures Valid() && state == Empty && taken == Handed(old(state))
    {
      taken := Handed(state);
      state := Empty;
    }
  }

  /** A slow consumer: whatever batches were pushed, what it takes replays to the value they lead to, unless too many
      operations are left and it has to take that value whole. */
  method PushAll(batches: seq<seq<Op>>) returns (taken: Taken)
    ensures taken.Ops? ==> Folds(Joined(batches, |batches|), taken.ops)
    ensures taken.ReplaceAll? ==> |Joined(batches, |batches|)| > MAX_PENDING_OPS
  {
    var pending := new PendingOps();
    for i := 0 to |batches|
      invariant pending.Valid() && Holds(pending.state, Joined(batches, i))
      invariant Pends(pending.state, |Joined(batches, i)|)
    {
      PushedHolds(pending.state, Joined(batches, i), batches[i]);
      PushedPends(pending.state, |Joined(batches, i)|, batches[i]);
      pending.Push(batches[i]);
    }
    taken := pending.Take();
  }

  function Joined(batches: seq<seq<Op>>, n: nat): seq<Op>
    requires n <= |batches|
  {
    if n == 0 then [] else Joined(batches, n - 1) + batches[n - 1]
  }

  /** Never more is pending than was pushed. */
  predicate Pends(s: State, pushed: nat) {
    match s
    case Empty => true
    case Batch(ops) => |ops| <= pushed
    case Folding(f) => |f.ops| <= pushed
    case Overflow => pushed > MAX_PENDING_OPS
  }

  lemma {:induction false} FoldAllPends(f: Folded, ops: seq<Op>, pushed: nat)
    requires Indexed(f) && |f.ops| <= pushed
    ensures Pends(FoldAll(f, ops), pushed + |ops|)
    decreases ops
  {
    if ops != [] {
      FoldOneIndexed(f, ops[0]);
      if |FoldOne(f, ops[0]).ops| <= MAX_PENDING_OPS {
        FoldAllPends(FoldOne(f, ops[0]), ops[1..], pushed + 1);
      }
    }
  }

  lemma PushedPends(s: State, pushed: nat, ops: seq<Op>)
    requires Pends(s, pushed) && (s.Folding? ==> Indexed(s.folded))
    ensures Pends(Pushed(s, ops), pushed + |ops|)
  {
    if ops != [] && !ops[0].Replace? {
      match s {
        case Batch(first) =>
          FoldAllPends(Folded([], map[]), first, 0);
          var both := FoldAll(Folded([], map[]), first);
          if both.Folding? {
            FoldAllPends(both.folded, ops, |first|);
          }
        case Folding(f) => FoldAllPends(f, ops, pushed);
        case _ =>
      }
    }
  }
}
