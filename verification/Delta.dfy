/** JSON values, the operations that turn one into the next, and how operations on leaves fold. */
module Delta {
  import opened Options

  datatype Json =
    | Null
    | Bool(b: bool)
    | Num(n: real)
    | Str(s: string)
    | Arr(items: seq<Json>)
    | Obj(fields: map<string, Json>)
  {
    predicate IsPrimitive() {
      !Arr? && !Obj?
    }
  }

  datatype Seg = Key(name: string) | Index(i: nat)
  type Path = seq<Seg>
  type NonEmptyPath = p: Path | p != [] witness [Index(0)]

  datatype Op =
    | Replace(value: Json)
    | Set(at: NonEmptyPath, value: Json)
    | Delete(at: NonEmptyPath)
    | Append(at: NonEmptyPath, text: string)
    | Truncate(at: NonEmptyPath, count: nat)
    | Splice(in_: Path, start: nat, remove: nat, items: seq<Json>)
    | Permute(in_: Path, permutation: seq<nat>)

  // ---- What operations do ----

  /** What happens at the place a path names; a place may hold nothing yet. */
  datatype Edit =
    | Put(value: Json)
    | Remove
    | Extend(text: string)
    | Cut(count: nat)
    | Spliced(start: nat, remove: nat, items: seq<Json>)
    | Permuted(permutation: seq<nat>)

  /** An edit throws, or leaves something, or nothing, in its place. */
  datatype Outcome = Throws | Leaves(place: Option<Json>)

  function Min(a: nat, b: nat): nat {
    if a < b then a else b
  }

  predicate IsPermutation(p: seq<nat>) {
    && (forall i :: 0 <= i < |p| ==> p[i] < |p|)
    && (forall i, j :: 0 <= i < j < |p| ==> p[i] != p[j])
  }

  function SplicedItems(xs: seq<Json>, start: nat, remove: nat, items: seq<Json>): seq<Json> {
    var from := Min(start, |xs|);
    var to := Min(from + remove, |xs|);
    xs[..from] + items + xs[to..]
  }

  function EditAt(place: Option<Json>, e: Edit): Outcome {
    match e
    case Put(x) => Leaves(Some(x))
    case Remove => Leaves(None)
    case Extend(t) => if place.Some? && place.value.Str? then Leaves(Some(Str(place.value.s + t))) else Throws
    case Cut(n) =>
      if place.Some? && place.value.Str? then Leaves(Some(Str(place.value.s[Min(n, |place.value.s|)..]))) else Throws
    case Spliced(start, remove, items) =>
      if place.Some? && place.value.Arr? then Leaves(Some(Arr(SplicedItems(place.value.items, start, remove, items))))
      else Throws
    case Permuted(p) =>
      if place.Some? && place.value.Arr? && |p| == |place.value.items| && IsPermutation(p) then
        Leaves(Some(Arr(seq(|p|, i requires 0 <= i < |p| => place.value.items[p[i]]))))
      else Throws
  }

  /** Whether a container can hold something under a segment: arrays are addressed by number, up to one past the end. */
  predicate Holds(container: Json, s: Seg) {
    || (container.Obj? && s.Key?)
    || (container.Arr? && s.Index? && s.i <= |container.items|)
  }

  function Child(container: Json, s: Seg): Option<Json>
    requires Holds(container, s)
  {
    match container
    case Obj(fields) => if s.name in fields then Some(fields[s.name]) else None
    case Arr(items) => if s.i < |items| then Some(items[s.i]) else None
  }

  function WithChild(container: Json, s: Seg, child: Option<Json>): Outcome
    requires Holds(container, s)
  {
    match container
    case Obj(fields) =>
      Leaves(Some(Obj(if child.Some? then fields[s.name := child.value] else fields - {s.name})))
    case Arr(items) =>
      if child.Some? then Leaves(Some(Arr(if s.i < |items| then items[s.i := child.value] else items + [child.value])))
      else if s.i < |items| then Leaves(Some(Arr(items[..s.i] + items[s.i + 1..])))
      else Throws
  }

  function EditIn(place: Option<Json>, path: Path, e: Edit): Outcome
    decreases path
  {
    if path == [] then EditAt(place, e)
    else if place.None? || !Holds(place.value, path[0]) then Throws
    else
      match EditIn(Child(place.value, path[0]), path[1..], e)
      case Throws => Throws
      case Leaves(child) => WithChild(place.value, path[0], child)
  }

  function PathOf(op: Op): Path {
    match op
    case Replace(_) => []
    case Splice(path, _, _, _) => path
    case Permute(path, _) => path
    case _ => op.at
  }

  function EditOf(op: Op): Edit {
    match op
    case Replace(x) => Put(x)
    case Set(_, x) => Put(x)
    case Delete(_) => Remove
    case Append(_, t) => Extend(t)
    case Truncate(_, n) => Cut(n)
    case Splice(_, start, remove, items) => Spliced(start, remove, items)
    case Permute(_, p) => Permuted(p)
  }

  /** The value after an operation; nothing when it throws. */
  function Apply(v: Json, op: Op): Option<Json> {
    var r := EditIn(Some(v), PathOf(op), EditOf(op));
    if r.Leaves? then r.place else None
  }

  function ApplyAll(v: Json, ops: seq<Op>): Option<Json>
    decreases ops
  {
    if ops == [] then Some(v)
    else match Apply(v, ops[0])
      case None => None
      case Some(w) => ApplyAll(w, ops[1..])
  }

  lemma {:induction false} ApplyConcat(v: Json, a: seq<Op>, b: seq<Op>)
    ensures ApplyAll(v, a + b) == match ApplyAll(v, a) case None => None case Some(w) => ApplyAll(w, b)
    decreases a
  {
    if a == [] {
      assert a + b == b;
    } else {
      assert (a + b)[1..] == a[1..] + b;
      if Apply(v, a[0]).Some? {
        ApplyConcat(Apply(v, a[0]).value, a[1..], b);
      }
    }
  }

  lemma ApplyOne(v: Json, op: Op)
    ensures ApplyAll(v, [op]) == Apply(v, op)
  {}

  // ---- Leaves ----

  /** An edit that leaves a primitive value: an append to a string, or a primitive put in place. */
  predicate IsLeafEdit(e: Edit) {
    e.Extend? || (e.Put? && e.value.IsPrimitive())
  }

  predicate IsLeaf(op: Op) {
    op.Append? || (op.Set? && op.value.IsPrimitive())
  }

  /** A primitive value sits at the place. */
  predicate LeafAt(place: Option<Json>, path: Path)
    decreases path
  {
    if path == [] then place.Some? && place.value.IsPrimitive()
    else place.Some? && Holds(place.value, path[0]) && LeafAt(Child(place.value, path[0]), path[1..])
  }

  /** A primitive value sits on the way to the place. */
  predicate BlockedAt(place: Option<Json>, path: Path)
    decreases path
  {
    && path != [] && place.Some?
    && (place.value.IsPrimitive() || (Holds(place.value, path[0]) && BlockedAt(Child(place.value, path[0]), path[1..])))
  }

  lemma {:induction false} BlockedThrows(place: Option<Json>, path: Path, e: Edit)
    requires BlockedAt(place, path)
    ensures EditIn(place, path, e).Throws?
    decreases path
  {
    if !place.value.IsPrimitive() {
      BlockedThrows(Child(place.value, path[0]), path[1..], e);
    }
  }

  lemma {:induction false} LeafEditLeaves(place: Option<Json>, path: Path, e: Edit)
    requires IsLeafEdit(e) && EditIn(place, path, e).Leaves?
    ensures EditIn(place, path, e).place.Some? && LeafAt(EditIn(place, path, e).place, path)
    decreases path
  {
    if path != [] {
      LeafEditLeaves(Child(place.value, path[0]), path[1..], e);
    }
  }

  /** What a container holds after one of its children changed. */
  lemma ChildAfter(c: Json, s: Seg, x: Json, t: Seg)
    requires Holds(c, s) && Holds(c, t)
    ensures var d := WithChild(c, s, Some(x));
            d.Leaves? && d.place.Some? && Holds(d.place.value, t)
            && Child(d.place.value, t) == if t == s then Some(x) else Child(c, t)
  {}

  /** A leaf edit elsewhere leaves a leaf where it was, or cuts off the way to it. */
  lemma {:induction false} ElsewhereKeeps(place: Option<Json>, path: Path, other: Path, e: Edit)
    requires LeafAt(place, path) || BlockedAt(place, path)
    requires other != path && IsLeafEdit(e) && EditIn(place, other, e).Leaves?
    ensures var after := EditIn(place, other, e).place; LeafAt(after, path) || BlockedAt(after, path)
    decreases path
  {
    if other != [] && path != [] {
      LeafEditLeaves(Child(place.value, other[0]), other[1..], e);
      var x := EditIn(Child(place.value, other[0]), other[1..], e).place.value;
      ChildAfter(place.value, other[0], x, path[0]);
      if other[0] == path[0] {
        ElsewhereKeeps(Child(place.value, path[0]), path[1..], other[1..], e);
      }
    }
  }

  /** Two children change one after the other: the order does not matter when the first is there already. */
  lemma ChildrenCommute(c: Json, s: Seg, x: Json, t: Seg, y: Json)
    requires Holds(c, s) && Holds(c, t) && s != t && Child(c, s).Some?
    ensures var a, b := WithChild(c, s, Some(x)), WithChild(c, t, Some(y));
            && a.Leaves? && a.place.Some? && b.Leaves? && b.place.Some?
            && Holds(a.place.value, t) && Holds(b.place.value, s)
            && WithChild(a.place.value, t, Some(y)) == WithChild(b.place.value, s, Some(x))
  {
    match c {
      case Obj(fields) => assert fields[s.name := x][t.name := y] == fields[t.name := y][s.name := x];
      case Arr(items) =>
        if t.i < |items| {
          assert items[s.i := x][t.i := y] == items[t.i := y][s.i := x];
        } else {
          assert items[s.i := x] + [y] == (items + [y])[s.i := x];
        }
    }
  }

  lemma LeafHasChild(c: Json, s: Seg, rest: Path)
    requires Holds(c, s) && LeafAt(Child(c, s), rest)
    ensures Child(c, s).Some?
  {}

  lemma SameChild(c: Json, s: Seg, x: Json, y: Json)
    requires Holds(c, s)
    ensures var d := WithChild(c, s, Some(x));
            && d.Leaves? && d.place.Some? && Holds(d.place.value, s) && Child(d.place.value, s) == Some(x)
            && WithChild(d.place.value, s, Some(y)) == WithChild(c, s, Some(y))
  {
    match c {
      case Obj(fields) => assert fields[s.name := x][s.name := y] == fields[s.name := y];
      case Arr(items) =>
        if s.i < |items| {
          assert items[s.i := x][s.i := y] == items[s.i := y];
        } else {
          assert (items + [x])[s.i := y] == items + [y];
        }
    }
  }

  /** An edit below a segment. */
  lemma EditBelow(c: Json, path: Path, e: Edit, x: Json)
    requires path != [] && Holds(c, path[0]) && EditIn(Child(c, path[0]), path[1..], e) == Leaves(Some(x))
    ensures EditIn(Some(c), path, e) == WithChild(c, path[0], Some(x))
  {}

  /** What a leaf edit makes of a child of a container. */
  function LeafIn(c: Json, path: Path, e: Edit): (x: Json)
    requires IsLeafEdit(e) && path != [] && Holds(c, path[0]) && EditIn(Child(c, path[0]), path[1..], e).Leaves?
    ensures EditIn(Child(c, path[0]), path[1..], e) == Leaves(Some(x))
    ensures EditIn(Some(c), path, e) == WithChild(c, path[0], Some(x))
  {
    LeafEditLeaves(Child(c, path[0]), path[1..], e);
    EditIn(Child(c, path[0]), path[1..], e).place.value
  }

  lemma CommuteApart(c: Json, path: Path, e: Edit, other: Path, f: Edit)
    requires path != [] && other != [] && path[0] != other[0] && LeafAt(Some(c), path) && IsLeafEdit(e) && IsLeafEdit(f)
    requires Holds(c, path[0]) && Holds(c, other[0])
    requires EditIn(Child(c, path[0]), path[1..], e).Leaves? && EditIn(Child(c, other[0]), other[1..], f).Leaves?
    ensures EditIn(Some(c), path, e).Leaves? && EditIn(Some(c), other, f).Leaves?
    ensures EditIn(EditIn(Some(c), path, e).place, other, f) == EditIn(EditIn(Some(c), other, f).place, path, e)
  {
    var x, y := LeafIn(c, path, e), LeafIn(c, other, f);
    LeafHasChild(c, path[0], path[1..]);
    ChildrenCommute(c, path[0], x, other[0], y);
    ChildAfter(c, path[0], x, other[0]);
    ChildAfter(c, other[0], y, path[0]);
    var a, b := WithChild(c, path[0], Some(x)).place.value, WithChild(c, other[0], Some(y)).place.value;
    assert LeafIn(a, other, f) == y && LeafIn(b, path, e) == x;
  }

  /** Two edits below the same segment. */
  lemma EditsBelow(c: Json, s: Seg, rest: Path, e: Edit, x: Json, other: Path, f: Edit, z: Json)
    requires Holds(c, s)
    requires EditIn(Child(c, s), rest, e) == Leaves(Some(x)) && EditIn(Some(x), other, f) == Leaves(Some(z))
    ensures WithChild(c, s, Some(x)).Leaves? && EditIn(Some(c), [s] + rest, e) == WithChild(c, s, Some(x))
    ensures EditIn(WithChild(c, s, Some(x)).place, [s] + other, f) == WithChild(c, s, Some(z))
  {
    SameChild(c, s, x, z);
    assert ([s] + rest)[1..] == rest && ([s] + other)[1..] == other;
    EditBelow(c, [s] + rest, e, x);
    EditBelow(WithChild(c, s, Some(x)).place.value, [s] + other, f, z);
  }

  /** A leaf edit passes an earlier one at another place, once there is a leaf for it to change. */
  lemma {:induction false} LeafEditsCommute(place: Option<Json>, path: Path, e: Edit, other: Path, f: Edit)
    requires LeafAt(place, path) && other != path && IsLeafEdit(e) && IsLeafEdit(f)
    requires EditIn(place, other, f).Leaves? && EditIn(EditIn(place, other, f).place, path, e).Leaves?
    ensures EditIn(place, path, e).Leaves?
    ensures EditIn(EditIn(place, path, e).place, other, f) == EditIn(EditIn(place, other, f).place, path, e)
    decreases path
  {
    if path != [] && other != [] {
      var c, s, t := place.value, path[0], other[0];
      var y := LeafIn(c, other, f);
      ChildAfter(c, t, y, s);
      var d := WithChild(c, t, Some(y)).place.value;
      assert EditIn(Child(d, s), path[1..], e).Leaves?;
      if s == t {
        LeafEditsCommute(Child(c, s), path[1..], e, other[1..], f);
        var x, z := LeafIn(c, path, e), LeafIn(d, path, e);
        EditsBelow(c, s, path[1..], e, x, other[1..], f, z);
        EditsBelow(c, s, other[1..], f, y, path[1..], e, z);
        assert path == [s] + path[1..] && other == [s] + other[1..];
      } else {
        CommuteApart(c, path, e, other, f);
      }
    }
  }

  /** Two leaf edits at one place that are the same as one. */
  ghost predicate Fuse(e: Edit, f: Edit, g: Edit) {
    forall place: Option<Json> {:trigger EditAt(place, g)} ::
      EditAt(place, e).Leaves? && EditAt(EditAt(place, e).place, f).Leaves? ==>
        EditAt(place, g) == EditAt(EditAt(place, e).place, f)
  }

  lemma {:induction false} FusedEdits(place: Option<Json>, path: Path, e: Edit, f: Edit, g: Edit)
    requires IsLeafEdit(e) && IsLeafEdit(f) && IsLeafEdit(g) && Fuse(e, f, g)
    requires EditIn(place, path, e).Leaves? && EditIn(EditIn(place, path, e).place, path, f).Leaves?
    ensures EditIn(place, path, g) == EditIn(EditIn(place, path, e).place, path, f)
    decreases path
  {
    if path == [] {
      assert EditAt(place, g) == EditAt(EditAt(place, e).place, f);
    } else {
      var c, s := place.value, path[0];
      var x := LeafIn(c, path, e);
      SameChild(c, s, x, x);
      var d := WithChild(c, s, Some(x)).place.value;
      assert EditIn(Child(d, s), path[1..], f).Leaves?;
      var z := LeafIn(d, path, f);
      FusedEdits(Child(c, s), path[1..], e, f, g);
      EditBelow(c, path, g, z);
      SameChild(c, s, x, z);
    }
  }

  predicate AllLeavesElsewhere(ops: seq<Op>, path: Path) {
    forall i :: 0 <= i < |ops| ==> IsLeaf(ops[i]) && ops[i].at != path
  }

  lemma {:induction false} BlockedStays(v: Json, ops: seq<Op>, path: NonEmptyPath)
    requires BlockedAt(Some(v), path) && AllLeavesElsewhere(ops, path) && ApplyAll(v, ops).Some?
    ensures BlockedAt(Some(ApplyAll(v, ops).value), path)
    decreases ops
  {
    if ops != [] {
      BlockedKeeps(Some(v), path, ops[0].at, EditOf(ops[0]));
      BlockedStays(Apply(v, ops[0]).value, ops[1..], path);
    }
  }

  lemma {:induction false} BlockedKeeps(place: Option<Json>, path: Path, other: Path, e: Edit)
    requires BlockedAt(place, path) && other != path && IsLeafEdit(e) && EditIn(place, other, e).Leaves?
    ensures BlockedAt(EditIn(place, other, e).place, path)
    decreases path
  {
    if other != [] {
      var x := LeafIn(place.value, other, e);
      ChildAfter(place.value, other[0], x, path[0]);
      if other[0] == path[0] {
        BlockedKeeps(Child(place.value, path[0]), path[1..], other[1..], e);
      }
    }
  }

  /** An operation on a leaf passes all later ones on other leaves, whatever they did. */
  lemma {:induction false} LeafPasses(v: Json, others: seq<Op>, op: Op)
    requires IsLeaf(op) && LeafAt(Some(v), op.at) && AllLeavesElsewhere(others, op.at)
    requires ApplyAll(v, others + [op]).Some?
    ensures ApplyAll(v, [op] + others) == ApplyAll(v, others + [op])
    decreases others
  {
    if others == [] {
      assert [op] + others == others + [op];
    } else {
      var m, rest := others[0], others[1..];
      assert (others + [op])[1..] == rest + [op];
      var w := Apply(v, m).value;
      ElsewhereKeeps(Some(v), op.at, m.at, EditOf(m));
      if BlockedAt(Some(w), op.at) {
        ApplyConcat(w, rest, [op]);
        BlockedStays(w, rest, op.at);
        BlockedThrows(Some(ApplyAll(w, rest).value), op.at, EditOf(op));
        assert false;
      } else {
        LeafPasses(w, rest, op);
        LeafPassesOne(v, m, op, rest);
        assert others == [m] + rest;
      }
    }
  }

  lemma LeafPassesOne(v: Json, m: Op, op: Op, rest: seq<Op>)
    requires IsLeaf(op) && LeafAt(Some(v), op.at) && IsLeaf(m) && m.at != op.at && Apply(v, m).Some?
    requires ApplyAll(Apply(v, m).value, [op] + rest).Some?
    ensures ApplyAll(v, [op] + ([m] + rest)) == ApplyAll(Apply(v, m).value, [op] + rest)
  {
    assert ([op] + rest)[1..] == rest && ([op] + ([m] + rest))[1..] == [m] + rest && ([m] + rest)[1..] == rest;
    LeafEditsCommute(Some(v), op.at, EditOf(op), m.at, EditOf(m));
    LeafEditLeaves(Some(v), op.at, EditOf(op));
  }
}
