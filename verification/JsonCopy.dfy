/** Copying and checking strict JSON: a depth-first walk of a heap graph that keeps the objects on its path in a set. */
module JsonCopy {
  import opened Options

  // ---- The heap ----

  type Ref = nat

  datatype Value =
    | Undefined
    | Null
    | Bool(b: bool)
    | Num(n: real)
    | NonFinite
    | Str(s: string)
    | NonJson(typeName: string)
    | Object(ref: Ref)

  datatype Descriptor = Data(value: Value, enumerable: bool) | Accessor(enumerable: bool)
  datatype Property = Property(key: string, symbol: bool, descriptor: Descriptor)
  datatype Prototype = ObjectPrototype | NullPrototype | OtherPrototype

  /** An array's indexed slots, and how many other own keys it has besides `length`; or an object's own properties, in
      order. */
  datatype Cell =
    | ArrayCell(plain: bool, slots: seq<Option<Descriptor>>, names: nat, symbols: nat)
    | ObjectCell(prototype: Prototype, properties: seq<Property>)

  type Heap = map<Ref, Cell>

  predicate ValueIn(heap: Heap, v: Value) {
    v.Object? ==> v.ref in heap
  }

  predicate DescriptorIn(heap: Heap, d: Descriptor) {
    d.Data? ==> ValueIn(heap, d.value)
  }

  /** No reference dangles. */
  predicate Closed(heap: Heap) {
    forall r :: r in heap ==>
      match heap[r]
      case ArrayCell(_, slots, _, _) => forall i :: 0 <= i < |slots| && slots[i].Some? ==> DescriptorIn(heap, slots[i].value)
      case ObjectCell(_, properties) => forall i :: 0 <= i < |properties| ==> DescriptorIn(heap, properties[i].descriptor)
  }

  // ---- Trees ----

  datatype Field = Field(key: string, value: Tree)

  /** An alias-free JSON tree. */
  datatype Tree =
    | TNull
    | TBool(b: bool)
    | TNum(n: real)
    | TStr(s: string)
    | TArray(items: seq<Tree>)
    | TObject(prototype: Prototype, fields: seq<Field>)

  predicate IsData(d: Descriptor) {
    d.Data? && d.enumerable
  }

  predicate PlainSlots(cell: Cell)
    requires cell.ArrayCell?
  {
    cell.plain && cell.names == 0 && cell.symbols == 0
    && forall i :: 0 <= i < |cell.slots| ==> cell.slots[i].Some? && IsData(cell.slots[i].value)
  }

  predicate PlainProperties(cell: Cell)
    requires cell.ObjectCell?
  {
    !cell.prototype.OtherPrototype?
    && forall i :: 0 <= i < |cell.properties| ==> !cell.properties[i].symbol && IsData(cell.properties[i].descriptor)
  }

  /** The properties copied; those whose value is undefined may be left out. */
  function Copied(properties: seq<Property>, omitUndefined: bool): seq<Property> {
    if properties == [] then []
    else
      var p := properties[|properties| - 1];
      Copied(properties[..|properties| - 1], omitUndefined)
      + if omitUndefined && p.descriptor.Data? && p.descriptor.value.Undefined? then [] else [p]
  }

  /** A tree is what one sees following references from a value, never coming back to an object on the way or to one to
      avoid. */
  predicate UnfoldsAvoiding(heap: Heap, v: Value, t: Tree, omitUndefined: bool, avoid: set<Ref>)
    decreases t
  {
    match t
    case TNull => v == Null
    case TBool(b) => v == Bool(b)
    case TNum(n) => v == Num(n)
    case TStr(s) => v == Str(s)
    case TArray(items) =>
      && v.Object? && v.ref in heap && v.ref !in avoid && heap[v.ref].ArrayCell? && PlainSlots(heap[v.ref])
      && var slots := heap[v.ref].slots;
         && |items| == |slots|
         && forall i :: 0 <= i < |items| ==>
              UnfoldsAvoiding(heap, slots[i].value.value, items[i], omitUndefined, avoid + {v.ref})
    case TObject(prototype, fields) =>
      && v.Object? && v.ref in heap && v.ref !in avoid && heap[v.ref].ObjectCell? && PlainProperties(heap[v.ref])
      && prototype == heap[v.ref].prototype
      && var kept := Copied(heap[v.ref].properties, omitUndefined);
         && |fields| == |kept|
         && forall i :: 0 <= i < |fields| ==>
              && fields[i].key == kept[i].key && kept[i].descriptor.Data?
              && UnfoldsAvoiding(heap, kept[i].descriptor.value, fields[i].value, omitUndefined, avoid + {v.ref})
  }

  /** A tree is what one sees following references from a value. */
  predicate Unfolds(heap: Heap, v: Value, t: Tree, omitUndefined: bool)
    decreases t
  {
    match t
    case TNull => v == Null
    case TBool(b) => v == Bool(b)
    case TNum(n) => v == Num(n)
    case TStr(s) => v == Str(s)
    case TArray(items) =>
      && v.Object? && v.ref in heap && heap[v.ref].ArrayCell? && PlainSlots(heap[v.ref])
      && var slots := heap[v.ref].slots;
         && |items| == |slots|
         && forall i :: 0 <= i < |items| ==> Unfolds(heap, slots[i].value.value, items[i], omitUndefined)
    case TObject(prototype, fields) =>
      && v.Object? && v.ref in heap && heap[v.ref].ObjectCell? && PlainProperties(heap[v.ref])
      && prototype == heap[v.ref].prototype
      && var kept := Copied(heap[v.ref].properties, omitUndefined);
         && |fields| == |kept|
         && forall i :: 0 <= i < |fields| ==>
              && fields[i].key == kept[i].key && kept[i].descriptor.Data?
              && Unfolds(heap, kept[i].descriptor.value, fields[i].value, omitUndefined)
  }

  /** A value has one unfolding at most. */
  lemma {:induction false} UnfoldingUnique(heap: Heap, v: Value, s: Tree, t: Tree, omit: bool)
    requires Unfolds(heap, v, s, omit) && Unfolds(heap, v, t, omit)
    ensures s == t
    decreases s
  {
    match s {
      case TArray(items) =>
        forall i | 0 <= i < |items| ensures items[i] == t.items[i] {
          UnfoldingUnique(heap, heap[v.ref].slots[i].value.value, items[i], t.items[i], omit);
        }
        assert items == t.items;
      case TObject(_, fields) =>
        var kept := Copied(heap[v.ref].properties, omit);
        forall i | 0 <= i < |fields| ensures fields[i] == t.fields[i] {
          UnfoldingUnique(heap, kept[i].descriptor.value, fields[i].value, t.fields[i].value, omit);
        }
        assert fields == t.fields;
      case _ =>
    }
  }

  /** An unfolding that avoids objects is one. */
  lemma {:induction false} AvoidingUnfolds(heap: Heap, v: Value, t: Tree, omit: bool, avoid: set<Ref>)
    requires UnfoldsAvoiding(heap, v, t, omit, avoid)
    ensures Unfolds(heap, v, t, omit)
    decreases t
  {
    match t {
      case TArray(items) =>
        forall i | 0 <= i < |items| ensures Unfolds(heap, heap[v.ref].slots[i].value.value, items[i], omit) {
          AvoidingUnfolds(heap, heap[v.ref].slots[i].value.value, items[i], omit, avoid + {v.ref});
        }
      case TObject(_, fields) =>
        var kept := Copied(heap[v.ref].properties, omit);
        forall i | 0 <= i < |fields| ensures Unfolds(heap, kept[i].descriptor.value, fields[i].value, omit) {
          AvoidingUnfolds(heap, kept[i].descriptor.value, fields[i].value, omit, avoid + {v.ref});
        }
      case _ =>
    }
  }

  // ---- Finite unfoldings never come back ----

  function Size(t: Tree): nat {
    match t
    case TArray(items) => 1 + SizeItems(items)
    case TObject(_, fields) => 1 + SizeFields(fields)
    case _ => 0
  }

  function SizeItems(items: seq<Tree>): nat {
    if items == [] then 0 else SizeItems(items[..|items| - 1]) + Size(items[|items| - 1])
  }

  function SizeFields(fields: seq<Field>): nat {
    if fields == [] then 0 else SizeFields(fields[..|fields| - 1]) + Size(fields[|fields| - 1].value)
  }

  lemma {:induction false} SizeItemsAt(items: seq<Tree>, i: nat)
    requires i < |items|
    ensures SizeItems(items[..i]) + Size(items[i]) <= SizeItems(items)
    decreases |items|
  {
    var n := |items| - 1;
    if i < n {
      SizeItemsAt(items[..n], i);
      assert items[..n][..i] == items[..i];
    }
  }

  lemma {:induction false} SizeFieldsAt(fields: seq<Field>, i: nat)
    requires i < |fields|
    ensures SizeFields(fields[..i]) + Size(fields[i].value) <= SizeFields(fields)
    decreases |fields|
  {
    var n := |fields| - 1;
    if i < n {
      SizeFieldsAt(fields[..n], i);
      assert fields[..n][..i] == fields[..i];
    }
  }

  /** The objects to avoid unfold to larger trees, if at all. */
  ghost predicate Above(heap: Heap, avoid: set<Ref>, size: nat, omit: bool) {
    forall r, s :: r in avoid && Unfolds(heap, Object(r), s, omit) ==> Size(s) > size
  }

  lemma AboveMore(heap: Heap, avoid: set<Ref>, ref: Ref, t: Tree, size: nat, omit: bool)
    requires Above(heap, avoid, Size(t), omit) && Unfolds(heap, Object(ref), t, omit) && size < Size(t)
    ensures Above(heap, avoid + {ref}, size, omit)
  {
    forall r, s | r in avoid + {ref} && Unfolds(heap, Object(r), s, omit) ensures Size(s) > size {
      if r == ref {
        UnfoldingUnique(heap, Object(ref), s, t, omit);
      }
    }
  }

  /** A finite unfolding meets no object twice on one way: it would be a part of itself. */
  lemma {:induction false} UnfoldingAvoids(heap: Heap, v: Value, t: Tree, omit: bool, avoid: set<Ref>)
    requires Unfolds(heap, v, t, omit) && Above(heap, avoid, Size(t), omit)
    ensures UnfoldsAvoiding(heap, v, t, omit, avoid)
    decreases t
  {
    match t {
      case TArray(items) =>
        var slots := heap[v.ref].slots;
        forall i | 0 <= i < |items| ensures UnfoldsAvoiding(heap, slots[i].value.value, items[i], omit, avoid + {v.ref}) {
          SizeItemsAt(items, i);
          AboveMore(heap, avoid, v.ref, t, Size(items[i]), omit);
          UnfoldingAvoids(heap, slots[i].value.value, items[i], omit, avoid + {v.ref});
        }
      case TObject(_, fields) =>
        var kept := Copied(heap[v.ref].properties, omit);
        forall i | 0 <= i < |fields|
          ensures UnfoldsAvoiding(heap, kept[i].descriptor.value, fields[i].value, omit, avoid + {v.ref})
        {
          SizeFieldsAt(fields, i);
          AboveMore(heap, avoid, v.ref, t, Size(fields[i].value), omit);
          UnfoldingAvoids(heap, kept[i].descriptor.value, fields[i].value, omit, avoid + {v.ref});
        }
      case _ =>
    }
  }

  /** So a walk that refuses to come back to its path sees every finite unfolding. */
  lemma UnfoldsIffAvoiding(heap: Heap, v: Value, t: Tree, omit: bool)
    ensures Unfolds(heap, v, t, omit) <==> UnfoldsAvoiding(heap, v, t, omit, {})
  {
    if Unfolds(heap, v, t, omit) {
      UnfoldingAvoids(heap, v, t, omit, {});
    }
    if UnfoldsAvoiding(heap, v, t, omit, {}) {
      AvoidingUnfolds(heap, v, t, omit, {});
    }
  }

  // ---- The objects of a copy ----

  /** A value is a tree whose arrays and objects, depth first, are those from `at` on: each has its own, so no two places
      share one. */
  predicate Numbered(built: Heap, v: Value, t: Tree, at: Ref)
    decreases t, 1
  {
    match t
    case TNull => v == Null
    case TBool(b) => v == Bool(b)
    case TNum(n) => v == Num(n)
    case TStr(s) => v == Str(s)
    case TArray(items) =>
      && v == Object(at) && at in built && built[at].ArrayCell? && PlainSlots(built[at])
      && |built[at].slots| == |items| && NumberedItems(built, built[at].slots, items, at + 1)
    case TObject(prototype, fields) =>
      && v == Object(at) && at in built && built[at].ObjectCell? && PlainProperties(built[at])
      && built[at].prototype == prototype && NumberedFields(built, built[at].properties, fields, at + 1)
  }

  /** The first slots hold the items. */
  predicate NumberedItems(built: Heap, slots: seq<Option<Descriptor>>, items: seq<Tree>, at: Ref)
    decreases items, 0
  {
    && |items| <= |slots|
    && forall i {:trigger slots[i]} :: 0 <= i < |items| ==>
         NumberedSlot(built, slots[i], items[i], at + SizeItems(items[..i]))
  }

  predicate NumberedSlot(built: Heap, slot: Option<Descriptor>, item: Tree, at: Ref)
    decreases item, 2
  {
    slot.Some? && IsData(slot.value) && Numbered(built, slot.value.value, item, at)
  }

  predicate NumberedFields(built: Heap, properties: seq<Property>, fields: seq<Field>, at: Ref)
    decreases fields, 0
  {
    && |fields| == |properties|
    && forall i {:trigger properties[i]} :: 0 <= i < |fields| ==>
         NumberedProperty(built, properties[i], fields[i], at + SizeFields(fields[..i]))
  }

  predicate NumberedProperty(built: Heap, p: Property, f: Field, at: Ref)
    decreases f, 2
  {
    p.key == f.key && !p.symbol && IsData(p.descriptor) && Numbered(built, p.descriptor.value, f.value, at)
  }

  /** A heap keeps the cells between two references. */
  predicate KeepsBetween(before: Heap, after: Heap, from: Ref, to: Ref) {
    forall r :: r in before && from <= r < to ==> r in after && after[r] == before[r]
  }

  /** A tree is still there when its own cells are. */
  lemma {:induction false} NumberedKept(before: Heap, after: Heap, v: Value, t: Tree, at: Ref)
    requires Numbered(before, v, t, at) && KeepsBetween(before, after, at, at + Size(t))
    ensures Numbered(after, v, t, at)
    decreases t, 1
  {
    match t
    case TArray(items) => ItemsKept(before, after, before[at].slots, items, at + 1);
    case TObject(_, fields) => FieldsKept(before, after, before[at].properties, fields, at + 1);
    case _ =>
  }

  lemma {:induction false} ItemsKept(before: Heap, after: Heap, slots: seq<Option<Descriptor>>, items: seq<Tree>, at: Ref)
    requires NumberedItems(before, slots, items, at) && KeepsBetween(before, after, at, at + SizeItems(items))
    ensures NumberedItems(after, slots, items, at)
    decreases items, 0
  {
    forall i | 0 <= i < |items| ensures NumberedSlot(after, slots[i], items[i], at + SizeItems(items[..i])) {
      SizeItemsAt(items, i);
      NumberedKept(before, after, slots[i].value.value, items[i], at + SizeItems(items[..i]));
    }
  }

  lemma {:induction false} FieldsKept(before: Heap, after: Heap, properties: seq<Property>, fields: seq<Field>, at: Ref)
    requires NumberedFields(before, properties, fields, at) && KeepsBetween(before, after, at, at + SizeFields(fields))
    ensures NumberedFields(after, properties, fields, at)
    decreases fields, 0
  {
    forall i | 0 <= i < |fields|
      ensures NumberedProperty(after, properties[i], fields[i], at + SizeFields(fields[..i]))
    {
      SizeFieldsAt(fields, i);
      NumberedKept(before, after, properties[i].descriptor.value, fields[i].value, at + SizeFields(fields[..i]));
    }
  }

  /** One item more, after the cells of those before. */
  lemma ItemsMore(built: Heap, slots: seq<Option<Descriptor>>, items: seq<Tree>, at: Ref, slot: Option<Descriptor>, t: Tree)
    requires NumberedItems(built, slots, items, at) && |items| < |slots|
    requires NumberedSlot(built, slot, t, at + SizeItems(items))
    ensures NumberedItems(built, slots[|items| := slot], items + [t], at)
  {
    var more, next := items + [t], slots[|items| := slot];
    forall i | 0 <= i < |more| ensures NumberedSlot(built, next[i], more[i], at + SizeItems(more[..i])) {
      if i < |items| {
        assert more[..i] == items[..i] && next[i] == slots[i];
      } else {
        assert more[..i] == items;
      }
    }
  }

  lemma SizeItemsMore(items: seq<Tree>, t: Tree)
    ensures SizeItems(items + [t]) == SizeItems(items) + Size(t)
  {
    assert (items + [t])[..|items|] == items;
  }

  lemma PropertiesMore(built: Heap, properties: seq<Property>, fields: seq<Field>, at: Ref, p: Property, f: Field)
    requires NumberedFields(built, properties, fields, at) && NumberedProperty(built, p, f, at + SizeFields(fields))
    ensures NumberedFields(built, properties + [p], fields + [f], at)
  {
    var more, next := fields + [f], properties + [p];
    forall i | 0 <= i < |more| ensures NumberedProperty(built, next[i], more[i], at + SizeFields(more[..i])) {
      if i < |fields| {
        PropertyStays(built, properties, fields, at, p, f, i);
      } else {
        PropertyLast(built, properties, fields, at, p, f);
      }
    }
  }

  lemma PropertyStays(built: Heap, properties: seq<Property>, fields: seq<Field>, at: Ref, p: Property, f: Field, i: nat)
    requires i < |fields| == |properties| && NumberedProperty(built, properties[i], fields[i], at + SizeFields(fields[..i]))
    ensures NumberedProperty(built, (properties + [p])[i], (fields + [f])[i], at + SizeFields((fields + [f])[..i]))
  {
    assert (fields + [f])[..i] == fields[..i];
  }

  lemma PropertyLast(built: Heap, properties: seq<Property>, fields: seq<Field>, at: Ref, p: Property, f: Field)
    requires |fields| == |properties| && NumberedProperty(built, p, f, at + SizeFields(fields))
    ensures var n := |fields|;
            NumberedProperty(built, (properties + [p])[n], (fields + [f])[n], at + SizeFields((fields + [f])[..n]))
  {
    assert (fields + [f])[..|fields|] == fields;
  }

  lemma SizeFieldsMore(fields: seq<Field>, f: Field)
    ensures SizeFields(fields + [f]) == SizeFields(fields) + Size(f.value)
  {
    assert (fields + [f])[..|fields|] == fields;
  }

  /** A full array has no holes. */
  lemma ItemsFill(built: Heap, slots: seq<Option<Descriptor>>, items: seq<Tree>, at: Ref)
    requires NumberedItems(built, slots, items, at) && |items| == |slots|
    ensures forall i :: 0 <= i < |slots| ==> slots[i].Some? && IsData(slots[i].value)
  {
    forall i | 0 <= i < |slots| ensures slots[i].Some? && IsData(slots[i].value) {
      assert NumberedSlot(built, slots[i], items[i], at + SizeItems(items[..i]));
    }
  }

  lemma PropertiesFill(built: Heap, properties: seq<Property>, fields: seq<Field>, at: Ref)
    requires NumberedFields(built, properties, fields, at)
    ensures forall i :: 0 <= i < |properties| ==> !properties[i].symbol && IsData(properties[i].descriptor)
  {
    forall i | 0 <= i < |properties| ensures !properties[i].symbol && IsData(properties[i].descriptor) {
      assert NumberedProperty(built, properties[i], fields[i], at + SizeFields(fields[..i]));
    }
  }

  lemma {:induction false} CopiedAll(properties: seq<Property>)
    ensures Copied(properties, false) == properties
  {
    if properties != [] {
      CopiedAll(properties[..|properties| - 1]);
    }
  }

  /** So what the copy unfolds to is the tree. */
  lemma {:induction false} NumberedUnfolds(built: Heap, v: Value, t: Tree, at: Ref)
    requires Numbered(built, v, t, at)
    ensures Unfolds(built, v, t, false)
    decreases t, 1
  {
    match t
    case TArray(items) => ItemsUnfold(built, built[at].slots, items, at + 1);
    case TObject(_, fields) =>
      CopiedAll(built[at].properties);
      PropertiesUnfold(built, built[at].properties, fields, at + 1);
    case _ =>
  }

  lemma {:induction false} ItemsUnfold(built: Heap, slots: seq<Option<Descriptor>>, items: seq<Tree>, at: Ref)
    requires NumberedItems(built, slots, items, at)
    ensures forall i :: 0 <= i < |items| ==>
              slots[i].Some? && IsData(slots[i].value) && Unfolds(built, slots[i].value.value, items[i], false)
    decreases items, 0
  {
    forall i | 0 <= i < |items|
      ensures slots[i].Some? && IsData(slots[i].value) && Unfolds(built, slots[i].value.value, items[i], false)
    {
      assert NumberedSlot(built, slots[i], items[i], at + SizeItems(items[..i]));
      NumberedUnfolds(built, slots[i].value.value, items[i], at + SizeItems(items[..i]));
    }
  }

  lemma {:induction false} PropertiesUnfold(built: Heap, properties: seq<Property>, fields: seq<Field>, at: Ref)
    requires NumberedFields(built, properties, fields, at)
    ensures forall i :: 0 <= i < |fields| ==>
              && properties[i].key == fields[i].key && properties[i].descriptor.Data?
              && Unfolds(built, properties[i].descriptor.value, fields[i].value, false)
    decreases fields, 0
  {
    forall i | 0 <= i < |fields|
      ensures && properties[i].key == fields[i].key && properties[i].descriptor.Data?
              && Unfolds(built, properties[i].descriptor.value, fields[i].value, false)
    {
      assert NumberedProperty(built, properties[i], fields[i], at + SizeFields(fields[..i]));
      NumberedUnfolds(built, properties[i].descriptor.value, fields[i].value, at + SizeFields(fields[..i]));
    }
  }

  // ---- The walks ----

  datatype Result<T> = Ok(value: T) | Err(message: string)

  function Count(slots: seq<Option<Descriptor>>): (n: nat)
    ensures n <= |slots|
    ensures n == |slots| <==> forall i :: 0 <= i < |slots| ==> slots[i].Some?
  {
    if slots == [] then 0
    else Count(slots[..|slots| - 1]) + if slots[|slots| - 1].Some? then 1 else 0
  }

  /** `Reflect.ownKeys(array).length`: the slots that are there, the other keys, and `length`. */
  function OwnKeys(cell: Cell): nat
    requires cell.ArrayCell?
  {
    Count(cell.slots) + cell.names + cell.symbols + 1
  }

  lemma {:induction false} CopiedPrefix(properties: seq<Property>, n: nat, omit: bool)
    requires n <= |properties|
    ensures Copied(properties[..n], omit) <= Copied(properties, omit)
    ensures n < |properties| && !(omit && properties[n].descriptor.Data? && properties[n].descriptor.value.Undefined?) ==>
              |Copied(properties[..n], omit)| < |Copied(properties, omit)|
              && Copied(properties, omit)[|Copied(properties[..n], omit)|] == properties[n]
    decreases |properties| - n
  {
    if n < |properties| {
      CopiedPrefix(properties, n + 1, omit);
      assert properties[..n + 1][..n] == properties[..n];
    } else {
      assert properties[..n] == properties;
    }
  }

  ghost predicate NoUnfolding(heap: Heap, v: Value, omit: bool, avoid: set<Ref>) {
    forall t :: !UnfoldsAvoiding(heap, v, t, omit, avoid)
  }

  /** A walk found the tree of a value, or that it has none. */
  ghost predicate CopyOf(heap: Heap, v: Value, ok: bool, t: Tree, omit: bool, avoid: set<Ref>) {
    if ok then UnfoldsAvoiding(heap, v, t, omit, avoid) else NoUnfolding(heap, v, omit, avoid)
  }

  /** A slot of an array that is being filled gets its value, after the cells of the items before. */
  lemma SlotFilled(before: Heap, built: Heap, at: Ref, items: seq<Tree>, v: Value, t: Tree)
    requires at in before && before[at].ArrayCell? && NumberedItems(before, before[at].slots, items, at + 1)
    requires KeepsBetween(before, built, at, at + 1 + SizeItems(items)) && |items| < |before[at].slots|
    requires Numbered(built, v, t, at + 1 + SizeItems(items))
    ensures var slots := before[at].slots[|items| := Some(Data(v, true))];
            NumberedItems(built[at := before[at].(slots := slots)], slots, items + [t], at + 1)
  {
    var slots := before[at].slots[|items| := Some(Data(v, true))];
    ItemsKept(before, built, before[at].slots, items, at + 1);
    ItemsMore(built, before[at].slots, items, at + 1, Some(Data(v, true)), t);
    ItemsKept(built, built[at := before[at].(slots := slots)], slots, items + [t], at + 1);
  }

  lemma PropertyFilled(before: Heap, built: Heap, at: Ref, fields: seq<Field>, v: Value, f: Field)
    requires at in before && before[at].ObjectCell? && NumberedFields(before, before[at].properties, fields, at + 1)
    requires KeepsBetween(before, built, at, at + 1 + SizeFields(fields))
    requires Numbered(built, v, f.value, at + 1 + SizeFields(fields))
    ensures var properties := before[at].properties + [Property(f.key, false, Data(v, true))];
            NumberedFields(built[at := before[at].(properties := properties)], properties, fields + [f], at + 1)
  {
    var properties := before[at].properties + [Property(f.key, false, Data(v, true))];
    FieldsKept(before, built, before[at].properties, fields, at + 1);
    PropertiesMore(built, before[at].properties, fields, at + 1, Property(f.key, false, Data(v, true)), f);
    FieldsKept(built, built[at := before[at].(properties := properties)], properties, fields + [f], at + 1);
  }

  /** Fields are what properties unfold to. */
  predicate FieldsOf(heap: Heap, kept: seq<Property>, fields: seq<Field>, omit: bool, avoid: set<Ref>) {
    && |fields| == |kept|
    && forall i :: 0 <= i < |fields| ==>
         && fields[i].key == kept[i].key && kept[i].descriptor.Data?
         && UnfoldsAvoiding(heap, kept[i].descriptor.value, fields[i].value, omit, avoid)
  }

  lemma FieldsUnfold(heap: Heap, ref: Ref, fields: seq<Field>, omit: bool, active: set<Ref>)
    requires ref in heap && ref in active && heap[ref].ObjectCell? && PlainProperties(heap[ref])
    requires FieldsOf(heap, Copied(heap[ref].properties, omit), fields, omit, active)
    ensures UnfoldsAvoiding(heap, Object(ref), TObject(heap[ref].prototype, fields), omit, active - {ref})
  {
    assert active - {ref} + {ref} == active;
  }

  predicate Omitted(p: Property, omit: bool) {
    omit && p.descriptor.Data? && p.descriptor.value.Undefined?
  }

  function WithField(fields: seq<Field>, field: Option<Field>): seq<Field> {
    if field.Some? then fields + [field.value] else fields
  }

  /** One property more. */
  lemma FieldsMore(heap: Heap, properties: seq<Property>, n: nat, fields: seq<Field>, field: Option<Field>, omit: bool, avoid: set<Ref>)
    requires n < |properties| && FieldsOf(heap, Copied(properties[..n], omit), fields, omit, avoid)
    requires if Omitted(properties[n], omit) then field == None
             else field.Some? && field.value.key == properties[n].key && properties[n].descriptor.Data?
                  && UnfoldsAvoiding(heap, properties[n].descriptor.value, field.value.value, omit, avoid)
    ensures FieldsOf(heap, Copied(properties[..n + 1], omit), WithField(fields, field), omit, avoid)
  {
    assert properties[..n + 1][..n] == properties[..n];
  }

  lemma BadProperty(heap: Heap, ref: Ref, i: nat, omit: bool, avoid: set<Ref>)
    requires ref in heap && heap[ref].ObjectCell? && i < |heap[ref].properties|
    requires heap[ref].properties[i].symbol || !IsData(heap[ref].properties[i].descriptor)
    ensures NoUnfolding(heap, Object(ref), omit, avoid)
  {}

  lemma BadField(heap: Heap, ref: Ref, i: nat, omit: bool, avoid: set<Ref>)
    requires ref in heap && heap[ref].ObjectCell? && i < |heap[ref].properties| && IsData(heap[ref].properties[i].descriptor)
    requires !Omitted(heap[ref].properties[i], omit)
    requires NoUnfolding(heap, heap[ref].properties[i].descriptor.value, omit, avoid + {ref})
    ensures NoUnfolding(heap, Object(ref), omit, avoid)
  {
    var properties := heap[ref].properties;
    CopiedPrefix(properties, i, omit);
    var k := |Copied(properties[..i], omit)|;
    forall t | UnfoldsAvoiding(heap, Object(ref), t, omit, avoid) ensures false {
      FieldUnfolds(heap, ref, t, k, omit, avoid);
    }
  }

  /** The first slots unfold to the items. */
  predicate ItemsOf(heap: Heap, slots: seq<Option<Descriptor>>, items: seq<Tree>, omit: bool, avoid: set<Ref>) {
    && |items| <= |slots|
    && forall k {:trigger slots[k]} :: 0 <= k < |items| ==>
         slots[k].Some? && IsData(slots[k].value) && UnfoldsAvoiding(heap, slots[k].value.value, items[k], omit, avoid)
  }

  lemma ItemsOfMore(heap: Heap, slots: seq<Option<Descriptor>>, items: seq<Tree>, t: Tree, omit: bool, avoid: set<Ref>)
    requires ItemsOf(heap, slots, items, omit, avoid) && |items| < |slots|
    requires slots[|items|].Some? && IsData(slots[|items|].value)
    requires UnfoldsAvoiding(heap, slots[|items|].value.value, t, omit, avoid)
    ensures ItemsOf(heap, slots, items + [t], omit, avoid)
  {}

  lemma ItemsOfAll(heap: Heap, ref: Ref, items: seq<Tree>, omit: bool, active: set<Ref>)
    requires ref in heap && ref in active && heap[ref].ArrayCell? && heap[ref].plain && OwnKeys(heap[ref]) == |heap[ref].slots| + 1
    requires ItemsOf(heap, heap[ref].slots, items, omit, active) && |items| == |heap[ref].slots|
    ensures UnfoldsAvoiding(heap, Object(ref), TArray(items), omit, active - {ref})
  {
    assert active - {ref} + {ref} == active;
  }

  lemma BadSlot(heap: Heap, ref: Ref, i: nat, omit: bool, avoid: set<Ref>)
    requires ref in heap && heap[ref].ArrayCell? && i < |heap[ref].slots|
    requires heap[ref].slots[i].None? || !IsData(heap[ref].slots[i].value)
    ensures NoUnfolding(heap, Object(ref), omit, avoid)
  {}

  lemma BadItem(heap: Heap, ref: Ref, i: nat, omit: bool, active: set<Ref>)
    requires ref in heap && ref in active && heap[ref].ArrayCell? && i < |heap[ref].slots|
    requires heap[ref].slots[i].Some? && IsData(heap[ref].slots[i].value)
    requires NoUnfolding(heap, heap[ref].slots[i].value.value, omit, active)
    ensures NoUnfolding(heap, Object(ref), omit, active - {ref})
  {
    assert active - {ref} + {ref} == active;
    forall t | UnfoldsAvoiding(heap, Object(ref), t, omit, active - {ref}) ensures false {
      ItemUnfolds(heap, ref, t, i, omit, active - {ref});
    }
  }

  lemma ItemUnfolds(heap: Heap, ref: Ref, t: Tree, i: nat, omit: bool, avoid: set<Ref>)
    requires ref in heap && heap[ref].ArrayCell? && UnfoldsAvoiding(heap, Object(ref), t, omit, avoid) && i < |heap[ref].slots|
    ensures t.TArray? && i < |t.items| && heap[ref].slots[i].Some? && heap[ref].slots[i].value.Data?
    ensures UnfoldsAvoiding(heap, heap[ref].slots[i].value.value, t.items[i], omit, avoid + {ref})
  {}

  lemma FieldUnfolds(heap: Heap, ref: Ref, t: Tree, k: nat, omit: bool, avoid: set<Ref>)
    requires ref in heap && heap[ref].ObjectCell? && UnfoldsAvoiding(heap, Object(ref), t, omit, avoid)
    requires k < |Copied(heap[ref].properties, omit)|
    ensures t.TObject? && k < |t.fields| && Copied(heap[ref].properties, omit)[k].descriptor.Data?
    ensures UnfoldsAvoiding(heap, Copied(heap[ref].properties, omit)[k].descriptor.value, t.fields[k].value, omit, avoid + {ref})
  {}

  class Walk {
    /** The objects on the way from the root to where the walk is. */
    var active: set<Ref>
    /** The arrays and objects made, from the first free place on, and where the next one goes. */
    var built: Heap
    var next: Ref
    ghost const first: Ref

    constructor (next: Ref)
      ensures active == {} && built == map[] && this.next == next == first && Valid()
    {
      active, built, this.next, first := {}, map[], next, next;
    }

    ghost predicate Valid()
      reads this
    {
      first <= next && forall r :: r in built ==> first <= r < next
    }

    /** What was made before stays as it was. */
    twostate predicate Grown(limit: Ref)
      reads this
    {
      Valid() && old(next) <= next && KeepsBetween(old(built), built, 0, limit)
    }

    method Copy(heap: Heap, v: Value, omitUndefined: bool) returns (r: Result<Value>, ghost t: Tree)
      requires Closed(heap) && ValueIn(heap, v) && Valid()
      modifies this
      ensures active == old(active) && Grown(old(next)) && CopyOf(heap, v, r.Ok?, t, omitUndefined, active)
      ensures r.Ok? ==> Numbered(built, r.value, t, old(next)) && next == old(next) + Size(t)
      decreases heap.Keys - active, 2
    {
      t := TNull;
      match v {
        case Null => return Ok(v), TNull;
        case Str(s) => return Ok(v), TStr(s);
        case Bool(b) => return Ok(v), TBool(b);
        case Num(n) => return Ok(v), TNum(n);
        case NonFinite => return Err("Value contains a non-finite number and is not strict JSON"), TNull;
        case Undefined => return Err("Value contains a non-JSON undefined; expected strict JSON"), TNull;
        case NonJson(name) => return Err("Value contains a non-JSON " + name + "; expected strict JSON"), TNull;
        case Object(ref) =>
          if ref in active {
            return Err("Value contains cycles and is not strict JSON"), TNull;
          }
          active := active + {ref};
          r, t := CopyObject(heap, ref, omitUndefined);
          active := active - {ref};
          assert active == old(active);
      }
    }

    /** The object just entered. */
    method CopyObject(heap: Heap, ref: Ref, omitUndefined: bool) returns (r: Result<Value>, ghost t: Tree)
      requires Closed(heap) && ref in heap && ref in active && Valid()
      modifies this
      ensures active == old(active) && Grown(old(next)) && CopyOf(heap, Object(ref), r.Ok?, t, omitUndefined, active - {ref})
      ensures r.Ok? ==> Numbered(built, r.value, t, old(next)) && next == old(next) + Size(t)
      decreases heap.Keys - active, 5
    {
      assert active - {ref} + {ref} == active;
      t := TNull;
      match heap[ref] {
        case ArrayCell(plain, slots, _, _) =>
          if !plain || OwnKeys(heap[ref]) != |slots| + 1 {
            return Err("Value must contain strict JSON dense plain arrays"), TNull;
          }
          r, t := CopyArray(heap, ref, omitUndefined);
        case ObjectCell(prototype, properties) =>
          if prototype == OtherPrototype {
            return Err("Value must contain strict JSON plain objects or arrays"), TNull;
          }
          r, t := CopyRecord(heap, ref, omitUndefined);
      }
    }

    // ---- Arrays ----

    /** The array at a reference holds its first items. */
    ghost predicate FillingArray(at: Ref, items: seq<Tree>, length: nat)
      reads this
    {
      && Valid() && at in built && built[at].ArrayCell? && built[at].plain && built[at].names == 0 && built[at].symbols == 0
      && |built[at].slots| == length && NumberedItems(built, built[at].slots, items, at + 1)
      && next == at + 1 + SizeItems(items)
    }

    method CopyArray(heap: Heap, ref: Ref, omitUndefined: bool) returns (r: Result<Value>, ghost t: Tree)
      requires Closed(heap) && ref in heap && ref in active && heap[ref].ArrayCell? && heap[ref].plain && Valid()
      requires OwnKeys(heap[ref]) == |heap[ref].slots| + 1
      modifies this
      ensures active == old(active) && Grown(old(next)) && CopyOf(heap, Object(ref), r.Ok?, t, omitUndefined, active - {ref})
      ensures r.Ok? ==> Numbered(built, r.value, t, old(next)) && next == old(next) + Size(t)
      decreases heap.Keys - active, 4
    {
      var at := next;
      built := built[at := ArrayCell(true, seq(|heap[ref].slots|, _ => None), 0, 0)];
      next := next + 1;
      var failed;
      ghost var items;
      failed, items := CopyItems(heap, ref, at, omitUndefined);
      t := TArray(items);
      if failed.Some? {
        return Err(failed.value), t;
      }
      ItemsFill(built, built[at].slots, items, at + 1);
      r := Ok(Object(at));
    }

    method CopyItems(heap: Heap, ref: Ref, at: Ref, omitUndefined: bool) returns (failed: Option<string>, ghost items: seq<Tree>)
      requires Closed(heap) && ref in heap && ref in active && heap[ref].ArrayCell? && heap[ref].plain
      requires OwnKeys(heap[ref]) == |heap[ref].slots| + 1 && FillingArray(at, [], |heap[ref].slots|)
      modifies this
      ensures active == old(active) && Grown(at)
      ensures CopyOf(heap, Object(ref), failed.None?, TArray(items), omitUndefined, active - {ref})
      ensures failed.None? ==> FillingArray(at, items, |heap[ref].slots|) && |items| == |heap[ref].slots|
      decreases heap.Keys - active, 3, 2
    {
      ghost var path := active;
      var slots := heap[ref].slots;
      items := [];
      for i := 0 to |slots|
        invariant active == path && |items| == i && FillingArray(at, items, |slots|) && Grown(at)
        invariant ItemsOf(heap, slots, items, omitUndefined, path)
      {
        ghost var item;
        failed, item := CopyItem(heap, ref, at, i, omitUndefined, items);
        if failed.Some? {
          return;
        }
        ItemsOfMore(heap, slots, items, item, omitUndefined, path);
        items := items + [item];
      }
      ItemsOfAll(heap, ref, items, omitUndefined, path);
      failed := None;
    }

    method CopyItem(heap: Heap, ref: Ref, at: Ref, i: nat, omitUndefined: bool, ghost items: seq<Tree>)
      returns (failed: Option<string>, ghost item: Tree)
      requires Closed(heap) && ref in heap && ref in active && heap[ref].ArrayCell? && |items| == i < |heap[ref].slots|
      requires FillingArray(at, items, |heap[ref].slots|)
      modifies this
      ensures active == old(active) && Grown(at)
      ensures failed.None? ==>
                var slot := heap[ref].slots[i];
                slot.Some? && IsData(slot.value) && UnfoldsAvoiding(heap, slot.value.value, item, omitUndefined, active)
      ensures failed.None? ==> FillingArray(at, items + [item], |heap[ref].slots|)
      ensures failed.Some? ==> NoUnfolding(heap, Object(ref), omitUndefined, active - {ref})
      decreases heap.Keys - active, 3, 1
    {
      var slot := heap[ref].slots[i];
      if slot.None? || !slot.value.enumerable || slot.value.Accessor? {
        BadSlot(heap, ref, i, omitUndefined, active - {ref});
        return Some("Value must contain strict JSON enumerable indexed data properties"), TNull;
      }
      failed, item := CopySlot(heap, slot.value.value, at, i, |heap[ref].slots|, omitUndefined, items);
      if failed.Some? {
        BadItem(heap, ref, i, omitUndefined, active);
      }
    }

    method CopySlot(heap: Heap, v: Value, at: Ref, i: nat, ghost length: nat, omitUndefined: bool, ghost items: seq<Tree>)
      returns (failed: Option<string>, ghost item: Tree)
      requires Closed(heap) && ValueIn(heap, v) && |items| == i < length && FillingArray(at, items, length)
      modifies this
      ensures active == old(active) && Grown(at) && CopyOf(heap, v, failed.None?, item, omitUndefined, active)
      ensures failed.None? ==> FillingArray(at, items + [item], length)
      decreases heap.Keys - active, 3, 0
    {
      var copied;
      copied, item := Copy(heap, v, omitUndefined);
      if copied.Err? {
        return Some(copied.message), item;
      }
      SlotFilled(old(built), built, at, items, copied.value, item);
      SizeItemsMore(items, item);
      built := built[at := built[at].(slots := built[at].slots[i := Some(Data(copied.value, true))])];
      failed := None;
    }

    // ---- Objects ----

    /** The object at a reference holds its first fields. */
    ghost predicate FillingObject(at: Ref, prototype: Prototype, fields: seq<Field>)
      reads this
    {
      && Valid() && at in built && built[at].ObjectCell? && built[at].prototype == prototype
      && NumberedFields(built, built[at].properties, fields, at + 1) && next == at + 1 + SizeFields(fields)
    }

    method CopyRecord(heap: Heap, ref: Ref, omitUndefined: bool) returns (r: Result<Value>, ghost t: Tree)
      requires Closed(heap) && ref in heap && ref in active && heap[ref].ObjectCell? && heap[ref].prototype != OtherPrototype
      requires Valid()
      modifies this
      ensures active == old(active) && Grown(old(next)) && CopyOf(heap, Object(ref), r.Ok?, t, omitUndefined, active - {ref})
      ensures r.Ok? ==> Numbered(built, r.value, t, old(next)) && next == old(next) + Size(t)
      decreases heap.Keys - active, 4
    {
      var at := next;
      built := built[at := ObjectCell(heap[ref].prototype, [])];
      next := next + 1;
      var failed;
      ghost var fields;
      failed, fields := CopyFields(heap, ref, at, omitUndefined);
      t := TObject(heap[ref].prototype, fields);
      if failed.Some? {
        return Err(failed.value), t;
      }
      PropertiesFill(built, built[at].properties, fields, at + 1);
      r := Ok(Object(at));
    }

    /** One property: its field, or nothing when it is left out. */
    method CopyField(heap: Heap, ref: Ref, at: Ref, i: nat, omitUndefined: bool, ghost fields: seq<Field>)
      returns (failed: Option<string>, ghost field: Option<Field>)
      requires Closed(heap) && ref in heap && ref in active && heap[ref].ObjectCell? && i < |heap[ref].properties|
      requires FillingObject(at, heap[ref].prototype, fields)
      modifies this
      ensures active == old(active) && Grown(at)
      ensures failed.None? ==>
                var p := heap[ref].properties[i];
                && !p.symbol && IsData(p.descriptor)
                && (if Omitted(p, omitUndefined) then field == None
                    else field.Some? && field.value.key == p.key
                         && UnfoldsAvoiding(heap, p.descriptor.value, field.value.value, omitUndefined, active))
      ensures failed.None? ==> FillingObject(at, heap[ref].prototype, WithField(fields, field))
      ensures failed.Some? ==> NoUnfolding(heap, Object(ref), omitUndefined, active - {ref})
      decreases heap.Keys - active, 3, 1
    {
      var p := heap[ref].properties[i];
      field := None;
      if p.symbol {
        BadProperty(heap, ref, i, omitUndefined, active - {ref});
        return Some("Value contains a symbol key and is not strict JSON"), None;
      }
      if !p.descriptor.enumerable || p.descriptor.Accessor? {
        BadProperty(heap, ref, i, omitUndefined, active - {ref});
        return Some("Value must contain strict JSON enumerable data properties"), None;
      }
      if p.descriptor.value == Undefined && omitUndefined {
        return None, None;
      }
      ghost var t;
      failed, t := CopyValue(heap, p.key, p.descriptor.value, at, omitUndefined, heap[ref].prototype, fields);
      field := Some(Field(p.key, t));
      if failed.Some? {
        assert active - {ref} + {ref} == active;
        BadField(heap, ref, i, omitUndefined, active - {ref});
      }
    }

    method CopyValue(
      heap: Heap, key: string, v: Value, at: Ref, omitUndefined: bool, ghost prototype: Prototype, ghost fields: seq<Field>)
      returns (failed: Option<string>, ghost t: Tree)
      requires Closed(heap) && ValueIn(heap, v) && FillingObject(at, prototype, fields)
      modifies this
      ensures active == old(active) && Grown(at) && CopyOf(heap, v, failed.None?, t, omitUndefined, active)
      ensures failed.None? ==> FillingObject(at, prototype, fields + [Field(key, t)])
      decreases heap.Keys - active, 3, 0
    {
      var copied;
      copied, t := Copy(heap, v, omitUndefined);
      if copied.Err? {
        return Some(copied.message), t;
      }
      PutProperty(at, key, copied.value, old(built), prototype, fields, t);
      failed := None;
    }

    /** `defineData(result, key, value)`. */
    method PutProperty(
      at: Ref, key: string, v: Value, ghost before: Heap, ghost prototype: Prototype, ghost fields: seq<Field>, ghost t: Tree)
      requires Valid() && at in before && before[at].ObjectCell? && before[at].prototype == prototype
      requires NumberedFields(before, before[at].properties, fields, at + 1)
      requires KeepsBetween(before, built, 0, at + 1 + SizeFields(fields))
      requires Numbered(built, v, t, at + 1 + SizeFields(fields)) && next == at + 1 + SizeFields(fields) + Size(t)
      modifies this`built
      ensures KeepsBetween(before, built, 0, at) && FillingObject(at, prototype, fields + [Field(key, t)])
    {
      PropertyFilled(before, built, at, fields, v, Field(key, t));
      SizeFieldsMore(fields, Field(key, t));
      built := built[at := built[at].(properties := built[at].properties + [Property(key, false, Data(v, true))])];
    }

    method CopyNextField(heap: Heap, ref: Ref, at: Ref, i: nat, omitUndefined: bool, ghost fields: seq<Field>)
      returns (failed: Option<string>, ghost more: seq<Field>)
      requires Closed(heap) && ref in heap && ref in active && heap[ref].ObjectCell? && i < |heap[ref].properties|
      requires FillingObject(at, heap[ref].prototype, fields)
      requires FieldsOf(heap, Copied(heap[ref].properties[..i], omitUndefined), fields, omitUndefined, active)
      modifies this
      ensures active == old(active) && Grown(at)
      ensures failed.None? ==> !heap[ref].properties[i].symbol && IsData(heap[ref].properties[i].descriptor)
      ensures failed.None? ==> FieldsOf(heap, Copied(heap[ref].properties[..i + 1], omitUndefined), more, omitUndefined, active)
      ensures failed.None? ==> FillingObject(at, heap[ref].prototype, more)
      ensures failed.Some? ==> NoUnfolding(heap, Object(ref), omitUndefined, active - {ref})
      decreases heap.Keys - active, 3, 2
    {
      ghost var field;
      failed, field := CopyField(heap, ref, at, i, omitUndefined, fields);
      more := WithField(fields, field);
      if failed.None? {
        FieldsMore(heap, heap[ref].properties, i, fields, field, omitUndefined, active);
      }
    }

    method CopyFields(heap: Heap, ref: Ref, at: Ref, omitUndefined: bool) returns (failed: Option<string>, ghost fields: seq<Field>)
      requires Closed(heap) && ref in heap && ref in active && heap[ref].ObjectCell? && heap[ref].prototype != OtherPrototype
      requires FillingObject(at, heap[ref].prototype, [])
      modifies this
      ensures active == old(active) && Grown(at)
      ensures CopyOf(heap, Object(ref), failed.None?, TObject(heap[ref].prototype, fields), omitUndefined, active - {ref})
      ensures failed.None? ==> FillingObject(at, heap[ref].prototype, fields)
      decreases heap.Keys - active, 3, 3
    {
      ghost var path := active;
      var properties := heap[ref].properties;
      fields := [];
      for i := 0 to |properties|
        invariant active == path && FieldsOf(heap, Copied(properties[..i], omitUndefined), fields, omitUndefined, path)
        invariant FillingObject(at, heap[ref].prototype, fields) && Grown(at)
        invariant forall k :: 0 <= k < i ==> !properties[k].symbol && IsData(properties[k].descriptor)
      {
        failed, fields := CopyNextField(heap, ref, at, i, omitUndefined, fields);
        if failed.Some? {
          return;
        }
      }
      assert properties[..|properties|] == properties;
      FieldsUnfold(heap, ref, fields, omitUndefined, path);
      failed := None;
    }

    // ---- Checking ----

    method Check(heap: Heap, v: Value) returns (ok: bool)
      requires Closed(heap) && ValueIn(heap, v)
      modifies this
      ensures active == old(active) && (ok <==> !NoUnfolding(heap, v, false, active))
      decreases heap.Keys - active, 2
    {
      match v {
        case Null => assert UnfoldsAvoiding(heap, v, TNull, false, active); return true;
        case Str(s) => assert UnfoldsAvoiding(heap, v, TStr(s), false, active); return true;
        case Bool(b) => assert UnfoldsAvoiding(heap, v, TBool(b), false, active); return true;
        case Num(n) => assert UnfoldsAvoiding(heap, v, TNum(n), false, active); return true;
        case NonFinite => return false;
        case Undefined => return false;
        case NonJson(_) => return false;
        case Object(ref) =>
          match heap[ref] {
            case ArrayCell(plain, slots, _, symbols) =>
              if !plain || OwnKeys(heap[ref]) != |slots| + 1 || symbols > 0 || ref in active {
                return false;
              }
              active := active + {ref};
              ok := CheckItems(heap, ref);
            case ObjectCell(prototype, properties) =>
              if prototype == OtherPrototype || (exists i :: 0 <= i < |properties| && properties[i].symbol) || ref in active {
                return false;
              }
              active := active + {ref};
              ok := CheckProperties(heap, ref);
          }
          active := active - {ref};
          assert active == old(active);
      }
    }

    method CheckItems(heap: Heap, ref: Ref) returns (ok: bool)
      requires Closed(heap) && ref in heap && ref in active && heap[ref].ArrayCell? && heap[ref].plain
      requires OwnKeys(heap[ref]) == |heap[ref].slots| + 1
      modifies this
      ensures active == old(active) && (ok <==> !NoUnfolding(heap, Object(ref), false, active - {ref}))
      decreases heap.Keys - active, 3
    {
      ghost var path := active;
      var slots := heap[ref].slots;
      ghost var items: seq<Tree> := [];
      for i := 0 to |slots|
        invariant active == path && |items| == i && ItemsOf(heap, slots, items, false, path)
      {
        if slots[i].None? || !slots[i].value.enumerable || slots[i].value.Accessor? {
          BadSlot(heap, ref, i, false, path - {ref});
          return false;
        }
        var item := Check(heap, slots[i].value.value);
        if !item {
          BadItem(heap, ref, i, false, path);
          return false;
        }
        ghost var t :| UnfoldsAvoiding(heap, slots[i].value.value, t, false, path);
        ItemsOfMore(heap, slots, items, t, false, path);
        items := items + [t];
      }
      ItemsOfAll(heap, ref, items, false, path);
      return true;
    }

    method CheckProperties(heap: Heap, ref: Ref) returns (ok: bool)
      requires Closed(heap) && ref in heap && ref in active && heap[ref].ObjectCell? && heap[ref].prototype != OtherPrototype
      requires forall i :: 0 <= i < |heap[ref].properties| ==> !heap[ref].properties[i].symbol
      modifies this
      ensures active == old(active) && (ok <==> !NoUnfolding(heap, Object(ref), false, active - {ref}))
      decreases heap.Keys - active, 3
    {
      assert active - {ref} + {ref} == active;
      var properties := heap[ref].properties;
      ghost var fields: seq<Field> := [];
      for i := 0 to |properties|
        invariant active == old(active) && FieldsOf(heap, Copied(properties[..i], false), fields, false, active)
        invariant forall k :: 0 <= k < i ==> IsData(properties[k].descriptor)
      {
        var d := properties[i].descriptor;
        if !d.enumerable || d.Accessor? {
          BadProperty(heap, ref, i, false, active - {ref});
          return false;
        }
        var value := Check(heap, d.value);
        if !value {
          BadField(heap, ref, i, false, active - {ref});
          return false;
        }
        ghost var t :| UnfoldsAvoiding(heap, d.value, t, false, active);
        FieldsMore(heap, properties, i, fields, Some(Field(properties[i].key, t)), false, active);
        fields := fields + [Field(properties[i].key, t)];
      }
      assert properties[..|properties|] == properties;
      FieldsUnfold(heap, ref, fields, false, active);
      return true;
    }
  }

  // ---- The two entry points ----

  /** Copying makes new arrays and objects alone, one for every place in the tree the value unfolds to, in which nothing of
      the original is left and nothing is shared; it fails exactly when there is no such finite strict-JSON tree: for a
      cycle, or for anything not strict JSON. Objects that are shared are copied once for every way to them. */
  method CopyJson(heap: Heap, next: Ref, v: Value, omitUndefinedProperties: bool)
    returns (r: Result<Value>, built: Heap, ghost t: Tree)
    requires Closed(heap) && ValueIn(heap, v) && forall ref :: ref in heap ==> ref < next
    ensures r.Ok? ==> Unfolds(heap, v, t, omitUndefinedProperties)
    ensures r.Ok? ==> Numbered(built, r.value, t, next) && Unfolds(built, r.value, t, false) && built.Keys !! heap.Keys
    ensures r.Err? ==> forall t :: !Unfolds(heap, v, t, omitUndefinedProperties)
  {
    var walk := new Walk(next);
    r, t := walk.Copy(heap, v, omitUndefinedProperties);
    built := walk.built;
    if r.Ok? {
      NumberedUnfolds(built, r.value, t, next);
    }
    forall t ensures Unfolds(heap, v, t, omitUndefinedProperties) <==> UnfoldsAvoiding(heap, v, t, omitUndefinedProperties, {}) {
      UnfoldsIffAvoiding(heap, v, t, omitUndefinedProperties);
    }
  }

  /** A value is strict JSON exactly when it unfolds to a finite tree, so exactly when it can be copied. */
  method IsJsonValue(heap: Heap, v: Value) returns (ok: bool)
    requires Closed(heap) && ValueIn(heap, v)
    ensures ok <==> exists t :: Unfolds(heap, v, t, false)
  {
    var walk := new Walk(0);
    ok := walk.Check(heap, v);
    forall t ensures Unfolds(heap, v, t, false) <==> UnfoldsAvoiding(heap, v, t, false, {}) {
      UnfoldsIffAvoiding(heap, v, t, false);
    }
    if ok {
      ghost var t :| UnfoldsAvoiding(heap, v, t, false, {});
      assert Unfolds(heap, v, t, false);
    }
  }
}
