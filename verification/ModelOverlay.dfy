/** The models of a provider: a fixed list, overlaid by the ones it fetched. */
module ModelOverlay {
  import opened Options

  datatype Model = Model(kind: string, id: string, data: string)

  type Key = (string, string)

  function KeyOf(m: Model): Key {
    (m.kind, m.id)
  }

  /** The first position of a key, or -1. */
  function FindIndex(models: seq<Model>, key: Key): (i: int)
    ensures -1 <= i < |models|
    ensures i >= 0 ==> KeyOf(models[i]) == key
    ensures forall j :: 0 <= j < (if i < 0 then |models| else i) ==> KeyOf(models[j]) != key
  {
    if models == [] then -1
    else if KeyOf(models[0]) == key then 0
    else
      var i := FindIndex(models[1..], key);
      if i < 0 then -1 else i + 1
  }

  /** What a reader of the list finds under a key. */
  function Find(models: seq<Model>, key: Key): Option<Model> {
    var i := FindIndex(models, key);
    if i < 0 then None else Some(models[i])
  }

  /** The last model of a key. */
  function FindLast(models: seq<Model>, key: Key): Option<Model> {
    if models == [] then None
    else if KeyOf(models[|models| - 1]) == key then Some(models[|models| - 1])
    else FindLast(models[..|models| - 1], key)
  }

  function Overlay(merged: seq<Model>, m: Model): seq<Model> {
    var i := FindIndex(merged, KeyOf(m));
    if i >= 0 then merged[i := m] else merged + [m]
  }

  function Overlaid(baseline: seq<Model>, dynamic: seq<Model>): seq<Model>
    decreases dynamic
  {
    if dynamic == [] then baseline
    else Overlay(Overlaid(baseline, dynamic[..|dynamic| - 1]), dynamic[|dynamic| - 1])
  }

  method CurrentModels(baseline: seq<Model>, dynamic: seq<Model>) returns (merged: seq<Model>)
    ensures merged == Overlaid(baseline, dynamic)
  {
    merged := baseline;
    for k := 0 to |dynamic|
      invariant merged == Overlaid(baseline, dynamic[..k])
    {
      assert dynamic[..k + 1][..k] == dynamic[..k];
      var index := FindIndex(merged, KeyOf(dynamic[k]));
      if index >= 0 {
        merged := merged[index := dynamic[k]];
      } else {
        merged := merged + [dynamic[k]];
      }
    }
    assert dynamic[..|dynamic|] == dynamic;
  }

  predicate Distinct(models: seq<Model>) {
    forall i, j :: 0 <= i < j < |models| ==> KeyOf(models[i]) != KeyOf(models[j])
  }

  lemma FindIndexIs(models: seq<Model>, key: Key, i: nat)
    requires i < |models| && KeyOf(models[i]) == key && forall j :: 0 <= j < i ==> KeyOf(models[j]) != key
    ensures FindIndex(models, key) == i
  {}

  lemma OverlayFinds(merged: seq<Model>, m: Model, key: Key)
    ensures Find(Overlay(merged, m), key) == if key == KeyOf(m) then Some(m) else Find(merged, key)
  {
    var after, at, i := Overlay(merged, m), FindIndex(merged, KeyOf(m)), FindIndex(merged, key);
    if key == KeyOf(m) {
      FindIndexIs(after, key, if at >= 0 then at else |merged|);
    } else if i >= 0 {
      FindIndexIs(after, key, i);
    }
  }

  /** A fetched model takes the place of the fixed one, and of several the last counts. */
  lemma {:induction false} OverlaidFinds(baseline: seq<Model>, dynamic: seq<Model>, key: Key)
    ensures Find(Overlaid(baseline, dynamic), key) == FindLast(dynamic, key).OrElse(Find(baseline, key))
    decreases dynamic
  {
    if dynamic != [] {
      var before, m := dynamic[..|dynamic| - 1], dynamic[|dynamic| - 1];
      OverlaidFinds(baseline, before, key);
      OverlayFinds(Overlaid(baseline, before), m, key);
    }
  }

  /** The fixed models keep their places, and no key comes up twice that did not before. */
  lemma {:induction false} OverlaidKeeps(baseline: seq<Model>, dynamic: seq<Model>)
    ensures |baseline| <= |Overlaid(baseline, dynamic)|
    ensures forall i :: 0 <= i < |baseline| ==> KeyOf(Overlaid(baseline, dynamic)[i]) == KeyOf(baseline[i])
    ensures Distinct(baseline) ==> Distinct(Overlaid(baseline, dynamic))
    decreases dynamic
  {
    if dynamic != [] {
      OverlaidKeeps(baseline, dynamic[..|dynamic| - 1]);
    }
  }
}
