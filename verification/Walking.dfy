/**
 The walk over a payload, for every order in which Go may range over its maps
 (internal/service/fingerprint.go:17-59), and exactly when its result depends on that order.
 */
module Walking {
  import opened Text
  import opened Json
  import opened Fingerprint
  import opened Sorting

  // ---- Visiting orders -----------------------------------------------------

  /** An order in which to visit a payload: for every object its keys in turn. */
  datatype Tour = Stop | Through(items: seq<Tour>) | Over(keys: seq<string>, below: seq<Tour>)

  predicate TourOf(t: Tour, v: Json)
    decreases v
  {
    match v
    case JObject(fields) =>
      && t.Over? && |t.keys| == |t.below| && Distinct(t.keys) && (forall k | k in fields :: k in t.keys)
      && forall i | 0 <= i < |t.keys| :: t.keys[i] in fields && TourOf(t.below[i], fields[t.keys[i]])
    case JArray(items) => t.Through? && |t.items| == |items| && forall i | 0 <= i < |items| :: TourOf(t.items[i], items[i])
    case _ => t.Stop?
  }

  /** below visits the fields under these keys. */
  predicate Visits(order: seq<string>, below: seq<Tour>, fields: map<string, Json>) {
    |order| == |below| && forall i | 0 <= i < |order| :: order[i] in fields && TourOf(below[i], fields[order[i]])
  }

  /** What the walk has written after visiting v in this order, starting from m. */
  function Walked(path: string, v: Json, t: Tour, m: Marks): Marks
    requires TourOf(t, v)
    decreases v, 1, 0
  {
    var here := m.(shapes := m.shapes[path := ShapeName(v)]);
    match v
    case JObject(_) => WalkedFields(path, v, t, |t.keys|, here)
    case JArray(_) => WalkedItems(path, v, t, |t.items|, here)
    case _ => here
  }

  /** The first n fields. */
  function WalkedFields(path: string, v: Json, t: Tour, n: nat, m: Marks): Marks
    requires v.JObject? && TourOf(t, v) && n <= |t.keys|
    decreases v, 0, n
  {
    if n == 0 then m
    else
      var before, k := WalkedFields(path, v, t, n - 1, m), t.keys[n - 1];
      var child := path + Show(Key(k));
      Walked(child, v.fields[k], t.below[n - 1], before.(keys := before.keys + [child]))
  }

  /** The first n items. */
  function WalkedItems(path: string, v: Json, t: Tour, n: nat, m: Marks): Marks
    requires v.JArray? && TourOf(t, v) && n <= |v.items|
    decreases v, 0, n
  {
    if n == 0 then m
    else Walked(path + Show(Item(n - 1)), v.items[n - 1], t.items[n - 1], WalkedItems(path, v, t, n - 1, m))
  }

  class Walk {
    var keys: seq<string>
    var shapes: map<string, string>

    constructor ()
      ensures Now() == Marks([], map[])
    {
      keys, shapes := [], map[];
    }

    ghost function Now(): Marks
      reads this
    {
      Marks(keys, shapes)
    }

    method WalkValue(path: string, v: Json) returns (ghost tour: Tour)
      modifies this
      ensures TourOf(tour, v) && Now() == Walked(path, v, tour, old(Now()))
      decreases v, 1
    {
      shapes := shapes[path := ShapeName(v)];
      if v.JObject? {
        tour := WalkFields(path, v);
      } else if v.JArray? {
        tour := WalkItems(path, v);
      } else {
        tour := Stop;
      }
    }

    /** The object case. A map range takes any remaining key next. */
    method WalkFields(path: string, v: Json) returns (ghost tour: Tour)
      requires v.JObject?
      modifies this
      ensures TourOf(tour, v) && Now() == WalkedFields(path, v, tour, |tour.keys|, old(Now()))
      decreases v, 0
    {
      hide TourOf, Walked, Visits, Distinct;
      var fields := v.fields;
      var pending := fields.Keys;
      ghost var order: seq<string>, below: seq<Tour> := [], [];
      NothingVisited(path, fields, Now());
      while pending != {}
        invariant pending <= fields.Keys && Distinct(order) && Visits(order, below, fields)
        invariant forall k :: k in order <==> k in fields.Keys - pending
        invariant Now() == FieldsSoFar(path, fields, order, below, old(Now()))
      {
        var k :| k in pending;
        pending := pending - {k};
        var childPath := path + Show(Key(k));
        keys := keys + [childPath];
        ghost var t := WalkValue(childPath, fields[k]);
        SoFarGrows(path, fields, order, below, k, t, old(Now()));
        DistinctGrows(order, k);
        order, below := order + [k], below + [t];
      }
      tour := Over(order, below);
      TourComplete(v, order, below);
      SoFarIsWalked(path, v, tour, |order|, old(Now()));
      assert order[..|order|] == order && below[..|below|] == below;
    }

    /** The array case. */
    method WalkItems(path: string, v: Json) returns (ghost tour: Tour)
      requires v.JArray?
      modifies this
      ensures TourOf(tour, v) && Now() == WalkedItems(path, v, tour, |v.items|, old(Now()))
      decreases v, 0
    {
      hide Walked, Show;
      var items := v.items;
      ghost var below: seq<Tour> := [];
      for i := 0 to |items|
        invariant |below| == i && forall j | 0 <= j < i :: TourOf(below[j], items[j])
        invariant Now() == ItemsSoFar(path, items, below, old(Now()))
      {
        ghost var t := WalkValue(path + Show(Item(i)), items[i]);
        ItemsGrow(path, items, below, t, old(Now()));
        below := below + [t];
      }
      tour := Through(below);
      assert below[..|items|] == below;
      ItemsAreWalked(path, v, tour, |items|, old(Now()));
    }
  }

  /** The fields visited so far, in a loop that does not know its whole tour yet. */
  ghost function FieldsSoFar(path: string, fields: map<string, Json>, order: seq<string>, below: seq<Tour>, m: Marks): Marks
    requires Visits(order, below, fields)
  {
    if order == [] then m
    else
      var n := |order| - 1;
      var before, k := FieldsSoFar(path, fields, order[..n], below[..n], m), order[n];
      var child := path + Show(Key(k));
      Walked(child, fields[k], below[n], before.(keys := before.keys + [child]))
  }

  lemma NothingVisited(path: string, fields: map<string, Json>, m: Marks)
    ensures Visits([], [], fields) && Distinct([]) && FieldsSoFar(path, fields, [], [], m) == m
  {
  }

  lemma DistinctGrows(order: seq<string>, k: string)
    requires Distinct(order) && k !in order
    ensures Distinct(order + [k]) && forall j :: j in order + [k] <==> j in order || j == k
  {
  }

  lemma TourComplete(v: Json, order: seq<string>, below: seq<Tour>)
    requires v.JObject? && Distinct(order) && Visits(order, below, v.fields) && forall k :: k in order <==> k in v.fields
    ensures |order| == |below| && TourOf(Over(order, below), v)
  {
  }

  lemma SoFarGrows(path: string, fields: map<string, Json>, order: seq<string>, below: seq<Tour>, k: string, t: Tour, m: Marks)
    requires Visits(order, below, fields)
    requires k in fields && TourOf(t, fields[k])
    ensures Visits(order + [k], below + [t], fields)
    ensures var before, child := FieldsSoFar(path, fields, order, below, m), path + Show(Key(k));
            FieldsSoFar(path, fields, order + [k], below + [t], m)
               == Walked(child, fields[k], t, before.(keys := before.keys + [child]))
  {
    var n := |order|;
    assert (order + [k])[..n] == order && (below + [t])[..n] == below;
    hide TourOf, Walked;
  }

  lemma {:induction false} SoFarIsWalked(path: string, v: Json, t: Tour, n: nat, m: Marks)
    requires v.JObject? && TourOf(t, v) && n <= |t.keys|
    ensures FieldsSoFar(path, v.fields, t.keys[..n], t.below[..n], m) == WalkedFields(path, v, t, n, m)
  {
    hide Walked, Show;
    if n > 0 {
      SoFarIsWalked(path, v, t, n - 1, m);
      assert t.keys[..n][..n - 1] == t.keys[..n - 1] && t.below[..n][..n - 1] == t.below[..n - 1];
    }
  }

  ghost function ItemsSoFar(path: string, items: seq<Json>, below: seq<Tour>, m: Marks): Marks
    requires |below| <= |items| && forall i | 0 <= i < |below| :: TourOf(below[i], items[i])
  {
    if below == [] then m
    else
      var n := |below| - 1;
      Walked(path + Show(Item(n)), items[n], below[n], ItemsSoFar(path, items, below[..n], m))
  }

  lemma ItemsGrow(path: string, items: seq<Json>, below: seq<Tour>, t: Tour, m: Marks)
    requires |below| < |items| && (forall i | 0 <= i < |below| :: TourOf(below[i], items[i])) && TourOf(t, items[|below|])
    ensures ItemsSoFar(path, items, below + [t], m)
            == Walked(path + Show(Item(|below|)), items[|below|], t, ItemsSoFar(path, items, below, m))
  {
    assert (below + [t])[..|below|] == below;
    hide TourOf, Walked;
  }

  lemma {:induction false} ItemsAreWalked(path: string, v: Json, t: Tour, n: nat, m: Marks)
    requires v.JArray? && TourOf(t, v) && n <= |v.items|
    ensures ItemsSoFar(path, v.items, t.items[..n], m) == WalkedItems(path, v, t, n, m)
  {
    if n > 0 {
      ItemsAreWalked(path, v, t, n - 1, m);
      assert t.items[..n][..n - 1] == t.items[..n - 1];
    }
  }

  // ---- What every walk records ---------------------------------------------

  lemma {:induction false} WalkedSound(path: string, v: Json, t: Tour, m: Marks)
    requires TourOf(t, v)
    ensures Sound(path, v, m, Walked(path, v, t, m)) && Complete(path, v, Walked(path, v, t, m))
    decreases v, 1, 0
  {
    var here := m.(shapes := m.shapes[path := ShapeName(v)]);
    EnterSound(path, v, m);
    TourKeys(t, v);
    hide Sound, Complete, TourOf;
    match v
    case JObject(fields) =>
      FieldsSound(path, v, t, |t.keys|, m, here);
      CompleteAbove(path, v, Walked(path, v, t, m));
    case JArray(items) =>
      ItemsSound(path, v, t, |items|, m, here);
      CompleteAbove(path, v, Walked(path, v, t, m));
    case _ =>
      CompleteAbove(path, v, here);
  }

  lemma TourKeys(t: Tour, v: Json)
    requires TourOf(t, v)
    ensures v.JObject? ==> t.Over? && |t.keys| == |t.below| && Distinct(t.keys)
                           && forall k | k in v.fields :: exists i :: 0 <= i < |t.keys| && t.keys[i] == k
    ensures v.JArray? ==> t.Through? && |t.items| == |v.items|
  {
  }

  lemma TourBelow(t: Tour, v: Json, i: nat)
    requires TourOf(t, v)
    ensures v.JObject? && i < |t.keys| ==>
              i < |t.below| && t.keys[i] in v.fields && v.fields[t.keys[i]] < v && TourOf(t.below[i], v.fields[t.keys[i]])
    ensures v.JArray? && i < |v.items| ==> i < |t.items| && TourOf(t.items[i], v.items[i])
  {
  }

  lemma NothingWalked(path: string, v: Json, t: Tour, m: Marks)
    requires TourOf(t, v)
    ensures v.JObject? ==> WalkedFields(path, v, t, 0, m) == m
    ensures v.JArray? ==> WalkedItems(path, v, t, 0, m) == m
  {
    hide TourOf;
  }

  lemma FieldsUnfold(path: string, v: Json, t: Tour, n: nat, m: Marks)
    requires v.JObject? && TourOf(t, v) && n < |t.keys|
    ensures TourOf(t.below[n], v.fields[t.keys[n]])
    ensures var before, child := WalkedFields(path, v, t, n, m), path + Show(Key(t.keys[n]));
            WalkedFields(path, v, t, n + 1, m)
            == Walked(child, v.fields[t.keys[n]], t.below[n], before.(keys := before.keys + [child]))
  {
    hide Walked, Show;
  }

  /** The first n fields have all their entries. */
  ghost predicate FieldsDone(path: string, v: Json, t: Tour, n: nat, r: Marks)
    requires v.JObject? && TourOf(t, v) && n <= |t.keys|
  {
    forall i | 0 <= i < n :: FieldDone(path, v, t.keys[i], r)
  }

  ghost predicate FieldDone(path: string, v: Json, k: string, r: Marks)
    requires v.JObject? && k in v.fields
  {
    path + Show(Key(k)) in r.keys && Complete(path + Show(Key(k)), v.fields[k], r)
  }

  lemma FieldDoneStays(path: string, v: Json, k: string, a: Marks, b: Marks)
    requires v.JObject? && k in v.fields && FieldDone(path, v, k, a) && Grew(a, b)
    ensures FieldDone(path, v, k, b)
  {
    CompleteStays(path + Show(Key(k)), v.fields[k], a, b);
    hide Complete;
  }

  lemma FieldsDoneStep(path: string, v: Json, t: Tour, n: nat, before: Marks, r: Marks)
    requires v.JObject? && TourOf(t, v) && n < |t.keys| && FieldsDone(path, v, t, n, before) && Grew(before, r)
    requires FieldDone(path, v, t.keys[n], r)
    ensures FieldsDone(path, v, t, n + 1, r)
  {
    hide FieldDone, Grew;
    forall i | 0 <= i < n + 1
      ensures FieldDone(path, v, t.keys[i], r)
    {
      if i < n {
        FieldDoneStays(path, v, t.keys[i], before, r);
      }
    }
  }

  lemma {:induction false} FieldsSound(path: string, v: Json, t: Tour, n: nat, start: Marks, m: Marks)
    requires v.JObject? && TourOf(t, v) && n <= |t.keys| && path in m.shapes && Sound(path, v, start, m)
    ensures var r := WalkedFields(path, v, t, n, m);
            path in r.shapes && Sound(path, v, start, r) && FieldsDone(path, v, t, n, r)
    decreases v, 0, n
  {
    hide Sound, Complete, Walked, WalkedFields, TourOf, Show;
    TourKeys(t, v);
    if n == 0 {
      NothingWalked(path, v, t, m);
    } else {
      FieldsSound(path, v, t, n - 1, start, m);
      TourBelow(t, v, n - 1);
      FieldsUnfold(path, v, t, n - 1, m);
      var before, k := WalkedFields(path, v, t, n - 1, m), t.keys[n - 1];
      var child := path + Show(Key(k));
      WalkedSound(child, v.fields[k], t.below[n - 1], before.(keys := before.keys + [child]));
      var r := WalkedFields(path, v, t, n, m);
      hide FieldsDone;
      FieldStep(path, v, k, start, before, r);
      FieldsDoneStep(path, v, t, n - 1, before, r);
    }
  }

  lemma ItemsUnfold(path: string, v: Json, t: Tour, n: nat, m: Marks)
    requires v.JArray? && TourOf(t, v) && n < |v.items|
    ensures TourOf(t.items[n], v.items[n])
    ensures WalkedItems(path, v, t, n + 1, m)
            == Walked(path + Show(Item(n)), v.items[n], t.items[n], WalkedItems(path, v, t, n, m))
  {
    hide Walked, Show;
  }

  lemma {:induction false} ItemsSound(path: string, v: Json, t: Tour, n: nat, start: Marks, m: Marks)
    requires v.JArray? && TourOf(t, v) && n <= |v.items| && path in m.shapes && Sound(path, v, start, m)
    ensures var r := WalkedItems(path, v, t, n, m);
            && path in r.shapes && Sound(path, v, start, r)
            && forall i: nat | i < n :: Complete(path + Show(Item(i)), v.items[i], r)
    decreases v, 0, n
  {
    hide Sound, Complete, Walked, WalkedItems, TourOf, Show;
    TourKeys(t, v);
    if n == 0 {
      NothingWalked(path, v, t, m);
    } else {
      ItemsSound(path, v, t, n - 1, start, m);
      ItemsUnfold(path, v, t, n - 1, m);
      var before := WalkedItems(path, v, t, n - 1, m);
      WalkedSound(path + Show(Item(n - 1)), v.items[n - 1], t.items[n - 1], before);
      ItemStep(path, v, n - 1, start, before, WalkedItems(path, v, t, n, m));
    }
  }

  // ---- The listed keys do not depend on the order --------------------------

  ghost function Union(m: map<string, multiset<string>>): multiset<string> {
    if m == map[] then multiset{} else
      var k :| k in m;
      m[k] + Union(m - {k})
  }

  lemma {:induction false} UnionStep(m: map<string, multiset<string>>, k: string)
    requires k in m
    ensures Union(m) == m[k] + Union(m - {k})
    decreases m.Keys
  {
    var j :| j in m && Union(m) == m[j] + Union(m - {j});
    if j != k {
      UnionStep(m - {j}, k);
      UnionStep(m - {k}, j);
      assert m - {j} - {k} == m - {k} - {j};
    } else {
      assert m - {j} == m - {k};
    }
  }

  /** The paths of all object fields below v, each as often as it is printed. */
  ghost function FieldPaths(path: string, v: Json): multiset<string>
    decreases v, 1
  {
    match v
    case JObject(_) => Union(PathsByField(path, v))
    case JArray(items) => ItemPaths(path, v, |items|)
    case _ => multiset{}
  }

  ghost function PathsByField(path: string, v: Json): map<string, multiset<string>>
    requires v.JObject?
    decreases v, 0
  {
    map k | k in v.fields :: multiset{path + Show(Key(k))} + FieldPaths(path + Show(Key(k)), v.fields[k])
  }

  ghost function ItemPaths(path: string, v: Json, n: nat): multiset<string>
    requires v.JArray? && n <= |v.items|
    decreases v, 0, n
  {
    if n == 0 then multiset{}
    else ItemPaths(path, v, n - 1) + FieldPaths(path + Show(Item(n - 1)), v.items[n - 1])
  }

  lemma {:induction false} WalkedKeys(path: string, v: Json, t: Tour, m: Marks)
    requires TourOf(t, v)
    ensures multiset(Walked(path, v, t, m).keys) == multiset(m.keys) + FieldPaths(path, v)
    decreases v, 1, 0
  {
    var here := m.(shapes := m.shapes[path := ShapeName(v)]);
    hide TourOf, PathsByField, Union, ItemPaths;
    TourKeys(t, v);
    match v
    case JObject(fields) =>
      FieldKeys(path, v, t, |t.keys|, here);
      assert t.keys[..|t.keys|] == t.keys;
      AllFields(path, v, t);
    case JArray(items) =>
      ItemKeys(path, v, t, |items|, here);
    case _ =>
  }

  lemma AllFields(path: string, v: Json, t: Tour)
    requires v.JObject? && TourOf(t, v)
    ensures Restricted(PathsByField(path, v), t.keys) == PathsByField(path, v)
  {
  }

  function Restricted(m: map<string, multiset<string>>, keys: seq<string>): map<string, multiset<string>> {
    map k | k in m && k in keys :: m[k]
  }

  lemma RestrictedStep(m: map<string, multiset<string>>, keys: seq<string>, n: nat)
    requires n < |keys| && Distinct(keys) && keys[n] in m
    ensures Union(Restricted(m, keys[..n + 1])) == m[keys[n]] + Union(Restricted(m, keys[..n]))
  {
    assert keys[..n + 1] == keys[..n] + [keys[n]];
    UnionStep(Restricted(m, keys[..n + 1]), keys[n]);
    assert Restricted(m, keys[..n + 1]) - {keys[n]} == Restricted(m, keys[..n]);
  }

  lemma NothingListed(m: map<string, multiset<string>>, keys: seq<string>)
    ensures Union(Restricted(m, keys[..0])) == multiset{}
  {
    assert Restricted(m, keys[..0]) == map[];
  }

  lemma PathsAt(path: string, v: Json, k: string)
    requires v.JObject? && k in v.fields
    ensures k in PathsByField(path, v)
    ensures PathsByField(path, v)[k] == multiset{path + Show(Key(k))} + FieldPaths(path + Show(Key(k)), v.fields[k])
  {
    hide FieldPaths, Show;
  }

  lemma {:induction false} FieldKeys(path: string, v: Json, t: Tour, n: nat, m: Marks)
    requires v.JObject? && TourOf(t, v) && n <= |t.keys|
    ensures multiset(WalkedFields(path, v, t, n, m).keys)
            == multiset(m.keys) + Union(Restricted(PathsByField(path, v), t.keys[..n]))
    decreases v, 0, n
  {
    hide TourOf, Walked, WalkedFields, PathsByField, Union, FieldPaths, Show, Restricted;
    var paths := PathsByField(path, v);
    TourKeys(t, v);
    if n == 0 {
      NothingWalked(path, v, t, m);
      NothingListed(paths, t.keys);
    } else {
      FieldKeys(path, v, t, n - 1, m);
      TourBelow(t, v, n - 1);
      FieldsUnfold(path, v, t, n - 1, m);
      var before, k := WalkedFields(path, v, t, n - 1, m), t.keys[n - 1];
      var child := path + Show(Key(k));
      WalkedKeys(child, v.fields[k], t.below[n - 1], before.(keys := before.keys + [child]));
      assert multiset(before.keys + [child]) == multiset(before.keys) + multiset{child};
      PathsAt(path, v, k);
      RestrictedStep(paths, t.keys, n - 1);
    }
  }

  lemma {:induction false} ItemKeys(path: string, v: Json, t: Tour, n: nat, m: Marks)
    requires v.JArray? && TourOf(t, v) && n <= |v.items|
    ensures multiset(WalkedItems(path, v, t, n, m).keys) == multiset(m.keys) + ItemPaths(path, v, n)
    decreases v, 0, n
  {
    if n > 0 {
      ItemKeys(path, v, t, n - 1, m);
      TourBelow(t, v, n - 1);
      WalkedKeys(path + Show(Item(n - 1)), v.items[n - 1], t.items[n - 1], WalkedItems(path, v, t, n - 1, m));
      hide TourOf, Walked, FieldPaths;
    }
  }

  // ---- Any node may be the last to write its path ---------------------------

  /** Some tour, for every payload. */
  lemma {:induction false} SomeTour(v: Json) returns (t: Tour)
    ensures TourOf(t, v)
    decreases v, 2
  {
    match v
    case JObject(fields) =>
      var order, below := ToursOf(v, fields.Keys);
      TourComplete(v, order, below);
      t := Over(order, below);
    case JArray(items) =>
      var below := ItemTours(v, |items|);
      t := Through(below);
    case _ => t := Stop;
  }

  /** Tours for some of the fields. */
  lemma {:induction false} ToursOf(v: Json, keys: set<string>) returns (order: seq<string>, below: seq<Tour>)
    requires v.JObject? && keys <= v.fields.Keys
    ensures Distinct(order) && Visits(order, below, v.fields) && forall k :: k in order <==> k in keys
    decreases v, 1, keys
  {
    if keys == {} {
      order, below := [], [];
    } else {
      var k :| k in keys;
      order, below := ToursOf(v, keys - {k});
      var t := SomeTour(v.fields[k]);
      DistinctGrows(order, k);
      VisitsGrow(v, order, below, k, t);
      order, below := order + [k], below + [t];
    }
  }

  lemma VisitsGrow(v: Json, order: seq<string>, below: seq<Tour>, k: string, t: Tour)
    requires v.JObject? && Visits(order, below, v.fields) && k in v.fields && TourOf(t, v.fields[k])
    ensures Visits(order + [k], below + [t], v.fields)
  {
    hide TourOf;
  }

  lemma {:induction false} ItemTours(v: Json, n: nat) returns (below: seq<Tour>)
    requires v.JArray? && n <= |v.items|
    ensures |below| == n && forall i | 0 <= i < n :: TourOf(below[i], v.items[i])
    decreases v, 1, n
  {
    below := [];
    if n > 0 {
      below := ItemTours(v, n - 1);
      var t := SomeTour(v.items[n - 1]);
      below := below + [t];
    }
  }

  /** After this walk the path of the node holds the node's own shape, wherever the walk started. */
  ghost predicate WritesLast(v: Json, t: Tour, steps: seq<Step>)
    requires TourOf(t, v) && At(v, steps).Some?
  {
    forall path, m ::
      var after := Walked(path, v, t, m).shapes;
      path + Print(steps) in after && after[path + Print(steps)] == ShapeName(At(v, steps).value)
  }

  lemma SoundKeeps(path: string, v: Json, a: Marks, b: Marks, p: string)
    requires Sound(path, v, a, b) && p in a.shapes
    requires forall steps | At(v, steps).Some? :: path + Print(steps) != p
    ensures p in b.shapes && b.shapes[p] == a.shapes[p]
  {
  }

  /** Nothing below a node prints as the node itself. */
  lemma LastAtRoot(v: Json, t: Tour)
    requires TourOf(t, v)
    ensures WritesLast(v, t, [])
  {
    forall path, m
      ensures path + Print([]) in Walked(path, v, t, m).shapes
      ensures Walked(path, v, t, m).shapes[path + Print([])] == ShapeName(v)
    {
      assert path + Print([]) == path;
      WalkedSound(path, v, t, m);
      RootStays(path, v, t, m);
    }
  }

  lemma RootStays(path: string, v: Json, t: Tour, m: Marks)
    requires TourOf(t, v)
    ensures path in Walked(path, v, t, m).shapes && Walked(path, v, t, m).shapes[path] == ShapeName(v)
  {
    WalkedSound(path, v, t, m);
    var r := Walked(path, v, t, m);
    assert Complete(path, v, r);
    assert At(v, []).Some? && path + Print([]) == path;
    TourKeys(t, v);
    var here := m.(shapes := m.shapes[path := ShapeName(v)]);
    if v.JObject? {
      RootThroughFields(path, v, t, |t.keys|, here);
    } else if v.JArray? {
      RootThroughItems(path, v, t, |t.items|, here);
    }
  }

  lemma BelowDiffers(path: string, step: Step, steps: seq<Step>)
    ensures path + Show(step) + Print(steps) != path
  {
    assert |path + Show(step) + Print(steps)| == |path| + |Show(step)| + |Print(steps)|;
    hide SanitizeKey, Itoa;
  }

  lemma {:induction false} RootThroughFields(path: string, v: Json, t: Tour, n: nat, m: Marks)
    requires v.JObject? && TourOf(t, v) && n <= |t.keys| && path in m.shapes
    ensures var r := WalkedFields(path, v, t, n, m);
            path in r.shapes && r.shapes[path] == m.shapes[path]
    decreases n
  {
    hide Sound, Walked, WalkedFields, TourOf, Show;
    TourKeys(t, v);
    if n == 0 {
      NothingWalked(path, v, t, m);
    } else {
      RootThroughFields(path, v, t, n - 1, m);
      TourBelow(t, v, n - 1);
      FieldsUnfold(path, v, t, n - 1, m);
      var k := t.keys[n - 1];
      var before, child := WalkedFields(path, v, t, n - 1, m), path + Show(Key(k));
      var listed := before.(keys := before.keys + [child]);
      WalkedSound(child, v.fields[k], t.below[n - 1], listed);
      forall steps | At(v.fields[k], steps).Some?
        ensures child + Print(steps) != path
      {
        BelowDiffers(path, Key(k), steps);
      }
      SoundKeeps(child, v.fields[k], listed, WalkedFields(path, v, t, n, m), path);
    }
  }

  lemma {:induction false} RootThroughItems(path: string, v: Json, t: Tour, n: nat, m: Marks)
    requires v.JArray? && TourOf(t, v) && n <= |v.items| && path in m.shapes
    ensures var r := WalkedItems(path, v, t, n, m);
            path in r.shapes && r.shapes[path] == m.shapes[path]
    decreases n
  {
    hide Sound, Walked, WalkedItems, TourOf, Show;
    TourKeys(t, v);
    if n == 0 {
      NothingWalked(path, v, t, m);
    } else {
      RootThroughItems(path, v, t, n - 1, m);
      TourBelow(t, v, n - 1);
      ItemsUnfold(path, v, t, n - 1, m);
      var before, child := WalkedItems(path, v, t, n - 1, m), path + Show(Item(n - 1));
      WalkedSound(child, v.items[n - 1], t.items[n - 1], before);
      forall steps | At(v.items[n - 1], steps).Some?
        ensures child + Print(steps) != path
      {
        BelowDiffers(path, Item(n - 1), steps);
      }
      SoundKeeps(child, v.items[n - 1], before, WalkedItems(path, v, t, n, m), path);
    }
  }

  /** The object case: the field of the node is visited last. */
  lemma LastInField(v: Json, order: seq<string>, below: seq<Tour>, k: string, t: Tour, rest: seq<Step>)
    requires v.JObject? && k in v.fields && Distinct(order) && Visits(order, below, v.fields)
    requires forall j :: j in order <==> j in v.fields && j != k
    requires TourOf(t, v.fields[k]) && At(v.fields[k], rest).Some? && WritesLast(v.fields[k], t, rest)
    ensures var tour := Over(order + [k], below + [t]);
            TourOf(tour, v) && At(v, [Key(k)] + rest).Some? && WritesLast(v, tour, [Key(k)] + rest)
  {
    var tour, n := Over(order + [k], below + [t]), |order|;
    DistinctGrows(order, k);
    VisitsGrow(v, order, below, k, t);
    TourComplete(v, order + [k], below + [t]);
    StepDown("", v, Key(k), rest);
    hide TourOf, Visits, Distinct, Show;
    forall path, m
      ensures path + Print([Key(k)] + rest) in Walked(path, v, tour, m).shapes
      ensures Walked(path, v, tour, m).shapes[path + Print([Key(k)] + rest)] == ShapeName(At(v, [Key(k)] + rest).value)
    {
      var here := m.(shapes := m.shapes[path := ShapeName(v)]);
      FieldsUnfold(path, v, tour, n, here);
      StepDown(path, v, Key(k), rest);
      hide Walked;
      LastInstance(v.fields[k], t, rest, path + Show(Key(k)),
                   WalkedFields(path, v, tour, n, here).(keys := WalkedFields(path, v, tour, n, here).keys + [path + Show(Key(k))]));
      WalkedObject(path, v, tour, m);
    }
  }

  lemma LastInstance(v: Json, t: Tour, steps: seq<Step>, path: string, m: Marks)
    requires TourOf(t, v) && At(v, steps).Some? && WritesLast(v, t, steps)
    ensures var after := Walked(path, v, t, m).shapes;
            path + Print(steps) in after && after[path + Print(steps)] == ShapeName(At(v, steps).value)
  {
    hide Walked, TourOf;
  }

  lemma WalkedObject(path: string, v: Json, t: Tour, m: Marks)
    requires v.JObject? && TourOf(t, v)
    ensures Walked(path, v, t, m) == WalkedFields(path, v, t, |t.keys|, m.(shapes := m.shapes[path := ShapeName(v)]))
  {
    hide WalkedFields;
  }

  lemma WalkedArray(path: string, v: Json, t: Tour, m: Marks)
    requires v.JArray? && TourOf(t, v)
    ensures Walked(path, v, t, m) == WalkedItems(path, v, t, |v.items|, m.(shapes := m.shapes[path := ShapeName(v)]))
  {
    hide WalkedItems;
  }

  lemma OtherItem(path: string, i: nat, a: seq<Step>, j: nat, b: seq<Step>)
    requires path + Show(Item(i)) + Print(a) == path + Show(Item(j)) + Print(b)
    ensures i == j
  {
    hide Show, Print, Itoa;
    var x, y := Show(Item(i)) + Print(a), Show(Item(j)) + Print(b);
    Assoc(path, Show(Item(i)), Print(a));
    Assoc(path, Show(Item(j)), Print(b));
    Cut(path, x);
    Cut(path, y);
    assert x == y;
    ShowRest(Item(i), Print(a));
    ShowRest(Item(j), Print(b));
    IndexCancels(i, Print(a), j, Print(b));
  }

  /** Later items leave the paths below an earlier one alone. */
  lemma {:induction false} LaterItems(path: string, v: Json, t: Tour, i: nat, rest: seq<Step>, n: nat, m: Marks)
    requires v.JArray? && TourOf(t, v) && i < n <= |v.items|
    requires path + Show(Item(i)) + Print(rest) in WalkedItems(path, v, t, i + 1, m).shapes
    ensures var p, r := path + Show(Item(i)) + Print(rest), WalkedItems(path, v, t, n, m);
            p in r.shapes && r.shapes[p] == WalkedItems(path, v, t, i + 1, m).shapes[p]
    decreases n
  {
    hide Sound, Walked, WalkedItems, TourOf, Show, Print;
    TourKeys(t, v);
    if n > i + 1 {
      LaterItems(path, v, t, i, rest, n - 1, m);
      TourBelow(t, v, n - 1);
      ItemsUnfold(path, v, t, n - 1, m);
      var p := path + Show(Item(i)) + Print(rest);
      var before, child := WalkedItems(path, v, t, n - 1, m), path + Show(Item(n - 1));
      WalkedSound(child, v.items[n - 1], t.items[n - 1], before);
      forall steps | At(v.items[n - 1], steps).Some?
        ensures child + Print(steps) != p
      {
        if child + Print(steps) == p {
          OtherItem(path, n - 1, steps, i, rest);
        }
      }
      SoundKeeps(child, v.items[n - 1], before, WalkedItems(path, v, t, n, m), p);
    }
  }

  lemma LastInItem(v: Json, t: Tour, i: nat, rest: seq<Step>)
    requires v.JArray? && TourOf(t, v) && i < |v.items| && TourOf(t.items[i], v.items[i])
    requires At(v.items[i], rest).Some? && WritesLast(v.items[i], t.items[i], rest)
    ensures At(v, [Item(i)] + rest).Some? && WritesLast(v, t, [Item(i)] + rest)
  {
    StepDown("", v, Item(i), rest);
    TourKeys(t, v);
    hide TourOf, Show;
    forall path, m
      ensures path + Print([Item(i)] + rest) in Walked(path, v, t, m).shapes
      ensures Walked(path, v, t, m).shapes[path + Print([Item(i)] + rest)] == ShapeName(At(v, [Item(i)] + rest).value)
    {
      var here := m.(shapes := m.shapes[path := ShapeName(v)]);
      ItemsUnfold(path, v, t, i, here);
      StepDown(path, v, Item(i), rest);
      hide Walked, WalkedItems;
      LastInstance(v.items[i], t.items[i], rest, path + Show(Item(i)), WalkedItems(path, v, t, i, here));
      LaterItems(path, v, t, i, rest, |v.items|, here);
      WalkedArray(path, v, t, m);
    }
  }

  /** For every node there is a visiting order in which it is the last to write its path. */
  lemma {:induction false} LastTour(v: Json, steps: seq<Step>) returns (t: Tour)
    requires At(v, steps).Some?
    ensures TourOf(t, v) && WritesLast(v, t, steps)
    decreases |steps|
  {
    if steps == [] {
      t := SomeTour(v);
      LastAtRoot(v, t);
    } else {
      var rest := steps[1..];
      assert steps == [steps[0]] + rest;
      var below := LastTour(Child(v, steps[0]).value, rest);
      hide WritesLast;
      if steps[0].Key? {
        var k := steps[0].k;
        var order, others := ToursOf(v, v.fields.Keys - {k});
        LastInField(v, order, others, k, below, rest);
        t := Over(order + [k], others + [below]);
      } else {
        var i := steps[0].i;
        var some := SomeTour(v);
        TourKeys(some, v);
        t := Through(some.items[i := below]);
        ItemReplaced(v, some, i, below);
        LastInItem(v, t, i, rest);
      }
    }
  }

  lemma ItemReplaced(v: Json, t: Tour, i: nat, below: Tour)
    requires v.JArray? && TourOf(t, v) && i < |v.items| && TourOf(below, v.items[i]) && t.Through? && |t.items| == |v.items|
    ensures TourOf(Through(t.items[i := below]), v)
  {
  }

  // ---- Fingerprints --------------------------------------------------------

  const NOTHING := Marks([], map[])

  /** fp is what the program builds from v when it visits in this order. */
  ghost predicate FingerprintBy(v: Json, t: Tour, fp: PayloadFingerprint) {
    && TourOf(t, v)
    && fp.shapes == Walked("$", v, t, NOTHING).shapes
    && InOrder(fp.keyPaths) && multiset(fp.keyPaths) == multiset(Walked("$", v, t, NOTHING).keys)
  }

  /** fp is what the program builds from v in some order. */
  ghost predicate Fingerprints(v: Json, fp: PayloadFingerprint) {
    exists t :: FingerprintBy(v, t, fp)
  }

  method BuildFingerprint(v: Json) returns (fp: PayloadFingerprint)
    ensures Fingerprints(v, fp) && FingerprintOf(v, fp)
  {
    hide InOrder, Walked, TourOf, FingerprintOf;
    var walk := new Walk();
    ghost var tour := walk.WalkValue("$", v);
    var keys := SortStrings(walk.keys);
    fp := PayloadFingerprint(keys, walk.shapes);
    assert FingerprintBy(v, tour, fp);
    BuiltIsFingerprint(v, fp);
  }

  /** A built fingerprint describes exactly the nodes of the payload. */
  lemma BuiltIsFingerprint(v: Json, fp: PayloadFingerprint)
    requires Fingerprints(v, fp)
    ensures FingerprintOf(v, fp)
  {
    var t :| FingerprintBy(v, t, fp);
    var m := Walked("$", v, t, NOTHING);
    WalkedSound("$", v, t, NOTHING);
    forall k
      ensures k in fp.keyPaths <==> k in m.keys
    {
      assert k in multiset(fp.keyPaths) <==> k in multiset(m.keys);
    }
    hide Walked, InOrder, TourOf;
    SameEntries(v, m, Marks(fp.keyPaths, fp.shapes));
  }

  lemma SameEntries(v: Json, a: Marks, b: Marks)
    requires Sound("$", v, NOTHING, a) && Complete("$", v, a)
    requires a.shapes == b.shapes && forall k :: k in b.keys <==> k in a.keys
    ensures Sound("$", v, NOTHING, b) && Complete("$", v, b)
  {
  }

  /** The key paths never depend on the order: same paths, same number of times, same places. */
  lemma KeyPathsDeterministic(v: Json, fp1: PayloadFingerprint, fp2: PayloadFingerprint)
    requires Fingerprints(v, fp1) && Fingerprints(v, fp2)
    ensures fp1.keyPaths == fp2.keyPaths
  {
    var t1 :| FingerprintBy(v, t1, fp1);
    var t2 :| FingerprintBy(v, t2, fp2);
    WalkedKeys("$", v, t1, NOTHING);
    WalkedKeys("$", v, t2, NOTHING);
    hide Walked, InOrder, TourOf;
    InOrderUnique(fp1.keyPaths, fp2.keyPaths);
  }

  /** Positions of the payload that print alike have nodes of the same shape. */
  ghost predicate ShapesAgree(v: Json) {
    forall s1, s2 | At(v, s1).Some? && At(v, s2).Some? && Print(s1) == Print(s2) ::
      ShapeName(At(v, s1).value) == ShapeName(At(v, s2).value)
  }

  lemma AgreeingShapes(v: Json, fp1: PayloadFingerprint, fp2: PayloadFingerprint)
    requires ShapesAgree(v) && FingerprintOf(v, fp1) && FingerprintOf(v, fp2)
    ensures fp1.shapes == fp2.shapes
  {
    AgreeingIncluded(v, fp1, fp2);
    AgreeingIncluded(v, fp2, fp1);
    hide ShapesAgree, FingerprintOf;
  }

  lemma AgreeingIncluded(v: Json, fp1: PayloadFingerprint, fp2: PayloadFingerprint)
    requires ShapesAgree(v) && FingerprintOf(v, fp1) && FingerprintOf(v, fp2)
    ensures forall p | p in fp1.shapes :: p in fp2.shapes && fp2.shapes[p] == fp1.shapes[p]
  {
    forall p | p in fp1.shapes
      ensures p in fp2.shapes && fp2.shapes[p] == fp1.shapes[p]
    {
      var s1 :| Lands("$", v, s1, p, fp1.shapes[p]);
      assert p in fp2.shapes;
      var s2 :| Lands("$", v, s2, p, fp2.shapes[p]);
      assert Print(s1) == p[1..] && Print(s2) == p[1..];
    }
  }

  /** A fingerprint in which this node's shape is the one recorded. */
  lemma ShapeRecorded(v: Json, steps: seq<Step>) returns (fp: PayloadFingerprint)
    requires At(v, steps).Some?
    ensures Fingerprints(v, fp)
    ensures Path(steps) in fp.shapes && fp.shapes[Path(steps)] == ShapeName(At(v, steps).value)
  {
    var t := LastTour(v, steps);
    LastInstance(v, t, steps, "$", NOTHING);
    var m := Walked("$", v, t, NOTHING);
    hide Walked, TourOf, InOrder;
    var keys := SortedExists(m.keys);
    fp := PayloadFingerprint(keys, m.shapes);
    assert FingerprintBy(v, t, fp);
  }

  /**
   For every payload: all visiting orders record the same shapes exactly when positions that
   print alike have the same shape.
   */
  lemma ShapesDeterministicIff(v: Json)
    ensures (forall fp1, fp2 | Fingerprints(v, fp1) && Fingerprints(v, fp2) :: fp1.shapes == fp2.shapes) <==> ShapesAgree(v)
  {
    if ShapesAgree(v) {
      forall fp1, fp2 | Fingerprints(v, fp1) && Fingerprints(v, fp2)
        ensures fp1.shapes == fp2.shapes
      {
        BuiltIsFingerprint(v, fp1);
        BuiltIsFingerprint(v, fp2);
        AgreeingShapes(v, fp1, fp2);
      }
    } else {
      var s1, s2 :| At(v, s1).Some? && At(v, s2).Some? && Print(s1) == Print(s2)
                    && ShapeName(At(v, s1).value) != ShapeName(At(v, s2).value);
      var fp1 := ShapeRecorded(v, s1);
      var fp2 := ShapeRecorded(v, s2);
      assert Path(s1) == Path(s2);
    }
    hide Fingerprints, FingerprintOf;
  }

  // ---- A condition on the payload itself -----------------------------------

  /** No field name holds a '['. */
  predicate Unbracketed(v: Json) {
    match v
    case JObject(fields) => forall k | k in fields :: '[' !in k && Unbracketed(fields[k])
    case JArray(items) => forall i | 0 <= i < |items| :: Unbracketed(items[i])
    case _ => true
  }

  /** The two have the same shape, and so have their parts under fields with the same sanitised name and at the same index. */
  predicate Compatible(v: Json, w: Json)
    decreases v
  {
    && ShapeName(v) == ShapeName(w)
    && match v
       case JObject(fields) =>
         forall k, l | k in fields && l in w.fields && SanitizeKey(k) == SanitizeKey(l) :: Compatible(fields[k], w.fields[l])
       case JArray(items) => forall i | 0 <= i < |items| && i < |w.items| :: Compatible(items[i], w.items[i])
       case _ => true
  }

  ghost predicate AgreeBetween(v: Json, w: Json) {
    forall s1, s2 | At(v, s1).Some? && At(w, s2).Some? && Print(s1) == Print(s2) ::
      ShapeName(At(v, s1).value) == ShapeName(At(w, s2).value)
  }

  lemma {:induction false} CompatibleAgree(v: Json, w: Json, s1: seq<Step>, s2: seq<Step>)
    requires Unbracketed(v) && Unbracketed(w) && Compatible(v, w)
    requires At(v, s1).Some? && At(w, s2).Some? && Print(s1) == Print(s2)
    ensures ShapeName(At(v, s1).value) == ShapeName(At(w, s2).value)
    decreases |s1|
  {
    PrintStartsStep(s1);
    PrintStartsStep(s2);
    if s1 != [] {
      PrintStartsStep(s1[1..]);
      PrintStartsStep(s2[1..]);
      ShowCancels(s1[0], Print(s1[1..]), s2[0], Print(s2[1..]));
      hide Print, SanitizeKey;
      CompatibleAgree(Child(v, s1[0]).value, Child(w, s2[0]).value, s1[1..], s2[1..]);
    }
  }

  lemma PrintBelow(step: Step, steps: seq<Step>)
    ensures Print([step] + steps) == Show(step) + Print(steps)
  {
    assert ([step] + steps)[1..] == steps;
  }

  lemma AgreeBelow(v: Json, w: Json, a: Step, b: Step)
    requires AgreeBetween(v, w) && Child(v, a).Some? && Child(w, b).Some? && Show(a) == Show(b)
    ensures AgreeBetween(Child(v, a).value, Child(w, b).value)
  {
    hide Show;
    forall s1, s2 | At(Child(v, a).value, s1).Some? && At(Child(w, b).value, s2).Some? && Print(s1) == Print(s2)
      ensures ShapeName(At(Child(v, a).value, s1).value) == ShapeName(At(Child(w, b).value, s2).value)
    {
      StepDown("", v, a, s1);
      StepDown("", w, b, s2);
      PrintBelow(a, s1);
      PrintBelow(b, s2);
    }
  }

  lemma {:induction false} AgreeCompatible(v: Json, w: Json)
    requires AgreeBetween(v, w)
    ensures Compatible(v, w)
    decreases v
  {
    assert At(v, []) == Some(v) && At(w, []) == Some(w);
    match v
    case JObject(fields) =>
      forall k, l | k in fields && l in w.fields && SanitizeKey(k) == SanitizeKey(l)
        ensures Compatible(fields[k], w.fields[l])
      {
        AgreeBelow(v, w, Key(k), Key(l));
        AgreeCompatible(fields[k], w.fields[l]);
      }
    case JArray(items) =>
      forall i: nat | i < |items| && i < |w.items|
        ensures Compatible(items[i], w.items[i])
      {
        AgreeBelow(v, w, Item(i), Item(i));
        AgreeCompatible(items[i], w.items[i]);
      }
    case _ =>
  }

  /**
   Without brackets in field names the question is settled by the payload alone: every
   visiting order records the same shapes exactly when the payload is compatible with itself,
   that is, when siblings that are sanitised alike have the same structure where they overlap.
   */
  lemma OrderIndependentIff(v: Json)
    requires Unbracketed(v)
    ensures (forall fp1, fp2 | Fingerprints(v, fp1) && Fingerprints(v, fp2) :: fp1.shapes == fp2.shapes) <==> Compatible(v, v)
  {
    ShapesDeterministicIff(v);
    if Compatible(v, v) {
      forall s1, s2 | At(v, s1).Some? && At(v, s2).Some? && Print(s1) == Print(s2)
        ensures ShapeName(At(v, s1).value) == ShapeName(At(v, s2).value)
      {
        CompatibleAgree(v, v, s1, s2);
      }
    }
    if ShapesAgree(v) {
      assert AgreeBetween(v, v);
      AgreeCompatible(v, v);
    }
    hide Fingerprints, Compatible, Unbracketed;
  }

  /** A printed path names one node for every pair of positions exactly when siblings stay apart. */
  lemma UnambiguousIff(v: Json)
    requires Unbracketed(v)
    ensures (forall s1, s2 | At(v, s1).Some? && At(v, s2).Some? && Print(s1) == Print(s2) :: s1 == s2) <==> Tidy(v)
  {
    if Tidy(v) {
      forall s1, s2 | At(v, s1).Some? && At(v, s2).Some? && Print(s1) == Print(s2)
        ensures s1 == s2
      {
        PathsUnambiguous(v, s1, s2);
      }
    } else {
      var s1, s2 := Ambiguity(v);
    }
    hide Tidy, Unbracketed;
  }

  /** Two positions that print alike. */
  lemma {:induction false} Ambiguity(v: Json) returns (s1: seq<Step>, s2: seq<Step>)
    requires Unbracketed(v) && !Tidy(v)
    ensures At(v, s1).Some? && At(v, s2).Some? && Print(s1) == Print(s2) && s1 != s2
    decreases v
  {
    var step: Step;
    if v.JObject? && (exists k :: k in v.fields && !Tidy(v.fields[k])) {
      var k :| k in v.fields && !Tidy(v.fields[k]);
      step := Key(k);
      s1, s2 := Ambiguity(v.fields[k]);
    } else if v.JArray? {
      var i :| 0 <= i < |v.items| && !Tidy(v.items[i]);
      step := Item(i);
      s1, s2 := Ambiguity(v.items[i]);
    } else {
      var k, l :| k in v.fields && l in v.fields && SanitizeKey(k) == SanitizeKey(l) && k != l;
      s1, s2 := [Key(k)], [Key(l)];
      SingleStep("", v, Key(k));
      SingleStep("", v, Key(l));
      assert Print(s1) == "" + Print(s1) && Print(s2) == "" + Print(s2);
      return;
    }
    StepDown("", v, step, s1);
    StepDown("", v, step, s2);
    PrintBelow(step, s1);
    PrintBelow(step, s2);
    assert ([step] + s1)[1..] == s1 && ([step] + s2)[1..] == s2;
    s1, s2 := [step] + s1, [step] + s2;
  }

  /** Two sanitised siblings of different shapes: the code records either, as Go's map order has it. */
  lemma CollidingSiblingsAmbiguous()
    ensures var v := JObject(map["a b" := JNull, "a_b" := JBool(true)]);
            exists fp1, fp2 :: Fingerprints(v, fp1) && Fingerprints(v, fp2) && fp1.shapes != fp2.shapes
  {
    var v := JObject(map["a b" := JNull, "a_b" := JBool(true)]);
    assert SanitizeKey("a b") == "a_b" == SanitizeKey("a_b");
    assert !Compatible(v.fields["a b"], v.fields["a_b"]);
    assert !Compatible(v, v);
    OrderIndependentIff(v);
  }
}
