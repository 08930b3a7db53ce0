/**
 Shrinking a payload before it is shown to a language model
 (internal/service/llm_compaction.go:39-154). Text is measured in characters, which for ASCII
 are bytes. Which texts count as noisy links, like the field scores, is arbitrary.
 */
module Compaction {
  import opened Text
  import opened Json
  import opened FieldOrder
  import opened Sorting

  /** A limit of zero or less is no limit. */
  datatype Rules = Rules(score: Score, noisy: (string, string) -> bool, maxString: int, maxArray: int, maxObject: int)

  const FIELDS_MARK := "_truncated_fields"
  const ITEMS_MARK := "_truncated_items"

  /** What has been cut: fields dropped, texts shortened, arrays shortened. */
  datatype Stats = Stats(fields: nat, strings: nat, arrays: nat)

  const ZERO := Stats(0, 0, 0)

  function Plus(a: Stats, b: Stats): Stats {
    Stats(a.fields + b.fields, a.strings + b.strings, a.arrays + b.arrays)
  }

  // ---- What compaction yields ----------------------------------------------

  function Limit(max: int, n: nat): nat {
    if max <= 0 || max > n then n else max
  }

  function Shortened(r: Rules, key: string, s: string): string {
    var trimmed := TrimSpace(s);
    if r.maxString <= 0 then trimmed
    else if r.noisy(key, trimmed) then trimmed[..if r.maxString / 2 < |trimmed| then r.maxString / 2 else |trimmed|]
    else if |trimmed| <= r.maxString then trimmed
    else trimmed[..r.maxString]
  }

  predicate Cuts(r: Rules, key: string, s: string) {
    r.maxString > 0 && (r.noisy(key, TrimSpace(s)) || |TrimSpace(s)| > r.maxString)
  }

  function KeptOf(r: Rules, fields: map<string, Json>): set<string> {
    Kept(r.score, fields, Limit(r.maxObject, |fields|))
  }

  function FieldsMarked(out: map<string, Json>, dropped: nat): map<string, Json> {
    if dropped > 0 then out[FIELDS_MARK := JNumber(dropped as real)] else out
  }

  function Marker(dropped: nat): Json {
    JObject(map[ITEMS_MARK := JNumber(dropped as real)])
  }

  function ItemsMarked(out: seq<Json>, dropped: nat): seq<Json> {
    if dropped > 0 then out + [Marker(dropped)] else out
  }

  function Compact(r: Rules, key: string, v: Json): Json
    decreases v
  {
    match v
    case JObject(fields) =>
      var kept := KeptOf(r, fields);
      JObject(FieldsMarked(map k | k in fields && k in kept :: Compact(r, k, fields[k]),
                           |fields| - Limit(r.maxObject, |fields|)))
    case JArray(items) =>
      var limit := Limit(r.maxArray, |items|);
      JArray(ItemsMarked(seq(limit, i requires 0 <= i < limit => Compact(r, key, items[i])), |items| - limit))
    case JString(s) => JString(Shortened(r, key, s))
    case _ => v
  }

  // ---- What it counts ------------------------------------------------------

  ghost function Total(m: map<string, Stats>): Stats {
    if m == map[] then ZERO else
      var k :| k in m;
      Plus(m[k], Total(m - {k}))
  }

  ghost function TotalOf(s: seq<Stats>): Stats {
    if s == [] then ZERO else Plus(TotalOf(s[..|s| - 1]), s[|s| - 1])
  }

  lemma {:induction false} TotalStep(m: map<string, Stats>, k: string)
    requires k in m
    ensures Total(m) == Plus(m[k], Total(m - {k}))
    decreases m.Keys
  {
    var j :| j in m && Total(m) == Plus(m[j], Total(m - {j}));
    if j != k {
      var a, b := m - {j}, m - {k};
      TotalStep(a, k);
      TotalStep(b, j);
      assert a - {k} == b - {j};
      assert a[k] == m[k] && b[j] == m[j];
      var t := Total(a - {k});
      assert Total(b) == Plus(m[j], t);
      assert Total(m) == Plus(m[j], Plus(m[k], t));
      assert Total(m) == Plus(m[k], Plus(m[j], t));
    } else {
      assert m - {j} == m - {k};
    }
  }

  lemma TotalAdd(m: map<string, Stats>, k: string, x: Stats)
    requires k !in m
    ensures Total(m[k := x]) == Plus(x, Total(m))
  {
    TotalStep(m[k := x], k);
    assert m[k := x] - {k} == m;
  }

  ghost function Tally(r: Rules, key: string, v: Json): Stats
    decreases v
  {
    match v
    case JObject(fields) =>
      var kept := KeptOf(r, fields);
      Plus(Total(map k | k in fields && k in kept :: Tally(r, k, fields[k])), Stats(|fields| - Limit(r.maxObject, |fields|), 0, 0))
    case JArray(items) =>
      var limit := Limit(r.maxArray, |items|);
      Plus(TotalOf(seq(limit, i requires 0 <= i < limit => Tally(r, key, items[i]))),
           Stats(0, 0, if limit < |items| then 1 else 0))
    case JString(s) => Stats(0, if Cuts(r, key, s) then 1 else 0, 0)
    case _ => ZERO
  }

  // ---- The program ---------------------------------------------------------

  class CompactionStats {
    var droppedFields: nat
    var truncatedStrings: nat
    var truncatedArrays: nat

    constructor ()
      ensures Now() == ZERO
    {
      droppedFields, truncatedStrings, truncatedArrays := 0, 0, 0;
    }

    ghost function Now(): Stats
      reads this
    {
      Stats(droppedFields, truncatedStrings, truncatedArrays)
    }
  }

  method CompactString(r: Rules, key: string, value: string, stats: CompactionStats) returns (out: string)
    modifies stats
    ensures out == Shortened(r, key, value)
    ensures stats.Now() == Plus(old(stats.Now()), Tally(r, key, JString(value)))
  {
    hide TrimSpace;
    var trimmed := TrimSpace(value);
    var limit := r.maxString;
    if limit <= 0 {
      return trimmed;
    }
    if r.noisy(key, trimmed) {
      stats.truncatedStrings := stats.truncatedStrings + 1;
      return trimmed[..if limit / 2 < |trimmed| then limit / 2 else |trimmed|];
    }
    if |trimmed| <= limit {
      return trimmed;
    }
    stats.truncatedStrings := stats.truncatedStrings + 1;
    out := trimmed[..limit];
  }

  method CompactValue(r: Rules, key: string, v: Json, stats: CompactionStats) returns (out: Json)
    modifies stats
    ensures out == Compact(r, key, v)
    ensures stats.Now() == Plus(old(stats.Now()), Tally(r, key, v))
    decreases v, 2
  {
    match v
    case JObject(_) => out := CompactObject(r, key, v, stats);
    case JArray(_) => out := CompactArray(r, key, v, stats);
    case JString(s) =>
      var text := CompactString(r, key, s, stats);
      out := JString(text);
    case _ => out := v;
  }

  lemma ArrayIs(r: Rules, key: string, items: seq<Json>, done: seq<Json>, tallies: seq<Stats>)
    requires |done| == |tallies| == Limit(r.maxArray, |items|)
    requires forall j | 0 <= j < |done| :: done[j] == Compact(r, key, items[j]) && tallies[j] == Tally(r, key, items[j])
    ensures Compact(r, key, JArray(items)) == JArray(ItemsMarked(done, |items| - |done|))
    ensures Tally(r, key, JArray(items)) == Plus(TotalOf(tallies), Stats(0, 0, if |done| < |items| then 1 else 0))
  {
    assert done == seq(|done|, i requires 0 <= i < |done| => Compact(r, key, items[i]));
    assert tallies == seq(|done|, i requires 0 <= i < |done| => Tally(r, key, items[i]));
    hide TotalOf, ItemsMarked;
  }

  lemma ObjectIs(r: Rules, key: string, fields: map<string, Json>, done: map<string, Json>, tallies: map<string, Stats>)
    requires done.Keys == tallies.Keys == KeptOf(r, fields) && KeptOf(r, fields) <= fields.Keys
    requires forall k | k in done :: done[k] == Compact(r, k, fields[k]) && tallies[k] == Tally(r, k, fields[k])
    ensures var dropped := |fields| - Limit(r.maxObject, |fields|);
            && Compact(r, key, JObject(fields)) == JObject(FieldsMarked(done, dropped))
            && Tally(r, key, JObject(fields)) == Plus(Total(tallies), Stats(dropped, 0, 0))
  {
    ObjectCompacts(r, key, fields, done);
    ObjectTallies(r, key, fields, tallies);
    hide Compact, Tally, KeptOf, Total, FieldsMarked, Plus;
  }

  lemma ObjectCompacts(r: Rules, key: string, fields: map<string, Json>, done: map<string, Json>)
    requires done.Keys == KeptOf(r, fields) && KeptOf(r, fields) <= fields.Keys
    requires forall k | k in done :: done[k] == Compact(r, k, fields[k])
    ensures Compact(r, key, JObject(fields)) == JObject(FieldsMarked(done, |fields| - Limit(r.maxObject, |fields|)))
  {
    hide KeptOf, FieldsMarked;
    var kept := KeptOf(r, fields);
    assert done == map k | k in fields && k in kept :: Compact(r, k, fields[k]);
  }

  lemma ObjectTallies(r: Rules, key: string, fields: map<string, Json>, tallies: map<string, Stats>)
    requires tallies.Keys == KeptOf(r, fields) && KeptOf(r, fields) <= fields.Keys
    requires forall k | k in tallies :: tallies[k] == Tally(r, k, fields[k])
    ensures Tally(r, key, JObject(fields)) == Plus(Total(tallies), Stats(|fields| - Limit(r.maxObject, |fields|), 0, 0))
  {
    hide KeptOf, Total, Plus;
    var kept := KeptOf(r, fields);
    assert tallies == map k | k in fields && k in kept :: Tally(r, k, fields[k]);
  }

  lemma TotalOfStep(s: seq<Stats>, x: Stats)
    ensures TotalOf(s + [x]) == Plus(TotalOf(s), x)
  {
    assert (s + [x])[..|s + [x]| - 1] == s;
  }

  method CompactArray(r: Rules, key: string, v: Json, stats: CompactionStats) returns (out: Json)
    requires v.JArray?
    modifies stats
    ensures out == Compact(r, key, v)
    ensures stats.Now() == Plus(old(stats.Now()), Tally(r, key, v))
    decreases v, 0
  {
    hide Compact, Tally, TotalOf;
    var items := v.items;
    var limit := r.maxArray;
    if limit <= 0 || limit > |items| {
      limit := |items|;
    }
    var done: seq<Json> := [];
    ghost var tallies: seq<Stats> := [];
    NoTotal();
    for i := 0 to limit
      invariant |done| == |tallies| == i
      invariant forall j | 0 <= j < i :: done[j] == Compact(r, key, items[j]) && tallies[j] == Tally(r, key, items[j])
      invariant stats.Now() == Plus(old(stats.Now()), TotalOf(tallies))
    {
      var item := CompactValue(r, key, items[i], stats);
      done := done + [item];
      TotalOfStep(tallies, Tally(r, key, items[i]));
      tallies := tallies + [Tally(r, key, items[i])];
    }
    ArrayIs(r, key, items, done, tallies);
    if |items| > limit {
      stats.truncatedArrays := stats.truncatedArrays + 1;
      done := done + [Marker(|items| - limit)];
    }
    out := JArray(done);
  }

  lemma NoTotal()
    ensures TotalOf([]) == ZERO && Total(map[]) == ZERO && Elements([]) == {}
  {
  }

  method CompactObject(r: Rules, key: string, v: Json, stats: CompactionStats) returns (out: Json)
    requires v.JObject?
    modifies stats
    ensures out == Compact(r, key, v)
    ensures stats.Now() == Plus(old(stats.Now()), Tally(r, key, v))
    decreases v, 1
  {
    hide Compact, Tally, Total, Sorted, Kept, Elements, Distinct, Plus;
    var fields := v.fields;
    var order := SortFields(r.score, fields);
    var limit := r.maxObject;
    if limit <= 0 {
      limit := |fields|;
    }
    FrontKept(r.score, fields, order, Limit(r.maxObject, |fields|));
    var done: map<string, Json>;
    ghost var tallies: map<string, Stats>;
    done, tallies := CompactFields(r, v, order, limit, stats);
    ObjectIs(r, key, fields, done, tallies);
    CountsAdd(old(stats.Now()), stats.Now(), Total(tallies), |fields| - Limit(r.maxObject, |fields|));
    if |order| > limit {
      done := done[FIELDS_MARK := JNumber((|order| - limit) as real)];
    }
    out := JObject(done);
  }

  function Least(a: nat, b: nat): nat {
    if a < b then a else b
  }

  lemma NextElement(order: seq<string>, i: nat)
    requires Distinct(order) && i < |order|
    ensures order[i] in Elements(order) && order[i] !in Elements(order[..i])
    ensures Elements(order[..i + 1]) == Elements(order[..i]) + {order[i]}
  {
    assert order[..i + 1] == order[..i] + [order[i]];
  }

  lemma CountsAdd(before: Stats, after: Stats, total: Stats, dropped: nat)
    requires after.fields == before.fields + total.fields + dropped
    requires after.strings == before.strings + total.strings && after.arrays == before.arrays + total.arrays
    ensures after == Plus(before, Plus(total, Stats(dropped, 0, 0)))
  {
  }

  /** The loop over the sorted fields. */
  method CompactFields(r: Rules, v: Json, order: seq<string>, limit: nat, stats: CompactionStats)
    returns (done: map<string, Json>, ghost tallies: map<string, Stats>)
    requires v.JObject? && Distinct(order) && Elements(order) == v.fields.Keys
    modifies stats
    ensures done.Keys == tallies.Keys == Elements(order[..Least(limit, |order|)])
    ensures forall k | k in done :: k in v.fields && done[k] == Compact(r, k, v.fields[k]) && tallies[k] == Tally(r, k, v.fields[k])
    ensures stats.droppedFields == old(stats.droppedFields) + Total(tallies).fields + |order| - Least(limit, |order|)
    ensures stats.truncatedStrings == old(stats.truncatedStrings) + Total(tallies).strings
    ensures stats.truncatedArrays == old(stats.truncatedArrays) + Total(tallies).arrays
    decreases v, 0
  {
    hide Compact, Tally, Total, Elements, Distinct;
    var fields := v.fields;
    done, tallies := map[], map[];
    NoTotal();
    assert order[..0] == [];
    for i := 0 to |order|
      invariant done.Keys == tallies.Keys == Elements(order[..Least(limit, i)])
      invariant forall k | k in done :: k in fields && done[k] == Compact(r, k, fields[k]) && tallies[k] == Tally(r, k, fields[k])
      invariant stats.droppedFields == old(stats.droppedFields) + Total(tallies).fields + i - Least(limit, i)
      invariant stats.truncatedStrings == old(stats.truncatedStrings) + Total(tallies).strings
      invariant stats.truncatedArrays == old(stats.truncatedArrays) + Total(tallies).arrays
    {
      var k := order[i];
      if i >= limit {
        stats.droppedFields := stats.droppedFields + 1;
        continue;
      }
      NextElement(order, i);
      ghost var tally := Tally(r, k, fields[k]);
      TotalAdd(tallies, k, tally);
      tallies := tallies[k := tally];
      var child := CompactValue(r, k, fields[k], stats);
      done := done[k := child];
    }
  }

  lemma FrontKept(score: Score, fields: map<string, Json>, order: seq<string>, limit: nat)
    requires Sorted(score, fields, order) && (forall k :: k in order <==> k in fields) && limit <= |fields|
    ensures |order| == |fields| && Elements(order[..limit]) == Kept(score, fields, limit)
    ensures Distinct(order) && Elements(order) == fields.Keys
    ensures Kept(score, fields, limit) <= fields.Keys
  {
    KeptIsFront(score, fields, order, limit);
    forall i, j | 0 <= i < j < |order|
      ensures order[i] != order[j]
    {
      NotEarlier(score, fields, order, j);
      assert order[..j][i] == order[i];
    }
    forall k | k in Kept(score, fields, limit)
      ensures k in fields && k in order[..limit]
    {
      KeptAreFields(score, fields, limit, k);
      var p :| 0 <= p < |order| && order[p] == k;
    }
    hide Kept, Sorted;
  }

  // ---- The whole payload ---------------------------------------------------

  /** topLevelKeys: the sorted field names of an object; None, which is written as null, for anything else. */
  predicate TopLevel(root: Json, keys: Option<seq<string>>) {
    if !root.JObject? then keys == None
    else keys.Some? && InOrder(keys.value) && multiset(keys.value) == multiset(root.fields.Keys)
  }

  lemma TopLevelUnique(root: Json, a: Option<seq<string>>, b: Option<seq<string>>)
    requires TopLevel(root, a) && TopLevel(root, b)
    ensures a == b
  {
    if root.JObject? {
      InOrderUnique(a.value, b.value);
    }
    hide InOrder;
  }

  function Texts(keys: seq<string>): seq<Json> {
    seq(|keys|, i requires 0 <= i < |keys| => JString(keys[i]))
  }

  /** The compacted payload with the account of what was cut. */
  function Wrapped(compacted: Json, counts: Stats, keys: Option<seq<string>>, original: nat): Json {
    JObject(map[
      "_compaction" := JObject(map[
        "original_bytes" := JNumber(original as real),
        "top_level_keys" := match keys case None => JNull case Some(ks) => JArray(Texts(ks)),
        "dropped_fields" := JNumber(counts.fields as real),
        "truncated_strings" := JNumber(counts.strings as real),
        "truncated_arrays" := JNumber(counts.arrays as real),
        "strategy" := JString("generic_structural"),
        "compaction_enabled" := JBool(true)]),
      "payload" := compacted])
  }

  method TopLevelKeys(root: Json) returns (keys: Option<seq<string>>)
    ensures TopLevel(root, keys)
  {
    if !root.JObject? {
      return None;
    }
    var names: seq<string> := [];
    var pending := root.fields.Keys;
    while pending != {}
      invariant pending <= root.fields.Keys && multiset(names) == multiset(root.fields.Keys - pending)
    {
      var k :| k in pending;
      assert root.fields.Keys - (pending - {k}) == (root.fields.Keys - pending) + {k};
      pending := pending - {k};
      names := names + [k];
    }
    assert root.fields.Keys - pending == root.fields.Keys;
    var sorted := SortStrings(names);
    keys := Some(sorted);
  }

  /** wrapped is None when the payload goes to the model as it came. */
  datatype Compacted = Compacted(wrapped: Option<Json>, bytes: nat, counts: Stats)

  /**
   compactPayloadForLLM. parsed is None when the text is no JSON; size gives the length of a
   value as text. The compacted form is used exactly when it is wanted and shorter.
   */
  method CompactPayloadForLLM(r: Rules, enabled: bool, threshold: int, parsed: Option<Json>, original: nat, size: Json -> nat)
    returns (result: Compacted)
    ensures !enabled || original < threshold || parsed.None? ==> result.wrapped == None
    ensures enabled && original >= threshold && parsed.Some? ==>
              forall keys | TopLevel(parsed.value, keys) ::
                var doc := Wrapped(Compact(r, "", parsed.value), Tally(r, "", parsed.value), keys, original);
                result.wrapped == if size(doc) < original then Some(doc) else None
    ensures result.wrapped.None? ==> result.bytes == original && result.counts == ZERO
    ensures result.wrapped.Some? ==>
              result.bytes == size(result.wrapped.value) < original && result.counts == Tally(r, "", parsed.value)
  {
    hide Compact, Tally, TopLevel, Wrapped;
    result := Compacted(None, original, ZERO);
    if !enabled || original < threshold || parsed.None? {
      return;
    }
    var stats := new CompactionStats();
    var compacted := CompactValue(r, "", parsed.value, stats);
    var counts := Stats(stats.droppedFields, stats.truncatedStrings, stats.truncatedArrays);
    var keys := TopLevelKeys(parsed.value);
    var doc := Wrapped(compacted, counts, keys, original);
    forall other | TopLevel(parsed.value, other)
      ensures other == keys
    {
      TopLevelUnique(parsed.value, other, keys);
    }
    if size(doc) >= original {
      return;
    }
    result := Compacted(Some(doc), size(doc), counts);
  }
}
