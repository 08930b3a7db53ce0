/**
 What compaction makes of each single position of a payload, and how many texts it shortens
 (internal/service/llm_compaction.go:81-154).
 */
module CompactionPoints {
  import opened Text
  import opened Json
  import opened FieldOrder
  import opened Compaction
  import opened CompactionLaws

  /** Fewer fields come before this one than an object may keep. */
  predicate FieldStays(r: Rules, fields: map<string, Json>, k: string) {
    k in fields && (r.maxObject <= 0 || |set j | j in fields && Ahead(r.score, fields, j, k)| < r.maxObject)
  }

  predicate ItemStays(r: Rules, items: seq<Json>, i: nat) {
    i < |items| && (r.maxArray <= 0 || i < r.maxArray)
  }

  /** Nothing on the way to the position is dropped. */
  predicate Reached(r: Rules, v: Json, steps: seq<Step>) {
    steps == []
    || match steps[0]
       case Key(k) => v.JObject? && FieldStays(r, v.fields, k) && Reached(r, v.fields[k], steps[1..])
       case Item(i) => v.JArray? && ItemStays(r, v.items, i) && Reached(r, v.items[i], steps[1..])
  }

  /** The innermost field name on the way, which is what a text goes by. */
  function NameAt(name: string, steps: seq<Step>): string
    decreases |steps|
  {
    if steps == [] then name else NameAt(if steps[0].Key? then steps[0].k else name, steps[1..])
  }

  function Smaller(m: nat, n: nat): nat {
    if m < n then m else n
  }

  /** A text must give way: it is a noisy link, or longer than the limit if there is one. */
  predicate Overlong(r: Rules, name: string, s: string) {
    r.maxString > 0 && (r.noisy(name, TrimSpace(s)) || |TrimSpace(s)| > r.maxString)
  }

  /** The whole trimmed text, or as much of its front as fits. */
  predicate FrontOf(r: Rules, name: string, s: string, out: string) {
    var text := TrimSpace(s);
    && out <= text
    && (r.maxString <= 0 ==> |out| == |text|)
    && (r.maxString > 0 && !r.noisy(name, text) ==> |out| == Smaller(r.maxString, |text|))
    && (r.maxString > 0 && r.noisy(name, text) ==> |out| == Smaller(r.maxString / 2, |text|))
  }

  /** What one node becomes, apart from what is below it. */
  ghost predicate Becomes(r: Rules, name: string, v: Json, out: Json) {
    match v
    case JString(s) => out.JString? && FrontOf(r, name, s, out.s)
    case JArray(items) =>
      && out.JArray?
      && (r.maxArray <= 0 || |items| <= r.maxArray ==> |out.items| == |items|)
      && (0 < r.maxArray < |items| ==>
            && |out.items| == r.maxArray + 1
            && out.items[r.maxArray] == JObject(map["_truncated_items" := JNumber((|items| - r.maxArray) as real)]))
    case JObject(fields) =>
      && out.JObject?
      && (forall k | k != "_truncated_fields" :: k in out.fields <==> FieldStays(r, fields, k))
      && (0 < r.maxObject < |fields| ==>
            && "_truncated_fields" in out.fields
            && out.fields["_truncated_fields"] == JNumber((|fields| - r.maxObject) as real))
      && (r.maxObject <= 0 || |fields| <= r.maxObject ==>
            ("_truncated_fields" in out.fields <==> "_truncated_fields" in fields))
    case _ => out == v
  }

  lemma LeadersAre(score: Score, fields: map<string, Json>, k: string)
    requires k in fields
    ensures Leaders(score, fields, k) == set j | j in fields && Ahead(score, fields, j, k)
  {
  }

  lemma StaysIffKept(r: Rules, fields: map<string, Json>, k: string)
    ensures FieldStays(r, fields, k) <==> k in KeptOf(r, fields)
  {
    if k in fields {
      LeadersAre(r.score, fields, k);
      LeadersFew(r.score, fields, k);
    }
    hide Ahead;
  }

  /** A field is never ahead of itself, so fewer are ahead of it than there are. */
  lemma LeadersFew(score: Score, fields: map<string, Json>, k: string)
    requires k in fields
    ensures |Leaders(score, fields, k)| < |fields|
  {
    AheadStrictTotal(score, fields, k, k, k);
    var leaders := Leaders(score, fields, k);
    var others := fields.Keys - {k};
    assert leaders <= others;
    hide Ahead, Leaders;
    assert others == leaders + (others - leaders);
    assert |fields.Keys| == |others| + 1;
  }

  lemma KeysMarked(done: map<string, Json>, dropped: nat)
    ensures var out := FieldsMarked(done, dropped);
            && (forall k | k != "_truncated_fields" :: k in out <==> k in done)
            && (dropped > 0 ==> "_truncated_fields" in out && out["_truncated_fields"] == JNumber(dropped as real))
            && (dropped == 0 ==> out == done)
  {
  }

  lemma ObjectBecomes(r: Rules, name: string, fields: map<string, Json>)
    ensures Becomes(r, name, JObject(fields), Compact(r, name, JObject(fields)))
  {
    hide FieldStays, KeptFields, FieldsMarked, KeptOf;
    CompactObjectIs(r, name, fields);
    hide Compact;
    var done := KeptFields(r, fields);
    KeysMarked(done, Dropped(r, fields));
    forall k
      ensures FieldStays(r, fields, k) <==> k in done
    {
      StaysIffKept(r, fields, k);
    }
    if r.maxObject <= 0 || |fields| <= r.maxObject {
      SubsetAll(done.Keys, fields.Keys);
    }
  }

  lemma NodeBecomes(r: Rules, name: string, v: Json)
    ensures Becomes(r, name, v, Compact(r, name, v))
  {
    hide TrimSpace, Ahead;
    match v
    case JObject(fields) => ObjectBecomes(r, name, fields);
    case JArray(items) => CompactArrayIs(r, name, items);
    case _ =>
  }

  /** Where a child that stays is found in the result, and what is there. */
  lemma ChildAt(r: Rules, name: string, v: Json, step: Step)
    requires Reached(r, v, [step]) && step != Key("_truncated_fields")
    ensures Child(v, step).Some?
    ensures Child(Compact(r, name, v), step) == Some(Compact(r, NameAt(name, [step]), Child(v, step).value))
  {
    assert NameAt(name, [step]) == if step.Key? then step.k else name;
    match step
    case Key(k) =>
      StaysIffKept(r, v.fields, k);
      CompactObjectIs(r, name, v.fields);
      hide Compact, KeptOf, FieldStays;
    case Item(i) =>
      CompactArrayIs(r, name, v.items);
      hide Compact;
  }

  /**
   Every position that is reached is there in the result, and holds what its node becomes: with
   this at every position there is nothing else in the result but the markers.
   */
  lemma {:induction false} PointwiseExact(r: Rules, name: string, v: Json, steps: seq<Step>)
    requires Reached(r, v, steps) && Key("_truncated_fields") !in steps
    ensures At(v, steps).Some? && At(Compact(r, name, v), steps).Some?
    ensures Becomes(r, NameAt(name, steps), At(v, steps).value, At(Compact(r, name, v), steps).value)
    decreases |steps|
  {
    hide Compact, Becomes, FieldStays, ItemStays;
    if steps == [] {
      NodeBecomes(r, name, v);
    } else {
      assert [steps[0]][1..] == [];
      ChildAt(r, name, v, steps[0]);
      PointwiseExact(r, NameAt(name, [steps[0]]), Child(v, steps[0]).value, steps[1..]);
    }
  }

  // ---- How many texts give way ---------------------------------------------

  /** The position holds a text that must give way. */
  predicate GivesWay(r: Rules, name: string, v: Json, p: seq<Step>) {
    && Reached(r, v, p)
    && At(v, p).Some? && At(v, p).value.JString? && Overlong(r, NameAt(name, p), At(v, p).value.s)
  }

  function Under(step: Step, inner: set<seq<Step>>): set<seq<Step>> {
    set p | p in inner :: [step] + p
  }

  lemma {:induction false} UnderSize(step: Step, inner: set<seq<Step>>)
    ensures |Under(step, inner)| == |inner|
    ensures forall p :: p in Under(step, inner) <==> p != [] && p[0] == step && p[1..] in inner
  {
    forall p
      ensures p in Under(step, inner) <==> p != [] && p[0] == step && p[1..] in inner
    {
      UnderMember(step, inner, p);
    }
    if inner != {} {
      var q :| q in inner;
      UnderSize(step, inner - {q});
      UnderMember(step, inner - {q}, [step] + q);
      assert Under(step, inner) == Under(step, inner - {q}) + {[step] + q};
    }
  }

  lemma UnderMember(step: Step, inner: set<seq<Step>>, p: seq<Step>)
    ensures p in Under(step, inner) <==> p != [] && p[0] == step && p[1..] in inner
  {
    if p != [] && p[0] == step && p[1..] in inner {
      assert p == [step] + p[1..];
    }
  }

  /** One step down, the same texts give way. */
  lemma GivesWayBelow(r: Rules, name: string, v: Json, p: seq<Step>)
    requires p != []
    ensures GivesWay(r, name, v, p) <==>
              Reached(r, v, [p[0]]) && GivesWay(r, NameAt(name, [p[0]]), Child(v, p[0]).value, p[1..])
  {
    assert [p[0]][1..] == [];
    hide Overlong, FieldStays, ItemStays;
  }

  /** The positions below these fields that give way. */
  predicate BelowFields(r: Rules, name: string, v: Json, keys: set<string>, p: seq<Step>) {
    p != [] && p[0].Key? && p[0].k in keys && GivesWay(r, name, v, p)
  }

  predicate BelowItems(r: Rules, name: string, v: Json, n: nat, p: seq<Step>) {
    p != [] && p[0].Item? && p[0].i < n && GivesWay(r, name, v, p)
  }

  lemma ChildCounted(r: Rules, name: string, v: Json, step: Step, inner: set<seq<Step>>)
    requires Reached(r, v, [step]) && Child(v, step).Some?
    requires forall p :: p in inner <==> GivesWay(r, NameAt(name, [step]), Child(v, step).value, p)
    ensures forall p :: p in Under(step, inner) <==> p != [] && p[0] == step && GivesWay(r, name, v, p)
    ensures |Under(step, inner)| == |inner|
  {
    UnderSize(step, inner);
    hide GivesWay, Reached, Under, NameAt;
    forall p
      ensures p in Under(step, inner) <==> p != [] && p[0] == step && GivesWay(r, name, v, p)
    {
      if p != [] && p[0] == step {
        GivesWayBelow(r, name, v, p);
      }
    }
  }

  lemma Disjoint(a: set<seq<Step>>, b: set<seq<Step>>)
    requires a !! b
    ensures |a + b| == |a| + |b|
  {
  }

  lemma {:induction false} FieldsCounted(r: Rules, name: string, v: Json, tallies: map<string, Stats>) returns (cut: set<seq<Step>>)
    requires v.JObject? && tallies.Keys <= v.fields.Keys
    requires forall k | k in tallies :: FieldStays(r, v.fields, k) && tallies[k] == Tally(r, k, v.fields[k])
    ensures forall p :: p in cut <==> BelowFields(r, name, v, tallies.Keys, p)
    ensures |cut| == Total(tallies).strings
    decreases v, 0, |tallies.Keys|
  {
    hide GivesWay, Tally, FieldStays, Total, Under;
    cut := {};
    if tallies.Keys == {} {
      assert tallies == map[];
      NoTotal();
    } else {
      var k :| k in tallies;
      var inner := TextsCounted(r, k, v.fields[k]);
      ChildCounted(r, name, v, Key(k), inner);
      var rest := FieldsCounted(r, name, v, tallies - {k});
      TotalStep(tallies, k);
      Disjoint(Under(Key(k), inner), rest);
      cut := Under(Key(k), inner) + rest;
    }
  }

  lemma {:induction false} ItemsCounted(r: Rules, name: string, v: Json, tallies: seq<Stats>) returns (cut: set<seq<Step>>)
    requires v.JArray? && |tallies| <= |v.items|
    requires forall i | 0 <= i < |tallies| :: ItemStays(r, v.items, i) && tallies[i] == Tally(r, name, v.items[i])
    ensures forall p :: p in cut <==> BelowItems(r, name, v, |tallies|, p)
    ensures |cut| == TotalOf(tallies).strings
    decreases v, 0, |tallies|
  {
    hide GivesWay, Tally, ItemStays, Under;
    cut := {};
    if tallies != [] {
      var i := |tallies| - 1;
      var inner := TextsCounted(r, name, v.items[i]);
      ChildCounted(r, name, v, Item(i), inner);
      var rest := ItemsCounted(r, name, v, tallies[..i]);
      Disjoint(Under(Item(i), inner), rest);
      cut := Under(Item(i), inner) + rest;
    }
  }

  lemma ObjectCut(r: Rules, name: string, v: Json, p: seq<Step>)
    requires v.JObject?
    ensures GivesWay(r, name, v, p) <==> BelowFields(r, name, v, KeptOf(r, v.fields), p)
  {
    if p != [] && p[0].Key? {
      StaysIffKept(r, v.fields, p[0].k);
    }
    hide KeptOf, FieldStays, Overlong;
  }

  lemma ArrayCut(r: Rules, name: string, v: Json, p: seq<Step>)
    requires v.JArray?
    ensures GivesWay(r, name, v, p) <==> BelowItems(r, name, v, Limit(r.maxArray, |v.items|), p)
  {
    hide Overlong;
  }

  lemma LeafCut(r: Rules, name: string, v: Json, p: seq<Step>)
    requires !v.JObject? && !v.JArray?
    ensures GivesWay(r, name, v, p) <==> p == [] && v.JString? && Overlong(r, name, v.s)
    ensures Tally(r, name, v).strings == if v.JString? && Overlong(r, name, v.s) then 1 else 0
  {
    hide TrimSpace;
  }

  /** The count of shortened texts is the number of positions whose texts must give way. */
  lemma {:induction false} TextsCounted(r: Rules, name: string, v: Json) returns (cut: set<seq<Step>>)
    ensures forall p :: p in cut <==> GivesWay(r, name, v, p)
    ensures |cut| == Tally(r, name, v).strings
    decreases v, 1, 0
  {
    hide Tally, GivesWay, BelowFields, BelowItems, KeptOf, FieldStays, Total, TotalOf, Overlong;
    match v
    case JObject(fields) =>
      forall k
        ensures FieldStays(r, fields, k) <==> k in KeptOf(r, fields)
      {
        StaysIffKept(r, fields, k);
      }
      var tallies := map k | k in fields && k in KeptOf(r, fields) :: Tally(r, k, fields[k]);
      KeptWithin(r, fields);
      assert tallies.Keys == KeptOf(r, fields);
      ObjectTallies(r, name, fields, tallies);
      cut := FieldsCounted(r, name, v, tallies);
      forall p
        ensures p in cut <==> GivesWay(r, name, v, p)
      {
        ObjectCut(r, name, v, p);
      }
    case JArray(items) =>
      var limit := Limit(r.maxArray, |items|);
      var tallies := seq(limit, i requires 0 <= i < limit => Tally(r, name, items[i]));
      ArrayTallies(r, name, items, tallies);
      cut := ItemsCounted(r, name, v, tallies);
      forall p
        ensures p in cut <==> GivesWay(r, name, v, p)
      {
        ArrayCut(r, name, v, p);
      }
    case JString(s) =>
      cut := if Overlong(r, name, s) then {[]} else {};
      forall p
        ensures p in cut <==> GivesWay(r, name, v, p)
      {
        LeafCut(r, name, v, p);
      }
      LeafCut(r, name, v, []);
    case _ =>
      cut := {};
      forall p
        ensures !GivesWay(r, name, v, p)
      {
        LeafCut(r, name, v, p);
      }
      LeafCut(r, name, v, []);
  }

  lemma KeptWithin(r: Rules, fields: map<string, Json>)
    ensures KeptOf(r, fields) <= fields.Keys
  {
  }

  lemma ArrayTallies(r: Rules, name: string, items: seq<Json>, tallies: seq<Stats>)
    requires |tallies| == Limit(r.maxArray, |items|)
    requires forall j | 0 <= j < |tallies| :: tallies[j] == Tally(r, name, items[j])
    ensures Tally(r, name, JArray(items)).strings == TotalOf(tallies).strings
  {
    assert tallies == seq(|tallies|, i requires 0 <= i < |tallies| => Tally(r, name, items[i]));
    hide TotalOf;
  }

  // ---- The account given to the model --------------------------------------

  /** The wrapped document tells each count under its own name, the original size and the field names. */
  lemma WrappedTells(compacted: Json, counts: Stats, keys: Option<seq<string>>, original: nat)
    ensures var doc := Wrapped(compacted, counts, keys, original);
            && doc.JObject? && doc.fields.Keys == {"_compaction", "payload"} && doc.fields["payload"] == compacted
            && doc.fields["_compaction"].JObject?
            && var account := doc.fields["_compaction"].fields;
            && {"original_bytes", "top_level_keys", "dropped_fields", "truncated_strings", "truncated_arrays"} <= account.Keys
            && account["original_bytes"] == JNumber(original as real)
            && account["dropped_fields"] == JNumber(counts.fields as real)
            && account["truncated_strings"] == JNumber(counts.strings as real)
            && account["truncated_arrays"] == JNumber(counts.arrays as real)
            && (keys.None? ==> account["top_level_keys"] == JNull)
            && (keys.Some? ==>
                  && account["top_level_keys"].JArray?
                  && |account["top_level_keys"].items| == |keys.value|
                  && forall i | 0 <= i < |keys.value| :: account["top_level_keys"].items[i] == JString(keys.value[i]))
  {
  }
}
