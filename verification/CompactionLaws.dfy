/**
 What compaction guarantees (internal/service/llm_compaction.go:81-154): its output is bounded,
 says how much was cut, holds nothing that was not there, and is the input itself when
 nothing had to be cut.
 */
module CompactionLaws {
  import opened Text
  import opened Json
  import opened FieldOrder
  import opened Compaction

  // ---- Pieces of an object's and an array's result -------------------------

  function Dropped(r: Rules, fields: map<string, Json>): nat {
    |fields| - Limit(r.maxObject, |fields|)
  }

  /** The kept fields, compacted. */
  function KeptFields(r: Rules, fields: map<string, Json>): (done: map<string, Json>)
    ensures done.Keys == KeptOf(r, fields) && done.Keys <= fields.Keys
    ensures forall k | k in done :: done[k] == Compact(r, k, fields[k])
  {
    map k | k in fields && k in KeptOf(r, fields) :: Compact(r, k, fields[k])
  }

  function KeptItems(r: Rules, key: string, items: seq<Json>): (done: seq<Json>)
    ensures |done| == Limit(r.maxArray, |items|)
    ensures forall i | 0 <= i < |done| :: done[i] == Compact(r, key, items[i])
  {
    seq(Limit(r.maxArray, |items|), i requires 0 <= i < Limit(r.maxArray, |items|) => Compact(r, key, items[i]))
  }

  lemma CompactObjectIs(r: Rules, key: string, fields: map<string, Json>)
    ensures Compact(r, key, JObject(fields)) == JObject(FieldsMarked(KeptFields(r, fields), Dropped(r, fields)))
    ensures |KeptOf(r, fields)| == Limit(r.maxObject, |fields|)
  {
    KeptPrecede(r.score, fields, Limit(r.maxObject, |fields|));
    hide Kept, FieldsMarked;
  }

  lemma CompactArrayIs(r: Rules, key: string, items: seq<Json>)
    ensures Compact(r, key, JArray(items)) == JArray(ItemsMarked(KeptItems(r, key, items), |items| - |KeptItems(r, key, items)|))
  {
    var limit := Limit(r.maxArray, |items|);
    assert KeptItems(r, key, items) == seq(limit, i requires 0 <= i < limit => Compact(r, key, items[i]));
    hide ItemsMarked;
  }

  // ---- Size ----------------------------------------------------------------

  predicate Within(r: Rules, v: Json)
    decreases v
  {
    match v
    case JString(s) => |s| <= r.maxString
    case JArray(items) => |items| <= r.maxArray + 1 && forall i | 0 <= i < |items| :: Within(r, items[i])
    case JObject(fields) => |fields| <= r.maxObject + 1 && forall k | k in fields :: Within(r, fields[k])
    case _ => true
  }

  /** With positive limits every text, array and object of the output keeps to its limit, plus one marker. */
  lemma {:induction false} CompactWithin(r: Rules, key: string, v: Json)
    requires r.maxString > 0 && r.maxArray > 0 && r.maxObject > 0
    ensures Within(r, Compact(r, key, v))
    decreases v
  {
    match v
    case JString(s) => hide TrimSpace;
    case JArray(items) =>
      CompactArrayIs(r, key, items);
      var done := KeptItems(r, key, items);
      forall i | 0 <= i < |done|
        ensures Within(r, done[i])
      {
        CompactWithin(r, key, items[i]);
      }
      ItemsMarkedWithin(r, done, |items| - |done|);
      hide Compact, KeptItems, ItemsMarked;
    case JObject(fields) =>
      CompactObjectIs(r, key, fields);
      var done := KeptFields(r, fields);
      forall k | k in done
        ensures Within(r, done[k])
      {
        CompactWithin(r, k, fields[k]);
      }
      assert |done.Keys| == |done|;
      FieldsMarkedWithin(r, done, Dropped(r, fields));
      hide Compact, KeptFields, KeptOf, FieldsMarked;
    case _ =>
  }

  lemma ItemsMarkedWithin(r: Rules, done: seq<Json>, dropped: nat)
    requires r.maxObject > 0 && |done| <= r.maxArray && forall i | 0 <= i < |done| :: Within(r, done[i])
    ensures Within(r, JArray(ItemsMarked(done, dropped)))
  {
    var marker := map[ITEMS_MARK := JNumber(dropped as real)];
    assert marker.Keys == {ITEMS_MARK} && |marker| == |marker.Keys| == 1;
    assert Within(r, JNumber(dropped as real));
    assert Within(r, JObject(marker));
  }

  lemma FieldsMarkedWithin(r: Rules, done: map<string, Json>, dropped: nat)
    requires |done| <= r.maxObject && forall k | k in done :: Within(r, done[k])
    ensures Within(r, JObject(FieldsMarked(done, dropped)))
  {
    MarkedSize(done, dropped);
    assert Within(r, JNumber(dropped as real));
  }

  lemma MarkedSize(done: map<string, Json>, dropped: nat)
    ensures |FieldsMarked(done, dropped)| <= |done| + 1
  {
    var out := FieldsMarked(done, dropped);
    var all := done.Keys + {FIELDS_MARK};
    assert all == out.Keys + (all - out.Keys);
    assert |out| == |out.Keys|;
  }

  predicate DepthAtMost(v: Json, n: nat)
    decreases v
  {
    && n >= 1
    && match v
       case JArray(items) => forall i | 0 <= i < |items| :: DepthAtMost(items[i], n - 1)
       case JObject(fields) => forall k | k in fields :: DepthAtMost(fields[k], n - 1)
       case _ => true
  }

  lemma ItemsMarkedDepth(done: seq<Json>, dropped: nat, n: nat)
    requires n >= 1 && (dropped > 0 ==> n >= 2) && forall i | 0 <= i < |done| :: DepthAtMost(done[i], n)
    ensures DepthAtMost(JArray(ItemsMarked(done, dropped)), n + 1)
  {
    assert n >= 2 ==> DepthAtMost(JNumber(dropped as real), n - 1);
    assert n >= 2 ==> DepthAtMost(JObject(map[ITEMS_MARK := JNumber(dropped as real)]), n);
  }

  lemma FieldsMarkedDepth(done: map<string, Json>, dropped: nat, n: nat)
    requires n >= 1 && forall k | k in done :: DepthAtMost(done[k], n)
    ensures DepthAtMost(JObject(FieldsMarked(done, dropped)), n + 1)
  {
    assert DepthAtMost(JNumber(dropped as real), n);
  }

  predicate Leaf(v: Json) {
    !v.JArray? && !v.JObject?
  }

  lemma LeafDepth(r: Rules, key: string, v: Json, n: nat)
    requires Leaf(v) && n >= 1
    ensures DepthAtMost(Compact(r, key, v), n)
  {
    hide Shortened;
  }

  lemma BelowDepth(v: Json, n: nat)
    requires DepthAtMost(v, n)
    ensures n >= 1
    ensures v.JArray? ==> (forall i | 0 <= i < |v.items| :: DepthAtMost(v.items[i], n - 1)) && (v.items != [] ==> n >= 2)
    ensures v.JObject? ==> forall k | k in v.fields :: DepthAtMost(v.fields[k], n - 1)
  {
    if v.JArray? && v.items != [] {
      assert DepthAtMost(v.items[0], n - 1);
    }
  }

  /** Whatever the limits, nesting grows by one level at most. */
  lemma {:induction false} CompactDepth(r: Rules, key: string, v: Json, n: nat)
    requires DepthAtMost(v, n)
    ensures DepthAtMost(Compact(r, key, v), n + 1)
    decreases v
  {
    hide Compact, KeptItems, KeptFields, KeptOf, ItemsMarked, FieldsMarked, DepthAtMost;
    BelowDepth(v, n);
    match v
    case JArray(items) =>
      CompactArrayIs(r, key, items);
      var done := KeptItems(r, key, items);
      forall i | 0 <= i < |done|
        ensures DepthAtMost(done[i], n)
      {
        CompactDepth(r, key, items[i], n - 1);
      }
      ItemsMarkedDepth(done, |items| - |done|, n);
    case JObject(fields) =>
      CompactObjectIs(r, key, fields);
      var done := KeptFields(r, fields);
      forall k | k in done
        ensures DepthAtMost(done[k], n)
      {
        CompactDepth(r, k, fields[k], n - 1);
      }
      FieldsMarkedDepth(done, Dropped(r, fields), n);
    case _ => LeafDepth(r, key, v, n + 1);
  }

  // ---- Accounting ----------------------------------------------------------

  /** No object in the value uses the two keys that markers are written under. */
  predicate NoMarkers(v: Json)
    decreases v
  {
    match v
    case JObject(fields) =>
      FIELDS_MARK !in fields && ITEMS_MARK !in fields && forall k | k in fields :: NoMarkers(fields[k])
    case JArray(items) => forall i | 0 <= i < |items| :: NoMarkers(items[i])
    case _ => true
  }

  /** What the markers of one object say: a number of fields, and that an array was shortened. */
  function OwnMarks(fields: map<string, Json>): Stats {
    Stats(if FIELDS_MARK in fields && fields[FIELDS_MARK].JNumber? && fields[FIELDS_MARK].x >= 0.0 then fields[FIELDS_MARK].x.Floor else 0,
          0,
          if ITEMS_MARK in fields then 1 else 0)
  }

  /** All the markers in a value together. */
  ghost function Marks(v: Json): Stats
    decreases v, 1
  {
    match v
    case JObject(fields) => Plus(OwnMarks(fields), Total(FieldMarks(v)))
    case JArray(items) => TotalOf(seq(|items|, i requires 0 <= i < |items| => Marks(items[i])))
    case _ => ZERO
  }

  ghost function FieldMarks(v: Json): map<string, Stats>
    requires v.JObject?
    decreases v, 0
  {
    map k | k in v.fields :: Marks(v.fields[k])
  }

  /** Everything but the texts. */
  function Visible(a: Stats): Stats {
    a.(strings := 0)
  }

  lemma {:induction false} TotalVisible(a: map<string, Stats>, b: map<string, Stats>)
    requires a.Keys == b.Keys && forall k | k in a :: a[k] == Visible(b[k])
    ensures Total(a) == Visible(Total(b))
    decreases a.Keys
  {
    if a.Keys == {} {
      assert a == map[] && b == map[];
    } else {
      var k :| k in a;
      TotalStep(a, k);
      TotalStep(b, k);
      TotalVisible(a - {k}, b - {k});
    }
  }

  lemma {:induction false} TotalOfVisible(a: seq<Stats>, b: seq<Stats>)
    requires |a| == |b| && forall i | 0 <= i < |a| :: a[i] == Visible(b[i])
    ensures TotalOf(a) == Visible(TotalOf(b))
  {
    if a != [] {
      TotalOfVisible(a[..|a| - 1], b[..|b| - 1]);
    }
  }

  /** marks gives each field's markers. */
  ghost predicate MarksEach(fields: map<string, Json>, marks: map<string, Stats>) {
    marks.Keys == fields.Keys && forall k | k in fields :: marks[k] == Marks(fields[k])
  }

  lemma MarksObjectIs(fields: map<string, Json>, marks: map<string, Stats>)
    requires MarksEach(fields, marks)
    ensures Marks(JObject(fields)) == Plus(OwnMarks(fields), Total(marks))
  {
    EachIsMap(fields, marks);
    hide MarksEach, FieldMarks, Total, OwnMarks, Plus;
  }

  lemma EachIsMap(fields: map<string, Json>, marks: map<string, Stats>)
    requires MarksEach(fields, marks)
    ensures marks == FieldMarks(JObject(fields))
  {
    hide Marks;
  }

  lemma MarksArrayIs(items: seq<Json>, marks: seq<Stats>)
    requires |marks| == |items| && forall i | 0 <= i < |items| :: marks[i] == Marks(items[i])
    ensures Marks(JArray(items)) == TotalOf(marks)
  {
    assert marks == seq(|items|, i requires 0 <= i < |items| => Marks(items[i]));
    hide TotalOf;
  }

  lemma NumberMarks(x: real)
    ensures Marks(JNumber(x)) == ZERO
  {
  }

  lemma MarksEachAdd(fields: map<string, Json>, marks: map<string, Stats>, k: string, x: real)
    requires MarksEach(fields, marks)
    ensures MarksEach(fields[k := JNumber(x)], marks[k := ZERO])
  {
    NumberMarks(x);
    hide Marks;
  }

  lemma SameKeys(fields: map<string, Json>, marks: map<string, Stats>)
    requires MarksEach(fields, marks)
    ensures marks.Keys == fields.Keys
  {
  }

  lemma PlusZero(a: Stats)
    ensures Plus(ZERO, a) == a == Plus(a, ZERO)
  {
  }

  lemma MarkerOwn(dropped: nat)
    ensures OwnMarks(map[ITEMS_MARK := JNumber(dropped as real)]) == Stats(0, 0, 1)
  {
  }

  lemma MarkerEach(dropped: nat)
    ensures MarksEach(map[ITEMS_MARK := JNumber(dropped as real)], map[ITEMS_MARK := ZERO])
  {
    MarksEachAdd(map[], map[], ITEMS_MARK, dropped as real);
    hide *;
  }

  lemma NoneMarked()
    ensures Total(map[ITEMS_MARK := ZERO]) == ZERO
  {
    NoTotal();
    TotalAdd(map[], ITEMS_MARK, ZERO);
    PlusZero(ZERO);
    hide *;
  }

  lemma MarkerSum(dropped: nat)
    ensures Marks(JObject(map[ITEMS_MARK := JNumber(dropped as real)])) == Plus(OwnMarks(map[ITEMS_MARK := JNumber(dropped as real)]), Total(map[ITEMS_MARK := ZERO]))
  {
    MarkerEach(dropped);
    MarksObjectIs(map[ITEMS_MARK := JNumber(dropped as real)], map[ITEMS_MARK := ZERO]);
    hide *;
  }

  lemma MarkerMarks(dropped: nat)
    ensures Marks(Marker(dropped)) == Stats(0, 0, 1)
  {
    NoneMarked();
    MarkerSum(dropped);
    MarkerOwn(dropped);
    PlusZero(Stats(0, 0, 1));
    hide Marks, Total, Plus, OwnMarks;
  }

  lemma ArrayMarks(done: seq<Json>, marks: seq<Stats>, dropped: nat)
    requires |marks| == |done| && forall i | 0 <= i < |done| :: marks[i] == Marks(done[i])
    ensures Marks(JArray(ItemsMarked(done, dropped))) == Plus(TotalOf(marks), Stats(0, 0, if dropped > 0 then 1 else 0))
  {
    hide Marks, TotalOf;
    if dropped > 0 {
      MarkerMarks(dropped);
      TotalOfStep(marks, Stats(0, 0, 1));
      MarksArrayIs(done + [Marker(dropped)], marks + [Stats(0, 0, 1)]);
    } else {
      MarksArrayIs(done, marks);
    }
  }

  lemma MarkedOwn(done: map<string, Json>, dropped: nat)
    requires FIELDS_MARK !in done && ITEMS_MARK !in done
    ensures OwnMarks(FieldsMarked(done, dropped)) == Stats(dropped, 0, 0)
  {
  }

  lemma ObjectMarks(done: map<string, Json>, marks: map<string, Stats>, dropped: nat)
    requires FIELDS_MARK !in done && ITEMS_MARK !in done
    requires MarksEach(done, marks)
    ensures Marks(JObject(FieldsMarked(done, dropped))) == Plus(Stats(dropped, 0, 0), Total(marks))
  {
    MarkedOwn(done, dropped);
    PlusZero(Total(marks));
    hide Marks, Total, OwnMarks, Plus, MarksEach;
    if dropped > 0 {
      assert FIELDS_MARK !in marks by {
        SameKeys(done, marks);
      }
      MarksEachAdd(done, marks, FIELDS_MARK, dropped as real);
      TotalAdd(marks, FIELDS_MARK, ZERO);
      MarksObjectIs(FieldsMarked(done, dropped), marks[FIELDS_MARK := ZERO]);
    } else {
      MarksObjectIs(done, marks);
    }
  }

  /** The markers in the output account for every dropped field and every shortened array. */
  lemma {:induction false} MarkersAccount(r: Rules, key: string, v: Json)
    requires NoMarkers(v)
    ensures Marks(Compact(r, key, v)) == Visible(Tally(r, key, v))
    decreases v
  {
    hide Compact, Tally, Marks, KeptItems, KeptFields, KeptOf, ItemsMarked, FieldsMarked, Total, TotalOf;
    match v
    case JArray(items) =>
      CompactArrayIs(r, key, items);
      var done := KeptItems(r, key, items);
      var marks := seq(|done|, i requires 0 <= i < |done| => Marks(done[i]));
      var tallies := seq(|done|, i requires 0 <= i < |done| => Tally(r, key, items[i]));
      forall i | 0 <= i < |done|
        ensures marks[i] == Visible(tallies[i])
      {
        MarkersAccount(r, key, items[i]);
      }
      TotalOfVisible(marks, tallies);
      ArrayMarks(done, marks, |items| - |done|);
      ArrayIs(r, key, items, done, tallies);
    case JObject(fields) =>
      CompactObjectIs(r, key, fields);
      var done := KeptFields(r, fields);
      var marks := map k | k in done :: Marks(done[k]);
      var tallies := map k | k in done :: Tally(r, k, fields[k]);
      forall k | k in done
        ensures marks[k] == Visible(tallies[k])
      {
        MarkersAccount(r, k, fields[k]);
      }
      TotalVisible(marks, tallies);
      ObjectMarks(done, marks, Dropped(r, fields));
      ObjectIs(r, key, fields, done, tallies);
    case _ => LeafMarks(r, key, v);
  }

  lemma LeafMarks(r: Rules, key: string, v: Json)
    requires Leaf(v)
    ensures Marks(Compact(r, key, v)) == ZERO == Visible(Tally(r, key, v))
  {
    hide Shortened;
  }

  // ---- Nothing is made up --------------------------------------------------

  /** out shows part of v: front parts of its texts, items at their places, fields under their names. */
  predicate Abridges(out: Json, v: Json)
    decreases v
  {
    match v
    case JString(s) => out.JString? && out.s <= TrimSpace(s)
    case JArray(items) =>
      && out.JArray?
      && (|out.items| < |items| ==> out.items != [] && out.items[|out.items| - 1] == Marker(|items| - |out.items| + 1))
      && |out.items| <= |items|
      && (forall i | 0 <= i < |out.items| ::
            Abridges(out.items[i], items[i]) || (i == |out.items| - 1 && out.items[i] == Marker(|items| - i)))
    case JObject(fields) =>
      && out.JObject?
      && forall k | k in out.fields :: k == FIELDS_MARK || (k in fields && Abridges(out.fields[k], fields[k]))
    case _ => out == v
  }

  /** Compaction only leaves out. */
  lemma {:induction false} CompactAbridges(r: Rules, key: string, v: Json)
    ensures Abridges(Compact(r, key, v), v)
    decreases v
  {
    hide Compact, KeptItems, KeptFields, KeptOf;
    match v
    case JArray(items) =>
      CompactArrayIs(r, key, items);
      var done := KeptItems(r, key, items);
      forall i | 0 <= i < |done|
        ensures Abridges(done[i], items[i])
      {
        CompactAbridges(r, key, items[i]);
      }
      hide Abridges;
      ArrayAbridged(done, items);
    case JObject(fields) =>
      CompactObjectIs(r, key, fields);
      var done := KeptFields(r, fields);
      forall k | k in done
        ensures Abridges(done[k], fields[k])
      {
        CompactAbridges(r, k, fields[k]);
      }
    case _ => LeafAbridged(r, key, v);
  }

  lemma ArrayAbridged(done: seq<Json>, items: seq<Json>)
    requires |done| <= |items| && forall i | 0 <= i < |done| :: Abridges(done[i], items[i])
    ensures Abridges(JArray(ItemsMarked(done, |items| - |done|)), JArray(items))
  {
    var out := ItemsMarked(done, |items| - |done|);
    assert |done| < |items| ==> out[|done|] == Marker(|items| - |done|);
  }

  lemma LeafAbridged(r: Rules, key: string, v: Json)
    requires Leaf(v)
    ensures Abridges(Compact(r, key, v), v)
  {
    hide TrimSpace;
  }

  // ---- When nothing is cut -------------------------------------------------

  predicate TextIntact(r: Rules, key: string, s: string) {
    Trimmed(s) && (r.maxString <= 0 || |s| <= if r.noisy(key, s) then r.maxString / 2 else r.maxString)
  }

  /** Every text, array and object is within its limit already, and every text is trimmed. */
  predicate Intact(r: Rules, key: string, v: Json)
    decreases v
  {
    match v
    case JString(s) => TextIntact(r, key, s)
    case JArray(items) => (r.maxArray <= 0 || |items| <= r.maxArray) && forall i | 0 <= i < |items| :: Intact(r, key, items[i])
    case JObject(fields) => (r.maxObject <= 0 || |fields| <= r.maxObject) && forall k | k in fields :: Intact(r, k, fields[k])
    case _ => true
  }

  lemma TextUnchanged(r: Rules, key: string, s: string)
    ensures Shortened(r, key, s) == s <==> TextIntact(r, key, s)
  {
    TrimSpaceIsTrimmed(s);
    if Trimmed(s) {
      TrimSpaceFixes(s);
    }
    if Shortened(r, key, s) == s {
      ShortenedPrefix(r, key, s);
    }
    hide TrimSpace, Trimmed;
  }

  lemma ShortenedPrefix(r: Rules, key: string, s: string)
    ensures |Shortened(r, key, s)| <= |TrimSpace(s)| <= |s|
    ensures |Shortened(r, key, s)| == |TrimSpace(s)| ==> Shortened(r, key, s) == TrimSpace(s)
  {
    TrimSpaceIsTrimmed(s);
    hide TrimSpace;
  }

  /** Compaction changes nothing exactly when there is nothing to cut. */
  lemma {:induction false} UnchangedIff(r: Rules, key: string, v: Json)
    requires NoMarkers(v)
    ensures Compact(r, key, v) == v <==> Intact(r, key, v)
    decreases v
  {
    hide Compact, KeptItems, KeptFields, KeptOf;
    match v
    case JArray(items) =>
      CompactArrayIs(r, key, items);
      var done := KeptItems(r, key, items);
      forall i | 0 <= i < |done|
        ensures done[i] == items[i] <==> Intact(r, key, items[i])
      {
        UnchangedIff(r, key, items[i]);
      }
      ArrayUnchanged(done, items);
    case JObject(fields) =>
      CompactObjectIs(r, key, fields);
      var done := KeptFields(r, fields);
      forall k | k in done
        ensures done[k] == fields[k] <==> Intact(r, k, fields[k])
      {
        UnchangedIff(r, k, fields[k]);
      }
      ObjectUnchanged(r, fields, done);
    case JString(s) =>
      TextUnchanged(r, key, s);
      LeafCompact(r, key, v);
    case _ => LeafCompact(r, key, v);
  }

  lemma LeafCompact(r: Rules, key: string, v: Json)
    requires Leaf(v)
    ensures Compact(r, key, v) == if v.JString? then JString(Shortened(r, key, v.s)) else v
  {
    hide Shortened;
  }

  lemma ArrayUnchanged(done: seq<Json>, items: seq<Json>)
    requires NoMarkers(JArray(items)) && |done| <= |items|
    ensures ItemsMarked(done, |items| - |done|) == items <==> |done| == |items| && forall i | 0 <= i < |done| :: done[i] == items[i]
  {
    var out := ItemsMarked(done, |items| - |done|);
    assert |items| == |done| + 1 ==> out[|done|] == Marker(1) && NoMarkers(items[|done|]);
    assert !NoMarkers(Marker(1));
  }

  lemma ObjectUnchanged(r: Rules, fields: map<string, Json>, done: map<string, Json>)
    requires NoMarkers(JObject(fields)) && done.Keys <= fields.Keys && |done.Keys| == Limit(r.maxObject, |fields|)
    ensures FieldsMarked(done, Dropped(r, fields)) == fields <==>
              Dropped(r, fields) == 0 && forall k | k in done :: done[k] == fields[k]
    ensures Dropped(r, fields) == 0 ==> done.Keys == fields.Keys
  {
    if Dropped(r, fields) == 0 {
      SubsetAll(done.Keys, fields.Keys);
    }
  }

  lemma SubsetAll(a: set<string>, b: set<string>)
    requires a <= b && |a| == |b|
    ensures a == b
  {
    assert b == a + (b - a);
  }
}
