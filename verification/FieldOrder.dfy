/**
 The order in which an object's fields are kept when it is compacted: higher score first,
 then the smaller key (internal/service/llm_compaction.go:84-99). The order is total, so a
 field has the same rank whatever order Go happens to range over the map.
 */
module FieldOrder {
  import opened Text
  import opened Json
  import opened Sorting

  /** How one field scores; an arbitrary function of key and value. */
  type Score = (string, Json) -> int

  predicate Ahead(score: Score, fields: map<string, Json>, j: string, k: string)
    requires j in fields && k in fields
  {
    var a, b := score(j, fields[j]), score(k, fields[k]);
    a > b || (a == b && Less(j, k))
  }

  /** The comparison the fields are sorted by is a strict total order. */
  lemma AheadStrictTotal(score: Score, fields: map<string, Json>, i: string, j: string, k: string)
    requires i in fields && j in fields && k in fields
    ensures !Ahead(score, fields, i, i)
    ensures Ahead(score, fields, i, j) && Ahead(score, fields, j, k) ==> Ahead(score, fields, i, k)
    ensures i != j ==> Ahead(score, fields, i, j) != Ahead(score, fields, j, i)
  {
    LessIrreflexive(i);
    if Less(i, j) && Less(j, k) {
      LessTransitive(i, j, k);
    }
    if Less(i, j) && Less(j, i) {
      LessTransitive(i, j, i);
    }
    if i != j {
      LessTotal(i, j);
    }
    hide Less;
  }

  /** The fields that come before this one. */
  function Leaders(score: Score, fields: map<string, Json>, k: string): set<string>
    requires k in fields
  {
    set j | j in fields && Ahead(score, fields, j, k)
  }

  /** The fields with fewer than limit before them. */
  function Kept(score: Score, fields: map<string, Json>, limit: nat): set<string> {
    set k | k in fields && |Leaders(score, fields, k)| < limit
  }

  // ---- Sorting the fields --------------------------------------------------

  predicate Sorted(score: Score, fields: map<string, Json>, order: seq<string>) {
    && (forall k | k in order :: k in fields)
    && forall i, j | 0 <= i < j < |order| :: Ahead(score, fields, order[i], order[j])
  }

  /** sort.SliceStable on the fields, in whatever order the range produced them. */
  method SortFields(score: Score, fields: map<string, Json>) returns (order: seq<string>)
    ensures Sorted(score, fields, order) && (forall k :: k in order <==> k in fields)
  {
    hide Less;
    order := [];
    var rest := fields.Keys;
    while rest != {}
      invariant rest <= fields.Keys
      invariant Sorted(score, fields, order)
      invariant forall k :: k in order <==> k in fields && k !in rest
    {
      var k :| k in rest;
      rest := rest - {k};
      order := InsertField(score, fields, order, k);
    }
  }

  method InsertField(score: Score, fields: map<string, Json>, order: seq<string>, k: string) returns (r: seq<string>)
    requires Sorted(score, fields, order) && k in fields && k !in order
    ensures Sorted(score, fields, r) && forall j :: j in r <==> j == k || j in order
  {
    var i := |order|;
    while i > 0 && Ahead(score, fields, k, order[i - 1])
      invariant 0 <= i <= |order|
      invariant forall j | i <= j < |order| :: Ahead(score, fields, k, order[j])
    {
      assert forall j | i <= j < |order| :: Ahead(score, fields, order[i - 1], order[j]);
      forall j | i <= j < |order|
        ensures Ahead(score, fields, k, order[j])
      {
        AheadStrictTotal(score, fields, k, order[i - 1], order[j]);
      }
      i := i - 1;
    }
    r := order[..i] + [k] + order[i..];
    InsertedSorted(score, fields, order, k, i);
  }

  lemma FrontAhead(score: Score, fields: map<string, Json>, order: seq<string>, k: string, i: nat, j: nat)
    requires Sorted(score, fields, order) && k in fields && k !in order && j < i <= |order|
    requires !Ahead(score, fields, k, order[i - 1])
    ensures Ahead(score, fields, order[j], k)
  {
    var last := order[i - 1];
    AheadStrictTotal(score, fields, k, last, last);
    AheadStrictTotal(score, fields, order[j], last, k);
    hide Ahead;
  }

  lemma InsertedSorted(score: Score, fields: map<string, Json>, order: seq<string>, k: string, i: nat)
    requires Sorted(score, fields, order) && k in fields && k !in order && i <= |order|
    requires forall j | i <= j < |order| :: Ahead(score, fields, k, order[j])
    requires i > 0 ==> !Ahead(score, fields, k, order[i - 1])
    ensures var r := order[..i] + [k] + order[i..];
            Sorted(score, fields, r) && forall j :: j in r <==> j == k || j in order
  {
    var r := order[..i] + [k] + order[i..];
    SplicedMembers(order, k, i);
    hide Ahead;
    forall a, b | 0 <= a < b < |r|
      ensures r[a] in fields && r[b] in fields && Ahead(score, fields, r[a], r[b])
    {
      InsertedPair(score, fields, order, k, i, a, b);
    }
  }

  lemma SplicedMembers(order: seq<string>, k: string, i: nat)
    requires i <= |order|
    ensures forall j :: j in order[..i] + [k] + order[i..] <==> j == k || j in order
  {
    assert order == order[..i] + order[i..];
  }

  lemma InsertedPair(score: Score, fields: map<string, Json>, order: seq<string>, k: string, i: nat, a: nat, b: nat)
    requires Sorted(score, fields, order) && k in fields && k !in order && i <= |order|
    requires forall j | i <= j < |order| :: Ahead(score, fields, k, order[j])
    requires i > 0 ==> !Ahead(score, fields, k, order[i - 1])
    requires a < b <= |order|
    ensures var r := order[..i] + [k] + order[i..];
            r[a] in fields && r[b] in fields && Ahead(score, fields, r[a], r[b])
  {
    if a < i {
      FrontAhead(score, fields, order, k, i, a);
    }
    hide Ahead;
  }

  function Elements(order: seq<string>): set<string> {
    set k | k in order
  }

  /** In sorted order a field's rank is its position. */
  lemma RankIsPosition(score: Score, fields: map<string, Json>, order: seq<string>, i: nat)
    requires Sorted(score, fields, order) && (forall k :: k in order <==> k in fields) && i < |order|
    ensures Leaders(score, fields, order[i]) == Elements(order[..i])
    ensures |Leaders(score, fields, order[i])| == i
  {
    forall k | k in fields
      ensures Ahead(score, fields, k, order[i]) <==> k in order[..i]
    {
      var j :| 0 <= j < |order| && order[j] == k;
      AheadStrictTotal(score, fields, k, order[i], k);
      if k in order[..i] {
        var p :| 0 <= p < i && order[p] == k;
      }
    }
    DistinctCount(score, fields, order, i);
    hide Ahead;
  }

  lemma NotEarlier(score: Score, fields: map<string, Json>, order: seq<string>, i: nat)
    requires Sorted(score, fields, order) && i < |order|
    ensures order[i] !in order[..i]
  {
    if order[i] in order[..i] {
      var p :| 0 <= p < i && order[p] == order[i];
      AheadStrictTotal(score, fields, order[p], order[p], order[p]);
    }
    hide Ahead;
  }

  lemma ElementsGrow(order: seq<string>, i: nat)
    requires i < |order|
    ensures Elements(order[..i + 1]) == Elements(order[..i]) + {order[i]}
    ensures order[i] in Elements(order[..i]) <==> order[i] in order[..i]
  {
    assert order[..i + 1] == order[..i] + [order[i]];
  }

  lemma {:induction false} DistinctCount(score: Score, fields: map<string, Json>, order: seq<string>, i: nat)
    requires Sorted(score, fields, order) && i <= |order|
    ensures |Elements(order[..i])| == i
  {
    hide Sorted, Elements;
    if i == 0 {
      NoElements(order);
    } else {
      DistinctCount(score, fields, order, i - 1);
      NotEarlier(score, fields, order, i - 1);
      ElementsGrow(order, i - 1);
    }
  }

  lemma NoElements(order: seq<string>)
    ensures Elements(order[..0]) == {}
  {
  }

  /** The kept fields are the front of the sorted ones. */
  lemma KeptIsFront(score: Score, fields: map<string, Json>, order: seq<string>, limit: nat)
    requires Sorted(score, fields, order) && (forall k :: k in order <==> k in fields)
    ensures |order| == |fields|
    ensures forall i | 0 <= i < |order| :: order[i] in Kept(score, fields, limit) <==> i < limit
    ensures |Kept(score, fields, limit)| == if limit < |fields| then limit else |fields|
  {
    forall i | 0 <= i < |order|
      ensures order[i] in Kept(score, fields, limit) <==> i < limit
    {
      RankIsPosition(score, fields, order, i);
    }
    DistinctCount(score, fields, order, |order|);
    assert order[..|order|] == order;
    assert Elements(order) == fields.Keys;
    var front := if limit < |order| then limit else |order|;
    DistinctCount(score, fields, order, front);
    hide Sorted, Leaders, Ahead;
    assert forall k | k in Kept(score, fields, limit) :: k in order;
    assert Kept(score, fields, limit) == Elements(order[..front]);
  }

  /** How many are kept, and that every kept field precedes every dropped one, for every object. */
  lemma KeptPrecede(score: Score, fields: map<string, Json>, limit: nat)
    ensures |Kept(score, fields, limit)| == if limit < |fields| then limit else |fields|
    ensures forall k, j | k in Kept(score, fields, limit) && j in fields && j !in Kept(score, fields, limit) ::
              Ahead(score, fields, k, j)
  {
    var order := SortedExists(score, fields, fields.Keys);
    KeptIsFront(score, fields, order, limit);
    hide Kept, Ahead;
    forall k, j | k in Kept(score, fields, limit) && j in fields && j !in Kept(score, fields, limit)
      ensures k in fields && Ahead(score, fields, k, j)
    {
      assert k in fields by {
        KeptAreFields(score, fields, limit, k);
      }
      var p :| 0 <= p < |order| && order[p] == k;
      var q :| 0 <= q < |order| && order[q] == j;
    }
  }

  lemma KeptAreFields(score: Score, fields: map<string, Json>, limit: nat, k: string)
    requires k in Kept(score, fields, limit)
    ensures k in fields
  {
  }

  lemma {:induction false} SortedExists(score: Score, fields: map<string, Json>, keys: set<string>) returns (order: seq<string>)
    requires keys <= fields.Keys
    ensures Sorted(score, fields, order) && forall k :: k in order <==> k in keys
    decreases keys
  {
    order := [];
    if keys != {} {
      var k :| k in keys;
      var rest := SortedExists(score, fields, keys - {k});
      var i := Position(score, fields, rest, k, |rest|);
      InsertedSorted(score, fields, rest, k, i);
      order := rest[..i] + [k] + rest[i..];
    }
  }

  lemma {:induction false} Position(score: Score, fields: map<string, Json>, order: seq<string>, k: string, n: nat) returns (i: nat)
    requires Sorted(score, fields, order) && k in fields && k !in order && n <= |order|
    requires forall j | n <= j < |order| :: Ahead(score, fields, k, order[j])
    ensures i <= |order| && (forall j | i <= j < |order| :: Ahead(score, fields, k, order[j]))
    ensures i > 0 ==> !Ahead(score, fields, k, order[i - 1])
  {
    hide Ahead;
    i := n;
    if n > 0 && Ahead(score, fields, k, order[n - 1]) {
      i := Position(score, fields, order, k, n - 1);
    }
  }
}
