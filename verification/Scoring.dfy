/**
 Deterministic type matching (internal/service/resolver.go, bestDeterministicMatch): how well
 a payload fingerprint and its headers fit a learned signature, and which signature wins.
 Scores are exact reals. Decoded hint lists and maps stand for their JSON text.
 */
module Scoring {
  import opened Text
  import opened Json
  import opened Fingerprint
  import Walking

  datatype Signature = Signature(
    accountId: string,
    typeKey: string,
    requiredKeys: seq<string>,
    shapeHints: map<string, string>,
    headerHints: map<string, string>,
    confidenceThreshold: real,
    enabled: bool,
    source: string,
    createdAt: nat)

  datatype Match = Match(typeKey: string, confidence: real)

  predicate ShapeMatch(expected: string, got: string) {
    || expected == ""
    || expected == got
    || (expected == "int" && got == "number")
    || (expected == "float" && got == "number")
  }

  /** Reading a Go map: the empty string for a missing key. */
  function Lookup(m: map<string, string>, k: string): string {
    if k in m then m[k] else ""
  }

  function Ratio(matched: nat, total: nat): real
    requires matched <= total
  {
    if total == 0 then 0.0 else matched as real / total as real
  }

  function RequiredMatched(required: seq<string>, keys: seq<string>): (n: nat)
    ensures n <= |required|
  {
    if required == [] then 0
    else RequiredMatched(required[..|required| - 1], keys) + if required[|required| - 1] in keys then 1 else 0
  }

  function ShapesMatched(hints: map<string, string>, shapes: map<string, string>): set<string> {
    set p | p in hints && ShapeMatch(hints[p], Lookup(shapes, p))
  }

  /** headers have their names lower-cased and their values trimmed already. */
  predicate HeaderMatch(headers: map<string, string>, hk: string, hv: string) {
    Contains(ToLower(Lookup(headers, ToLower(hk))), ToLower(hv))
  }

  function HeadersMatched(hints: map<string, string>, headers: map<string, string>): set<string> {
    set k | k in hints && HeaderMatch(headers, k, hints[k])
  }

  lemma SubsetSize(a: set<string>, b: set<string>)
    requires a <= b
    ensures |a| <= |b|
  {
    assert b == a + (b - a);
  }

  function KeyScore(sig: Signature, fp: PayloadFingerprint): real {
    Ratio(RequiredMatched(sig.requiredKeys, fp.keyPaths), |sig.requiredKeys|)
  }

  function ShapeScore(sig: Signature, fp: PayloadFingerprint): real {
    SubsetSize(ShapesMatched(sig.shapeHints, fp.shapes), sig.shapeHints.Keys);
    Ratio(|ShapesMatched(sig.shapeHints, fp.shapes)|, |sig.shapeHints.Keys|)
  }

  function HeaderScore(sig: Signature, headers: map<string, string>): real {
    SubsetSize(HeadersMatched(sig.headerHints, headers), sig.headerHints.Keys);
    Ratio(|HeadersMatched(sig.headerHints, headers)|, |sig.headerHints.Keys|)
  }

  function Score(sig: Signature, fp: PayloadFingerprint, headers: map<string, string>): real {
    KeyScore(sig, fp) * 0.7 + ShapeScore(sig, fp) * 0.2 + HeaderScore(sig, headers) * 0.1
  }

  /** sig is a signature no other one outscores. */
  ghost predicate IsBest(sig: Signature, fp: PayloadFingerprint, headers: map<string, string>, sigs: seq<Signature>) {
    sig in sigs && forall other | other in sigs :: Score(other, fp, headers) <= Score(sig, fp, headers)
  }

  method ScoreSignature(sig: Signature, fp: PayloadFingerprint, headers: map<string, string>) returns (score: real)
    ensures score == Score(sig, fp, headers)
  {
    hide Contains, ToLower, Ratio;
    var matched: nat := 0;
    for i := 0 to |sig.requiredKeys|
      invariant matched == RequiredMatched(sig.requiredKeys[..i], fp.keyPaths)
    {
      assert sig.requiredKeys[..i + 1][..i] == sig.requiredKeys[..i];
      if sig.requiredKeys[i] in fp.keyPaths {
        matched := matched + 1;
      }
    }
    assert sig.requiredKeys[..|sig.requiredKeys|] == sig.requiredKeys;
    var keyScore := Ratio(matched, |sig.requiredKeys|);

    var shapes := CountShapes(sig.shapeHints, fp.shapes);
    SubsetSize(ShapesMatched(sig.shapeHints, fp.shapes), sig.shapeHints.Keys);
    var shapeScore := Ratio(shapes, |sig.shapeHints.Keys|);

    var hdrs := CountHeaders(sig.headerHints, headers);
    SubsetSize(HeadersMatched(sig.headerHints, headers), sig.headerHints.Keys);
    var hdrScore := Ratio(hdrs, |sig.headerHints.Keys|);

    score := keyScore * 0.7 + shapeScore * 0.2 + hdrScore * 0.1;
  }

  method CountShapes(hints: map<string, string>, shapes: map<string, string>) returns (matched: nat)
    ensures matched == |ShapesMatched(hints, shapes)|
  {
    hide ShapeMatch, Lookup;
    var pending := hints.Keys;
    matched := 0;
    ghost var found: set<string> := {};
    while pending != {}
      invariant pending <= hints.Keys
      invariant found == ShapesMatched(hints, shapes) - pending && matched == |found|
    {
      var p :| p in pending;
      pending := pending - {p};
      if ShapeMatch(hints[p], Lookup(shapes, p)) {
        matched := matched + 1;
        found := found + {p};
      }
    }
    assert found == ShapesMatched(hints, shapes);
  }

  method CountHeaders(hints: map<string, string>, headers: map<string, string>) returns (matched: nat)
    ensures matched == |HeadersMatched(hints, headers)|
  {
    hide HeaderMatch;
    var pending := hints.Keys;
    matched := 0;
    ghost var found: set<string> := {};
    while pending != {}
      invariant pending <= hints.Keys
      invariant found == HeadersMatched(hints, headers) - pending && matched == |found|
    {
      var k :| k in pending;
      pending := pending - {k};
      if HeaderMatch(headers, k, hints[k]) {
        matched := matched + 1;
        found := found + {k};
      }
    }
    assert found == HeadersMatched(hints, headers);
  }

  /**
   The unstable sort leaves some best-scoring signature first; only that one is held to its
   own threshold.
   */
  method BestDeterministicMatch(fp: PayloadFingerprint, headers: map<string, string>, sigs: seq<Signature>)
    returns (r: Option<Match>, ghost best: Option<Signature>)
    ensures sigs == [] <==> best.None?
    ensures best.Some? ==> IsBest(best.value, fp, headers, sigs)
    ensures r == MatchOf(best, fp, headers)
    ensures Outcome(r, fp, headers, sigs)
  {
    hide Score;
    if sigs == [] {
      return None, None;
    }
    var scores: seq<real> := [];
    for i := 0 to |sigs|
      invariant |scores| == i
      invariant forall j | 0 <= j < i :: scores[j] == Score(sigs[j], fp, headers)
    {
      var score := ScoreSignature(sigs[i], fp, headers);
      scores := scores + [score];
    }
    ghost var maximum := MaximumExists(scores);
    assert IsTop(scores, maximum);
    var top: nat :| top < |scores| && forall j | 0 <= j < |scores| :: scores[j] <= scores[top];
    best := Some(sigs[top]);
    forall other | other in sigs
      ensures Score(other, fp, headers) <= Score(sigs[top], fp, headers)
    {
      var j :| 0 <= j < |sigs| && sigs[j] == other;
      assert scores[j] <= scores[top];
    }
    if scores[top] >= sigs[top].confidenceThreshold {
      r := Some(Match(sigs[top].typeKey, scores[top]));
    } else {
      r := None;
    }
  }

  /** The match made of the signature that came first, if it reaches its threshold. */
  function MatchOf(best: Option<Signature>, fp: PayloadFingerprint, headers: map<string, string>): Option<Match> {
    if best.Some? && Score(best.value, fp, headers) >= best.value.confidenceThreshold
    then Some(Match(best.value.typeKey, Score(best.value, fp, headers))) else None
  }

  /** What the program may return: the order among signatures that share the top score is open. */
  ghost predicate Outcome(r: Option<Match>, fp: PayloadFingerprint, headers: map<string, string>, sigs: seq<Signature>) {
    if sigs == [] then r == None
    else exists best :: IsBest(best, fp, headers, sigs) && r == MatchOf(Some(best), fp, headers)
  }

  predicate IsTop(scores: seq<real>, top: nat) {
    top < |scores| && forall j | 0 <= j < |scores| :: scores[j] <= scores[top]
  }

  lemma {:induction false} MaximumExists(scores: seq<real>) returns (top: nat)
    requires scores != []
    ensures IsTop(scores, top)
  {
    if |scores| == 1 {
      top := 0;
    } else {
      var last := |scores| - 1;
      top := MaximumExists(scores[..last]);
      assert forall j | 0 <= j < last :: scores[..last][j] == scores[j];
      if scores[last] >= scores[top] {
        top := last;
      }
    }
  }

  // ---- Range ---------------------------------------------------------------

  lemma RatioRange(matched: nat, total: nat)
    requires matched <= total
    ensures 0.0 <= Ratio(matched, total) <= 1.0
    ensures 0 < matched == total ==> Ratio(matched, total) == 1.0
  {
    if total > 0 {
      RatioOrder(0, matched, total);
      RatioOrder(matched, total, total);
      assert total as real / total as real == 1.0;
    }
  }

  lemma DivideOrder(a: real, b: real, t: real)
    requires a <= b && t > 0.0
    ensures a / t <= b / t
  {
    assert (b - a) / t >= 0.0;
    assert b / t == a / t + (b - a) / t;
  }

  lemma RatioOrder(m: nat, n: nat, total: nat)
    requires m <= n <= total
    ensures Ratio(m, total) <= Ratio(n, total)
  {
    if total > 0 {
      var t := total as real;
      DivideOrder(m as real, n as real, t);
    }
  }

  lemma ScoreRange(sig: Signature, fp: PayloadFingerprint, headers: map<string, string>)
    ensures 0.0 <= Score(sig, fp, headers) <= 1.0
  {
    SubsetSize(ShapesMatched(sig.shapeHints, fp.shapes), sig.shapeHints.Keys);
    SubsetSize(HeadersMatched(sig.headerHints, headers), sig.headerHints.Keys);
    RatioRange(RequiredMatched(sig.requiredKeys, fp.keyPaths), |sig.requiredKeys|);
    RatioRange(|ShapesMatched(sig.shapeHints, fp.shapes)|, |sig.shapeHints.Keys|);
    RatioRange(|HeadersMatched(sig.headerHints, headers)|, |sig.headerHints.Keys|);
  }

  // ---- Growing payloads ----------------------------------------------------

  /** q has everything p has, at any depth, with the same shapes, and possibly more. */
  predicate Extends(p: Json, q: Json) {
    match p
    case JObject(fields) =>
      q.JObject? && forall k | k in fields :: k in q.fields && Extends(fields[k], q.fields[k])
    case JArray(items) =>
      q.JArray? && |items| <= |q.items| && forall i | 0 <= i < |items| :: Extends(items[i], q.items[i])
    case _ => ShapeName(q) == ShapeName(p)
  }

  lemma {:induction false} ExtendsAt(p: Json, q: Json, steps: seq<Step>)
    requires Extends(p, q) && At(p, steps).Some?
    ensures At(q, steps).Some? && ShapeName(At(q, steps).value) == ShapeName(At(p, steps).value)
    decreases |steps|
  {
    if steps != [] {
      assert Child(q, steps[0]).Some?;
      ExtendsAt(Child(p, steps[0]).value, Child(q, steps[0]).value, steps[1..]);
    }
  }

  lemma {:induction false} RequiredGrows(required: seq<string>, keys: seq<string>, more: seq<string>)
    requires forall k | k in keys :: k in more
    ensures RequiredMatched(required, keys) <= RequiredMatched(required, more)
  {
    if required != [] {
      RequiredGrows(required[..|required| - 1], keys, more);
    }
  }

  /** The fingerprint of an extended payload has all paths, with the same shapes. */
  lemma FingerprintGrows(p: Json, q: Json, fp: PayloadFingerprint, fq: PayloadFingerprint)
    requires Extends(p, q) && Tidy(q) && FingerprintOf(p, fp) && FingerprintOf(q, fq)
    ensures forall k | k in fp.keyPaths :: k in fq.keyPaths
    ensures forall x | x in fp.shapes :: x in fq.shapes && fq.shapes[x] == fp.shapes[x]
  {
    forall k | k in fp.keyPaths
      ensures k in fq.keyPaths
    {
      var steps :| Lists("$", p, steps, k);
      ExtendsAt(p, q, steps);
    }
    forall x | x in fp.shapes
      ensures x in fq.shapes && fq.shapes[x] == fp.shapes[x]
    {
      var steps :| Lands("$", p, steps, x, fp.shapes[x]);
      ExtendsAt(p, q, steps);
      ShapesExact(q, fq, steps);
    }
  }

  /** Extending a payload never lowers the score of any signature. */
  lemma ScoreMonotone(p: Json, q: Json, fp: PayloadFingerprint, fq: PayloadFingerprint,
                      sig: Signature, headers: map<string, string>)
    requires Extends(p, q) && Tidy(q) && FingerprintOf(p, fp) && FingerprintOf(q, fq)
    ensures Score(sig, fp, headers) <= Score(sig, fq, headers)
  {
    FingerprintGrows(p, q, fp, fq);
    RequiredGrows(sig.requiredKeys, fp.keyPaths, fq.keyPaths);
    RatioOrder(RequiredMatched(sig.requiredKeys, fp.keyPaths), RequiredMatched(sig.requiredKeys, fq.keyPaths),
               |sig.requiredKeys|);
    var a, b := ShapesMatched(sig.shapeHints, fp.shapes), ShapesMatched(sig.shapeHints, fq.shapes);
    SubsetSize(a, b);
    SubsetSize(b, sig.shapeHints.Keys);
    RatioOrder(|a|, |b|, |sig.shapeHints.Keys|);
  }

  // ---- Signatures learned from a payload -----------------------------------

  /** What persistLLMCandidate stores for a fingerprint. */
  predicate LearnedFrom(sig: Signature, fp: PayloadFingerprint) {
    sig.requiredKeys == fp.keyPaths && sig.shapeHints == fp.shapes && sig.headerHints == map[]
  }

  lemma {:induction false} RequiredAll(required: seq<string>, keys: seq<string>)
    requires forall k | k in required :: k in keys
    ensures RequiredMatched(required, keys) == |required|
  {
    if required != [] {
      var init := required[..|required| - 1];
      assert forall k | k in init :: k in required;
      RequiredAll(init, keys);
    }
  }

  /**
   On another reading of the same tidy payload a learned signature scores exactly 0.9, or
   0.2 when the payload has no object fields at all, whatever the headers.
   */
  lemma LearnedScore(v: Json, fp: PayloadFingerprint, again: PayloadFingerprint, sig: Signature, headers: map<string, string>)
    requires Tidy(v) && FingerprintOf(v, fp) && FingerprintOf(v, again) && LearnedFrom(sig, fp)
    ensures Score(sig, again, headers) == if fp.keyPaths == [] then 0.2 else 0.9
  {
    FingerprintDeterministic(v, fp, again);
    RequiredAll(sig.requiredKeys, again.keyPaths);
    var n := |sig.requiredKeys|;
    RatioRange(n, n);
    assert ShapesMatched(sig.shapeHints, again.shapes) == sig.shapeHints.Keys;
    assert Path([]) in fp.shapes by {
      ShapesExact(v, fp, []);
    }
    var s := |sig.shapeHints.Keys|;
    assert s > 0;
    RatioRange(s, s);
  }

  // ---- Matches that are missed ---------------------------------------------

  predicate Meets(sig: Signature, fp: PayloadFingerprint, headers: map<string, string>) {
    Score(sig, fp, headers) >= sig.confidenceThreshold
  }

  /**
   When some signature meets its own threshold, a match is found in every order exactly when
   every top-scoring signature meets its own: the others are never asked.
   */
  lemma AlwaysMatchedIff(fp: PayloadFingerprint, headers: map<string, string>, sigs: seq<Signature>, good: Signature)
    requires good in sigs && Meets(good, fp, headers)
    ensures (forall r | Outcome(r, fp, headers, sigs) :: r.Some?)
            <==> (forall best | IsBest(best, fp, headers, sigs) :: Meets(best, fp, headers))
  {
    hide Score, IsBest;
    if best :| IsBest(best, fp, headers, sigs) && !Meets(best, fp, headers) {
      assert Outcome(MatchOf(Some(best), fp, headers), fp, headers, sigs);
    }
  }

  /** While all signatures have one threshold, as learned ones do, none that meets it is missed. */
  lemma SharedThresholdMatches(fp: PayloadFingerprint, headers: map<string, string>, sigs: seq<Signature>, r: Option<Match>)
    requires forall a, b | a in sigs && b in sigs :: a.confidenceThreshold == b.confidenceThreshold
    requires Outcome(r, fp, headers, sigs)
    ensures r.Some? <==> exists sig :: sig in sigs && Meets(sig, fp, headers)
  {
    hide Score;
  }

  function OneField(): Json {
    JObject(map["a" := JNull])
  }

  function OneFieldPrint(): PayloadFingerprint {
    PayloadFingerprint(["$.a"], map["$" := "object", "$.a" := "null"])
  }

  /** Asks for an object only, and for little. */
  function Loose(): Signature {
    Signature("acct", "loose", [], map["$" := "object"], map[], 0.1, true, "manual", 0)
  }

  /** Asks for the field, and for more than a field alone can score. */
  function Strict(): Signature {
    Signature("acct", "strict", ["$.a"], map[], map[], 0.8, true, "manual", 1)
  }

  /** With thresholds of their own, one that meets its threshold can be missed: a payload and two signatures. */
  lemma LowerScoredMatchMissed()
    ensures Walking.Fingerprints(OneField(), OneFieldPrint()) && Meets(Loose(), OneFieldPrint(), map[])
    ensures forall r | Outcome(r, OneFieldPrint(), map[], [Loose(), Strict()]) :: r == None
  {
    OneFieldPrinted(OneField(), OneFieldPrint());
    SampleScores();
    hide Score;
    forall r | Outcome(r, OneFieldPrint(), map[], [Loose(), Strict()])
      ensures r == None
    {
      OnlyStrict(Loose(), Strict(), OneFieldPrint(), r);
    }
  }

  lemma SampleScores()
    ensures Score(Loose(), OneFieldPrint(), map[]) == 0.2 && Score(Strict(), OneFieldPrint(), map[]) == 0.7
  {
    var fp, good, best := OneFieldPrint(), Loose(), Strict();
    RequiredAll(best.requiredKeys, fp.keyPaths);
    assert KeyScore(best, fp) == 1.0 && ShapeScore(best, fp) == 0.0;
    assert ShapesMatched(good.shapeHints, fp.shapes) == {"$"} == good.shapeHints.Keys;
    assert KeyScore(good, fp) == 0.0 && ShapeScore(good, fp) == 1.0;
    TwoScores(good, best, fp);
    hide *;
  }

  lemma OnlyStrict(good: Signature, best: Signature, fp: PayloadFingerprint, r: Option<Match>)
    requires Score(good, fp, map[]) == 0.2 && Score(best, fp, map[]) == 0.7 && best.confidenceThreshold == 0.8
    requires Outcome(r, fp, map[], [good, best])
    ensures r == None
  {
    hide Score;
    assert best in [good, best];
  }

  lemma OneFieldPrinted(v: Json, fp: PayloadFingerprint)
    requires v == JObject(map["a" := JNull])
    requires fp == PayloadFingerprint(["$.a"], map["$" := "object", "$.a" := "null"])
    ensures Walking.Fingerprints(v, fp)
  {
    var t := Walking.Over(["a"], [Walking.Stop]);
    assert SanitizeKey("a") == "a";
    assert Walking.TourOf(t, v);
    assert "$" + Show(Key("a")) == "$.a";
    var here := Marks([], map["$" := "object"]);
    assert Walking.Walked("$", v, t, Walking.NOTHING) == Walking.WalkedFields("$", v, t, 1, here);
    assert Walking.WalkedFields("$", v, t, 0, here) == here;
    assert Walking.FingerprintBy(v, t, fp);
  }

  lemma TwoScores(good: Signature, best: Signature, fp: PayloadFingerprint)
    requires KeyScore(best, fp) == 1.0 && ShapeScore(best, fp) == 0.0 && best.headerHints == map[]
    requires KeyScore(good, fp) == 0.0 && ShapeScore(good, fp) == 1.0 && good.headerHints == map[]
    ensures Score(good, fp, map[]) == 0.2 && Score(best, fp, map[]) == 0.7
  {
    hide KeyScore, ShapeScore;
  }
}
