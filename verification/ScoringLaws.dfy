/**
 What a signature's score says about a payload (internal/service/resolver.go:113-146), counted
 out over the signature's own entries.
 */
module ScoringLaws {
  import opened Text
  import opened Json
  import opened Fingerprint
  import opened Scoring
  import opened LearningLoop

  /** The required paths that the payload has, by their positions. */
  function KeysFound(sig: Signature, fp: PayloadFingerprint): set<nat> {
    set i: nat | i < |sig.requiredKeys| && sig.requiredKeys[i] in fp.keyPaths
  }

  /** The hinted paths whose recorded shape is the hinted one; an empty hint asks for nothing, and a number is an int and a float. */
  function ShapesFound(sig: Signature, fp: PayloadFingerprint): set<string> {
    set p | p in sig.shapeHints &&
            (sig.shapeHints[p] == ""
             || (p in fp.shapes
                 && (fp.shapes[p] == sig.shapeHints[p] || (fp.shapes[p] == "number" && sig.shapeHints[p] in {"int", "float"}))))
  }

  /** The hinted headers whose value, or the empty text if there is none, has the hint in it, in any case. */
  ghost function HeadersFound(sig: Signature, headers: map<string, string>): set<string> {
    set h | h in sig.headerHints &&
            Occurs(ToLower(if ToLower(h) in headers then headers[ToLower(h)] else ""), ToLower(sig.headerHints[h]))
  }

  /** The part of n that k is; none of nothing. */
  function Share(k: nat, n: nat): real {
    if n == 0 then 0.0 else k as real / n as real
  }

  lemma {:induction false} RequiredCounted(required: seq<string>, keys: seq<string>)
    ensures RequiredMatched(required, keys) == |set i: nat | i < |required| && required[i] in keys|
  {
    var found := set i: nat | i < |required| && required[i] in keys;
    if required == [] {
      assert found == {};
    } else {
      var n := |required| - 1;
      var init := required[..n];
      RequiredCounted(init, keys);
      var before := set i: nat | i < |init| && init[i] in keys;
      assert before == set i: nat | i < n && required[i] in keys;
      assert found == if required[n] in keys then before + {n} else before;
    }
  }

  lemma HeadersCounted(sig: Signature, headers: map<string, string>)
    ensures HeadersMatched(sig.headerHints, headers) == HeadersFound(sig, headers)
  {
    forall h | h in sig.headerHints
      ensures HeaderMatch(headers, h, sig.headerHints[h])
              <==> Occurs(ToLower(if ToLower(h) in headers then headers[ToLower(h)] else ""), ToLower(sig.headerHints[h]))
    {
      OccursContains(ToLower(if ToLower(h) in headers then headers[ToLower(h)] else ""), ToLower(sig.headerHints[h]));
      hide Contains, Occurs, ToLower;
    }
  }

  lemma ShapesCounted(sig: Signature, fp: PayloadFingerprint)
    ensures ShapesMatched(sig.shapeHints, fp.shapes) == ShapesFound(sig, fp)
  {
  }

  /**
   The score of any signature on any fingerprint: seven tenths for the required paths that are
   there, two for the hinted shapes, one for the hinted headers.
   */
  lemma ScoreCounts(sig: Signature, fp: PayloadFingerprint, headers: map<string, string>)
    ensures Score(sig, fp, headers) ==
            0.7 * Share(|KeysFound(sig, fp)|, |sig.requiredKeys|)
            + 0.2 * Share(|ShapesFound(sig, fp)|, |sig.shapeHints.Keys|)
            + 0.1 * Share(|HeadersFound(sig, headers)|, |sig.headerHints.Keys|)
  {
    RequiredCounted(sig.requiredKeys, fp.keyPaths);
    ShapesCounted(sig, fp);
    HeadersCounted(sig, headers);
    SubsetSize(ShapesMatched(sig.shapeHints, fp.shapes), sig.shapeHints.Keys);
    SubsetSize(HeadersMatched(sig.headerHints, headers), sig.headerHints.Keys);
    hide RequiredMatched, ShapesMatched, HeadersMatched, ShapesFound, HeadersFound;
  }

  /** The other reading has every path and every shape that the first one has. */
  predicate Covers(a: PayloadFingerprint, b: PayloadFingerprint) {
    && (forall k | k in a.keyPaths :: k in b.keyPaths)
    && (forall p | p in a.shapes :: p in b.shapes && b.shapes[p] == a.shapes[p])
  }

  lemma NamesOfShapes(v: Json, fp: PayloadFingerprint, p: string)
    requires FingerprintOf(v, fp) && p in fp.shapes
    ensures fp.shapes[p] in {"null", "bool", "number", "string", "array", "object"}
  {
    var steps :| Lands("$", v, steps, p, fp.shapes[p]);
  }

  lemma {:induction false} CountFull(required: seq<string>, keys: seq<string>)
    ensures var found := set i: nat | i < |required| && required[i] in keys;
            |found| <= |required| && (|found| == |required| <==> forall k | k in required :: k in keys)
  {
    var found := set i: nat | i < |required| && required[i] in keys;
    if required == [] {
      assert found == {};
    } else {
      var n := |required| - 1;
      var init := required[..n];
      CountFull(init, keys);
      var before := set i: nat | i < |init| && init[i] in keys;
      assert before == set i: nat | i < n && required[i] in keys;
      assert found == if required[n] in keys then before + {n} else before;
      assert required == init + [required[n]];
    }
  }

  lemma SubsetFull(a: set<string>, b: set<string>)
    requires a <= b
    ensures |a| <= |b| && (|a| == |b| <==> a == b)
  {
    assert b == a + (b - a);
  }

  lemma ShareOne(k: nat, n: nat)
    requires k <= n && n > 0
    ensures 0.0 <= Share(k, n) <= 1.0 && (Share(k, n) == 1.0 <==> k == n)
  {
    var q := k as real / n as real;
    assert q * n as real == k as real;
  }

  lemma Weighted(x: real, y: real)
    requires 0.0 <= x <= 1.0 && 0.0 <= y <= 1.0
    ensures 0.7 * x + 0.2 * y <= 0.9 && (0.7 * x + 0.2 * y == 0.9 <==> x == 1.0 && y == 1.0)
  {
  }

  /**
   A signature learned from a payload with a field scores 0.9 on another fingerprint, whatever the
   headers, if and only if that one has every path and every recorded shape of the first.
   */
  lemma LearnedScoreIff(v: Json, fp: PayloadFingerprint, other: PayloadFingerprint, sig: Signature, headers: map<string, string>)
    requires FingerprintOf(v, fp) && LearnedFrom(sig, fp) && HasField(v)
    ensures Score(sig, other, headers) <= 0.9
    ensures Score(sig, other, headers) == 0.9 <==> Covers(fp, other)
  {
    hide Score, FingerprintOf, HasField, ShapesFound, Share;
    ScoreCounts(sig, other, headers);
    KeyPathsIffField(v, fp);
    CountFull(sig.requiredKeys, other.keyPaths);
    LearnedShapes(v, fp, sig, other);
    NoHints(sig, headers);
    var k, n := |KeysFound(sig, other)|, |sig.requiredKeys|;
    var s, m := |ShapesFound(sig, other)|, |sig.shapeHints.Keys|;
    ShareOne(k, n);
    ShareOne(s, m);
    Weighted(Share(k, n), Share(s, m));
  }

  lemma NoHints(sig: Signature, headers: map<string, string>)
    requires sig.headerHints == map[]
    ensures Share(|HeadersFound(sig, headers)|, |sig.headerHints.Keys|) == 0.0
  {
  }

  /** w has, for each node of v, a node of the same shape that prints alike. */
  ghost predicate Embeds(v: Json, w: Json) {
    forall steps | At(v, steps).Some? :: HasTwin(w, Path(steps), ShapeName(At(v, steps).value))
  }

  /** Some node has that path and that shape. */
  ghost predicate HasTwin(w: Json, p: string, sh: string) {
    exists twin :: Lands("$", w, twin, p, sh)
  }

  lemma FirstStep(v: Json, steps: seq<Step>)
    requires Tidy(v) && steps != [] && At(v, steps).Some?
    ensures steps[0].Key? ==> '[' !in steps[0].k
    ensures Child(v, steps[0]).Some? && Tidy(Child(v, steps[0]).value) && At(Child(v, steps[0]).value, steps[1..]).Some?
  {
  }

  lemma TailsPrintAlike(s1: seq<Step>, s2: seq<Step>)
    requires s1 != [] && s2 != [] && Print(s1) == Print(s2)
    requires (s1[0].Key? ==> '[' !in s1[0].k) && (s2[0].Key? ==> '[' !in s2[0].k)
    ensures Print(s1[1..]) == Print(s2[1..]) && s1[0].Key? == s2[0].Key?
  {
    PrintStartsStep(s1[1..]);
    PrintStartsStep(s2[1..]);
    hide Show, SanitizeKey;
    ShowCancels(s1[0], Print(s1[1..]), s2[0], Print(s2[1..]));
  }

  /** In tidy payloads, positions that print alike end alike. */
  lemma {:induction false} PrintEndsAlike(v: Json, s1: seq<Step>, w: Json, s2: seq<Step>)
    requires Tidy(v) && Tidy(w) && At(v, s1).Some? && At(w, s2).Some? && Print(s1) == Print(s2)
    ensures EndsAtField(s1) <==> EndsAtField(s2)
    decreases |s1|
  {
    PrintStartsStep(s1);
    PrintStartsStep(s2);
    hide Tidy, At, Print, StartsStep;
    if s1 != [] {
      FirstStep(v, s1);
      FirstStep(w, s2);
      TailsPrintAlike(s1, s2);
      PrintStartsStep(s1[1..]);
      PrintStartsStep(s2[1..]);
      PrintEndsAlike(Child(v, s1[0]).value, s1[1..], Child(w, s2[0]).value, s2[1..]);
    }
  }

  lemma ShapeRecorded(v: Json, fp: PayloadFingerprint, p: string, sh: string)
    requires Tidy(v) && FingerprintOf(v, fp)
    ensures (p in fp.shapes && fp.shapes[p] == sh) <==> HasTwin(v, p, sh)
  {
    if steps :| Lands("$", v, steps, p, sh) {
      ShapesExact(v, fp, steps);
    }
  }

  lemma FieldRecorded(v: Json, fp: PayloadFingerprint, k: string)
    requires FingerprintOf(v, fp)
    ensures k in fp.keyPaths <==> exists steps :: Lists("$", v, steps, k)
  {
  }

  lemma CoversEmbeds(v: Json, fp: PayloadFingerprint, w: Json, other: PayloadFingerprint)
    requires Tidy(v) && Tidy(w) && FingerprintOf(v, fp) && FingerprintOf(w, other) && Covers(fp, other)
    ensures Embeds(v, w)
  {
    hide FingerprintOf, Tidy, Print;
    forall steps | At(v, steps).Some?
      ensures HasTwin(w, Path(steps), ShapeName(At(v, steps).value))
    {
      assert Lands("$", v, steps, Path(steps), ShapeName(At(v, steps).value));
      assert HasTwin(v, Path(steps), ShapeName(At(v, steps).value));
      hide Lands, HasTwin;
      ShapeRecorded(v, fp, Path(steps), ShapeName(At(v, steps).value));
      ShapeRecorded(w, other, Path(steps), ShapeName(At(v, steps).value));
    }
  }

  lemma TwinOf(v: Json, w: Json, steps: seq<Step>) returns (twin: seq<Step>)
    requires Embeds(v, w) && At(v, steps).Some?
    ensures At(w, twin).Some? && "$" + Print(twin) == "$" + Print(steps)
  {
    hide At, ShapeName, Print;
    assert HasTwin(w, Path(steps), ShapeName(At(v, steps).value));
    hide Embeds;
    twin :| Lands("$", w, twin, Path(steps), ShapeName(At(v, steps).value));
  }

  /** The twin of a listed field is a listed field. */
  lemma TwinListed(v: Json, w: Json, steps: seq<Step>, k: string)
    requires Tidy(v) && Tidy(w) && Embeds(v, w) && Lists("$", v, steps, k)
    ensures exists twin :: Lists("$", w, twin, k)
  {
    hide Tidy, At, Print, Embeds;
    var twin := TwinOf(v, w, steps);
    Cut("$", Print(steps));
    Cut("$", Print(twin));
    PrintEndsAlike(v, steps, w, twin);
    hide EndsAtField;
    assert Lists("$", w, twin, k);
  }

  lemma EmbedsCovers(v: Json, fp: PayloadFingerprint, w: Json, other: PayloadFingerprint)
    requires Tidy(v) && Tidy(w) && FingerprintOf(v, fp) && FingerprintOf(w, other) && Embeds(v, w)
    ensures Covers(fp, other)
  {
    hide FingerprintOf, Tidy, Print, Lists;
    forall p | p in fp.shapes
      ensures p in other.shapes && other.shapes[p] == fp.shapes[p]
    {
      ShapeRecorded(v, fp, p, fp.shapes[p]);
      var steps :| Lands("$", v, steps, p, fp.shapes[p]);
      assert HasTwin(w, Path(steps), ShapeName(At(v, steps).value));
      ShapeRecorded(w, other, p, fp.shapes[p]);
    }
    hide Lands, Embeds;
    forall k | k in fp.keyPaths
      ensures k in other.keyPaths
    {
      FieldRecorded(v, fp, k);
      var steps :| Lists("$", v, steps, k);
      TwinListed(v, w, steps, k);
      FieldRecorded(w, other, k);
    }
  }

  /** The same, said of the payloads: a tidy payload is scored 0.9 exactly when it embeds the learned one. */
  lemma LearnedScoreEmbeds(v: Json, fp: PayloadFingerprint, w: Json, other: PayloadFingerprint, sig: Signature, headers: map<string, string>)
    requires Tidy(v) && Tidy(w) && FingerprintOf(v, fp) && FingerprintOf(w, other) && LearnedFrom(sig, fp) && HasField(v)
    ensures Score(sig, other, headers) == 0.9 <==> Embeds(v, w)
  {
    hide Score, FingerprintOf, Embeds, Covers;
    LearnedScoreIff(v, fp, other, sig, headers);
    if Embeds(v, w) {
      EmbedsCovers(v, fp, w, other);
    }
    if Covers(fp, other) {
      CoversEmbeds(v, fp, w, other);
    }
  }

  lemma LearnedShapes(v: Json, fp: PayloadFingerprint, sig: Signature, other: PayloadFingerprint)
    requires FingerprintOf(v, fp) && LearnedFrom(sig, fp)
    ensures var found, all := ShapesFound(sig, other), sig.shapeHints.Keys;
            && |all| > 0 && |found| <= |all|
            && (|found| == |all| <==> forall p | p in fp.shapes :: p in other.shapes && other.shapes[p] == fp.shapes[p])
  {
    var found, all := ShapesFound(sig, other), sig.shapeHints.Keys;
    forall p | p in fp.shapes
      ensures p in found <==> p in other.shapes && other.shapes[p] == fp.shapes[p]
    {
      NamesOfShapes(v, fp, p);
    }
    SubsetFull(found, all);
    RootRecorded(v, fp);
    assert "$" in all;
  }

  lemma RootRecorded(v: Json, fp: PayloadFingerprint)
    requires FingerprintOf(v, fp)
    ensures "$" in fp.shapes
  {
    assert At(v, []).Some? && "$" + Print([]) == "$";
  }

  /** So a payload without any of the learned paths falls short of the learned threshold. */
  lemma ForeignPayloadMissed(v: Json, fp: PayloadFingerprint, other: PayloadFingerprint, sig: Signature, headers: map<string, string>)
    requires FingerprintOf(v, fp) && LearnedFrom(sig, fp)
    requires forall k | k in fp.keyPaths :: k !in other.keyPaths
    ensures Score(sig, other, headers) <= 0.2
  {
    hide Score, FingerprintOf, ShapesFound;
    ScoreCounts(sig, other, headers);
    NoneFound(sig, other);
    LearnedShapes(v, fp, sig, other);
    ShareOne(|ShapesFound(sig, other)|, |sig.shapeHints.Keys|);
    hide KeysFound;
  }

  lemma NoneFound(sig: Signature, fp: PayloadFingerprint)
    requires forall k | k in sig.requiredKeys :: k !in fp.keyPaths
    ensures |KeysFound(sig, fp)| == 0
  {
    assert KeysFound(sig, fp) == {};
  }
}
