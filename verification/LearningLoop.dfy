/**
 Learning closes the loop: one payload, resolved again and again from nothing, is classified
 by the oracles only until its type is learned (internal/service/resolver.go:26-187,
 internal/service/autopromote.go:30-109).
 */
module LearningLoop {
  import opened Text
  import opened Keys
  import opened Json
  import opened Fingerprint
  import opened Scoring
  import opened Learning
  import opened Resolver
  import opened Stages
  import Promotion

  /** The payload has an object field somewhere. */
  predicate HasField(v: Json) {
    match v
    case JObject(fields) => fields != map[]
    case JArray(items) => exists i | 0 <= i < |items| :: HasField(items[i])
    case _ => false
  }

  lemma {:induction false} FieldPath(v: Json) returns (steps: seq<Step>)
    requires HasField(v)
    ensures At(v, steps).Some? && EndsAtField(steps)
  {
    if v.JObject? {
      var k :| k in v.fields;
      steps := [Key(k)];
      assert steps[1..] == [];
    } else {
      var i :| 0 <= i < |v.items| && HasField(v.items[i]);
      var rest := FieldPath(v.items[i]);
      steps := [Item(i)] + rest;
      assert steps[1..] == rest;
    }
  }

  lemma {:induction false} NoFieldPath(v: Json, steps: seq<Step>)
    requires !HasField(v) && At(v, steps).Some?
    ensures !EndsAtField(steps)
    decreases |steps|
  {
    if steps != [] {
      NoFieldPath(Child(v, steps[0]).value, steps[1..]);
    }
  }

  lemma KeyPathsIffField(v: Json, fp: PayloadFingerprint)
    requires FingerprintOf(v, fp)
    ensures fp.keyPaths != [] <==> HasField(v)
  {
    if HasField(v) {
      var steps := FieldPath(v);
      assert Path(steps) in fp.keyPaths;
    }
    if fp.keyPaths != [] {
      var p := fp.keyPaths[0];
      assert p in fp.keyPaths;
      var steps :| Lists("$", v, steps, p);
      if !HasField(v) {
        NoFieldPath(v, steps);
      }
    }
  }

  function MeanConfidence(o: Oracle): real
    requires o.groq.Answered? && o.cerebras.Answered?
  {
    (o.groq.confidence + o.cerebras.confidence) / 2.0
  }

  /** The classifiers agree on the known type, confidently, and with a template. */
  predicate Confident(cfg: Promotion.Config, o: Oracle, typeKey: string) {
    && Agree(o) && o.groq.typeKey == typeKey && o.groq.template != map[]
    && MeanConfidence(o) >= cfg.minConfidence
  }

  predicate KnownType(cfg: Promotion.Config, typeKey: string) {
    Trimmed(typeKey) && !IgnoresCandidate(cfg, typeKey)
  }

  /** Every call of the run resolves v for one account, and the classifiers would agree each time. */
  ghost predicate SamePayload(cfg: Promotion.Config, calls: seq<Call>, accountId: string, v: Json, typeKey: string) {
    forall i | 0 <= i < |calls| ::
      && calls[i].accountId == accountId && FingerprintOf(v, calls[i].fp)
      && Confident(cfg, calls[i].oracle, typeKey)
  }

  /** Nothing is known about the account's types yet. */
  predicate Unlearned(db: Db, accountId: string, typeKey: string) {
    && (forall id | id in db.signatures :: db.signatures[id].accountId != accountId)
    && StateKey(accountId, typeKey) !in db.autoStates
  }

  /** The answer a learned signature gives, if one does. */
  function AnswerOf(db: Db, call: Call): Option<Match> {
    BestMatch(db, call.choice.best, call.fp, call.headers)
  }

  /** The call is answered by a learned signature: the classifiers are not consulted. */
  predicate AnsweredFromSignatures(db: Db, call: Call) {
    AnswerOf(db, call).Some?
  }

  // ---- The invariant after n calls -----------------------------------------

  predicate LearnedSignature(sig: Signature, typeKey: string, fp: PayloadFingerprint) {
    && sig.typeKey == typeKey && sig.confidenceThreshold == 0.8
    && CandidateSource(sig.source) && LearnedFrom(sig, fp)
  }

  /** All signatures of the account were learned from v. */
  ghost predicate AllLearned(db: Db, accountId: string, v: Json, typeKey: string) {
    forall id | id in db.signatures && db.signatures[id].accountId == accountId ::
      exists fp :: FingerprintOf(v, fp) && LearnedSignature(db.signatures[id], typeKey, fp)
  }

  predicate SomeStage(db: Db, accountId: string, typeKey: string, stage: Stage) {
    exists id :: id in db.transforms && HasStage(db, accountId, typeKey, stage, id)
  }

  predicate StateAfter(cfg: Promotion.Config, db: Db, accountId: string, typeKey: string, n: nat) {
    var k, m := Promotion.CandidatesNeeded(cfg), Promotion.HitsNeeded(cfg);
    var key := StateKey(accountId, typeKey);
    if n == 0 then key !in db.autoStates
    else
      && key in db.autoStates
      && var st := db.autoStates[key];
      && st.accountId == accountId && st.typeKey == typeKey && st.shadowTotal == st.shadowSuccess && st.shadowTotal >= 0
      && if n < k then st.status == Promotion.Validated && st.validatedCount == n
         else if n < k + m then st.status == Promotion.Shadow && st.shadowTotal == n - k
         else st.status == Promotion.Active
  }

  ghost predicate LearnedSoFar(cfg: Promotion.Config, db: Db, accountId: string, v: Json, typeKey: string, n: nat) {
    var k, m := Promotion.CandidatesNeeded(cfg), Promotion.HitsNeeded(cfg);
    && AllLearned(db, accountId, v, typeKey)
    && StateAfter(cfg, db, accountId, typeKey, n)
    && (n < k <==> forall id :: !Enabled(db, accountId, id))
    && (k <= n < k + m ==> SomeStage(db, accountId, typeKey, InShadow))
    && (k + m <= n ==> SomeStage(db, accountId, typeKey, InUse))
  }

  /** The call is a hit on the type when a learned signature is enabled and the payload has a field. */
  lemma EnabledDecides(cfg: Promotion.Config, db: Db, call: Call, v: Json, typeKey: string)
    requires Tidy(v) && FingerprintOf(v, call.fp) && AllLearned(db, call.accountId, v, typeKey)
    requires BestAllowed(db, call.accountId, call.fp, call.headers, call.choice.best)
    ensures BestMatch(db, call.choice.best, call.fp, call.headers) ==
            if HasField(v) && exists id :: Enabled(db, call.accountId, id) then Some(Match(typeKey, 0.9)) else None
  {
    if exists id :: Enabled(db, call.accountId, id) {
      var sig := db.signatures[call.choice.best.value];
      var fp :| FingerprintOf(v, fp) && LearnedSignature(sig, typeKey, fp);
      KeyPathsIffField(v, fp);
      LearnedScore(v, fp, call.fp, sig, call.headers);
    }
  }

  lemma AnsweredIff(cfg: Promotion.Config, db: Db, call: Call, v: Json, typeKey: string, n: nat)
    requires Tidy(v) && HasField(v) && FingerprintOf(v, call.fp) && Allowed(cfg, db, call)
    requires LearnedSoFar(cfg, db, call.accountId, v, typeKey, n)
    ensures AnsweredFromSignatures(db, call) <==> n >= Promotion.CandidatesNeeded(cfg)
    ensures AnswerOf(db, call) == if n >= Promotion.CandidatesNeeded(cfg) then Some(Match(typeKey, 0.9)) else None
  {
    hide Tidy, HasField, FingerprintOf, BestMatch, AllLearned, CandidatePicks, HitPicks;
    EnabledDecides(cfg, db, call, v, typeKey);
  }

  lemma SourcesAreCandidates()
    ensures CandidateSource("llm_candidate") && CandidateSource("autopromote_shadow") && CandidateSource("autopromote_active")
  {
    LowerSource("llm_candidate");
    LowerSource("autopromote_shadow");
    LowerSource("autopromote_active");
    assert OccursAt("llm_candidate", "llm_candidate", 0);
    assert OccursAt("autopromote_shadow", "autopromote", 0);
    assert OccursAt("autopromote_active", "autopromote", 0);
    IndexIsFirst("llm_candidate", "llm_candidate", 0);
    IndexIsFirst("autopromote_shadow", "autopromote", 0);
    IndexIsFirst("autopromote_active", "autopromote", 0);
  }

  lemma LowerSource(s: string)
    requires forall i | 0 <= i < |s| :: LowerChar(s[i]) == s[i]
    ensures ToLower(s) == s
  {
  }

  /** A call that consults the classifiers: one more candidate, and at the last one the type goes to shadow. */
  lemma CandidateCall(cfg: Promotion.Config, db: Db, call: Call, v: Json, typeKey: string, n: nat)
    requires Tidy(v) && HasField(v) && KnownType(cfg, typeKey) && n < Promotion.CandidatesNeeded(cfg)
    requires FingerprintOf(v, call.fp) && Confident(cfg, call.oracle, typeKey) && Allowed(cfg, db, call)
    requires LearnedSoFar(cfg, db, call.accountId, v, typeKey, n)
    ensures !AnsweredFromSignatures(db, call)
    ensures LearnedSoFar(cfg, Next(cfg, db, call), call.accountId, v, typeKey, n + 1)
  {
    hide *;
    AnsweredIff(cfg, db, call, v, typeKey, n);
    CandidateStep(cfg, db, call, v, typeKey, n);
  }

  lemma CandidateStep(cfg: Promotion.Config, db: Db, call: Call, v: Json, typeKey: string, n: nat)
    requires KnownType(cfg, typeKey) && n < Promotion.CandidatesNeeded(cfg) && !AnsweredFromSignatures(db, call)
    requires FingerprintOf(v, call.fp) && Confident(cfg, call.oracle, typeKey) && Allowed(cfg, db, call)
    requires LearnedSoFar(cfg, db, call.accountId, v, typeKey, n)
    ensures LearnedSoFar(cfg, Next(cfg, db, call), call.accountId, v, typeKey, n + 1)
  {
    var a, o := call.accountId, call.oracle;
    NextIsCandidate(cfg, db, call, typeKey);
    NoneEnabled(cfg, db, a, v, typeKey, n);
    StoredCandidate(cfg, db, a, v, typeKey, call.fp, o);
    var stored := Persisted(db, a, typeKey, o.groq.template, call.fp, o);
    StateUntouched(cfg, db, stored, a, typeKey, n);
    TrimSpaceFixes(typeKey);
    hide *;
    ObserveConfident(cfg, stored, a, v, typeKey, n, MeanConfidence(o), "groq and cerebras agreement", call.choice.picks, o);
  }

  /** What such a call does to the store. */
  lemma NextIsCandidate(cfg: Promotion.Config, db: Db, call: Call, typeKey: string)
    requires !AnsweredFromSignatures(db, call) && Confident(cfg, call.oracle, typeKey) && Allowed(cfg, db, call)
    ensures MeanConfidence(call.oracle) >= cfg.minConfidence && FreshIds(db, call.oracle)
    ensures var o, reason := call.oracle, "groq and cerebras agreement";
            var stored := Persisted(db, call.accountId, typeKey, o.groq.template, call.fp, o);
            && CandidatePicks(cfg, stored, call.accountId, typeKey, MeanConfidence(o), reason, call.choice.picks)
            && Next(cfg, db, call)
               == ObservedCandidate(cfg, stored, call.accountId, typeKey, MeanConfidence(o), reason, call.choice.picks)
  {
    hide BestMatch, BestAllowed, TrimSpace, ToLower, CandidatePicks, HitPicks, ObservedCandidate, ObservedHit, Persisted,
         PlainAccount;
  }

  lemma NoneEnabled(cfg: Promotion.Config, db: Db, a: string, v: Json, typeKey: string, n: nat)
    requires LearnedSoFar(cfg, db, a, v, typeKey, n) && n < Promotion.CandidatesNeeded(cfg)
    ensures AllLearned(db, a, v, typeKey) && StateAfter(cfg, db, a, typeKey, n) && forall id :: !Enabled(db, a, id)
  {
    hide AllLearned, StateAfter;
  }

  lemma StateUntouched(cfg: Promotion.Config, db: Db, next: Db, a: string, typeKey: string, n: nat)
    requires StateAfter(cfg, db, a, typeKey, n) && next.autoStates == db.autoStates
    ensures StateAfter(cfg, next, a, typeKey, n)
  {
  }

  /** After storing: everything is still disabled, and there is a candidate and a pending transform to pick. */
  lemma StoredCandidate(cfg: Promotion.Config, db: Db, a: string, v: Json, typeKey: string, fp: PayloadFingerprint, o: Oracle)
    requires FreshIds(db, o) && FingerprintOf(v, fp) && AllLearned(db, a, v, typeKey) && o.groq.Answered? && o.groq.template != map[]
    requires forall id :: !Enabled(db, a, id)
    ensures var stored := Persisted(db, a, typeKey, o.groq.template, fp, o);
            && AllLearned(stored, a, v, typeKey) && (forall id :: !Enabled(stored, a, id))
            && IsCandidate(stored, a, typeKey, o.signatureId) && HasStage(stored, a, typeKey, Pending, o.transformId)
            && stored.autoStates == db.autoStates
  {
    SourcesAreCandidates();
    PersistKeepsLearned(db, a, v, typeKey, o.groq.template, fp, o);
    hide CandidateSource, FingerprintOf, AllLearned;
    var stored := Persisted(db, a, typeKey, o.groq.template, fp, o);
    forall id
      ensures !Enabled(stored, a, id)
    {
      assert !Enabled(db, a, id);
    }
  }

  lemma ObserveConfident(cfg: Promotion.Config, db: Db, a: string, v: Json, typeKey: string, n: nat,
                         confidence: real, reason: string, picks: Picks, o: Oracle)
    requires KnownType(cfg, typeKey) && TrimSpace(typeKey) == typeKey && confidence >= cfg.minConfidence
    requires n < Promotion.CandidatesNeeded(cfg) && StateAfter(cfg, db, a, typeKey, n)
    requires AllLearned(db, a, v, typeKey) && forall id :: !Enabled(db, a, id)
    requires IsCandidate(db, a, typeKey, o.signatureId) && HasStage(db, a, typeKey, Pending, o.transformId)
    requires CandidatePicks(cfg, db, a, typeKey, confidence, reason, picks)
    ensures LearnedSoFar(cfg, ObservedCandidate(cfg, db, a, typeKey, confidence, reason, picks), a, v, typeKey, n + 1)
  {
    SourcesAreCandidates();
    hide CandidateSource, FingerprintOf, IsDeterministicOnly, TrimSpace;
    var next := ObservedCandidate(cfg, db, a, typeKey, confidence, reason, picks);
    var st := LoadState(db, a, typeKey);
    if Promotion.EntersShadow(cfg, st, confidence, reason) {
      assert picks.signature.Some? && picks.pendingTransform.Some?;
      assert Enabled(next, a, picks.signature.value);
      assert HasStage(next, a, typeKey, InShadow, picks.pendingTransform.value);
      RelabelKeepsLearned(db, next, picks.signature.value, "autopromote_shadow", a, v, typeKey);
      assert n + 1 == Promotion.CandidatesNeeded(cfg);
    } else {
      assert n + 1 < Promotion.CandidatesNeeded(cfg);
      assert next.signatures == db.signatures;
      forall id
        ensures !Enabled(next, a, id)
      {
        assert !Enabled(db, a, id);
      }
    }
    assert AllLearned(next, a, v, typeKey);
    assert StateAfter(cfg, next, a, typeKey, n + 1);
  }

  /** Enabling a learned signature under a promoter's label leaves it a learned one. */
  lemma RelabelKeepsLearned(db: Db, next: Db, id: Id, source: string, a: string, v: Json, typeKey: string)
    requires AllLearned(db, a, v, typeKey) && id in db.signatures && CandidateSource(source)
    requires next.signatures == db.signatures[id := db.signatures[id].(enabled := true, source := source)]
    ensures AllLearned(next, a, v, typeKey)
  {
    hide CandidateSource, FingerprintOf;
    forall i | i in next.signatures && next.signatures[i].accountId == a
      ensures exists fp :: FingerprintOf(v, fp) && LearnedSignature(next.signatures[i], typeKey, fp)
    {
      var fp :| FingerprintOf(v, fp) && LearnedSignature(db.signatures[i], typeKey, fp);
      assert LearnedSignature(next.signatures[i], typeKey, fp);
    }
  }

  /** A call answered from signatures: one more hit, and at the last one type and transform go active. */
  lemma HitCall(cfg: Promotion.Config, db: Db, call: Call, v: Json, typeKey: string, n: nat)
    requires Tidy(v) && HasField(v) && KnownType(cfg, typeKey) && cfg.minSuccessRate <= 1.0
    requires n >= Promotion.CandidatesNeeded(cfg)
    requires FingerprintOf(v, call.fp) && Allowed(cfg, db, call)
    requires LearnedSoFar(cfg, db, call.accountId, v, typeKey, n)
    ensures AnsweredFromSignatures(db, call)
    ensures LearnedSoFar(cfg, Next(cfg, db, call), call.accountId, v, typeKey, n + 1)
  {
    var a, picks := call.accountId, call.choice.picks;
    EnabledDecides(cfg, db, call, v, typeKey);
    SourcesAreCandidates();
    TrimSpaceFixes(typeKey);
    var next := ObservedHit(cfg, db, a, typeKey, 0.9, "signature match", picks);
    assert next == Next(cfg, db, call);
    hide CandidateSource, FingerprintOf, IsDeterministicOnly, TrimSpace;
    if !IgnoresHit(cfg, db, a, typeKey) {
      Promotion.FullSuccess(db.autoStates[StateKey(a, typeKey)]);
      HitObserved(cfg, db, a, v, typeKey, n, picks);
    }
  }

  lemma HitObserved(cfg: Promotion.Config, db: Db, a: string, v: Json, typeKey: string, n: nat, picks: Picks)
    requires cfg.minSuccessRate <= 1.0 && n >= Promotion.CandidatesNeeded(cfg)
    requires LearnedSoFar(cfg, db, a, v, typeKey, n) && !IgnoresHit(cfg, db, a, typeKey)
    requires HitPicks(cfg, db, a, typeKey, picks)
    ensures LearnedSoFar(cfg, ObservedHit(cfg, db, a, typeKey, 0.9, "signature match", picks), a, v, typeKey, n + 1)
  {
    SourcesAreCandidates();
    hide CandidateSource, FingerprintOf, IsDeterministicOnly, TrimSpace;
    var st := db.autoStates[StateKey(a, typeKey)];
    Promotion.FullSuccess(st);
    var next := ObservedHit(cfg, db, a, typeKey, 0.9, "signature match", picks);
    var some :| Enabled(db, a, some);
    assert Enabled(next, a, some);
    if Promotion.Activates(cfg, st) {
      var id :| id in db.transforms && HasStage(db, a, typeKey, InShadow, id);
      assert HasStage(next, a, typeKey, InUse, picks.shadowTransform.value);
      if picks.signature.Some? {
        RelabelKeepsLearned(db, next, picks.signature.value, "autopromote_active", a, v, typeKey);
      }
    }
  }

  // ---- The theorem ---------------------------------------------------------

  lemma {:induction false} LearnedAfter(cfg: Promotion.Config, db: Db, calls: seq<Call>, accountId: string, v: Json, typeKey: string)
    requires Tidy(v) && HasField(v) && KnownType(cfg, typeKey) && cfg.minSuccessRate <= 1.0
    requires Unlearned(db, accountId, typeKey)
    requires AllowedRun(cfg, db, calls) && SamePayload(cfg, calls, accountId, v, typeKey)
    ensures LearnedSoFar(cfg, After(cfg, db, calls), accountId, v, typeKey, |calls|)
  {
    hide LearnedSoFar, Allowed, Next, Tidy, HasField, FingerprintOf, Confident, KnownType;
    if calls == [] {
      NothingLearned(cfg, db, accountId, v, typeKey);
    } else {
      var init, last := calls[..|calls| - 1], calls[|calls| - 1];
      assert SamePayload(cfg, init, accountId, v, typeKey);
      LearnedAfter(cfg, db, init, accountId, v, typeKey);
      if |init| < Promotion.CandidatesNeeded(cfg) {
        CandidateCall(cfg, After(cfg, db, init), last, v, typeKey, |init|);
      } else {
        HitCall(cfg, After(cfg, db, init), last, v, typeKey, |init|);
      }
    }
  }

  lemma NothingLearned(cfg: Promotion.Config, db: Db, accountId: string, v: Json, typeKey: string)
    requires Unlearned(db, accountId, typeKey)
    ensures LearnedSoFar(cfg, db, accountId, v, typeKey, 0)
  {
  }

  /**
   Over every such run, call number i consults the classifiers exactly while i is below the
   number of candidates needed, and is otherwise answered with the type by a learned
   signature; once the needed hits have followed, the type is active and one of its transforms
   is in use, at every later point of the run.
   */
  lemma LearningClosesTheLoop(cfg: Promotion.Config, db: Db, calls: seq<Call>, accountId: string, v: Json, typeKey: string)
    requires Tidy(v) && HasField(v) && KnownType(cfg, typeKey) && cfg.minSuccessRate <= 1.0
    requires Unlearned(db, accountId, typeKey)
    requires AllowedRun(cfg, db, calls) && SamePayload(cfg, calls, accountId, v, typeKey)
    ensures forall i | 0 <= i < |calls| ::
              AnswerOf(After(cfg, db, calls[..i]), calls[i])
              == if i >= Promotion.CandidatesNeeded(cfg) then Some(Match(typeKey, 0.9)) else None
    ensures forall i | Promotion.CandidatesNeeded(cfg) + Promotion.HitsNeeded(cfg) <= i <= |calls| ::
              && StatusOf(After(cfg, db, calls[..i]), accountId, typeKey) == Promotion.Active
              && SomeStage(After(cfg, db, calls[..i]), accountId, typeKey, InUse)
  {
    hide *;
    forall i | 0 <= i < |calls|
      ensures AnswerOf(After(cfg, db, calls[..i]), calls[i])
              == if i >= Promotion.CandidatesNeeded(cfg) then Some(Match(typeKey, 0.9)) else None
    {
      LearnedPrefix(cfg, db, calls, accountId, v, typeKey, i);
    }
    forall i | Promotion.CandidatesNeeded(cfg) + Promotion.HitsNeeded(cfg) <= i <= |calls|
      ensures StatusOf(After(cfg, db, calls[..i]), accountId, typeKey) == Promotion.Active
      ensures SomeStage(After(cfg, db, calls[..i]), accountId, typeKey, InUse)
    {
      LearnedPrefix(cfg, db, calls, accountId, v, typeKey, i);
    }
  }

  /** The two claims at one point of the run. */
  lemma LearnedPrefix(cfg: Promotion.Config, db: Db, calls: seq<Call>, accountId: string, v: Json, typeKey: string, i: nat)
    requires Tidy(v) && HasField(v) && KnownType(cfg, typeKey) && cfg.minSuccessRate <= 1.0
    requires Unlearned(db, accountId, typeKey) && i <= |calls|
    requires AllowedRun(cfg, db, calls) && SamePayload(cfg, calls, accountId, v, typeKey)
    ensures i < |calls| ==>
              AnswerOf(After(cfg, db, calls[..i]), calls[i])
              == if i >= Promotion.CandidatesNeeded(cfg) then Some(Match(typeKey, 0.9)) else None
    ensures Promotion.CandidatesNeeded(cfg) + Promotion.HitsNeeded(cfg) <= i ==>
              && StatusOf(After(cfg, db, calls[..i]), accountId, typeKey) == Promotion.Active
              && SomeStage(After(cfg, db, calls[..i]), accountId, typeKey, InUse)
  {
    hide *;
    PrefixAllowed(cfg, db, calls, i);
    SamePayloadPrefix(cfg, calls, accountId, v, typeKey, i);
    LearnedAfter(cfg, db, calls[..i], accountId, v, typeKey);
    LearnedSoFarMeans(cfg, After(cfg, db, calls[..i]), accountId, v, typeKey, i);
    if i < |calls| {
      AnsweredIff(cfg, After(cfg, db, calls[..i]), calls[i], v, typeKey, i);
    }
  }

  lemma SamePayloadPrefix(cfg: Promotion.Config, calls: seq<Call>, accountId: string, v: Json, typeKey: string, i: nat)
    requires SamePayload(cfg, calls, accountId, v, typeKey) && i <= |calls|
    ensures SamePayload(cfg, calls[..i], accountId, v, typeKey) && |calls[..i]| == i
    ensures i < |calls| ==> calls[i].accountId == accountId && FingerprintOf(v, calls[i].fp)
  {
    hide FingerprintOf, Confident;
  }

  lemma LearnedSoFarMeans(cfg: Promotion.Config, db: Db, accountId: string, v: Json, typeKey: string, n: nat)
    requires LearnedSoFar(cfg, db, accountId, v, typeKey, n)
    ensures Promotion.CandidatesNeeded(cfg) + Promotion.HitsNeeded(cfg) <= n ==>
              StatusOf(db, accountId, typeKey) == Promotion.Active && SomeStage(db, accountId, typeKey, InUse)
  {
    hide AllLearned;
  }

  lemma {:induction false} PrefixAllowed(cfg: Promotion.Config, db: Db, calls: seq<Call>, n: nat)
    requires n <= |calls| && AllowedRun(cfg, db, calls)
    ensures AllowedRun(cfg, db, calls[..n])
    ensures n < |calls| ==> Allowed(cfg, After(cfg, db, calls[..n]), calls[n])
    decreases |calls| - n
  {
    hide Allowed, Next;
    if n == |calls| {
      assert calls[..n] == calls;
    } else {
      PrefixAllowed(cfg, db, calls, n + 1);
      assert calls[..n + 1][..n] == calls[..n];
    }
  }

  // ---- Payloads that are never learned -------------------------------------

  lemma CandidateKeepsLearned(cfg: Promotion.Config, db: Db, a: string, v: Json, typeKey: string,
                              confidence: real, reason: string, picks: Picks)
    requires AllLearned(db, a, v, typeKey) && CandidatePicks(cfg, db, a, typeKey, confidence, reason, picks)
    ensures AllLearned(ObservedCandidate(cfg, db, a, typeKey, confidence, reason, picks), a, v, typeKey)
  {
    SourcesAreCandidates();
    hide CandidateSource, FingerprintOf, IsDeterministicOnly, TrimSpace;
    var next := ObservedCandidate(cfg, db, a, typeKey, confidence, reason, picks);
    if next.signatures != db.signatures {
      RelabelKeepsLearned(db, next, picks.signature.value, "autopromote_shadow", a, v, typeKey);
    }
  }

  lemma PersistKeepsLearned(db: Db, a: string, v: Json, typeKey: string, template: map<string, Json>,
                            fp: PayloadFingerprint, o: Oracle)
    requires AllLearned(db, a, v, typeKey) && FingerprintOf(v, fp)
    ensures AllLearned(Persisted(db, a, typeKey, template, fp, o), a, v, typeKey)
  {
    SourcesAreCandidates();
    hide CandidateSource, FingerprintOf;
    var stored := Persisted(db, a, typeKey, template, fp, o);
    forall i | i in stored.signatures && stored.signatures[i].accountId == a
      ensures exists x :: FingerprintOf(v, x) && LearnedSignature(stored.signatures[i], typeKey, x)
    {
      if i == o.signatureId {
        assert LearnedSignature(stored.signatures[i], typeKey, fp);
      } else {
        var x :| FingerprintOf(v, x) && LearnedSignature(db.signatures[i], typeKey, x);
        assert LearnedSignature(stored.signatures[i], typeKey, x);
      }
    }
  }

  lemma {:induction false} FieldlessStaysLearned(cfg: Promotion.Config, db: Db, calls: seq<Call>, accountId: string, v: Json, typeKey: string)
    requires Tidy(v) && !HasField(v) && Unlearned(db, accountId, typeKey)
    requires AllowedRun(cfg, db, calls) && SamePayload(cfg, calls, accountId, v, typeKey)
    ensures AllLearned(After(cfg, db, calls), accountId, v, typeKey)
  {
    if calls != [] {
      var n := |calls| - 1;
      PrefixAllowed(cfg, db, calls, n);
      SamePayloadPrefix(cfg, calls, accountId, v, typeKey, n);
      FieldlessStaysLearned(cfg, db, calls[..n], accountId, v, typeKey);
      var now, call := After(cfg, db, calls[..n]), calls[n];
      assert Confident(cfg, call.oracle, typeKey);
      FieldlessCall(cfg, now, call, v, typeKey);
      assert After(cfg, db, calls) == Next(cfg, now, call);
      hide *;
    }
  }

  lemma FieldlessCall(cfg: Promotion.Config, db: Db, call: Call, v: Json, typeKey: string)
    requires Tidy(v) && !HasField(v) && FingerprintOf(v, call.fp) && Allowed(cfg, db, call)
    requires AllLearned(db, call.accountId, v, typeKey)
    ensures !AnsweredFromSignatures(db, call)
    ensures Confident(cfg, call.oracle, typeKey) ==> AllLearned(Next(cfg, db, call), call.accountId, v, typeKey)
  {
    EnabledDecides(cfg, db, call, v, typeKey);
    if Confident(cfg, call.oracle, typeKey) {
      var o := call.oracle;
      NextIsCandidate(cfg, db, call, typeKey);
      PersistKeepsLearned(db, call.accountId, v, typeKey, o.groq.template, call.fp, o);
      CandidateKeepsLearned(cfg, Persisted(db, call.accountId, typeKey, o.groq.template, call.fp, o), call.accountId, v,
                            typeKey, MeanConfidence(o), "groq and cerebras agreement", call.choice.picks);
      hide *;
    }
  }

  /** A payload without any field is classified by the oracles on every call, for ever. */
  lemma FieldlessNeverLearned(cfg: Promotion.Config, db: Db, calls: seq<Call>, accountId: string, v: Json, typeKey: string)
    requires Tidy(v) && !HasField(v) && Unlearned(db, accountId, typeKey)
    requires AllowedRun(cfg, db, calls) && SamePayload(cfg, calls, accountId, v, typeKey)
    ensures forall i | 0 <= i < |calls| :: !AnsweredFromSignatures(After(cfg, db, calls[..i]), calls[i])
  {
    hide *;
    forall i | 0 <= i < |calls|
      ensures !AnsweredFromSignatures(After(cfg, db, calls[..i]), calls[i])
    {
      PrefixAllowed(cfg, db, calls, i);
      SamePayloadPrefix(cfg, calls, accountId, v, typeKey, i);
      FieldlessStaysLearned(cfg, db, calls[..i], accountId, v, typeKey);
      FieldlessCall(cfg, After(cfg, db, calls[..i]), calls[i], v, typeKey);
    }
  }

  // ---- Type keys that are never learned ------------------------------------

  /** No signature of the account is enabled, and all are filed under the raw key. */
  predicate NeverEnabled(db: Db, accountId: string, typeKey: string) {
    forall id | id in db.signatures && db.signatures[id].accountId == accountId ::
      !db.signatures[id].enabled && db.signatures[id].typeKey == typeKey
  }

  /** A candidate of an unknown or padded type enables nothing: the promoter looks under the trimmed key. */
  lemma CandidateEnablesNothing(cfg: Promotion.Config, db: Db, a: string, typeKey: string,
                                confidence: real, reason: string, picks: Picks)
    requires !KnownType(cfg, typeKey) && NeverEnabled(db, a, typeKey)
    requires CandidatePicks(cfg, db, a, typeKey, confidence, reason, picks)
    ensures NeverEnabled(ObservedCandidate(cfg, db, a, typeKey, confidence, reason, picks), a, typeKey)
  {
    TrimSpaceIsTrimmed(typeKey);
    hide TrimSpace, Trimmed, IsDeterministicOnly, CandidateSource;
    if !IgnoresCandidate(cfg, typeKey) && Promotion.EntersShadow(cfg, LoadState(db, a, TrimSpace(typeKey)), confidence, reason) {
      assert TrimSpace(typeKey) != typeKey;
      assert LatestCandidate(db, a, TrimSpace(typeKey), picks.signature);
      assert picks.signature.Some? ==> IsCandidate(db, a, TrimSpace(typeKey), picks.signature.value);
    }
  }

  lemma UnknownCall(cfg: Promotion.Config, db: Db, call: Call, typeKey: string)
    requires !KnownType(cfg, typeKey) && NeverEnabled(db, call.accountId, typeKey) && Allowed(cfg, db, call)
    ensures !AnsweredFromSignatures(db, call)
    ensures Confident(cfg, call.oracle, typeKey) ==> NeverEnabled(Next(cfg, db, call), call.accountId, typeKey)
  {
    NothingAnswers(cfg, db, call, typeKey);
    if Confident(cfg, call.oracle, typeKey) {
      var o := call.oracle;
      NextIsCandidate(cfg, db, call, typeKey);
      PersistEnablesNothing(db, call.accountId, typeKey, o.groq.template, call.fp, o);
      CandidateEnablesNothing(cfg, Persisted(db, call.accountId, typeKey, o.groq.template, call.fp, o), call.accountId,
                              typeKey, MeanConfidence(o), "groq and cerebras agreement", call.choice.picks);
      hide *;
    }
  }

  lemma NothingAnswers(cfg: Promotion.Config, db: Db, call: Call, typeKey: string)
    requires NeverEnabled(db, call.accountId, typeKey) && Allowed(cfg, db, call)
    ensures !AnsweredFromSignatures(db, call)
  {
    hide CandidatePicks, HitPicks, Score;
    assert call.choice.best.Some? ==> Enabled(db, call.accountId, call.choice.best.value);
  }

  lemma PersistEnablesNothing(db: Db, a: string, typeKey: string, template: map<string, Json>, fp: PayloadFingerprint, o: Oracle)
    requires NeverEnabled(db, a, typeKey)
    ensures NeverEnabled(Persisted(db, a, typeKey, template, fp, o), a, typeKey)
  {
  }

  lemma {:induction false} UnknownStaysDisabled(cfg: Promotion.Config, db: Db, calls: seq<Call>, accountId: string, v: Json, typeKey: string)
    requires !KnownType(cfg, typeKey) && Unlearned(db, accountId, typeKey)
    requires AllowedRun(cfg, db, calls) && SamePayload(cfg, calls, accountId, v, typeKey)
    ensures NeverEnabled(After(cfg, db, calls), accountId, typeKey)
  {
    if calls != [] {
      var n := |calls| - 1;
      PrefixAllowed(cfg, db, calls, n);
      SamePayloadPrefix(cfg, calls, accountId, v, typeKey, n);
      UnknownStaysDisabled(cfg, db, calls[..n], accountId, v, typeKey);
      var now, call := After(cfg, db, calls[..n]), calls[n];
      assert Confident(cfg, call.oracle, typeKey);
      UnknownCall(cfg, now, call, typeKey);
      assert After(cfg, db, calls) == Next(cfg, now, call);
      hide *;
    }
  }

  /**
   A type key with outer white space, a deterministic-only one, or any while promotion is off,
   is classified by the oracles on every call, however often they agree: the signature is filed
   under the raw key, and the promoter looks for it under the trimmed one.
   */
  lemma UnknownTypeNeverLearned(cfg: Promotion.Config, db: Db, calls: seq<Call>, accountId: string, v: Json, typeKey: string)
    requires !KnownType(cfg, typeKey) && Unlearned(db, accountId, typeKey)
    requires AllowedRun(cfg, db, calls) && SamePayload(cfg, calls, accountId, v, typeKey)
    ensures forall i | 0 <= i < |calls| :: !AnsweredFromSignatures(After(cfg, db, calls[..i]), calls[i])
  {
    hide *;
    forall i | 0 <= i < |calls|
      ensures !AnsweredFromSignatures(After(cfg, db, calls[..i]), calls[i])
    {
      PrefixAllowed(cfg, db, calls, i);
      SamePayloadPrefix(cfg, calls, accountId, v, typeKey, i);
      UnknownStaysDisabled(cfg, db, calls[..i], accountId, v, typeKey);
      UnknownCall(cfg, After(cfg, db, calls[..i]), calls[i], typeKey);
    }
  }

  /**
   All cases together: call number i of a run is answered from signatures exactly when enough
   candidates came before it, the payload has a field, and the type is one the promoter knows
   under the very key the classifiers give.
   */
  lemma AnsweredExactly(cfg: Promotion.Config, db: Db, calls: seq<Call>, accountId: string, v: Json, typeKey: string, i: nat)
    requires Tidy(v) && cfg.minSuccessRate <= 1.0 && Unlearned(db, accountId, typeKey) && i < |calls|
    requires AllowedRun(cfg, db, calls) && SamePayload(cfg, calls, accountId, v, typeKey)
    ensures AnsweredFromSignatures(After(cfg, db, calls[..i]), calls[i])
            <==> i >= Promotion.CandidatesNeeded(cfg) && HasField(v) && KnownType(cfg, typeKey)
  {
    if !KnownType(cfg, typeKey) {
      UnknownTypeNeverLearned(cfg, db, calls, accountId, v, typeKey);
    } else if !HasField(v) {
      FieldlessNeverLearned(cfg, db, calls, accountId, v, typeKey);
    } else {
      LearningClosesTheLoop(cfg, db, calls, accountId, v, typeKey);
      AnsweredMeans(After(cfg, db, calls[..i]), calls[i]);
    }
    hide *;
  }

  lemma AnsweredMeans(db: Db, call: Call)
    ensures AnsweredFromSignatures(db, call) <==> AnswerOf(db, call).Some?
  {
  }

  // ---- Where transforms come from ------------------------------------------

  /** The call consulted the classifiers and stored this transform. */
  predicate Stored(db: Db, call: Call, id: Id, tr: Transform) {
    && !AnsweredFromSignatures(db, call) && Learns(call.oracle) && id == call.oracle.transformId
    && tr.accountId == call.accountId && tr.typeKey == Chosen(call.oracle).0 && tr.template == Chosen(call.oracle).2
  }

  predicate SameButStage(a: Transform, b: Transform) {
    a == b.(stage := a.stage)
  }

  /** Every transform was there before or has just been stored. */
  predicate Originates(db: Db, call: Call, next: Db) {
    forall id | id in next.transforms ::
      (id in db.transforms && SameButStage(next.transforms[id], db.transforms[id])) || Stored(db, call, id, next.transforms[id])
  }

  /** Nothing but stages changes among the transforms. */
  predicate OnlyStages(a: Db, b: Db) {
    forall id | id in b.transforms :: id in a.transforms && SameButStage(b.transforms[id], a.transforms[id])
  }

  lemma UnmovedStages(db: Db)
    ensures OnlyStages(db, db)
  {
  }

  lemma MoveOnlyStages(db: Db, pick: Option<Id>, stage: Stage)
    ensures OnlyStages(db, MoveTransform(db, pick, stage))
  {
  }

  lemma OthersKeepTransforms(db: Db)
    ensures forall pick, enabled, source :: EnableSignature(db, pick, enabled, source).transforms == db.transforms
    ensures forall st :: Upserted(db, st).transforms == db.transforms
  {
  }

  lemma SameOnlyStages(a: Db, b: Db, c: Db)
    requires OnlyStages(a, b) && b.transforms == c.transforms
    ensures OnlyStages(a, c)
  {
  }

  lemma OnlyStagesFrom(a: Db, b: Db, c: Db)
    requires OnlyStages(b, c) && a.transforms == b.transforms
    ensures OnlyStages(a, c)
  {
  }

  lemma CandidateMovesStages(cfg: Promotion.Config, db: Db, accountId: string, rawTypeKey: string,
                             confidence: real, reason: string, picks: Picks)
    ensures OnlyStages(db, ObservedCandidate(cfg, db, accountId, rawTypeKey, confidence, reason, picks))
  {
    UnmovedStages(db);
    if !IgnoresCandidate(cfg, rawTypeKey) {
      var st := LoadState(db, accountId, TrimSpace(rawTypeKey));
      var enabled := EnableSignature(db, picks.signature, true, "autopromote_shadow");
      OthersKeepTransforms(db);
      MoveOnlyStages(enabled, picks.pendingTransform, InShadow);
      var moved := if Promotion.EntersShadow(cfg, st, confidence, reason) then MoveTransform(enabled, picks.pendingTransform, InShadow) else db;
      OnlyStagesFrom(db, enabled, MoveTransform(enabled, picks.pendingTransform, InShadow));
      OthersKeepTransforms(moved);
      SameOnlyStages(db, moved, Upserted(moved, Promotion.AfterCandidate(cfg, st, confidence, reason)));
    }
    hide OnlyStages, MoveTransform, EnableSignature, Upserted, IgnoresCandidate, LoadState;
  }

  lemma HitMovesStages(cfg: Promotion.Config, db: Db, accountId: string, typeKey: string,
                       confidence: real, reason: string, picks: Picks)
    ensures OnlyStages(db, ObservedHit(cfg, db, accountId, typeKey, confidence, reason, picks))
  {
    UnmovedStages(db);
    if !IgnoresHit(cfg, db, accountId, typeKey) {
      hide OnlyStages, MoveTransform, EnableSignature, Upserted;
      var st := db.autoStates[StateKey(accountId, typeKey)];
      var promoted := if picks.shadowTransform.Some? then picks.shadowTransform else picks.pendingTransform;
      var up, off := MoveTransform(db, promoted, InUse), EnableSignature(db, picks.signature, false, "autopromote_rollback");
      var on, down := EnableSignature(up, picks.signature, true, "autopromote_active"), MoveTransform(off, picks.shadowTransform, Pending);
      MoveOnlyStages(db, promoted, InUse);
      OthersKeepTransforms(up);
      SameOnlyStages(db, up, on);
      OthersKeepTransforms(db);
      MoveOnlyStages(off, picks.shadowTransform, Pending);
      OnlyStagesFrom(db, off, down);
      var moved := if Promotion.Activates(cfg, st) then on else if Promotion.RollsBack(cfg, st) then down else db;
      OthersKeepTransforms(moved);
      SameOnlyStages(db, moved, Upserted(moved, Promotion.AfterHit(cfg, st, confidence, reason)));
    }
    hide OnlyStages, MoveTransform, EnableSignature, Upserted, IgnoresHit;
  }

  lemma CallOriginates(cfg: Promotion.Config, db: Db, call: Call)
    ensures Originates(db, call, Next(cfg, db, call))
  {
    var hit, o, next := BestMatch(db, call.choice.best, call.fp, call.headers), call.oracle, Next(cfg, db, call);
    hide BestMatch, ObservedCandidate, ObservedHit, Agree;
    forall id | id in next.transforms
      ensures (id in db.transforms && SameButStage(next.transforms[id], db.transforms[id])) || Stored(db, call, id, next.transforms[id])
    {
      if hit.Some? {
        HitMovesStages(cfg, db, call.accountId, hit.value.typeKey, hit.value.confidence, "signature match", call.choice.picks);
      } else if Learns(o) {
        var c := Chosen(o);
        CandidateMovesStages(cfg, Persisted(db, call.accountId, c.0, c.2, call.fp, o), call.accountId, c.0, c.1,
                             if Agree(o) then "groq and cerebras agreement" else o.report, call.choice.picks);
        hide Chosen;
      }
    }
  }

  /** Over every run, each transform was there at the start or was stored by one of the calls that consulted the classifiers. */
  lemma {:induction false} TransformsHaveOrigin(cfg: Promotion.Config, db: Db, calls: seq<Call>, id: Id) returns (j: nat)
    requires id in After(cfg, db, calls).transforms
    ensures var tr := After(cfg, db, calls).transforms[id];
            (id in db.transforms && SameButStage(tr, db.transforms[id]))
            || (j < |calls| && Stored(After(cfg, db, calls[..j]), calls[j], id, tr.(stage := Pending)))
  {
    hide Next, Stored, Originates, SameButStage;
    j := 0;
    if calls == [] {
      Unmoved(db, id);
    } else {
      var n := |calls| - 1;
      var now, call := After(cfg, db, calls[..n]), calls[n];
      CallOriginates(cfg, now, call);
      OriginOf(now, call, Next(cfg, now, call), id);
      if id in now.transforms && SameButStage(After(cfg, db, calls).transforms[id], now.transforms[id]) {
        j := TransformsHaveOrigin(cfg, db, calls[..n], id);
        assert j < n ==> calls[..n][..j] == calls[..j];
        StageAside(After(cfg, db, calls).transforms[id], now.transforms[id], if id in db.transforms then db.transforms[id] else now.transforms[id]);
      } else {
        j := n;
      }
    }
  }

  lemma Unmoved(db: Db, id: Id)
    ensures id in db.transforms ==> SameButStage(db.transforms[id], db.transforms[id])
  {
  }

  lemma OriginOf(db: Db, call: Call, next: Db, id: Id)
    requires Originates(db, call, next) && id in next.transforms
    ensures (id in db.transforms && SameButStage(next.transforms[id], db.transforms[id]))
            || Stored(db, call, id, next.transforms[id].(stage := Pending))
  {
    hide AnsweredFromSignatures, Learns, Chosen;
  }

  lemma StageAside(a: Transform, b: Transform, c: Transform)
    requires SameButStage(a, b)
    ensures a.(stage := Pending) == b.(stage := Pending)
    ensures SameButStage(b, c) ==> SameButStage(a, c)
  {
  }

  /**
   When the type had no transforms at the start, the one in use was learned in the run: it
   holds the template that one of the first, consulting calls was given.
   */
  lemma TransformLearned(cfg: Promotion.Config, db: Db, calls: seq<Call>, accountId: string, v: Json, typeKey: string, id: Id)
    requires Tidy(v) && HasField(v) && KnownType(cfg, typeKey) && cfg.minSuccessRate <= 1.0
    requires Unlearned(db, accountId, typeKey) && AllowedRun(cfg, db, calls) && SamePayload(cfg, calls, accountId, v, typeKey)
    requires forall i | i in db.transforms :: !(db.transforms[i].accountId == accountId && db.transforms[i].typeKey == typeKey)
    requires HasStage(After(cfg, db, calls), accountId, typeKey, InUse, id)
    ensures exists j :: 0 <= j < |calls| && j < Promotion.CandidatesNeeded(cfg)
                        && calls[j].oracle.groq.template == After(cfg, db, calls).transforms[id].template
  {
    var j := TransformsHaveOrigin(cfg, db, calls, id);
    AnsweredExactly(cfg, db, calls, accountId, v, typeKey, j);
    assert Confident(cfg, calls[j].oracle, typeKey);
    hide AnsweredFromSignatures, After, AllowedRun, Tidy, HasField, KnownType;
  }
}
