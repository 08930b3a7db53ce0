/**
 What one resolution answers and stores, and what one observation of the promoter touches,
 case by case (internal/service/resolver.go:26-98, 161-187, internal/service/autopromote.go:30-129).
 */
module ResolverLaws {
  import opened Text
  import opened Json
  import opened Fingerprint
  import opened Scoring
  import opened Learning
  import opened Resolver
  import Promotion

  // ---- The answer ----------------------------------------------------------

  /** The first of the top-scoring signatures reaches its threshold. */
  predicate Matches(db: Db, fp: PayloadFingerprint, headers: map<string, string>, best: Option<Id>) {
    && best.Some? && best.value in db.signatures
    && Score(db.signatures[best.value], fp, headers) >= db.signatures[best.value].confidenceThreshold
  }

  /** A signature that matches answers with its type and score, whatever the classifiers would say. */
  lemma MatchAnswers(promoter: Option<Promotion.Config>, db: Db, accountId: string, fp: PayloadFingerprint,
                     headers: map<string, string>, o: Oracle, choice: Choice)
    requires Matches(db, fp, headers, choice.best)
    ensures var (next, r) := Resolved(promoter, db, accountId, fp, headers, o, choice);
            var sig := db.signatures[choice.best.value];
            && r == Resolution(sig.typeKey, Score(sig, fp, headers), "deterministic")
            && next.signatures.Keys == db.signatures.Keys && next.transforms.Keys == db.transforms.Keys
            && (promoter.None? ==> next == db)
  {
    hide Score, Promotion.AfterHit, IgnoresHit, Upserted, Promotion.Activates, Promotion.RollsBack;
    var sig := db.signatures[choice.best.value];
    if promoter.Some? {
      HitMakesNone(promoter.value, db, accountId, sig.typeKey, Score(sig, fp, headers), "signature match", choice.picks);
    }
    hide ObservedHit;
  }

  lemma HitMakesNone(cfg: Promotion.Config, db: Db, accountId: string, typeKey: string,
                     confidence: real, reason: string, picks: Picks)
    ensures var next := ObservedHit(cfg, db, accountId, typeKey, confidence, reason, picks);
            next.signatures.Keys == db.signatures.Keys && next.transforms.Keys == db.transforms.Keys
  {
    hide StateKey, IgnoresHit, Promotion.AfterHit, Promotion.Activates, Promotion.RollsBack;
  }

  /** Without a match, a classifier that is missing or fails leaves the type unknown and teaches nothing. */
  lemma NoClassifiers(promoter: Option<Promotion.Config>, db: Db, accountId: string, fp: PayloadFingerprint,
                      headers: map<string, string>, o: Oracle, choice: Choice)
    requires !Matches(db, fp, headers, choice.best) && !(o.groq.Answered? && o.cerebras.Answered?)
    ensures Resolved(promoter, db, accountId, fp, headers, o, choice) ==
            (db, Resolution("unknown", 0.0, if o.groq.Unavailable? || o.cerebras.Unavailable? then "none" else "llm_error"))
  {
    hide Score;
  }

  /** The classifiers name one type, up to case and outer space. */
  predicate SameAnswer(o: Oracle)
    requires o.groq.Answered? && o.cerebras.Answered?
  {
    o.groq.typeKey != "" && ToLower(TrimSpace(o.groq.typeKey)) == ToLower(TrimSpace(o.cerebras.typeKey))
  }

  /** What the classifiers teach: one disabled signature of the payload, and one pending transform if a template came along. */
  predicate Taught(db: Db, next: Db, accountId: string, typeKey: string, template: map<string, Json>,
                   fp: PayloadFingerprint, o: Oracle) {
    && next.autoStates == db.autoStates
    && next.signatures == db.signatures[o.signatureId :=
         Signature(accountId, typeKey, fp.keyPaths, fp.shapes, map[], 0.8, false, "llm_candidate", o.now)]
    && next.transforms == if template == map[] then db.transforms
                          else db.transforms[o.transformId := Transform(accountId, typeKey, 1, "dsl", template, Pending)]
  }

  /** The state the promoter then observes the candidate in leads to the next. */
  predicate ThenObserved(promoter: Option<Promotion.Config>, mid: Db, next: Db, accountId: string, typeKey: string,
                         confidence: real, reason: string, picks: Picks) {
    if promoter.None? then next == mid
    else next == ObservedCandidate(promoter.value, mid, accountId, typeKey, confidence, reason, picks)
  }

  /** Agreement answers with the first one's type and the mean confidence, and teaches it. */
  lemma Agreed(promoter: Option<Promotion.Config>, db: Db, accountId: string, fp: PayloadFingerprint,
               headers: map<string, string>, o: Oracle, choice: Choice) returns (mid: Db)
    requires !Matches(db, fp, headers, choice.best) && o.groq.Answered? && o.cerebras.Answered? && SameAnswer(o)
    ensures var (next, r) := Resolved(promoter, db, accountId, fp, headers, o, choice);
            && r == Resolution(o.groq.typeKey, (o.groq.confidence + o.cerebras.confidence) / 2.0, "llm_agreement")
            && Taught(db, mid, accountId, o.groq.typeKey, o.groq.template, fp, o)
            && ThenObserved(promoter, mid, next, accountId, o.groq.typeKey, r.confidence, "groq and cerebras agreement", choice.picks)
  {
    hide Score, ObservedCandidate, ToLower, TrimSpace;
    mid := Persisted(db, accountId, o.groq.typeKey, o.groq.template, fp, o);
  }

  /** The more confident of the two, the first on a tie. */
  function Surer(o: Oracle): Answer
    requires o.groq.Answered? && o.cerebras.Answered?
  {
    if o.groq.confidence >= o.cerebras.confidence then o.groq else o.cerebras
  }

  /** Disagreement answers with the surer one; it is taught unless that leaves the type unknown. */
  lemma Disagreed(promoter: Option<Promotion.Config>, db: Db, accountId: string, fp: PayloadFingerprint,
                  headers: map<string, string>, o: Oracle, choice: Choice) returns (mid: Db)
    requires !Matches(db, fp, headers, choice.best) && o.groq.Answered? && o.cerebras.Answered? && !SameAnswer(o)
    ensures var (next, r) := Resolved(promoter, db, accountId, fp, headers, o, choice);
            var surer := Surer(o);
            && r.confidence == surer.confidence && r.source == "llm_disagreement_resolved"
            && r.typeKey == (if TrimSpace(surer.typeKey) == "" then "unknown" else surer.typeKey)
            && (r.typeKey == "unknown" ==> next == db)
            && (r.typeKey != "unknown" ==>
                  && Taught(db, mid, accountId, r.typeKey, surer.template, fp, o)
                  && ThenObserved(promoter, mid, next, accountId, r.typeKey, r.confidence, o.report, choice.picks))
  {
    hide Score, ObservedCandidate, ToLower, TrimSpace;
    mid := Persisted(db, accountId, Chosen(o).0, Chosen(o).2, fp, o);
  }

  // ---- What is picked ------------------------------------------------------

  /** The promoter picks a newest candidate of the account and type, and a transform in the stage of highest version. */
  lemma PickedLatest(db: Db, accountId: string, typeKey: string, stage: Stage, signature: Option<Id>, transform: Option<Id>)
    requires LatestCandidate(db, accountId, typeKey, signature) && LatestTransform(db, accountId, typeKey, stage, transform)
    ensures forall id | id in db.transforms && db.transforms[id].accountId == accountId
                        && db.transforms[id].typeKey == typeKey && db.transforms[id].stage == stage ::
              transform.Some? && transform.value in db.transforms
              && db.transforms[id].version <= db.transforms[transform.value].version
    ensures forall id | id in db.signatures && db.signatures[id].accountId == accountId
                        && db.signatures[id].typeKey == typeKey && CandidateSource(db.signatures[id].source) ::
              signature.Some? && signature.value in db.signatures
              && db.signatures[id].createdAt <= db.signatures[signature.value].createdAt
    ensures transform.Some? ==> HasStage(db, accountId, typeKey, stage, transform.value)
    ensures signature.Some? ==> IsCandidate(db, accountId, typeKey, signature.value)
  {
    hide CandidateSource;
    assert forall id | id in db.transforms && db.transforms[id].accountId == accountId
                       && db.transforms[id].typeKey == typeKey && db.transforms[id].stage == stage ::
             HasStage(db, accountId, typeKey, stage, id);
    assert forall id | id in db.signatures && db.signatures[id].accountId == accountId
                       && db.signatures[id].typeKey == typeKey && CandidateSource(db.signatures[id].source) ::
             IsCandidate(db, accountId, typeKey, id);
  }

  // ---- What the promoter touches -------------------------------------------

  /** A candidate is ignored by a promoter that is off, for no type, and for types that are settled by rule. */
  lemma CandidateIgnored(cfg: Promotion.Config, db: Db, accountId: string, rawTypeKey: string,
                         confidence: real, reason: string, picks: Picks)
    requires !cfg.enabled || TrimSpace(rawTypeKey) in {"", "unknown"} || ToLower(TrimSpace(rawTypeKey)) in cfg.deterministicOnly
    ensures ObservedCandidate(cfg, db, accountId, rawTypeKey, confidence, reason, picks) == db
  {
    TrimSpaceIdempotent(rawTypeKey);
    hide TrimSpace, ToLower;
  }

  /** A hit counts only for a type in shadow that is not settled by rule. */
  lemma HitIgnored(cfg: Promotion.Config, db: Db, accountId: string, typeKey: string,
                   confidence: real, reason: string, picks: Picks)
    requires var key := accountId + "::" + typeKey;
             !cfg.enabled || ToLower(TrimSpace(typeKey)) in cfg.deterministicOnly
             || key !in db.autoStates || db.autoStates[key].status != Promotion.Shadow
    ensures ObservedHit(cfg, db, accountId, typeKey, confidence, reason, picks) == db
  {
    hide TrimSpace, ToLower;
  }

  /** At most this signature was switched, with this source, and this transform moved. */
  predicate Moves(db: Db, next: Db, signature: Option<Id>, enabled: bool, source: string, transform: Option<Id>, stage: Stage) {
    && next.signatures.Keys == db.signatures.Keys && next.transforms.Keys == db.transforms.Keys
    && (forall id | id in db.signatures ::
          next.signatures[id] == if signature == Some(id) then db.signatures[id].(enabled := enabled, source := source)
                                 else db.signatures[id])
    && (forall id | id in db.transforms ::
          next.transforms[id] == if transform == Some(id) then db.transforms[id].(stage := stage) else db.transforms[id])
  }

  /** At most the record of one type was filed. */
  predicate Files(db: Db, next: Db, key: string) {
    && next.autoStates.Keys == db.autoStates.Keys + {key}
    && (forall k | k in db.autoStates && k != key :: next.autoStates[k] == db.autoStates[k])
  }

  lemma BothMove(db: Db, signature: Option<Id>, enabled: bool, source: string, transform: Option<Id>, stage: Stage)
    ensures var next := MoveTransform(EnableSignature(db, signature, enabled, source), transform, stage);
            && Moves(db, next, signature, enabled, source, transform, stage) && next.autoStates == db.autoStates
            && next == EnableSignature(MoveTransform(db, transform, stage), signature, enabled, source)
  {
  }

  lemma NoneMoves(db: Db, enabled: bool, source: string, stage: Stage)
    ensures Moves(db, db, None, enabled, source, None, stage)
  {
  }

  lemma UpsertFiles(db: Db, st: Promotion.AutoState)
    ensures var next := Upserted(db, st);
            && next.signatures == db.signatures && next.transforms == db.transforms
            && Files(db, next, StateKey(st.accountId, st.typeKey))
  {
    hide StateKey;
  }

  lemma MovedThenFiled(db: Db, moved: Db, st: Promotion.AutoState, signature: Option<Id>, enabled: bool, source: string,
                       transform: Option<Id>, stage: Stage)
    requires Moves(db, moved, signature, enabled, source, transform, stage) && moved.autoStates == db.autoStates
    ensures Moves(db, Upserted(moved, st), signature, enabled, source, transform, stage)
    ensures Files(db, Upserted(moved, st), StateKey(st.accountId, st.typeKey))
  {
    UpsertFiles(moved, st);
    hide Upserted, StateKey;
  }

  /** Every record is filed under its own account and type. */
  predicate OwnKeys(db: Db) {
    forall key | key in db.autoStates :: key == StateKey(db.autoStates[key].accountId, db.autoStates[key].typeKey)
  }

  lemma CandidateKey(cfg: Promotion.Config, db: Db, accountId: string, typeKey: string, confidence: real, reason: string)
    requires OwnKeys(db)
    ensures var st := Promotion.AfterCandidate(cfg, LoadState(db, accountId, typeKey), confidence, reason);
            StateKey(st.accountId, st.typeKey) == StateKey(accountId, typeKey)
  {
    hide StateKey, TrimSpace;
  }

  /** The candidate brings its type into shadow. */
  predicate Completes(cfg: Promotion.Config, st: Promotion.AutoState, confidence: real) {
    var counted := st.validatedCount + if confidence >= cfg.minConfidence then 1 else 0;
    && st.status in {Promotion.Unset, Promotion.Validated}
    && counted >= if cfg.validatedToShadow > 1 then cfg.validatedToShadow else 1
  }

  /** A candidate switches its signature on and moves its transform to shadow exactly when it completes the count. */
  lemma CandidateTouches(cfg: Promotion.Config, db: Db, accountId: string, typeKey: string,
                         confidence: real, reason: string, picks: Picks)
    requires !IgnoresCandidate(cfg, typeKey) && Trimmed(typeKey) && OwnKeys(db)
    ensures var next := ObservedCandidate(cfg, db, accountId, typeKey, confidence, reason, picks);
            var completes := Completes(cfg, LoadState(db, accountId, typeKey), confidence);
            && Moves(db, next, if completes then picks.signature else None, true, "autopromote_shadow",
                     if completes then picks.pendingTransform else None, InShadow)
            && Files(db, next, StateKey(accountId, typeKey))
  {
    TrimSpaceFixes(typeKey);
    var st := LoadState(db, accountId, typeKey);
    CandidateKey(cfg, db, accountId, typeKey, confidence, reason);
    assert Completes(cfg, st, confidence) <==> Promotion.EntersShadow(cfg, st, confidence, reason);
    BothMove(db, picks.signature, true, "autopromote_shadow", picks.pendingTransform, InShadow);
    NoneMoves(db, true, "autopromote_shadow", InShadow);
    hide StateKey, TrimSpace, Upserted, LoadState, Promotion.EntersShadow, IgnoresCandidate, Promotion.AfterCandidate, Moves,
         Completes, MoveTransform, EnableSignature, OwnKeys;
    var after := Promotion.AfterCandidate(cfg, st, confidence, reason);
    if Completes(cfg, st, confidence) {
      var moved := MoveTransform(EnableSignature(db, picks.signature, true, "autopromote_shadow"), picks.pendingTransform, InShadow);
      MovedThenFiled(db, moved, after, picks.signature, true, "autopromote_shadow", picks.pendingTransform, InShadow);
    } else {
      MovedThenFiled(db, db, after, None, true, "autopromote_shadow", None, InShadow);
    }
  }

  lemma HitKey(cfg: Promotion.Config, db: Db, accountId: string, typeKey: string, confidence: real, reason: string)
    requires OwnKeys(db) && StateKey(accountId, typeKey) in db.autoStates
    ensures var st := Promotion.AfterHit(cfg, db.autoStates[StateKey(accountId, typeKey)], confidence, reason);
            StateKey(st.accountId, st.typeKey) == StateKey(accountId, typeKey)
  {
    hide StateKey, Promotion.Activates, Promotion.RollsBack;
  }

  /**
   A hit that completes the count switches the signature on and moves the shadow transform, or a
   pending one if there is none, into use when the success rate is met; when it is not, it
   switches the signature off and takes the shadow transform back. Any other hit only counts.
   */
  lemma HitTouches(cfg: Promotion.Config, db: Db, accountId: string, typeKey: string,
                   confidence: real, reason: string, picks: Picks)
    requires !IgnoresHit(cfg, db, accountId, typeKey) && OwnKeys(db)
    ensures var st, next := db.autoStates[StateKey(accountId, typeKey)], ObservedHit(cfg, db, accountId, typeKey, confidence, reason, picks);
            && Files(db, next, StateKey(accountId, typeKey))
            && if Promotion.Activates(cfg, st) then
                 Moves(db, next, picks.signature, true, "autopromote_active",
                       if picks.shadowTransform.Some? then picks.shadowTransform else picks.pendingTransform, InUse)
               else if Promotion.RollsBack(cfg, st) then
                 Moves(db, next, picks.signature, false, "autopromote_rollback", picks.shadowTransform, Pending)
               else Moves(db, next, None, true, "", None, Pending)
  {
    HitKey(cfg, db, accountId, typeKey, confidence, reason);
    var promoted := if picks.shadowTransform.Some? then picks.shadowTransform else picks.pendingTransform;
    BothMove(db, picks.signature, true, "autopromote_active", promoted, InUse);
    BothMove(db, picks.signature, false, "autopromote_rollback", picks.shadowTransform, Pending);
    NoneMoves(db, true, "", Pending);
    hide StateKey, Upserted, Promotion.AfterHit, Promotion.Activates, Promotion.RollsBack, Moves, MoveTransform, EnableSignature, OwnKeys;
    var st := db.autoStates[StateKey(accountId, typeKey)];
    var after := Promotion.AfterHit(cfg, st, confidence, reason);
    if Promotion.Activates(cfg, st) {
      var moved := EnableSignature(MoveTransform(db, promoted, InUse), picks.signature, true, "autopromote_active");
      MovedThenFiled(db, moved, after, picks.signature, true, "autopromote_active", promoted, InUse);
    } else if Promotion.RollsBack(cfg, st) {
      var moved := MoveTransform(EnableSignature(db, picks.signature, false, "autopromote_rollback"), picks.shadowTransform, Pending);
      MovedThenFiled(db, moved, after, picks.signature, false, "autopromote_rollback", picks.shadowTransform, Pending);
    } else {
      MovedThenFiled(db, db, after, None, true, "", None, Pending);
    }
  }

  /** When a hit decides, and how. */
  lemma DecidedWhen(cfg: Promotion.Config, st: Promotion.AutoState)
    requires st.status == Promotion.Shadow && st.shadowTotal >= 0
    ensures var needed, total := if cfg.shadowToActive > 1 then cfg.shadowToActive else 1, st.shadowTotal + 1;
            var rate := (st.shadowSuccess + 1) as real / total as real;
            && (Promotion.Activates(cfg, st) <==> total >= needed && rate >= cfg.minSuccessRate)
            && (Promotion.RollsBack(cfg, st) <==> total >= needed && rate < cfg.minSuccessRate)
  {
  }
}
