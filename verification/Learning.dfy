/**
 The learned part of the store (signatures, transforms and promotion states of
 internal/store/memory.go) and the promoter that moves it (internal/service/autopromote.go).
 Where Go ranges over a map for a latest or highest entry and several tie, any of them may
 be picked; the picks are returned as ghost results.
 */
module Learning {
  import opened Text
  import opened Keys
  import opened Json
  import opened Scoring
  import Promotion

  type Id = nat

  datatype Stage = Pending | InShadow | InUse

  datatype Transform = Transform(
    accountId: string,
    typeKey: string,
    version: int,
    engine: string,
    template: map<string, Json>,
    stage: Stage)

  datatype Db = Db(
    signatures: map<Id, Signature>,
    transforms: map<Id, Transform>,
    autoStates: map<string, Promotion.AutoState>)

  // ---- Queries -------------------------------------------------------------

  function StateKey(accountId: string, typeKey: string): string {
    Scoped(accountId, typeKey)
  }

  predicate CandidateSource(source: string) {
    Contains(ToLower(source), "llm_candidate") || Contains(ToLower(source), "autopromote")
  }

  predicate IsCandidate(db: Db, accountId: string, typeKey: string, id: Id) {
    && id in db.signatures
    && db.signatures[id].accountId == accountId && db.signatures[id].typeKey == typeKey
    && CandidateSource(db.signatures[id].source)
  }

  /** An outcome GetLatestCandidateSignature may return. */
  ghost predicate LatestCandidate(db: Db, accountId: string, typeKey: string, pick: Option<Id>) {
    match pick
    case None => forall id :: !IsCandidate(db, accountId, typeKey, id)
    case Some(best) =>
      && IsCandidate(db, accountId, typeKey, best)
      && forall id | IsCandidate(db, accountId, typeKey, id) ::
           db.signatures[id].createdAt <= db.signatures[best].createdAt
  }

  predicate HasStage(db: Db, accountId: string, typeKey: string, stage: Stage, id: Id) {
    && id in db.transforms
    && db.transforms[id].accountId == accountId && db.transforms[id].typeKey == typeKey
    && db.transforms[id].stage == stage
  }

  /** An outcome GetLatestTransformByStatus (and, for InUse, GetActiveTransform) may return. */
  ghost predicate LatestTransform(db: Db, accountId: string, typeKey: string, stage: Stage, pick: Option<Id>) {
    match pick
    case None => forall id :: !HasStage(db, accountId, typeKey, stage, id)
    case Some(best) =>
      && HasStage(db, accountId, typeKey, stage, best)
      && forall id | HasStage(db, accountId, typeKey, stage, id) ::
           db.transforms[id].version <= db.transforms[best].version
  }

  // ---- Updates -------------------------------------------------------------

  function EnableSignature(db: Db, pick: Option<Id>, enabled: bool, source: string): Db {
    if pick.Some? && pick.value in db.signatures
    then db.(signatures := db.signatures[pick.value := db.signatures[pick.value].(enabled := enabled, source := source)])
    else db
  }

  function MoveTransform(db: Db, pick: Option<Id>, stage: Stage): Db {
    if pick.Some? && pick.value in db.transforms
    then db.(transforms := db.transforms[pick.value := db.transforms[pick.value].(stage := stage)])
    else db
  }

  function Upserted(db: Db, st: Promotion.AutoState): Db {
    var key := StateKey(st.accountId, st.typeKey);
    if key !in db.autoStates then db.(autoStates := db.autoStates[key := st])
    else
      var cur := db.autoStates[key];
      db.(autoStates := db.autoStates[key := cur.(
        status := if st.status == Promotion.Unset then cur.status else st.status,
        validatedCount := st.validatedCount, shadowTotal := st.shadowTotal, shadowSuccess := st.shadowSuccess,
        lastConfidence := st.lastConfidence, lastReason := st.lastReason)])
  }

  function LoadState(db: Db, accountId: string, typeKey: string): Promotion.AutoState {
    var key := StateKey(accountId, typeKey);
    if key in db.autoStates then db.autoStates[key] else Promotion.NewState(accountId, typeKey)
  }

  predicate IsDeterministicOnly(typeKey: string, only: set<string>) {
    ToLower(TrimSpace(typeKey)) in only
  }

  // ---- The promoter's two observations -------------------------------------

  predicate IgnoresCandidate(cfg: Promotion.Config, rawTypeKey: string) {
    var typeKey := TrimSpace(rawTypeKey);
    !cfg.enabled || typeKey == "" || typeKey == "unknown" || IsDeterministicOnly(typeKey, cfg.deterministicOnly)
  }

  predicate IgnoresHit(cfg: Promotion.Config, db: Db, accountId: string, typeKey: string) {
    || !cfg.enabled || IsDeterministicOnly(typeKey, cfg.deterministicOnly)
    || StateKey(accountId, typeKey) !in db.autoStates
    || db.autoStates[StateKey(accountId, typeKey)].status != Promotion.Shadow
  }

  /** The entries the promoter happened to pick. */
  datatype Picks = Picks(signature: Option<Id>, shadowTransform: Option<Id>, pendingTransform: Option<Id>)

  /** The picks are outcomes of the queries this candidate leads to. */
  ghost predicate CandidatePicks(cfg: Promotion.Config, db: Db, accountId: string, rawTypeKey: string,
                                 confidence: real, reason: string, picks: Picks)
  {
    var typeKey := TrimSpace(rawTypeKey);
    !IgnoresCandidate(cfg, rawTypeKey)
    && Promotion.EntersShadow(cfg, LoadState(db, accountId, typeKey), confidence, reason) ==>
      && LatestCandidate(db, accountId, typeKey, picks.signature)
      && LatestTransform(db, accountId, typeKey, Pending, picks.pendingTransform)
  }

  /** The picks are outcomes of the queries this hit leads to. */
  ghost predicate HitPicks(cfg: Promotion.Config, db: Db, accountId: string, typeKey: string, picks: Picks) {
    !IgnoresHit(cfg, db, accountId, typeKey)
    && Promotion.Decides(cfg, db.autoStates[StateKey(accountId, typeKey)]) ==>
      && LatestCandidate(db, accountId, typeKey, picks.signature)
      && LatestTransform(db, accountId, typeKey, InShadow, picks.shadowTransform)
      && (picks.shadowTransform.None? && Promotion.Activates(cfg, db.autoStates[StateKey(accountId, typeKey)]) ==>
            LatestTransform(db, accountId, typeKey, Pending, picks.pendingTransform))
  }

  function ObservedCandidate(cfg: Promotion.Config, db: Db, accountId: string, rawTypeKey: string,
                             confidence: real, reason: string, picks: Picks): Db
  {
    if IgnoresCandidate(cfg, rawTypeKey) then db
    else
      var typeKey := TrimSpace(rawTypeKey);
      var st := LoadState(db, accountId, typeKey);
      var moved :=
        if Promotion.EntersShadow(cfg, st, confidence, reason)
        then MoveTransform(EnableSignature(db, picks.signature, true, "autopromote_shadow"), picks.pendingTransform, InShadow)
        else db;
      Upserted(moved, Promotion.AfterCandidate(cfg, st, confidence, reason))
  }

  function ObservedHit(cfg: Promotion.Config, db: Db, accountId: string, typeKey: string,
                       confidence: real, reason: string, picks: Picks): Db
  {
    if IgnoresHit(cfg, db, accountId, typeKey) then db
    else
      var st := db.autoStates[StateKey(accountId, typeKey)];
      var moved :=
        if Promotion.Activates(cfg, st) then
          var promoted := if picks.shadowTransform.Some? then picks.shadowTransform else picks.pendingTransform;
          EnableSignature(MoveTransform(db, promoted, InUse), picks.signature, true, "autopromote_active")
        else if Promotion.RollsBack(cfg, st) then
          MoveTransform(EnableSignature(db, picks.signature, false, "autopromote_rollback"), picks.shadowTransform, Pending)
        else db;
      Upserted(moved, Promotion.AfterHit(cfg, st, confidence, reason))
  }

  // ---- The store and the promoter as the program updates them ---------------

  class LearningStore {
    var signatures: map<Id, Signature>
    var transforms: map<Id, Transform>
    var autoStates: map<string, Promotion.AutoState>

    constructor ()
      ensures Now() == Db(map[], map[], map[])
    {
      signatures, transforms, autoStates := map[], map[], map[];
    }

    ghost function Now(): Db
      reads this
    {
      Db(signatures, transforms, autoStates)
    }

    method CreateTypeSignature(id: Id, sig: Signature)
      requires id !in signatures
      modifies this`signatures
      ensures signatures == old(signatures)[id :=
                if sig.confidenceThreshold <= 0.0 then sig.(confidenceThreshold := 0.75) else sig]
    {
      var stored := sig;
      if stored.confidenceThreshold <= 0.0 {
        stored := stored.(confidenceThreshold := 0.75);
      }
      signatures := signatures[id := stored];
    }

    method CreateTransform(id: Id, tr: Transform)
      requires id !in transforms
      modifies this`transforms
      ensures transforms == old(transforms)[id := if tr.version <= 0 then tr.(version := 1) else tr]
    {
      var stored := tr;
      if stored.version <= 0 {
        stored := stored.(version := 1);
      }
      transforms := transforms[id := stored];
    }

    method ListTypeSignatures(accountId: string) returns (ids: seq<Id>)
      ensures forall id :: id in ids <==> id in signatures && signatures[id].accountId == accountId && signatures[id].enabled
    {
      ids := [];
      var pending := signatures.Keys;
      while pending != {}
        invariant pending <= signatures.Keys
        invariant forall id :: id in ids <==>
                    id in signatures.Keys - pending && signatures[id].accountId == accountId && signatures[id].enabled
      {
        var id :| id in pending;
        pending := pending - {id};
        if signatures[id].accountId == accountId && signatures[id].enabled {
          ids := ids + [id];
        }
      }
    }

    method GetLatestCandidateSignature(accountId: string, typeKey: string) returns (pick: Option<Id>)
      ensures LatestCandidate(Now(), accountId, typeKey, pick)
    {
      hide CandidateSource;
      pick := None;
      var pending := signatures.Keys;
      while pending != {}
        invariant pending <= signatures.Keys
        invariant pick.None? ==> forall id | id in signatures.Keys - pending :: !IsCandidate(Now(), accountId, typeKey, id)
        invariant pick.Some? ==> IsCandidate(Now(), accountId, typeKey, pick.value)
        invariant pick.Some? ==> forall id | id in signatures.Keys - pending && IsCandidate(Now(), accountId, typeKey, id) ::
                    signatures[id].createdAt <= signatures[pick.value].createdAt
      {
        var id :| id in pending;
        pending := pending - {id};
        var sig := signatures[id];
        if sig.accountId != accountId || sig.typeKey != typeKey || !CandidateSource(sig.source) {
          continue;
        }
        if pick.None? || sig.createdAt > signatures[pick.value].createdAt {
          pick := Some(id);
        }
      }
    }

    method GetLatestTransformByStatus(accountId: string, typeKey: string, stage: Stage) returns (pick: Option<Id>)
      ensures LatestTransform(Now(), accountId, typeKey, stage, pick)
    {
      pick := None;
      var pending := transforms.Keys;
      while pending != {}
        invariant pending <= transforms.Keys
        invariant pick.None? ==> forall id | id in transforms.Keys - pending :: !HasStage(Now(), accountId, typeKey, stage, id)
        invariant pick.Some? ==> HasStage(Now(), accountId, typeKey, stage, pick.value)
        invariant pick.Some? ==> forall id | id in transforms.Keys - pending && HasStage(Now(), accountId, typeKey, stage, id) ::
                    transforms[id].version <= transforms[pick.value].version
      {
        var id :| id in pending;
        pending := pending - {id};
        var tr := transforms[id];
        if tr.accountId != accountId || tr.typeKey != typeKey || tr.stage != stage {
          continue;
        }
        if pick.None? || tr.version > transforms[pick.value].version {
          pick := Some(id);
        }
      }
    }

    method SetTypeSignatureEnabled(id: Id, enabled: bool, source: string)
      requires TrimSpace(source) != ""
      modifies this`signatures
      ensures Now() == EnableSignature(old(Now()), Some(id), enabled, source)
    {
      if id in signatures {
        signatures := signatures[id := signatures[id].(enabled := enabled, source := source)];
      }
    }

    method SetTransformStatus(id: Id, stage: Stage)
      modifies this`transforms
      ensures Now() == MoveTransform(old(Now()), Some(id), stage)
    {
      if id in transforms {
        transforms := transforms[id := transforms[id].(stage := stage)];
      }
    }

    method UpsertAutoPromoteState(state: Promotion.AutoState)
      modifies this`autoStates
      ensures Now() == Upserted(old(Now()), state)
    {
      var key := StateKey(state.accountId, state.typeKey);
      if key !in autoStates {
        autoStates := autoStates[key := state];
        return;
      }
      var cur := autoStates[key];
      if state.status != Promotion.Unset {
        cur := cur.(status := state.status);
      }
      cur := cur.(validatedCount := state.validatedCount, shadowTotal := state.shadowTotal,
                  shadowSuccess := state.shadowSuccess, lastConfidence := state.lastConfidence,
                  lastReason := state.lastReason);
      autoStates := autoStates[key := cur];
    }
  }

  class AutoPromoter {
    const store: LearningStore
    const cfg: Promotion.Config

    constructor (store: LearningStore, cfg: Promotion.Config)
      ensures this.store == store && this.cfg == cfg
    {
      this.store, this.cfg := store, cfg;
    }

    method ObserveCandidate(accountId: string, rawTypeKey: string, confidence: real, reason: string)
      returns (ghost picks: Picks)
      modifies store
      ensures CandidatePicks(cfg, old(store.Now()), accountId, rawTypeKey, confidence, reason, picks)
      ensures store.Now() == ObservedCandidate(cfg, old(store.Now()), accountId, rawTypeKey, confidence, reason, picks)
    {
      hide LatestCandidate, LatestTransform, TrimSpace, IsDeterministicOnly;
      picks := Picks(None, None, None);
      var typeKey := TrimSpace(rawTypeKey);
      if !cfg.enabled || typeKey == "" || typeKey == "unknown" || IsDeterministicOnly(typeKey, cfg.deterministicOnly) {
        return;
      }
      var key := StateKey(accountId, typeKey);
      var st := if key in store.autoStates then store.autoStates[key] else Promotion.NewState(accountId, typeKey);
      st := st.(lastConfidence := confidence, lastReason := TrimSpace(reason));
      if st.status == Promotion.Unset {
        st := st.(status := Promotion.Validated);
      }
      if confidence >= cfg.minConfidence {
        st := st.(validatedCount := st.validatedCount + 1);
      }
      if st.status == Promotion.Validated && st.validatedCount >= Promotion.MaxInt(cfg.validatedToShadow, 1) {
        var sig := store.GetLatestCandidateSignature(accountId, typeKey);
        var tr := store.GetLatestTransformByStatus(accountId, typeKey, Pending);
        picks := Picks(sig, None, tr);
        if sig.Some? {
          NotBlank("autopromote_shadow");
          store.SetTypeSignatureEnabled(sig.value, true, "autopromote_shadow");
        }
        if tr.Some? {
          store.SetTransformStatus(tr.value, InShadow);
        }
        st := st.(status := Promotion.Shadow, shadowTotal := 0, shadowSuccess := 0, validatedCount := 0);
      }
      store.UpsertAutoPromoteState(st);
    }

    method ObserveDeterministicHit(accountId: string, typeKey: string, confidence: real, reason: string)
      returns (ghost picks: Picks)
      modifies store
      ensures HitPicks(cfg, old(store.Now()), accountId, typeKey, picks)
      ensures store.Now() == ObservedHit(cfg, old(store.Now()), accountId, typeKey, confidence, reason, picks)
    {
      hide LatestCandidate, LatestTransform, TrimSpace, IsDeterministicOnly;
      picks := Picks(None, None, None);
      if !cfg.enabled || IsDeterministicOnly(typeKey, cfg.deterministicOnly) {
        return;
      }
      var key := StateKey(accountId, typeKey);
      if key !in store.autoStates {
        return;
      }
      var st := store.autoStates[key];
      if st.status != Promotion.Shadow {
        return;
      }
      st := st.(shadowTotal := st.shadowTotal + 1, shadowSuccess := st.shadowSuccess + 1,
                lastConfidence := confidence, lastReason := reason);
      if st.shadowTotal >= Promotion.MaxInt(cfg.shadowToActive, 1) {
        var successRate := st.shadowSuccess as real / Promotion.MaxInt(st.shadowTotal, 1) as real;
        // The transform updates leave the signatures alone, so this query can come first.
        var sig := store.GetLatestCandidateSignature(accountId, typeKey);
        var tr := store.GetLatestTransformByStatus(accountId, typeKey, InShadow);
        picks := Picks(sig, tr, None);
        if successRate >= cfg.minSuccessRate {
          if tr.Some? {
            store.SetTransformStatus(tr.value, InUse);
          } else {
            var pending := store.GetLatestTransformByStatus(accountId, typeKey, Pending);
            picks := picks.(pendingTransform := pending);
            if pending.Some? {
              store.SetTransformStatus(pending.value, InUse);
            }
          }
          if sig.Some? {
            NotBlank("autopromote_active");
            store.SetTypeSignatureEnabled(sig.value, true, "autopromote_active");
          }
          st := st.(status := Promotion.Active);
        } else {
          if sig.Some? {
            NotBlank("autopromote_rollback");
            store.SetTypeSignatureEnabled(sig.value, false, "autopromote_rollback");
          }
          if tr.Some? {
            store.SetTransformStatus(tr.value, Pending);
          }
          st := st.(status := Promotion.Validated, validatedCount := 0, shadowTotal := 0, shadowSuccess := 0);
        }
      }
      store.UpsertAutoPromoteState(st);
    }
  }

  lemma NotBlank(s: string)
    requires s != "" && !IsSpace(s[0]) && !IsSpace(s[|s| - 1])
    ensures TrimSpace(s) != ""
  {
    TrimSpaceFixes(s);
  }
}
