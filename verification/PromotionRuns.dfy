/**
 Promotion in the store: any accounts and types, observed in any order
 (internal/service/autopromote.go:30-129, internal/store/memory.go:1126-1160). What is filed
 for one type is what its own observations make of it.
 */
module PromotionRuns {
  import opened Text
  import opened Keys
  import opened Scoring
  import opened Learning
  import opened Stages
  import P = Promotion

  /** One call of the promoter, with the entries it happened to pick. */
  datatype Seen =
    | SawCandidate(accountId: string, rawTypeKey: string, confidence: real, reason: string, picks: Picks)
    | SawHit(accountId: string, typeKey: string, confidence: real, reason: string, picks: Picks)

  function Observed(cfg: P.Config, db: Db, s: Seen): Db {
    match s
    case SawCandidate(a, t, c, r, picks) => ObservedCandidate(cfg, db, a, t, c, r, picks)
    case SawHit(a, t, c, r, picks) => ObservedHit(cfg, db, a, t, c, r, picks)
  }

  function AfterAll(cfg: P.Config, db: Db, seen: seq<Seen>): Db {
    if seen == [] then db else Observed(cfg, AfterAll(cfg, db, seen[..|seen| - 1]), seen[|seen| - 1])
  }

  /** What the call means for this account and type, if anything. */
  function Own(cfg: P.Config, s: Seen, accountId: string, typeKey: string): Option<P.Observation> {
    match s
    case SawCandidate(a, raw, c, r, _) =>
      if a == accountId && TrimSpace(raw) == typeKey && !IgnoresCandidate(cfg, raw) then Some(P.Candidate(c, r)) else None
    case SawHit(a, t, c, r, _) =>
      if a == accountId && t == typeKey && cfg.enabled && !IsDeterministicOnly(t, cfg.deterministicOnly)
      then Some(P.DeterministicHit(c, r)) else None
  }

  /** The type's own observations, in order. */
  function History(cfg: P.Config, seen: seq<Seen>, accountId: string, typeKey: string): seq<P.Observation> {
    if seen == [] then []
    else
      var before := History(cfg, seen[..|seen| - 1], accountId, typeKey);
      match Own(cfg, seen[|seen| - 1], accountId, typeKey)
      case None => before
      case Some(o) => before + [o]
  }

  function StateOf(db: Db, accountId: string, typeKey: string): Option<P.AutoState> {
    if StateKey(accountId, typeKey) in db.autoStates then Some(db.autoStates[StateKey(accountId, typeKey)]) else None
  }

  /** The record filed for the type is the one its own history leads to. */
  predicate Follows(filed: Option<P.AutoState>, run: Option<P.AutoState>, accountId: string, typeKey: string) {
    && filed.Some? == run.Some?
    && (filed.Some? ==>
          && filed.value == run.value.(accountId := accountId, typeKey := typeKey)
          && filed.value.status != P.Unset)
  }

  lemma UpsertState(db: Db, st: P.AutoState, accountId: string, typeKey: string)
    requires PlainAccount(st.accountId) && PlainAccount(accountId) && st.status != P.Unset
    requires StateOf(db, st.accountId, st.typeKey).Some? ==>
               var cur := StateOf(db, st.accountId, st.typeKey).value; cur.accountId == st.accountId && cur.typeKey == st.typeKey
    ensures StateOf(Upserted(db, st), accountId, typeKey) ==
            if accountId == st.accountId && typeKey == st.typeKey then Some(st) else StateOf(db, accountId, typeKey)
  {
    if StateKey(accountId, typeKey) == StateKey(st.accountId, st.typeKey) {
      StateKeyInjective(accountId, typeKey, st.accountId, st.typeKey);
    }
  }

  /** Signatures and transforms do not matter to the states. */
  lemma StatesAlone(db: Db, moved: Db, st: P.AutoState)
    requires moved.autoStates == db.autoStates
    ensures Upserted(moved, st).autoStates == Upserted(db, st).autoStates
  {
  }

  lemma StatesKept(db: Db, pick: Option<Id>, enabled: bool, source: string, stage: Stage)
    ensures EnableSignature(db, pick, enabled, source).autoStates == db.autoStates
    ensures MoveTransform(db, pick, stage).autoStates == db.autoStates
  {
  }

  lemma CandidateStates(cfg: P.Config, db: Db, a: string, raw: string, c: real, r: string, picks: Picks)
    requires !IgnoresCandidate(cfg, raw)
    ensures ObservedCandidate(cfg, db, a, raw, c, r, picks).autoStates
            == Upserted(db, P.AfterCandidate(cfg, LoadState(db, a, TrimSpace(raw)), c, r)).autoStates
  {
    var st := LoadState(db, a, TrimSpace(raw));
    var enabled := EnableSignature(db, picks.signature, true, "autopromote_shadow");
    var moved := if P.EntersShadow(cfg, st, c, r) then MoveTransform(enabled, picks.pendingTransform, InShadow) else db;
    StatesKept(db, picks.signature, true, "autopromote_shadow", InShadow);
    StatesKept(enabled, picks.pendingTransform, true, "", InShadow);
    StatesAlone(db, moved, P.AfterCandidate(cfg, st, c, r));
    hide EnableSignature, MoveTransform, Upserted, IgnoresCandidate, LoadState;
  }

  lemma HitStates(cfg: P.Config, db: Db, a: string, t: string, c: real, r: string, picks: Picks)
    requires !IgnoresHit(cfg, db, a, t)
    ensures ObservedHit(cfg, db, a, t, c, r, picks).autoStates
            == Upserted(db, P.AfterHit(cfg, db.autoStates[StateKey(a, t)], c, r)).autoStates
  {
    hide EnableSignature, MoveTransform, Upserted;
    var st := db.autoStates[StateKey(a, t)];
    var promoted := if picks.shadowTransform.Some? then picks.shadowTransform else picks.pendingTransform;
    var up, off := MoveTransform(db, promoted, InUse), EnableSignature(db, picks.signature, false, "autopromote_rollback");
    StatesKept(db, promoted, true, "", InUse);
    StatesKept(up, picks.signature, true, "autopromote_active", InUse);
    StatesKept(db, picks.signature, false, "autopromote_rollback", InUse);
    StatesKept(off, picks.shadowTransform, true, "", Pending);
    var moved :=
      if P.Activates(cfg, st) then EnableSignature(up, picks.signature, true, "autopromote_active")
      else if P.RollsBack(cfg, st) then MoveTransform(off, picks.shadowTransform, Pending)
      else db;
    StatesAlone(db, moved, P.AfterHit(cfg, st, c, r));
  }

  /** The state records are filed under their own account and type. */
  predicate WellFiled(db: Db, accountId: string, typeKey: string) {
    StateOf(db, accountId, typeKey).Some? ==>
      var st := StateOf(db, accountId, typeKey).value;
      st.accountId == accountId && st.typeKey == typeKey && st.status != P.Unset
  }

  lemma LoadedFiled(db: Db, accountId: string, typeKey: string)
    requires WellFiled(db, accountId, typeKey)
    ensures var st := LoadState(db, accountId, typeKey);
            st.accountId == accountId && st.typeKey == typeKey && st.status != P.Unset
  {
  }

  lemma CandidateFollows(cfg: P.Config, db: Db, s: Seen, accountId: string, typeKey: string, run: Option<P.AutoState>)
    requires s.SawCandidate? && PlainAccount(s.accountId) && PlainAccount(accountId)
    requires WellFiled(db, s.accountId, TrimSpace(s.rawTypeKey)) && Follows(StateOf(db, accountId, typeKey), run, accountId, typeKey)
    ensures Follows(StateOf(Observed(cfg, db, s), accountId, typeKey),
                    match Own(cfg, s, accountId, typeKey) case None => run case Some(o) => P.Observe(cfg, run, o),
                    accountId, typeKey)
  {
    if !IgnoresCandidate(cfg, s.rawTypeKey) {
      var t := TrimSpace(s.rawTypeKey);
      var st := LoadState(db, s.accountId, t);
      var after := P.AfterCandidate(cfg, st, s.confidence, s.reason);
      CandidateStates(cfg, db, s.accountId, s.rawTypeKey, s.confidence, s.reason, s.picks);
      LoadedFiled(db, s.accountId, t);
      UpsertState(db, after, accountId, typeKey);
      hide Upserted, IgnoresCandidate, ObservedCandidate, TrimSpace;
    }
    hide IgnoresCandidate;
  }

  lemma HitFollows(cfg: P.Config, db: Db, s: Seen, accountId: string, typeKey: string, run: Option<P.AutoState>)
    requires s.SawHit? && PlainAccount(s.accountId) && PlainAccount(accountId)
    requires WellFiled(db, s.accountId, s.typeKey) && Follows(StateOf(db, accountId, typeKey), run, accountId, typeKey)
    ensures Follows(StateOf(Observed(cfg, db, s), accountId, typeKey),
                    match Own(cfg, s, accountId, typeKey) case None => run case Some(o) => P.Observe(cfg, run, o),
                    accountId, typeKey)
  {
    hide Upserted, IsDeterministicOnly, ObservedHit;
    if IgnoresHit(cfg, db, s.accountId, s.typeKey) {
      IgnoredHit(cfg, db, s);
    } else {
      var after := P.AfterHit(cfg, db.autoStates[StateKey(s.accountId, s.typeKey)], s.confidence, s.reason);
      HitStates(cfg, db, s.accountId, s.typeKey, s.confidence, s.reason, s.picks);
      UpsertState(db, after, accountId, typeKey);
    }
  }

  lemma IgnoredHit(cfg: P.Config, db: Db, s: Seen)
    requires s.SawHit? && IgnoresHit(cfg, db, s.accountId, s.typeKey)
    ensures Observed(cfg, db, s) == db
  {
    hide IgnoresHit;
  }

  /** Which account and type a call is filed under. */
  function Place(s: Seen): (string, string) {
    match s
    case SawCandidate(a, raw, _, _, _) => (a, TrimSpace(raw))
    case SawHit(a, t, _, _, _) => (a, t)
  }

  /**
   For every interleaving of candidates and hits of any accounts and types: the record filed
   for a type is the one that the type's own observations, by themselves, lead to.
   */
  lemma {:induction false} FiledByOwnHistory(cfg: P.Config, db: Db, seen: seq<Seen>, accountId: string, typeKey: string)
    requires db.autoStates == map[] && PlainAccount(accountId) && forall s | s in seen :: PlainAccount(s.accountId)
    ensures Follows(StateOf(AfterAll(cfg, db, seen), accountId, typeKey),
                    P.Run(cfg, History(cfg, seen, accountId, typeKey)), accountId, typeKey)
  {
    if seen != [] {
      var init, s := seen[..|seen| - 1], seen[|seen| - 1];
      var now, before := AfterAll(cfg, db, init), History(cfg, init, accountId, typeKey);
      assert s in seen && forall x | x in init :: x in seen;
      FiledByOwnHistory(cfg, db, init, accountId, typeKey);
      FiledByOwnHistory(cfg, db, init, Place(s).0, Place(s).1);
      assert WellFiled(now, Place(s).0, Place(s).1);
      HistoryGrows(cfg, seen, accountId, typeKey);
      if s.SawCandidate? {
        CandidateFollows(cfg, now, s, accountId, typeKey, P.Run(cfg, before));
      } else {
        HitFollows(cfg, now, s, accountId, typeKey, P.Run(cfg, before));
      }
      hide *;
      assert AfterAll(cfg, db, seen) == Observed(cfg, now, s) by {
        AfterGrows(cfg, db, seen);
      }
    }
  }

  lemma AfterGrows(cfg: P.Config, db: Db, seen: seq<Seen>)
    requires seen != []
    ensures AfterAll(cfg, db, seen) == Observed(cfg, AfterAll(cfg, db, seen[..|seen| - 1]), seen[|seen| - 1])
  {
    hide Observed;
  }

  lemma HistoryGrows(cfg: P.Config, seen: seq<Seen>, accountId: string, typeKey: string)
    requires seen != []
    ensures var run := P.Run(cfg, History(cfg, seen[..|seen| - 1], accountId, typeKey));
            P.Run(cfg, History(cfg, seen, accountId, typeKey)) ==
            match Own(cfg, seen[|seen| - 1], accountId, typeKey) case None => run case Some(o) => P.Observe(cfg, run, o)
  {
    hide Own, P.Observe;
    var before := History(cfg, seen[..|seen| - 1], accountId, typeKey);
    if o :| Own(cfg, seen[|seen| - 1], accountId, typeKey) == Some(o) {
      assert (before + [o])[..|before + [o]| - 1] == before;
    }
  }

  /** So the status in the store has the closed form of the type's own history. */
  lemma ActiveIff(cfg: P.Config, db: Db, seen: seq<Seen>, accountId: string, typeKey: string)
    requires db.autoStates == map[] && PlainAccount(accountId) && forall s | s in seen :: PlainAccount(s.accountId)
    ensures StatusOf(AfterAll(cfg, db, seen), accountId, typeKey) == P.Active
            <==> cfg.minSuccessRate <= 1.0 && P.Earned(cfg, History(cfg, seen, accountId, typeKey))
  {
    FiledByOwnHistory(cfg, db, seen, accountId, typeKey);
    P.PromotionClosedForm(cfg, History(cfg, seen, accountId, typeKey));
    hide AfterAll, History, P.Run, P.Earned;
  }
}
