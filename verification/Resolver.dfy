/**
 The self-learning type resolver (internal/service/resolver.go). The two classifiers are
 oracles: each answer is an input. So are the identifiers of new entries and the time.
 */
module Resolver {
  import opened Text
  import opened Json
  import opened Fingerprint
  import opened Walking
  import opened Scoring
  import opened Learning
  import Promotion

  datatype Answer =
    | Unavailable
    | Failed
    | Answered(typeKey: string, confidence: real, template: map<string, Json>)

  /** What one call gets from outside. report is the text that describes a disagreement. */
  datatype Oracle = Oracle(groq: Answer, cerebras: Answer, report: string, now: nat, signatureId: Id, transformId: Id)

  datatype Resolution = Resolution(typeKey: string, confidence: real, source: string)

  /** The entries that happened to come first among equals. */
  datatype Choice = Choice(best: Option<Id>, picks: Picks)

  predicate Enabled(db: Db, accountId: string, id: Id) {
    id in db.signatures && db.signatures[id].accountId == accountId && db.signatures[id].enabled
  }

  /** The signature that may come first: none scores higher, and there is one if any is enabled. */
  ghost predicate BestAllowed(db: Db, accountId: string, fp: PayloadFingerprint, headers: map<string, string>, best: Option<Id>) {
    match best
    case None => forall id :: !Enabled(db, accountId, id)
    case Some(top) =>
      && Enabled(db, accountId, top)
      && forall id | Enabled(db, accountId, id) ::
           Score(db.signatures[id], fp, headers) <= Score(db.signatures[top], fp, headers)
  }

  function BestMatch(db: Db, best: Option<Id>, fp: PayloadFingerprint, headers: map<string, string>): Option<Match> {
    MatchOf(if best.Some? && best.value in db.signatures then Some(db.signatures[best.value]) else None, fp, headers)
  }

  function CandidateSignature(accountId: string, typeKey: string, fp: PayloadFingerprint, now: nat): Signature {
    Signature(accountId, typeKey, fp.keyPaths, fp.shapes, map[], 0.8, false, "llm_candidate", now)
  }

  function Persisted(db: Db, accountId: string, typeKey: string, template: map<string, Json>,
                     fp: PayloadFingerprint, o: Oracle): Db
  {
    var withSignature := db.(signatures := db.signatures[o.signatureId := CandidateSignature(accountId, typeKey, fp, o.now)]);
    if template == map[] then withSignature
    else withSignature.(transforms := db.transforms[o.transformId := Transform(accountId, typeKey, 1, "dsl", template, Pending)])
  }

  predicate Agree(o: Oracle) {
    && o.groq.Answered? && o.cerebras.Answered?
    && ToLower(TrimSpace(o.groq.typeKey)) == ToLower(TrimSpace(o.cerebras.typeKey)) && o.groq.typeKey != ""
  }

  /** The classification that is used: the first on agreement, else the more confident one. */
  function Chosen(o: Oracle): (string, real, map<string, Json>, string)
    requires o.groq.Answered? && o.cerebras.Answered?
  {
    if Agree(o) then
      (o.groq.typeKey, (o.groq.confidence + o.cerebras.confidence) / 2.0, o.groq.template, "llm_agreement")
    else
      var picked := if o.cerebras.confidence > o.groq.confidence then o.cerebras else o.groq;
      (if TrimSpace(picked.typeKey) == "" then "unknown" else picked.typeKey,
       picked.confidence, picked.template, "llm_disagreement_resolved")
  }

  /** The answer is stored and observed, unless two disagreeing classifiers left it unknown. */
  predicate Learns(o: Oracle) {
    o.groq.Answered? && o.cerebras.Answered? && (Agree(o) || (TrimSpace(Chosen(o).0) != "" && Chosen(o).0 != "unknown"))
  }

  function Observed(promoter: Option<Promotion.Config>, db: Db, accountId: string, typeKey: string,
                    confidence: real, reason: string, picks: Picks): Db
  {
    if promoter.None? then db
    else ObservedCandidate(promoter.value, db, accountId, typeKey, confidence, reason, picks)
  }

  function Resolved(promoter: Option<Promotion.Config>, db: Db, accountId: string, fp: PayloadFingerprint,
                    headers: map<string, string>, o: Oracle, choice: Choice): (Db, Resolution)
  {
    var hit := BestMatch(db, choice.best, fp, headers);
    if hit.Some? then
      (if promoter.None? then db
       else ObservedHit(promoter.value, db, accountId, hit.value.typeKey, hit.value.confidence, "signature match", choice.picks),
       Resolution(hit.value.typeKey, hit.value.confidence, "deterministic"))
    else if o.groq.Unavailable? || o.cerebras.Unavailable? then (db, Resolution("unknown", 0.0, "none"))
    else if o.groq.Failed? || o.cerebras.Failed? then (db, Resolution("unknown", 0.0, "llm_error"))
    else
      var c := Chosen(o);
      var reason := if Agree(o) then "groq and cerebras agreement" else o.report;
      (if Learns(o)
       then Observed(promoter, Persisted(db, accountId, c.0, c.2, fp, o), accountId, c.0, c.1, reason, choice.picks)
       else db,
       Resolution(c.0, c.1, c.3))
  }

  /** The choice is one the store may make on this call. */
  ghost predicate ChoiceAllowed(promoter: Option<Promotion.Config>, db: Db, accountId: string, fp: PayloadFingerprint,
                                headers: map<string, string>, o: Oracle, choice: Choice)
  {
    && BestAllowed(db, accountId, fp, headers, choice.best)
    && (promoter.Some? ==>
          var hit := BestMatch(db, choice.best, fp, headers);
          if hit.Some? then HitPicks(promoter.value, db, accountId, hit.value.typeKey, choice.picks)
          else Learns(o) ==>
            var c := Chosen(o);
            CandidatePicks(promoter.value, Persisted(db, accountId, c.0, c.2, fp, o), accountId, c.0, c.1,
                           if Agree(o) then "groq and cerebras agreement" else o.report, choice.picks))
  }

  predicate FreshIds(db: Db, o: Oracle) {
    o.signatureId !in db.signatures && o.transformId !in db.transforms
  }

  class TypeResolver {
    const store: LearningStore
    const promoter: AutoPromoter?

    constructor (store: LearningStore, promoter: AutoPromoter?)
      ensures this.store == store && this.promoter == promoter
    {
      this.store, this.promoter := store, promoter;
    }

    ghost predicate Valid() {
      promoter != null ==> promoter.store == store
    }

    ghost function Cfg(): Option<Promotion.Config> {
      if promoter == null then None else Some(promoter.cfg)
    }

    method PersistCandidate(accountId: string, typeKey: string, template: map<string, Json>, fp: PayloadFingerprint, o: Oracle)
      requires FreshIds(store.Now(), o)
      modifies store
      ensures store.Now() == Persisted(old(store.Now()), accountId, typeKey, template, fp, o)
    {
      store.CreateTypeSignature(o.signatureId, CandidateSignature(accountId, typeKey, fp, o.now));
      if template != map[] {
        store.CreateTransform(o.transformId, Transform(accountId, typeKey, 1, "dsl", template, Pending));
      }
    }

    method FirstMatch(accountId: string, fp: PayloadFingerprint, headers: map<string, string>)
      returns (r: Option<Match>, ghost best: Option<Id>)
      ensures BestAllowed(store.Now(), accountId, fp, headers, best)
      ensures r == BestMatch(store.Now(), best, fp, headers)
    {
      hide Score;
      var ids := store.ListTypeSignatures(accountId);
      var sigs := seq(|ids|, i requires 0 <= i < |ids| && ids[i] in store.signatures reads store => store.signatures[ids[i]]);
      var m, top := BestDeterministicMatch(fp, headers, sigs);
      r := m;
      if top.None? {
        best := None;
        forall id
          ensures !Enabled(store.Now(), accountId, id)
        {
          assert id !in ids;
        }
      } else {
        var j :| 0 <= j < |sigs| && sigs[j] == top.value;
        best := Some(ids[j]);
        assert ids[j] in ids;
        forall id | Enabled(store.Now(), accountId, id)
          ensures Score(store.signatures[id], fp, headers) <= Score(store.signatures[ids[j]], fp, headers)
        {
          assert id in ids;
          var i :| 0 <= i < |ids| && ids[i] == id;
          assert sigs[i] in sigs;
        }
      }
    }

    method Resolve(accountId: string, payload: Json, headers: map<string, string>, o: Oracle)
      returns (r: Resolution, ghost fp: PayloadFingerprint, ghost choice: Choice)
      requires Valid() && FreshIds(store.Now(), o)
      modifies store
      ensures FingerprintOf(payload, fp)
      ensures ChoiceAllowed(Cfg(), old(store.Now()), accountId, fp, headers, o, choice)
      ensures (store.Now(), r) == Resolved(Cfg(), old(store.Now()), accountId, fp, headers, o, choice)
    {
      hide FingerprintOf, BestAllowed, CandidatePicks, HitPicks, ObservedHit, ObservedCandidate, Persisted, MatchOf,
           TrimSpace, ToLower;
      var taken := BuildFingerprint(payload);
      fp := taken;
      var picks := Picks(None, None, None);
      var det, best := FirstMatch(accountId, taken, headers);
      choice := Choice(best, picks);
      if det.Some? {
        if promoter != null {
          ghost var p := promoter.ObserveDeterministicHit(accountId, det.value.typeKey, det.value.confidence, "signature match");
          choice := Choice(best, p);
        }
        return Resolution(det.value.typeKey, det.value.confidence, "deterministic"), fp, choice;
      }
      if o.groq.Unavailable? || o.cerebras.Unavailable? {
        return Resolution("unknown", 0.0, "none"), fp, choice;
      }
      if o.groq.Failed? || o.cerebras.Failed? {
        return Resolution("unknown", 0.0, "llm_error"), fp, choice;
      }
      var c := Chosen(o);
      var reason := if Agree(o) then "groq and cerebras agreement" else o.report;
      if Agree(o) || (TrimSpace(c.0) != "" && c.0 != "unknown") {
        PersistCandidate(accountId, c.0, c.2, taken, o);
        if promoter != null {
          ghost var p := promoter.ObserveCandidate(accountId, c.0, c.1, reason);
          choice := Choice(best, p);
        }
      }
      r := Resolution(c.0, c.1, c.3);
    }
  }
}
