/**
 Whole runs of the resolver with a promoter: the transforms of a type and its promotion
 state stay in step (internal/service/autopromote.go, resolver.go and transform.go).
 */
module Stages {
  import opened Text
  import opened Keys
  import opened Json
  import opened Fingerprint
  import opened Scoring
  import opened Learning
  import opened Resolver
  import opened JsonPath
  import Promotion

  // ---- Applying the active transform ----------------------------------------

  predicate AllTexts(fields: map<string, Json>) {
    forall k | k in fields :: fields[k].JString? || fields[k].JNull?
  }

  /** A member of the specification that is missing or null counts as empty. */
  function Member(template: map<string, Json>, name: string): Json {
    if name in template then template[name] else JNull
  }

  /** The specification a template decodes to; None when a member has the wrong type. */
  function SpecOf(template: map<string, Json>): Option<DslSpec> {
    var extract, constants, dropNull := Member(template, "extract"), Member(template, "constants"), Member(template, "drop_null");
    if !(extract.JNull? || (extract.JObject? && AllTexts(extract.fields))) || !(constants.JNull? || constants.JObject?)
       || !(dropNull.JNull? || dropNull.JBool?) then None
    else Some(DslSpec(
      if extract.JNull? then map[]
      else map k | k in extract.fields :: if extract.fields[k].JString? then extract.fields[k].s else "",
      if constants.JNull? then map[] else constants.fields,
      dropNull.JBool? && dropNull.b))
  }

  /** applyDSL; an empty template stands for blank text. */
  function Rewritten(template: map<string, Json>, payload: Json): Option<Json> {
    if template == map[] then Some(payload)
    else match SpecOf(template)
      case None => None
      case Some(spec) => Some(JObject(ApplySpec(payload, spec)))
  }

  method ApplyTemplate(template: map<string, Json>, payload: Json) returns (r: Option<Json>)
    ensures r == Rewritten(template, payload)
  {
    hide SpecOf, ApplySpec;
    if template == map[] {
      return Some(payload);
    }
    var spec := SpecOf(template);
    if spec.None? {
      return None;
    }
    var out := ApplyDSL(payload, spec.value);
    r := Some(JObject(out));
  }

  /** What a transform makes of a payload, by the name of its engine. */
  function Transformed(tr: Transform, payload: Json, wasm: (Transform, Json) -> Option<Json>): Option<Json> {
    var engine := ToLower(TrimSpace(tr.engine));
    if engine == "dsl" then Rewritten(tr.template, payload)
    else if engine == "wasm" then wasm(tr, payload)
    else None
  }

  /** TransformService.Apply. A latest active transform is run; with none the payload stays as it is. */
  method Apply(store: LearningStore, accountId: string, typeKey: string, payload: Json,
               wasm: (Transform, Json) -> Option<Json>)
    returns (r: Option<Json>, ghost pick: Option<Id>)
    ensures LatestTransform(store.Now(), accountId, typeKey, InUse, pick)
    ensures r == if pick.None? then Some(payload) else Transformed(store.transforms[pick.value], payload, wasm)
    ensures (forall id | id in store.transforms :: !HasStage(store.Now(), accountId, typeKey, InUse, id)) ==> r == Some(payload)
  {
    hide LatestTransform, Rewritten, TrimSpace, ToLower;
    var tr := store.GetLatestTransformByStatus(accountId, typeKey, InUse);
    pick := tr;
    LatestIsStored(store.Now(), accountId, typeKey, InUse, tr);
    NothingInUse(store.Now(), accountId, typeKey, tr);
    if tr.None? {
      return Some(payload), pick;
    }
    var active := store.transforms[tr.value];
    var engine := ToLower(TrimSpace(active.engine));
    if engine == "dsl" {
      r := ApplyTemplate(active.template, payload);
    } else if engine == "wasm" {
      r := wasm(active, payload);
    } else {
      r := None;
    }
  }

  lemma NothingInUse(db: Db, accountId: string, typeKey: string, pick: Option<Id>)
    requires LatestTransform(db, accountId, typeKey, InUse, pick)
    ensures (forall id | id in db.transforms :: !HasStage(db, accountId, typeKey, InUse, id)) ==> pick.None?
  {
  }

  /**
   A template that extracts a recorded path of a plain payload gives back, under its name, a
   value of the recorded shape from that very path, unless a constant overrides it.
   */
  lemma TemplateExtracts(v: Json, fp: PayloadFingerprint, template: map<string, Json>, name: string)
    requires Plain(v) && !v.JArray? && FingerprintOf(v, fp) && SpecOf(template).Some?
    requires var spec := SpecOf(template).value;
             name in spec.extract && spec.extract[name] in fp.shapes && name !in spec.constants
    ensures var spec, out := SpecOf(template).value, Rewritten(template, v);
            && out.Some? && out.value.JObject? && name in out.value.fields
            && ShapeName(out.value.fields[name]) == fp.shapes[spec.extract[name]]
            && PathGet(v, spec.extract[name]) == Some(out.value.fields[name])
  {
    var spec := SpecOf(template).value;
    assert template != map[] by {
      NothingToExtract(template);
    }
    RecordedPathsExtract(v, fp, spec, name);
    RecordedPathsReadBack(v, fp, spec.extract[name]);
    hide Plain, FingerprintOf, PathGet;
  }

  lemma NothingToExtract(template: map<string, Json>)
    ensures template == map[] ==> SpecOf(template).Some? && SpecOf(template).value.extract == map[]
  {
  }

  lemma LatestIsStored(db: Db, accountId: string, typeKey: string, stage: Stage, pick: Option<Id>)
    requires LatestTransform(db, accountId, typeKey, stage, pick)
    ensures pick.Some? ==> pick.value in db.transforms
  {
  }

  // ---- State keys ----------------------------------------------------------

  lemma StateKeyInjective(a1: string, t1: string, a2: string, t2: string)
    requires PlainAccount(a1) && PlainAccount(a2) && StateKey(a1, t1) == StateKey(a2, t2)
    ensures a1 == a2 && t1 == t2
  {
    ScopedInjective(a1, t1, a2, t2);
  }

  // ---- The invariant -------------------------------------------------------

  /** Promotion states are filed under their own key and count every shadow run a success. */
  ghost predicate StatesSound(db: Db) {
    forall key | key in db.autoStates ::
      var st := db.autoStates[key];
      && key == StateKey(st.accountId, st.typeKey) && PlainAccount(st.accountId)
      && st.shadowTotal == st.shadowSuccess && st.shadowTotal >= 0
  }

  function StatusOf(db: Db, accountId: string, typeKey: string): Promotion.Status {
    if StateKey(accountId, typeKey) in db.autoStates
    then db.autoStates[StateKey(accountId, typeKey)].status else Promotion.Unset
  }

  predicate SameType(a: Transform, b: Transform) {
    a.accountId == b.accountId && a.typeKey == b.typeKey
  }

  /** At most one shadow transform, only in shadow; at most one active one, only once active. */
  ghost predicate StagesConsistent(db: Db) {
    && StatesSound(db)
    && (forall i | i in db.transforms :: Fits(db, db.transforms[i]))
    && OnePerStage(db.transforms)
  }

  /** The transform is in a stage its type's status allows. */
  predicate Fits(db: Db, tr: Transform) {
    PlainAccount(tr.accountId) && StageFits(tr, StatusOf(db, tr.accountId, tr.typeKey))
  }

  predicate OnePerStage(transforms: map<Id, Transform>) {
    forall i, j | i in transforms && j in transforms && SameType(transforms[i], transforms[j])
      && transforms[i].stage == transforms[j].stage != Pending :: i == j
  }

  predicate StageFits(tr: Transform, status: Promotion.Status) {
    && (tr.stage == InShadow ==> status == Promotion.Shadow)
    && (tr.stage == InUse ==> status == Promotion.Active)
  }

  function Rank(stage: Stage): nat {
    match stage case Pending => 0 case InShadow => 1 case InUse => 2
  }

  /** No transform is lost or moved back. */
  ghost predicate Forward(a: Db, b: Db) {
    forall i | i in a.transforms :: i in b.transforms && Rank(a.transforms[i].stage) <= Rank(b.transforms[i].stage)
  }

  // ---- The two observations keep it ----------------------------------------

  /** Filing a new state for one type does not touch the status of another. */
  lemma UpsertStatus(db: Db, st: Promotion.AutoState, accountId: string, typeKey: string)
    requires PlainAccount(st.accountId) && PlainAccount(accountId)
    ensures StatusOf(Upserted(db, st), accountId, typeKey) ==
            if accountId == st.accountId && typeKey == st.typeKey
            then (if st.status == Promotion.Unset then StatusOf(db, accountId, typeKey) else st.status)
            else StatusOf(db, accountId, typeKey)
  {
    if StateKey(accountId, typeKey) == StateKey(st.accountId, st.typeKey) {
      StateKeyInjective(accountId, typeKey, st.accountId, st.typeKey);
    }
  }

  /** The pick, if any, is a transform of this type. */
  predicate OfType(db: Db, accountId: string, typeKey: string, pick: Option<Id>) {
    pick.Some? ==>
      pick.value in db.transforms
      && db.transforms[pick.value].accountId == accountId && db.transforms[pick.value].typeKey == typeKey
  }

  predicate Advances(db: Db, pick: Option<Id>, stage: Stage) {
    pick.Some? && pick.value in db.transforms ==> Rank(db.transforms[pick.value].stage) <= Rank(stage)
  }

  /** With the pick moved and the type in this status, every transform of the type fits, and only the pick is in the stage. */
  predicate MoveFits(db: Db, accountId: string, typeKey: string, status: Promotion.Status, pick: Option<Id>, stage: Stage) {
    forall i | i in db.transforms && db.transforms[i].accountId == accountId && db.transforms[i].typeKey == typeKey ::
      if pick == Some(i) then StageFits(db.transforms[i].(stage := stage), status)
      else StageFits(db.transforms[i], status) && (pick.Some? && stage != Pending ==> db.transforms[i].stage != stage)
  }

  lemma MoveKeepsOne(db: Db, accountId: string, typeKey: string, status: Promotion.Status, pick: Option<Id>, stage: Stage)
    requires OnePerStage(db.transforms) && OfType(db, accountId, typeKey, pick)
    requires MoveFits(db, accountId, typeKey, status, pick, stage)
    ensures OnePerStage(MoveTransform(db, pick, stage).transforms)
  {
    hide StageFits;
  }

  lemma MoveKeepsFit(db: Db, st: Promotion.AutoState, pick: Option<Id>, stage: Stage, moved: Db, i: Id)
    requires i in db.transforms && Fits(db, db.transforms[i]) && PlainAccount(st.accountId) && st.status != Promotion.Unset
    requires moved.transforms == MoveTransform(db, pick, stage).transforms && moved.autoStates == db.autoStates
    requires OfType(db, st.accountId, st.typeKey, pick) && MoveFits(db, st.accountId, st.typeKey, st.status, pick, stage)
    ensures i in moved.transforms && Fits(Upserted(moved, st), moved.transforms[i])
    ensures Advances(db, pick, stage) ==> Rank(db.transforms[i].stage) <= Rank(moved.transforms[i].stage)
  {
    UpsertStatus(moved, st, db.transforms[i].accountId, db.transforms[i].typeKey);
    hide Upserted, StateKey;
  }

  /** A promotion record as it is filed for some type. */
  predicate RecordSound(st: Promotion.AutoState) {
    PlainAccount(st.accountId) && st.shadowTotal == st.shadowSuccess && st.shadowTotal >= 0 && st.status != Promotion.Unset
  }

  /** The common step: one transform (or none) moves while its type takes the status that fits. */
  lemma MoveKeepsStages(db: Db, st: Promotion.AutoState, pick: Option<Id>, stage: Stage, moved: Db)
    requires StagesConsistent(db) && RecordSound(st)
    requires moved.transforms == MoveTransform(db, pick, stage).transforms && moved.autoStates == db.autoStates
    requires OfType(db, st.accountId, st.typeKey, pick) && MoveFits(db, st.accountId, st.typeKey, st.status, pick, stage)
    ensures StagesConsistent(Upserted(moved, st))
    ensures Advances(db, pick, stage) ==> Forward(db, Upserted(moved, st))
  {
    UpsertedTransforms(moved, st);
    StatesStaySound(moved, st);
    MoveKeepsOne(db, st.accountId, st.typeKey, st.status, pick, stage);
    assert moved.transforms.Keys == db.transforms.Keys;
    hide Upserted, MoveTransform, OnePerStage, Fits, OfType, Advances, MoveFits, StatesSound;
    forall i | i in db.transforms
      ensures i in moved.transforms && Fits(Upserted(moved, st), moved.transforms[i])
      ensures Advances(db, pick, stage) ==> Rank(db.transforms[i].stage) <= Rank(moved.transforms[i].stage)
    {
      MoveKeepsFit(db, st, pick, stage, moved, i);
    }
  }

  /** A transform that the move leaves in a stage its type's new status does not allow, or in one with the pick. */
  lemma MoveHarms(db: Db, st: Promotion.AutoState, pick: Option<Id>, stage: Stage, moved: Db)
    requires RecordSound(st) && OfType(db, st.accountId, st.typeKey, pick)
    requires moved.transforms == MoveTransform(db, pick, stage).transforms
    requires !MoveFits(db, st.accountId, st.typeKey, st.status, pick, stage)
    ensures !StagesConsistent(Upserted(moved, st))
  {
    UpsertStatus(moved, st, st.accountId, st.typeKey);
    UpsertedTransforms(moved, st);
    hide Upserted, StateKey, StatesSound;
    var i :| i in db.transforms && db.transforms[i].accountId == st.accountId && db.transforms[i].typeKey == st.typeKey
             && !(if pick == Some(i) then StageFits(db.transforms[i].(stage := stage), st.status)
                  else StageFits(db.transforms[i], st.status) && (pick.Some? && stage != Pending ==> db.transforms[i].stage != stage));
    if Fits(Upserted(moved, st), moved.transforms[i]) {
      assert SameType(moved.transforms[i], moved.transforms[pick.value]);
    }
  }

  /** Whatever record is written back: the store stays in step if and only if the move fits. */
  lemma MoveExact(db: Db, st: Promotion.AutoState, pick: Option<Id>, stage: Stage, moved: Db)
    requires StagesConsistent(db) && RecordSound(st) && OfType(db, st.accountId, st.typeKey, pick)
    requires moved.transforms == MoveTransform(db, pick, stage).transforms && moved.autoStates == db.autoStates
    ensures StagesConsistent(Upserted(moved, st)) <==> MoveFits(db, st.accountId, st.typeKey, st.status, pick, stage)
  {
    if MoveFits(db, st.accountId, st.typeKey, st.status, pick, stage) {
      MoveKeepsStages(db, st, pick, stage, moved);
    } else {
      MoveHarms(db, st, pick, stage, moved);
    }
    hide StagesConsistent, Upserted, MoveFits, MoveTransform;
  }

  lemma UpsertedTransforms(db: Db, st: Promotion.AutoState)
    ensures Upserted(db, st).transforms == db.transforms
  {
  }

  lemma StatesStaySound(db: Db, st: Promotion.AutoState)
    requires StatesSound(db) && PlainAccount(st.accountId)
    requires st.shadowTotal == st.shadowSuccess && st.shadowTotal >= 0
    ensures StatesSound(Upserted(db, st))
  {
  }

  lemma LoadedStateSound(db: Db, accountId: string, typeKey: string)
    requires StatesSound(db) && PlainAccount(accountId)
    ensures var st := LoadState(db, accountId, typeKey);
            st.accountId == accountId && st.typeKey == typeKey
            && st.shadowTotal == st.shadowSuccess && st.shadowTotal >= 0
  {
    var key := StateKey(accountId, typeKey);
    if key in db.autoStates {
      StateKeyInjective(accountId, typeKey, db.autoStates[key].accountId, db.autoStates[key].typeKey);
    }
  }

  /** In a consistent store the transforms of a type fit the status a promoter loads for it. */
  lemma LoadedFits(db: Db, accountId: string, typeKey: string, i: Id)
    requires StagesConsistent(db)
    requires i in db.transforms && db.transforms[i].accountId == accountId && db.transforms[i].typeKey == typeKey
    ensures StageFits(db.transforms[i], LoadState(db, accountId, typeKey).status)
  {
    hide StatesSound, OnePerStage, StateKey;
    assert Fits(db, db.transforms[i]);
  }

  lemma CandidateMoveFits(cfg: Promotion.Config, db: Db, accountId: string, typeKey: string,
                          confidence: real, reason: string, pick: Option<Id>)
    requires StagesConsistent(db) && Promotion.EntersShadow(cfg, LoadState(db, accountId, typeKey), confidence, reason)
    requires LatestTransform(db, accountId, typeKey, Pending, pick)
    ensures OfType(db, accountId, typeKey, pick) && Advances(db, pick, InShadow)
    ensures MoveFits(db, accountId, typeKey, Promotion.Shadow, pick, InShadow)
  {
    forall i | i in db.transforms && db.transforms[i].accountId == accountId && db.transforms[i].typeKey == typeKey
      ensures db.transforms[i].stage == Pending
    {
      LoadedFits(db, accountId, typeKey, i);
    }
    hide StagesConsistent, LoadState;
  }

  lemma StillFits(cfg: Promotion.Config, db: Db, accountId: string, typeKey: string, status: Promotion.Status)
    requires StagesConsistent(db)
    requires status == LoadState(db, accountId, typeKey).status
             || (LoadState(db, accountId, typeKey).status == Promotion.Unset && status == Promotion.Validated)
    ensures MoveFits(db, accountId, typeKey, status, None, Pending)
  {
    forall i | i in db.transforms && db.transforms[i].accountId == accountId && db.transforms[i].typeKey == typeKey
      ensures StageFits(db.transforms[i], status)
    {
      LoadedFits(db, accountId, typeKey, i);
    }
    hide StagesConsistent, LoadState;
  }

  lemma EnabledMoves(db: Db, picks: Picks)
    ensures var moved := MoveTransform(EnableSignature(db, picks.signature, true, "autopromote_shadow"), picks.pendingTransform, InShadow);
            moved.transforms == MoveTransform(db, picks.pendingTransform, InShadow).transforms && moved.autoStates == db.autoStates
    ensures MoveTransform(db, None, Pending).transforms == db.transforms
  {
  }

  lemma CandidateKeepsStages(cfg: Promotion.Config, db: Db, accountId: string, rawTypeKey: string,
                             confidence: real, reason: string, picks: Picks)
    requires StagesConsistent(db) && PlainAccount(accountId)
    requires CandidatePicks(cfg, db, accountId, rawTypeKey, confidence, reason, picks)
    ensures var next := ObservedCandidate(cfg, db, accountId, rawTypeKey, confidence, reason, picks);
            StagesConsistent(next) && Forward(db, next)
  {
    ForwardReflexive(db);
    ConsistentStates(db);
    if !IgnoresCandidate(cfg, rawTypeKey) {
      var typeKey := TrimSpace(rawTypeKey);
      var st := LoadState(db, accountId, typeKey);
      LoadedStateSound(db, accountId, typeKey);
      var after := Promotion.AfterCandidate(cfg, st, confidence, reason);
      EnabledMoves(db, picks);
      hide StagesConsistent, Forward, LatestTransform, LatestCandidate, MoveTransform, EnableSignature, Upserted, MoveFits, OfType, Advances,
           LoadState, TrimSpace, IgnoresCandidate, StatesSound;
      if Promotion.EntersShadow(cfg, st, confidence, reason) {
        var moved := MoveTransform(EnableSignature(db, picks.signature, true, "autopromote_shadow"), picks.pendingTransform, InShadow);
        CandidateMoveFits(cfg, db, accountId, typeKey, confidence, reason, picks.pendingTransform);
        MoveKeepsStages(db, after, picks.pendingTransform, InShadow, moved);
      } else {
        StillFits(cfg, db, accountId, typeKey, after.status);
        NoMove(db, accountId, typeKey);
        MoveKeepsStages(db, after, None, Pending, db);
      }
    }
    hide StagesConsistent, Forward, IgnoresCandidate;
  }

  lemma NoMove(db: Db, accountId: string, typeKey: string)
    ensures OfType(db, accountId, typeKey, None) && Advances(db, None, Pending)
  {
  }

  lemma ConsistentStates(db: Db)
    requires StagesConsistent(db)
    ensures StatesSound(db)
  {
    hide StatesSound, Fits, OnePerStage;
  }

  lemma HitKeepsStages(cfg: Promotion.Config, db: Db, accountId: string, typeKey: string,
                       confidence: real, reason: string, picks: Picks)
    requires StagesConsistent(db) && PlainAccount(accountId) && cfg.minSuccessRate <= 1.0
    requires HitPicks(cfg, db, accountId, typeKey, picks)
    ensures var next := ObservedHit(cfg, db, accountId, typeKey, confidence, reason, picks);
            StagesConsistent(next) && Forward(db, next)
  {
    if !IgnoresHit(cfg, db, accountId, typeKey) {
      LoadedStateSound(db, accountId, typeKey);
      var st := db.autoStates[StateKey(accountId, typeKey)];
      var after := Promotion.AfterHit(cfg, st, confidence, reason);
      Promotion.FullSuccess(st);
      if Promotion.Activates(cfg, st) {
        var promoted := if picks.shadowTransform.Some? then picks.shadowTransform else picks.pendingTransform;
        var moved := EnableSignature(MoveTransform(db, promoted, InUse), picks.signature, true, "autopromote_active");
        forall i | i in db.transforms && db.transforms[i].accountId == accountId && db.transforms[i].typeKey == typeKey
          ensures promoted == Some(i) || db.transforms[i].stage == Pending
        {
          assert HasStage(db, accountId, typeKey, db.transforms[i].stage, i);
        }
        MoveKeepsStages(db, after, promoted, InUse, moved);
      } else {
        MoveKeepsStages(db, after, None, Pending, db);
      }
    }
  }

  // ---- Runs ----------------------------------------------------------------

  /** One call of Resolve: its account, the fingerprint taken, and what came from outside. */
  datatype Call = Call(accountId: string, fp: PayloadFingerprint, headers: map<string, string>, oracle: Oracle, choice: Choice)

  function Next(cfg: Promotion.Config, db: Db, call: Call): Db {
    Resolved(Some(cfg), db, call.accountId, call.fp, call.headers, call.oracle, call.choice).0
  }

  ghost predicate Allowed(cfg: Promotion.Config, db: Db, call: Call) {
    && PlainAccount(call.accountId) && FreshIds(db, call.oracle)
    && ChoiceAllowed(Some(cfg), db, call.accountId, call.fp, call.headers, call.oracle, call.choice)
  }

  function After(cfg: Promotion.Config, db: Db, calls: seq<Call>): Db {
    if calls == [] then db else Next(cfg, After(cfg, db, calls[..|calls| - 1]), calls[|calls| - 1])
  }

  ghost predicate AllowedRun(cfg: Promotion.Config, db: Db, calls: seq<Call>) {
    calls != [] ==>
      && AllowedRun(cfg, db, calls[..|calls| - 1])
      && Allowed(cfg, After(cfg, db, calls[..|calls| - 1]), calls[|calls| - 1])
  }

  lemma PersistKeepsStages(db: Db, accountId: string, typeKey: string, template: map<string, Json>,
                           fp: PayloadFingerprint, o: Oracle)
    requires StagesConsistent(db) && PlainAccount(accountId) && FreshIds(db, o)
    ensures var next := Persisted(db, accountId, typeKey, template, fp, o);
            StagesConsistent(next) && Forward(db, next)
  {
  }

  /** What a call that is answered from signatures does to the store. */
  lemma NextOnHit(cfg: Promotion.Config, db: Db, call: Call)
    requires Allowed(cfg, db, call) && BestMatch(db, call.choice.best, call.fp, call.headers).Some?
    ensures var hit := BestMatch(db, call.choice.best, call.fp, call.headers).value;
            && Next(cfg, db, call) == ObservedHit(cfg, db, call.accountId, hit.typeKey, hit.confidence, "signature match", call.choice.picks)
            && HitPicks(cfg, db, call.accountId, hit.typeKey, call.choice.picks)
  {
    hide BestMatch, BestAllowed, HitPicks, CandidatePicks, ObservedHit;
  }

  function ReasonOf(o: Oracle): string {
    if Agree(o) then "groq and cerebras agreement" else o.report
  }

  /** And one that consults the classifiers: nothing, or a stored candidate that is observed. */
  lemma NextOnMiss(cfg: Promotion.Config, db: Db, call: Call)
    requires Allowed(cfg, db, call) && BestMatch(db, call.choice.best, call.fp, call.headers).None?
    ensures if Learns(call.oracle) then
              var c := Chosen(call.oracle);
              var stored := Persisted(db, call.accountId, c.0, c.2, call.fp, call.oracle);
              && Next(cfg, db, call)
                 == ObservedCandidate(cfg, stored, call.accountId, c.0, c.1, ReasonOf(call.oracle), call.choice.picks)
              && CandidatePicks(cfg, stored, call.accountId, c.0, c.1, ReasonOf(call.oracle), call.choice.picks)
            else Next(cfg, db, call) == db
  {
    hide BestMatch, BestAllowed, HitPicks, CandidatePicks, ObservedCandidate, Persisted, Chosen, Agree;
  }

  lemma CallKeepsStages(cfg: Promotion.Config, db: Db, call: Call)
    requires cfg.minSuccessRate <= 1.0 && StagesConsistent(db) && Allowed(cfg, db, call)
    ensures StagesConsistent(Next(cfg, db, call)) && Forward(db, Next(cfg, db, call))
  {
    AllowedPlain(cfg, db, call);
    ForwardReflexive(db);
    hide *;
    var o, hit := call.oracle, BestMatch(db, call.choice.best, call.fp, call.headers);
    if hit.Some? {
      NextOnHit(cfg, db, call);
      HitKeepsStages(cfg, db, call.accountId, hit.value.typeKey, hit.value.confidence, "signature match", call.choice.picks);
    } else {
      NextOnMiss(cfg, db, call);
      if Learns(o) {
        LearnsAnswered(o);
        var c := Chosen(o);
        var stored := Persisted(db, call.accountId, c.0, c.2, call.fp, o);
        PersistKeepsStages(db, call.accountId, c.0, c.2, call.fp, o);
        CandidateKeepsStages(cfg, stored, call.accountId, c.0, c.1, ReasonOf(o), call.choice.picks);
        ForwardTransitive(db, stored, Next(cfg, db, call));
      }
    }
  }

  lemma LearnsAnswered(o: Oracle)
    requires Learns(o)
    ensures o.groq.Answered? && o.cerebras.Answered?
  {
  }

  lemma AllowedPlain(cfg: Promotion.Config, db: Db, call: Call)
    requires Allowed(cfg, db, call)
    ensures PlainAccount(call.accountId) && FreshIds(db, call.oracle)
  {
    hide ChoiceAllowed;
  }

  lemma ForwardReflexive(db: Db)
    ensures Forward(db, db)
  {
  }

  lemma ForwardTransitive(a: Db, b: Db, c: Db)
    requires Forward(a, b) && Forward(b, c)
    ensures Forward(a, c)
  {
  }

  /** Over every run, by any accounts on any payloads, transforms and states stay in step and move on. */
  lemma {:induction false} RunKeepsStages(cfg: Promotion.Config, db: Db, calls: seq<Call>)
    requires cfg.minSuccessRate <= 1.0 && StagesConsistent(db) && AllowedRun(cfg, db, calls)
    ensures StagesConsistent(After(cfg, db, calls)) && Forward(db, After(cfg, db, calls))
  {
    hide StagesConsistent, Allowed, Next;
    if calls != [] {
      var init := calls[..|calls| - 1];
      RunKeepsStages(cfg, db, init);
      CallKeepsStages(cfg, After(cfg, db, init), calls[|calls| - 1]);
    }
  }

  /** In particular Apply finds no transform, and returns the payload as it is, until the type is active. */
  lemma UntouchedUntilActive(cfg: Promotion.Config, calls: seq<Call>, accountId: string, typeKey: string, pick: Option<Id>)
    requires cfg.minSuccessRate <= 1.0 && AllowedRun(cfg, Db(map[], map[], map[]), calls)
    requires LatestTransform(After(cfg, Db(map[], map[], map[]), calls), accountId, typeKey, InUse, pick)
    requires StatusOf(After(cfg, Db(map[], map[], map[]), calls), accountId, typeKey) != Promotion.Active
    ensures pick == None
  {
    RunKeepsStages(cfg, Db(map[], map[], map[]), calls);
  }
}
