/**
 Observations that overlap (internal/service/autopromote.go:30-109). Nothing locks a type
 between the call that loads its state and the calls that write it back, so another
 observation of the type may come in between. Loading is one step here, and everything after
 it another.
 */
module Overlaps {
  import opened Text
  import opened Json
  import opened Keys
  import opened Fingerprint
  import opened Scoring
  import opened Learning
  import Resolver
  import opened Stages
  import opened PromotionRuns
  import opened LearningLoop
  import Walking
  import P = Promotion

  /** One call of the promoter. */
  datatype Notice =
    | OfCandidate(accountId: string, rawTypeKey: string, confidence: real, reason: string)
    | OfHit(accountId: string, typeKey: string, confidence: real, reason: string)

  datatype Event = Load(call: nat) | Commit(call: nat, picks: Picks)

  /** The store, and what each call that goes on has loaded. */
  datatype World = World(db: Db, loaded: map<nat, P.AutoState>)

  /** The record a call goes on with; None when it ends with the load. */
  function LoadedBy(cfg: P.Config, db: Db, n: Notice): Option<P.AutoState> {
    match n
    case OfCandidate(a, raw, _, _) => if IgnoresCandidate(cfg, raw) then None else Some(LoadState(db, a, TrimSpace(raw)))
    case OfHit(a, t, _, _) => if IgnoresHit(cfg, db, a, t) then None else Some(db.autoStates[StateKey(a, t)])
  }

  function After(cfg: P.Config, st: P.AutoState, n: Notice): P.AutoState {
    if n.OfCandidate? then P.AfterCandidate(cfg, st, n.confidence, n.reason) else P.AfterHit(cfg, st, n.confidence, n.reason)
  }

  function Promoted(picks: Picks): Option<Id> {
    if picks.shadowTransform.Some? then picks.shadowTransform else picks.pendingTransform
  }

  /** What the rest of the call does to signatures and transforms. */
  function Touched(cfg: P.Config, db: Db, st: P.AutoState, n: Notice, picks: Picks): Db {
    if n.OfCandidate? then
      if P.EntersShadow(cfg, st, n.confidence, n.reason)
      then MoveTransform(EnableSignature(db, picks.signature, true, "autopromote_shadow"), picks.pendingTransform, InShadow)
      else db
    else if P.Activates(cfg, st) then
      EnableSignature(MoveTransform(db, Promoted(picks), InUse), picks.signature, true, "autopromote_active")
    else if P.RollsBack(cfg, st) then
      MoveTransform(EnableSignature(db, picks.signature, false, "autopromote_rollback"), picks.shadowTransform, Pending)
    else db
  }

  /** The rest of the call, with the state as it was loaded. */
  function Committed(cfg: P.Config, db: Db, st: P.AutoState, n: Notice, picks: Picks): Db {
    Upserted(Touched(cfg, db, st, n, picks), After(cfg, st, n))
  }

  function Happens(cfg: P.Config, calls: seq<Notice>, w: World, e: Event): World {
    if e.call >= |calls| then w
    else match e
      case Load(i) =>
        var st := LoadedBy(cfg, w.db, calls[i]);
        if st.Some? then w.(loaded := w.loaded[i := st.value]) else w
      case Commit(i, picks) => if i in w.loaded then w.(db := Committed(cfg, w.db, w.loaded[i], calls[i], picks)) else w
  }

  function AfterEvents(cfg: P.Config, calls: seq<Notice>, db: Db, events: seq<Event>): World {
    if events == [] then World(db, map[])
    else Happens(cfg, calls, AfterEvents(cfg, calls, db, events[..|events| - 1]), events[|events| - 1])
  }

  // ---- Undisturbed observations --------------------------------------------

  predicate Commits(calls: seq<Notice>, w: World, e: Event) {
    e.Commit? && e.call < |calls| && e.call in w.loaded
  }

  /** A call that commits would load the same record now. */
  predicate Undisturbed(cfg: P.Config, calls: seq<Notice>, w: World, e: Event) {
    Commits(calls, w, e) ==> LoadedBy(cfg, w.db, calls[e.call]) == Some(w.loaded[e.call])
  }

  predicate AllUndisturbed(cfg: P.Config, calls: seq<Notice>, db: Db, events: seq<Event>) {
    events != [] ==>
      var init := events[..|events| - 1];
      AllUndisturbed(cfg, calls, db, init) && Undisturbed(cfg, calls, AfterEvents(cfg, calls, db, init), events[|events| - 1])
  }

  function SeenAs(n: Notice, picks: Picks): Seen {
    match n
    case OfCandidate(a, raw, c, r) => SawCandidate(a, raw, c, r, picks)
    case OfHit(a, t, c, r) => SawHit(a, t, c, r, picks)
  }

  /** The observations in the order in which they are committed. */
  function InOrderOfCommit(cfg: P.Config, calls: seq<Notice>, db: Db, events: seq<Event>): seq<Seen> {
    if events == [] then []
    else
      var init, e := events[..|events| - 1], events[|events| - 1];
      var before := InOrderOfCommit(cfg, calls, db, init);
      if Commits(calls, AfterEvents(cfg, calls, db, init), e) then before + [SeenAs(calls[e.call], e.picks)] else before
  }

  lemma CommitIsObservation(cfg: P.Config, calls: seq<Notice>, w: World, e: Event)
    requires Commits(calls, w, e) && Undisturbed(cfg, calls, w, e)
    ensures Happens(cfg, calls, w, e).db == Observed(cfg, w.db, SeenAs(calls[e.call], e.picks))
  {
    hide IgnoresCandidate, IgnoresHit, EnableSignature, MoveTransform, Upserted, LoadState, TrimSpace, StateKey;
  }

  lemma OthersKeepDb(cfg: P.Config, calls: seq<Notice>, w: World, e: Event)
    requires !Commits(calls, w, e)
    ensures Happens(cfg, calls, w, e).db == w.db
  {
    hide LoadedBy, Committed;
  }

  lemma EventsUnfold(cfg: P.Config, calls: seq<Notice>, db: Db, init: seq<Event>, e: Event)
    ensures AfterEvents(cfg, calls, db, init + [e]) == Happens(cfg, calls, AfterEvents(cfg, calls, db, init), e)
  {
    assert (init + [e])[..|init|] == init;
    hide Happens;
  }

  lemma CommitsUnfold(cfg: P.Config, calls: seq<Notice>, db: Db, init: seq<Event>, e: Event)
    ensures var before := InOrderOfCommit(cfg, calls, db, init);
            AfterAll(cfg, db, InOrderOfCommit(cfg, calls, db, init + [e])) ==
            if Commits(calls, AfterEvents(cfg, calls, db, init), e)
            then Observed(cfg, AfterAll(cfg, db, before), SeenAs(calls[e.call], e.picks))
            else AfterAll(cfg, db, before)
  {
    assert (init + [e])[..|init|] == init;
    var before := InOrderOfCommit(cfg, calls, db, init);
    if Commits(calls, AfterEvents(cfg, calls, db, init), e) {
      var s := SeenAs(calls[e.call], e.picks);
      AfterGrows(cfg, db, before + [s]);
      assert (before + [s])[..|before|] == before;
    }
    hide AfterEvents, Observed, AfterAll, SeenAs;
  }

  /** While no type changes between load and commit, overlapping observations do what they do one after the other. */
  lemma {:induction false} UndisturbedIsSequential(cfg: P.Config, calls: seq<Notice>, db: Db, events: seq<Event>)
    requires AllUndisturbed(cfg, calls, db, events)
    ensures AfterEvents(cfg, calls, db, events).db == AfterAll(cfg, db, InOrderOfCommit(cfg, calls, db, events))
  {
    if events != [] {
      var init, e := events[..|events| - 1], events[|events| - 1];
      assert events == init + [e];
      UndisturbedIsSequential(cfg, calls, db, init);
      EventsUnfold(cfg, calls, db, init, e);
      CommitsUnfold(cfg, calls, db, init, e);
      var w := AfterEvents(cfg, calls, db, init);
      hide AfterEvents, AfterAll, InOrderOfCommit, Happens, Observed, Undisturbed, SeenAs;
      if Commits(calls, w, e) {
        CommitIsObservation(cfg, calls, w, e);
      } else {
        OthersKeepDb(cfg, calls, w, e);
      }
    }
  }

  // ---- When a disturbed commit does harm -------------------------------------

  /** A record the call may have loaded at some time. */
  predicate Loadable(st: P.AutoState, n: Notice) {
    PlainAccount(st.accountId) && st.shadowTotal == st.shadowSuccess && st.shadowTotal >= 0 && (n.OfHit? ==> st.status == P.Shadow)
  }

  /** The picks are outcomes of the queries for transforms that the commit makes. */
  ghost predicate PicksOf(cfg: P.Config, db: Db, st: P.AutoState, n: Notice, picks: Picks) {
    if n.OfCandidate? then
      P.EntersShadow(cfg, st, n.confidence, n.reason) ==>
        LatestTransform(db, st.accountId, st.typeKey, Pending, picks.pendingTransform)
    else
      P.Decides(cfg, st) ==>
        && LatestTransform(db, st.accountId, st.typeKey, InShadow, picks.shadowTransform)
        && (picks.shadowTransform.None? ==> LatestTransform(db, st.accountId, st.typeKey, Pending, picks.pendingTransform))
  }

  /** The transform the commit moves, and where to. */
  function MoveOf(cfg: P.Config, st: P.AutoState, n: Notice, picks: Picks): (Option<Id>, Stage) {
    if n.OfCandidate? then
      if P.EntersShadow(cfg, st, n.confidence, n.reason) then (picks.pendingTransform, InShadow) else (None, Pending)
    else if P.Activates(cfg, st) then (Promoted(picks), InUse)
    else if P.RollsBack(cfg, st) then (picks.shadowTransform, Pending)
    else (None, Pending)
  }

  /**
   What the transforms of the type must be for the commit. A candidate that enters shadow needs
   none active, and none in shadow if it moves one there; another candidate only such as its
   record's status allows. A hit needs none active, unless it activates the type and has
   nothing to move.
   */
  predicate Harmless(cfg: P.Config, db: Db, st: P.AutoState, n: Notice, picks: Picks) {
    var shadow, active := SomeStage(db, st.accountId, st.typeKey, InShadow), SomeStage(db, st.accountId, st.typeKey, InUse);
    if n.OfCandidate? then
      if P.EntersShadow(cfg, st, n.confidence, n.reason) then !active && (picks.pendingTransform.Some? ==> !shadow)
      else (shadow ==> st.status == P.Shadow) && (active ==> st.status == P.Active)
    else !active || (P.Activates(cfg, st) && Promoted(picks).None?)
  }

  lemma TouchedMoves(cfg: P.Config, db: Db, st: P.AutoState, n: Notice, picks: Picks)
    ensures var (pick, stage) := MoveOf(cfg, st, n, picks);
            Touched(cfg, db, st, n, picks).transforms == MoveTransform(db, pick, stage).transforms
            && Touched(cfg, db, st, n, picks).autoStates == db.autoStates
  {
    hide P.EntersShadow, P.Activates, P.RollsBack;
  }

  /** A commit, however stale its record, keeps transforms and states in step if and only if it is harmless. */
  lemma CommitKeepsStagesIff(cfg: P.Config, db: Db, st: P.AutoState, n: Notice, picks: Picks)
    requires StagesConsistent(db) && Loadable(st, n) && PicksOf(cfg, db, st, n, picks)
    ensures StagesConsistent(Committed(cfg, db, st, n, picks)) <==> Harmless(cfg, db, st, n, picks)
  {
    var (pick, stage) := MoveOf(cfg, st, n, picks);
    AfterSound(cfg, st, n);
    PickOfType(cfg, db, st, n, picks);
    TouchedMoves(cfg, db, st, n, picks);
    if n.OfCandidate? {
      CandidateHarmless(cfg, db, st, n, picks);
    } else {
      HitHarmless(cfg, db, st, n, picks);
    }
    hide *;
    MoveExact(db, After(cfg, st, n), pick, stage, Touched(cfg, db, st, n, picks));
    CommittedIs(cfg, db, st, n, picks);
  }

  lemma CommittedIs(cfg: P.Config, db: Db, st: P.AutoState, n: Notice, picks: Picks)
    ensures Committed(cfg, db, st, n, picks) == Upserted(Touched(cfg, db, st, n, picks), After(cfg, st, n))
  {
    hide Upserted, Touched, After;
  }

  lemma AfterSound(cfg: P.Config, st: P.AutoState, n: Notice)
    requires Loadable(st, n)
    ensures var after := After(cfg, st, n);
            RecordSound(after) && after.accountId == st.accountId && after.typeKey == st.typeKey
  {
    hide PlainAccount, TrimSpace;
  }

  lemma PickOfType(cfg: P.Config, db: Db, st: P.AutoState, n: Notice, picks: Picks)
    requires PicksOf(cfg, db, st, n, picks)
    ensures OfType(db, st.accountId, st.typeKey, MoveOf(cfg, st, n, picks).0)
  {
    hide P.EntersShadow, P.SuccessRate;
  }

  /** The stages that occur among the type's transforms. */
  lemma OwnStage(db: Db, accountId: string, typeKey: string, i: Id)
    requires i in db.transforms && db.transforms[i].accountId == accountId && db.transforms[i].typeKey == typeKey
    ensures SomeStage(db, accountId, typeKey, db.transforms[i].stage)
  {
    assert HasStage(db, accountId, typeKey, db.transforms[i].stage, i);
  }

  lemma StageWitness(db: Db, accountId: string, typeKey: string, stage: Stage) returns (i: Id)
    requires SomeStage(db, accountId, typeKey, stage)
    ensures i in db.transforms && db.transforms[i].accountId == accountId && db.transforms[i].typeKey == typeKey
    ensures db.transforms[i].stage == stage
  {
    i :| i in db.transforms && HasStage(db, accountId, typeKey, stage, i);
  }

  lemma CandidateHarmless(cfg: P.Config, db: Db, st: P.AutoState, n: Notice, picks: Picks)
    requires n.OfCandidate? && Loadable(st, n) && PicksOf(cfg, db, st, n, picks)
    ensures var (pick, stage) := MoveOf(cfg, st, n, picks);
            MoveFits(db, st.accountId, st.typeKey, After(cfg, st, n).status, pick, stage) <==> Harmless(cfg, db, st, n, picks)
  {
    var (pick, stage) := MoveOf(cfg, st, n, picks);
    var a, t, status := st.accountId, st.typeKey, After(cfg, st, n).status;
    hide SomeStage, HasStage, PlainAccount;
    if Harmless(cfg, db, st, n, picks) {
      forall i | i in db.transforms && db.transforms[i].accountId == a && db.transforms[i].typeKey == t
        ensures if pick == Some(i) then StageFits(db.transforms[i].(stage := stage), status)
                else StageFits(db.transforms[i], status) && (pick.Some? && stage != Pending ==> db.transforms[i].stage != stage)
      {
        OwnStage(db, a, t, i);
      }
    }
    if MoveFits(db, a, t, status, pick, stage) {
      if SomeStage(db, a, t, InUse) {
        var i := StageWitness(db, a, t, InUse);
        PendingPick(db, a, t, picks, i);
      }
      if SomeStage(db, a, t, InShadow) {
        var i := StageWitness(db, a, t, InShadow);
        PendingPick(db, a, t, picks, i);
      }
    }
  }

  lemma PendingPick(db: Db, accountId: string, typeKey: string, picks: Picks, i: Id)
    requires i in db.transforms && db.transforms[i].stage != Pending
    ensures LatestTransform(db, accountId, typeKey, Pending, picks.pendingTransform) ==> picks.pendingTransform != Some(i)
  {
  }

  lemma HitHarmless(cfg: P.Config, db: Db, st: P.AutoState, n: Notice, picks: Picks)
    requires n.OfHit? && Loadable(st, n) && PicksOf(cfg, db, st, n, picks) && StagesConsistent(db)
    ensures var (pick, stage) := MoveOf(cfg, st, n, picks);
            MoveFits(db, st.accountId, st.typeKey, After(cfg, st, n).status, pick, stage) <==> Harmless(cfg, db, st, n, picks)
  {
    var (pick, stage) := MoveOf(cfg, st, n, picks);
    var a, t, status := st.accountId, st.typeKey, After(cfg, st, n).status;
    ConsistentOne(db);
    hide SomeStage, PlainAccount, P.SuccessRate, StagesConsistent, OnePerStage;
    if Harmless(cfg, db, st, n, picks) {
      forall i | i in db.transforms && db.transforms[i].accountId == a && db.transforms[i].typeKey == t
        ensures if pick == Some(i) then StageFits(db.transforms[i].(stage := stage), status)
                else StageFits(db.transforms[i], status) && (pick.Some? && stage != Pending ==> db.transforms[i].stage != stage)
      {
        OwnStage(db, a, t, i);
        ShadowPicked(db, a, t, picks, i);
      }
    }
    if MoveFits(db, a, t, status, pick, stage) && SomeStage(db, a, t, InUse) {
      var i := StageWitness(db, a, t, InUse);
      assert pick != Some(i);
    }
  }

  lemma ConsistentOne(db: Db)
    requires StagesConsistent(db)
    ensures OnePerStage(db.transforms)
  {
    hide StatesSound, Fits, OnePerStage;
  }

  /** The one transform in shadow is the one the query finds. */
  lemma ShadowPicked(db: Db, accountId: string, typeKey: string, picks: Picks, i: Id)
    requires OnePerStage(db.transforms)
    requires i in db.transforms && db.transforms[i].accountId == accountId && db.transforms[i].typeKey == typeKey
    ensures LatestTransform(db, accountId, typeKey, InShadow, picks.shadowTransform) && db.transforms[i].stage == InShadow ==>
              picks.shadowTransform == Some(i)
  {
    assert db.transforms[i].stage == InShadow ==> HasStage(db, accountId, typeKey, InShadow, i);
  }

  // ---- Two that disturb each other -----------------------------------------

  function EagerConfig(): P.Config {
    P.Config(true, 0.5, 1, 1, 1.0, {})
  }

  function OrderSeen(): Notice {
    OfCandidate("acct", "order", 0.9, "")
  }

  function OrderHit(): Notice {
    OfHit("acct", "order", 0.9, "signature match")
  }

  /** The template extracts the payload's one field. */
  function TemplateText(): map<string, Json> {
    map["extract" := JObject(map["a" := JString("$.a")])]
  }

  function Template(stage: Stage): Transform {
    Transform("acct", "order", 1, "dsl", TemplateText(), stage)
  }

  function Learned(at: nat, enabled: bool, source: string): Signature {
    Signature("acct", "order", OneFieldPrint().keyPaths, OneFieldPrint().shapes, map[], 0.8, enabled, source, at)
  }

  /** The store after two deliveries of one payload were classified at the same time. */
  function BothStored(): Db {
    Db(map[0 := Learned(0, false, "llm_candidate"), 1 := Learned(1, false, "llm_candidate")],
       map[0 := Template(Pending), 1 := Template(Pending)],
       map[])
  }

  function Agreement(at: nat): Resolver.Oracle {
    var answer := Resolver.Answered("order", 0.9, TemplateText());
    Resolver.Oracle(answer, answer, "", at, at, at)
  }

  /** That is what the resolver stores for them from nothing, before either is observed. */
  lemma BothStoredReached()
    ensures Walking.Fingerprints(OneField(), OneFieldPrint())
    ensures BothStored() ==
            Resolver.Persisted(
              Resolver.Persisted(Db(map[], map[], map[]), "acct", "order", TemplateText(), OneFieldPrint(), Agreement(0)),
              "acct", "order", TemplateText(), OneFieldPrint(), Agreement(1))
  {
    OneFieldPrinted(OneField(), OneFieldPrint());
    assert "extract" in TemplateText();
  }

  /** After the first commit of a candidate, and after the second. */
  function OneShadow(): Db {
    Db(map[0 := Learned(0, false, "llm_candidate"), 1 := Learned(1, true, "autopromote_shadow")],
       map[0 := Template(InShadow), 1 := Template(Pending)],
       map[StateKey("acct", "order") := InShadowState()])
  }

  function TwoShadows(): Db {
    OneShadow().(transforms := map[0 := Template(InShadow), 1 := Template(InShadow)])
  }

  /** After the first commit of a hit, and after the second. */
  function OneActive(): Db {
    Db(map[0 := Learned(0, false, "llm_candidate"), 1 := Learned(1, true, "autopromote_active")],
       map[0 := Template(InUse), 1 := Template(Pending)],
       map[StateKey("acct", "order") := ActiveState()])
  }

  function TwoActive(): Db {
    OneActive().(transforms := map[0 := Template(InUse), 1 := Template(InUse)])
  }

  function InShadowState(): P.AutoState {
    P.AutoState("acct", "order", P.Shadow, 0, 0, 0, 0.9, "")
  }

  function ActiveState(): P.AutoState {
    P.AutoState("acct", "order", P.Active, 0, 1, 1, 0.9, "signature match")
  }

  /** Both calls load before either commits. */
  function Race(first: Picks, second: Picks): seq<Event> {
    [Load(0)] + [Load(1)] + [Commit(0, first)] + [Commit(1, second)]
  }

  /** The picks of the four commits. */
  const CANDIDATE1 := Picks(Some(1), None, Some(0))
  const CANDIDATE2 := Picks(Some(1), None, Some(1))
  const HIT1 := Picks(Some(1), Some(0), None)
  const HIT2 := Picks(Some(1), None, Some(1))

  lemma RaceUnfolds(calls: seq<Notice>, db: Db, st: P.AutoState, first: Picks, second: Picks)
    requires |calls| == 2 && LoadedBy(EagerConfig(), db, calls[0]) == LoadedBy(EagerConfig(), db, calls[1]) == Some(st)
    ensures AfterEvents(EagerConfig(), calls, db, Race(first, second)).db
            == Committed(EagerConfig(), Committed(EagerConfig(), db, st, calls[0], first), st, calls[1], second)
  {
    var cfg := EagerConfig();
    EventsUnfold(cfg, calls, db, [], Load(0));
    EventsUnfold(cfg, calls, db, [Load(0)], Load(1));
    EventsUnfold(cfg, calls, db, [Load(0)] + [Load(1)], Commit(0, first));
    EventsUnfold(cfg, calls, db, [Load(0)] + [Load(1)] + [Commit(0, first)], Commit(1, second));
    assert [] + [Load(0)] == [Load(0)];
    assert AfterEvents(cfg, calls, db, []) == World(db, map[]);
    hide AfterEvents, Committed, LoadedBy;
  }

  lemma PicksAllowed()
    ensures LatestCandidate(BothStored(), "acct", "order", Some(1)) && LatestTransform(BothStored(), "acct", "order", Pending, Some(0))
    ensures LatestCandidate(OneShadow(), "acct", "order", Some(1)) && LatestTransform(OneShadow(), "acct", "order", Pending, Some(1))
    ensures LatestTransform(OneShadow(), "acct", "order", InShadow, Some(0))
    ensures LatestCandidate(OneActive(), "acct", "order", Some(1)) && LatestTransform(OneActive(), "acct", "order", Pending, Some(1))
    ensures LatestTransform(OneActive(), "acct", "order", InShadow, None)
  {
    SourcesAreCandidates();
    hide CandidateSource;
  }

  lemma CandidateLoads()
    ensures LoadedBy(EagerConfig(), BothStored(), OrderSeen()) == Some(P.NewState("acct", "order"))
    ensures P.EntersShadow(EagerConfig(), P.NewState("acct", "order"), 0.9, "")
    ensures After(EagerConfig(), P.NewState("acct", "order"), OrderSeen()) == InShadowState()
  {
    TrimSpaceFixes("order");
    TrimSpaceFixes("");
    hide StateKey, TrimSpace, ToLower;
  }

  lemma HitLoads()
    ensures LoadedBy(EagerConfig(), OneShadow(), OrderHit()) == Some(InShadowState())
    ensures P.Activates(EagerConfig(), InShadowState())
    ensures After(EagerConfig(), InShadowState(), OrderHit()) == ActiveState()
  {
    hide StateKey, TrimSpace, ToLower;
  }

  lemma FirstCandidate()
    ensures Committed(EagerConfig(), BothStored(), P.NewState("acct", "order"), OrderSeen(), CANDIDATE1) == OneShadow()
  {
    CandidateLoads();
    hide StateKey, After, P.EntersShadow;
    var moved := Touched(EagerConfig(), BothStored(), P.NewState("acct", "order"), OrderSeen(), CANDIDATE1);
    assert moved.signatures == OneShadow().signatures && moved.transforms == OneShadow().transforms;
  }

  lemma SecondCandidate()
    ensures Committed(EagerConfig(), OneShadow(), P.NewState("acct", "order"), OrderSeen(), CANDIDATE2) == TwoShadows()
  {
    CandidateLoads();
    hide StateKey, After, P.EntersShadow;
    var moved := Touched(EagerConfig(), OneShadow(), P.NewState("acct", "order"), OrderSeen(), CANDIDATE2);
    assert moved.signatures == OneShadow().signatures && moved.transforms == TwoShadows().transforms;
  }

  lemma FirstHit()
    ensures Committed(EagerConfig(), OneShadow(), InShadowState(), OrderHit(), HIT1) == OneActive()
  {
    HitLoads();
    hide StateKey, After, P.Activates;
    var moved := Touched(EagerConfig(), OneShadow(), InShadowState(), OrderHit(), HIT1);
    assert moved.signatures == OneActive().signatures && moved.transforms == OneActive().transforms;
  }

  lemma SecondHit()
    ensures Committed(EagerConfig(), OneActive(), InShadowState(), OrderHit(), HIT2) == TwoActive()
  {
    HitLoads();
    hide StateKey, After, P.Activates;
    var moved := Touched(EagerConfig(), OneActive(), InShadowState(), OrderHit(), HIT2);
    assert moved.signatures == OneActive().signatures && moved.transforms == TwoActive().transforms;
  }

  lemma NotOne(db: Db, stage: Stage)
    requires stage != Pending && db.transforms == map[0 := Template(stage), 1 := Template(stage)]
    ensures HasStage(db, "acct", "order", stage, 0) && HasStage(db, "acct", "order", stage, 1) && !StagesConsistent(db)
  {
    hide StateKey, StatesSound, Fits;
    assert SameType(db.transforms[0], db.transforms[1]);
    assert !OnePerStage(db.transforms);
  }

  /** Two candidates that both load before either commits leave two transforms of one type in shadow. */
  lemma CandidatesRace()
    ensures AfterEvents(EagerConfig(), [OrderSeen(), OrderSeen()], BothStored(), Race(CANDIDATE1, CANDIDATE2)).db == TwoShadows()
    ensures HasStage(TwoShadows(), "acct", "order", InShadow, 0) && HasStage(TwoShadows(), "acct", "order", InShadow, 1)
    ensures !StagesConsistent(TwoShadows())
  {
    CandidateLoads();
    RaceUnfolds([OrderSeen(), OrderSeen()], BothStored(), P.NewState("acct", "order"), CANDIDATE1, CANDIDATE2);
    FirstCandidate();
    SecondCandidate();
    NotOne(TwoShadows(), InShadow);
    hide *;
  }

  /** Two hits that do leave two of them active: the second finds none in shadow and activates one that is pending. */
  lemma HitsRace()
    ensures AfterEvents(EagerConfig(), [OrderHit(), OrderHit()], OneShadow(), Race(HIT1, HIT2)).db == TwoActive()
    ensures HasStage(TwoActive(), "acct", "order", InUse, 0) && HasStage(TwoActive(), "acct", "order", InUse, 1)
    ensures !StagesConsistent(TwoActive())
  {
    HitLoads();
    RaceUnfolds([OrderHit(), OrderHit()], OneShadow(), InShadowState(), HIT1, HIT2);
    FirstHit();
    SecondHit();
    NotOne(TwoActive(), InUse);
    hide *;
  }

  /** In both races each commit picks what its queries find at the time. */
  lemma RacesAreReal()
    ensures PicksOf(EagerConfig(), BothStored(), P.NewState("acct", "order"), OrderSeen(), CANDIDATE1)
    ensures PicksOf(EagerConfig(), OneShadow(), P.NewState("acct", "order"), OrderSeen(), CANDIDATE2)
    ensures PicksOf(EagerConfig(), OneShadow(), InShadowState(), OrderHit(), HIT1)
    ensures PicksOf(EagerConfig(), OneActive(), InShadowState(), OrderHit(), HIT2)
    ensures forall db | db in {BothStored(), OneShadow(), OneActive()} :: LatestCandidate(db, "acct", "order", Some(1))
  {
    PicksAllowed();
    hide LatestTransform, LatestCandidate, P.EntersShadow, P.Decides;
  }
}
