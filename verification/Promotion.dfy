/**
 The promotion protocol of internal/service/autopromote.go as a machine on one state record:
 validated, then shadow after enough confident candidates, then active after enough hits.
 */
module Promotion {
  import opened Text

  datatype Status = Unset | Validated | Shadow | Active

  datatype AutoState = AutoState(
    accountId: string,
    typeKey: string,
    status: Status,
    validatedCount: int,
    shadowTotal: int,
    shadowSuccess: int,
    lastConfidence: real,
    lastReason: string)

  datatype Config = Config(
    enabled: bool,
    minConfidence: real,
    validatedToShadow: int,
    shadowToActive: int,
    minSuccessRate: real,
    deterministicOnly: set<string>)

  function MaxInt(a: int, b: int): int {
    if a > b then a else b
  }

  /** How many confident candidates, and then how many hits, a type needs. */
  function CandidatesNeeded(cfg: Config): (k: nat)
    ensures k >= 1
  {
    MaxInt(cfg.validatedToShadow, 1)
  }

  function HitsNeeded(cfg: Config): (m: nat)
    ensures m >= 1
  {
    MaxInt(cfg.shadowToActive, 1)
  }

  function NewState(accountId: string, typeKey: string): AutoState {
    AutoState(accountId, typeKey, Validated, 0, 0, 0, 0.0, "")
  }

  /** The record before the threshold is looked at. */
  function Counted(cfg: Config, st: AutoState, confidence: real, reason: string): AutoState {
    st.(lastConfidence := confidence,
        lastReason := TrimSpace(reason),
        status := if st.status == Unset then Validated else st.status,
        validatedCount := st.validatedCount + if confidence >= cfg.minConfidence then 1 else 0)
  }

  predicate EntersShadow(cfg: Config, st: AutoState, confidence: real, reason: string) {
    var c := Counted(cfg, st, confidence, reason);
    c.status == Validated && c.validatedCount >= CandidatesNeeded(cfg)
  }

  function AfterCandidate(cfg: Config, st: AutoState, confidence: real, reason: string): AutoState {
    var c := Counted(cfg, st, confidence, reason);
    if EntersShadow(cfg, st, confidence, reason)
    then c.(status := Shadow, shadowTotal := 0, shadowSuccess := 0, validatedCount := 0)
    else c
  }

  function Hit(st: AutoState, confidence: real, reason: string): AutoState {
    st.(shadowTotal := st.shadowTotal + 1, shadowSuccess := st.shadowSuccess + 1,
        lastConfidence := confidence, lastReason := reason)
  }

  predicate Decides(cfg: Config, st: AutoState) {
    st.status == Shadow && st.shadowTotal + 1 >= HitsNeeded(cfg)
  }

  function SuccessRate(st: AutoState): real {
    st.shadowSuccess as real / MaxInt(st.shadowTotal, 1) as real
  }

  predicate Activates(cfg: Config, st: AutoState) {
    Decides(cfg, st) && SuccessRate(Hit(st, 0.0, "")) >= cfg.minSuccessRate
  }

  predicate RollsBack(cfg: Config, st: AutoState) {
    Decides(cfg, st) && SuccessRate(Hit(st, 0.0, "")) < cfg.minSuccessRate
  }

  function AfterHit(cfg: Config, st: AutoState, confidence: real, reason: string): AutoState {
    if st.status != Shadow then st
    else
      var h := Hit(st, confidence, reason);
      if Activates(cfg, st) then h.(status := Active)
      else if RollsBack(cfg, st) then h.(status := Validated, validatedCount := 0, shadowTotal := 0, shadowSuccess := 0)
      else h
  }

  // ---- The closed form -----------------------------------------------------

  /** What the promoter sees of one type, in order. */
  datatype Observation = Candidate(confidence: real, reason: string) | DeterministicHit(confidence: real, reason: string)

  function Observe(cfg: Config, st: Option<AutoState>, o: Observation): Option<AutoState> {
    match o
    case Candidate(c, r) => Some(AfterCandidate(cfg, if st.Some? then st.value else NewState("", ""), c, r))
    case DeterministicHit(c, r) => if st.Some? then Some(AfterHit(cfg, st.value, c, r)) else None
  }

  /** The state after all observations, from no state at all. */
  function Run(cfg: Config, obs: seq<Observation>): Option<AutoState> {
    if obs == [] then None else Observe(cfg, Run(cfg, obs[..|obs| - 1]), obs[|obs| - 1])
  }

  predicate Qualifies(cfg: Config, o: Observation) {
    o.Candidate? && o.confidence >= cfg.minConfidence
  }

  function Quals(cfg: Config, obs: seq<Observation>): nat {
    if obs == [] then 0
    else Quals(cfg, obs[..|obs| - 1]) + if Qualifies(cfg, obs[|obs| - 1]) then 1 else 0
  }

  function Hits(obs: seq<Observation>): nat {
    if obs == [] then 0
    else Hits(obs[..|obs| - 1]) + if obs[|obs| - 1].DeterministicHit? then 1 else 0
  }

  /** Some prefix holds enough qualifying candidates, and enough hits come after it. */
  ghost predicate Earned(cfg: Config, obs: seq<Observation>) {
    exists n: nat :: n <= |obs| && Quals(cfg, obs[..n]) >= CandidatesNeeded(cfg) && Hits(obs[n..]) >= HitsNeeded(cfg)
  }

  /** Hits seen once enough candidates had qualified. */
  function LateHits(cfg: Config, obs: seq<Observation>): nat {
    if obs == [] then 0
    else
      var init, last := obs[..|obs| - 1], obs[|obs| - 1];
      LateHits(cfg, init) + if last.DeterministicHit? && Quals(cfg, init) >= CandidatesNeeded(cfg) then 1 else 0
  }

  lemma {:induction false} QualsMonotone(cfg: Config, obs: seq<Observation>, n: nat)
    requires n <= |obs|
    ensures Quals(cfg, obs[..n]) <= Quals(cfg, obs)
    decreases |obs| - n
  {
    if n < |obs| {
      assert obs[..n + 1][..n] == obs[..n];
      QualsMonotone(cfg, obs, n + 1);
    } else {
      assert obs[..n] == obs;
    }
  }

  /** Counting hits after any sufficient prefix never exceeds the late hits. */
  lemma {:induction false} HitsAreLate(cfg: Config, obs: seq<Observation>, n: nat)
    requires n <= |obs| && Quals(cfg, obs[..n]) >= CandidatesNeeded(cfg)
    ensures Hits(obs[n..]) <= LateHits(cfg, obs)
    decreases |obs| - n
  {
    if n < |obs| {
      var init := obs[..|obs| - 1];
      assert obs[n..][..|obs[n..]| - 1] == init[n..] && init[..n] == obs[..n];
      QualsMonotone(cfg, init, n);
      HitsAreLate(cfg, init, n);
    }
  }

  /** With late hits there is a prefix after which all of them come. */
  lemma {:induction false} LateHitsHavePrefix(cfg: Config, obs: seq<Observation>) returns (n: nat)
    requires Quals(cfg, obs) >= CandidatesNeeded(cfg)
    ensures n <= |obs| && Quals(cfg, obs[..n]) >= CandidatesNeeded(cfg) && Hits(obs[n..]) == LateHits(cfg, obs)
  {
    var init := obs[..|obs| - 1];
    if Quals(cfg, init) >= CandidatesNeeded(cfg) {
      n := LateHitsHavePrefix(cfg, init);
      assert obs[n..][..|obs[n..]| - 1] == init[n..] && init[..n] == obs[..n];
    } else {
      n := |obs|;
      assert obs[..n] == obs && obs[n..] == [];
      NoLateHits(cfg, init);
    }
  }

  lemma {:induction false} NoLateHits(cfg: Config, obs: seq<Observation>)
    requires Quals(cfg, obs) < CandidatesNeeded(cfg)
    ensures LateHits(cfg, obs) == 0
  {
    if obs != [] {
      NoLateHits(cfg, obs[..|obs| - 1]);
    }
  }

  lemma EarnedIsLate(cfg: Config, obs: seq<Observation>)
    ensures Earned(cfg, obs) <==> LateHits(cfg, obs) >= HitsNeeded(cfg)
  {
    if Earned(cfg, obs) {
      var n: nat :| n <= |obs| && Quals(cfg, obs[..n]) >= CandidatesNeeded(cfg) && Hits(obs[n..]) >= HitsNeeded(cfg);
      HitsAreLate(cfg, obs, n);
    }
    if LateHits(cfg, obs) >= HitsNeeded(cfg) {
      if Quals(cfg, obs) < CandidatesNeeded(cfg) {
        NoLateHits(cfg, obs);
      } else {
        var n := LateHitsHavePrefix(cfg, obs);
      }
    }
  }

  /** The record after obs, in terms of the counts. */
  ghost predicate Describes(cfg: Config, obs: seq<Observation>, st: Option<AutoState>) {
    var q, h := Quals(cfg, obs), LateHits(cfg, obs);
    if st.None? then q == 0
    else
      var s := st.value;
      if q < CandidatesNeeded(cfg) then s.status == Validated && s.validatedCount == q && s.shadowTotal == 0
      else if h < HitsNeeded(cfg) then s.status == Shadow && s.shadowTotal == h
      else s.status == Active
  }

  predicate AllSucceeded(st: Option<AutoState>) {
    st.Some? ==> st.value.shadowTotal == st.value.shadowSuccess && st.value.shadowTotal >= 0
  }

  lemma FullSuccess(st: AutoState)
    requires st.shadowTotal == st.shadowSuccess && st.shadowTotal >= 0
    ensures SuccessRate(Hit(st, 0.0, "")) == 1.0
  {
    var t := (st.shadowTotal + 1) as real;
    assert t / t == 1.0;
  }

  lemma {:induction false} RunSucceeds(cfg: Config, obs: seq<Observation>)
    ensures AllSucceeded(Run(cfg, obs))
  {
    if obs != [] {
      RunSucceeds(cfg, obs[..|obs| - 1]);
    }
  }

  lemma {:induction false} RunDescribed(cfg: Config, obs: seq<Observation>)
    requires cfg.minSuccessRate <= 1.0
    ensures Describes(cfg, obs, Run(cfg, obs))
  {
    if obs != [] {
      var init := obs[..|obs| - 1];
      RunDescribed(cfg, init);
      NoLateHitsYet(cfg, init);
      RunSucceeds(cfg, init);
      if Run(cfg, init).Some? {
        FullSuccess(Run(cfg, init).value);
      }
    }
  }

  lemma NoLateHitsYet(cfg: Config, obs: seq<Observation>)
    ensures Quals(cfg, obs) < CandidatesNeeded(cfg) ==> LateHits(cfg, obs) == 0
  {
    if Quals(cfg, obs) < CandidatesNeeded(cfg) {
      NoLateHits(cfg, obs);
    }
  }

  lemma {:induction false} RunNeverActive(cfg: Config, obs: seq<Observation>)
    requires cfg.minSuccessRate > 1.0
    ensures Run(cfg, obs).Some? ==> Run(cfg, obs).value.status != Active
  {
    if obs != [] {
      var init := obs[..|obs| - 1];
      RunNeverActive(cfg, init);
      RunSucceeds(cfg, init);
      if Run(cfg, init).Some? {
        FullSuccess(Run(cfg, init).value);
      }
    }
  }

  /**
   For every history: the type is active exactly when the configured success rate can be met
   at all and the history earned it. Every shadow run counts as a success.
   */
  lemma PromotionClosedForm(cfg: Config, obs: seq<Observation>)
    ensures (Run(cfg, obs).Some? && Run(cfg, obs).value.status == Active)
            <==> cfg.minSuccessRate <= 1.0 && Earned(cfg, obs)
    ensures Run(cfg, obs).Some? ==> Run(cfg, obs).value.shadowTotal == Run(cfg, obs).value.shadowSuccess
  {
    RunSucceeds(cfg, obs);
    EarnedIsLate(cfg, obs);
    if cfg.minSuccessRate <= 1.0 {
      RunDescribed(cfg, obs);
      NoLateHitsYet(cfg, obs);
    } else {
      RunNeverActive(cfg, obs);
    }
  }

  /** Once active, always active. */
  lemma ActiveAbsorbing(cfg: Config, obs: seq<Observation>, more: seq<Observation>)
    requires Run(cfg, obs).Some? && Run(cfg, obs).value.status == Active
    ensures Run(cfg, obs + more).Some? && Run(cfg, obs + more).value.status == Active
    decreases |more|
  {
    if more == [] {
      assert obs + more == obs;
    } else {
      var init := more[..|more| - 1];
      ActiveAbsorbing(cfg, obs, init);
      assert (obs + more)[..|obs + more| - 1] == obs + init;
    }
  }

  /** Rolling back is dead code exactly when full success meets the configured rate. */
  lemma RollbackReachable(cfg: Config)
    ensures (exists obs :: Run(cfg, obs).Some? && RollsBack(cfg, Run(cfg, obs).value)) <==> cfg.minSuccessRate > 1.0
  {
    if cfg.minSuccessRate > 1.0 {
      var obs := ReachDecision(cfg, HitsNeeded(cfg) - 1);
      RunSucceeds(cfg, obs);
      FullSuccess(Run(cfg, obs).value);
      assert RollsBack(cfg, Run(cfg, obs).value);
    } else {
      forall obs | Run(cfg, obs).Some?
        ensures !RollsBack(cfg, Run(cfg, obs).value)
      {
        RunSucceeds(cfg, obs);
        FullSuccess(Run(cfg, obs).value);
      }
    }
  }

  /** A history that leads to shadow with h hits so far. */
  lemma {:induction false} ReachDecision(cfg: Config, h: nat) returns (obs: seq<Observation>)
    requires h < HitsNeeded(cfg)
    ensures Run(cfg, obs).Some? && Run(cfg, obs).value.status == Shadow && Run(cfg, obs).value.shadowTotal == h
  {
    if h == 0 {
      obs := ReachShadow(cfg, CandidatesNeeded(cfg));
    } else {
      var init := ReachDecision(cfg, h - 1);
      obs := init + [DeterministicHit(0.0, "")];
      assert obs[..|obs| - 1] == init;
    }
  }

  lemma {:induction false} ReachShadow(cfg: Config, q: nat) returns (obs: seq<Observation>)
    requires 1 <= q <= CandidatesNeeded(cfg)
    ensures Run(cfg, obs).Some? && Run(cfg, obs).value.shadowTotal == 0
    ensures if q < CandidatesNeeded(cfg)
            then Run(cfg, obs).value.status == Validated && Run(cfg, obs).value.validatedCount == q
            else Run(cfg, obs).value.status == Shadow
  {
    var o := Candidate(cfg.minConfidence, "");
    if q == 1 {
      obs := [o];
      assert obs[..0] == [];
    } else {
      var init := ReachShadow(cfg, q - 1);
      obs := init + [o];
      assert obs[..|obs| - 1] == init;
    }
  }
}
