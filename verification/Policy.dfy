/**
 Deciding what to do with an event: routing, the matched skill, the language model, validation
 and execution (internal/service/routing.go:30-79, 181-237 and
 internal/service/actions.go:563-694). The router's and the model's answers are oracles.
 */
module Policy {
  import opened Text
  import opened Json
  import opened Targets
  import opened Dispatch
  import opened Routing
  import EventStore

  // ---- Routing an event ----------------------------------------------------

  datatype Route = Route(
    spamLabel: string,
    candidates: seq<Candidate>,
    selected: seq<string>,
    candidateAction: string,
    targetKey: string,
    usedRouter: bool)

  /** A text parameter, trimmed; empty when it is absent or not text. */
  function TextParam(params: map<string, Json>, name: string): string {
    if name in params && params[name].JString? then TrimSpace(params[name].s) else ""
  }

  function TextsIn(items: seq<Json>): seq<string> {
    if items == [] then []
    else (if items[0].JString? then [items[0].s] else []) + TextsIn(items[1..])
  }

  function StringSlice(raw: Json): seq<string> {
    match raw
    case JArray(items) => TextsIn(items)
    case JString(s) => if TrimSpace(s) == "" then [] else [s]
    case _ => []
  }

  predicate IsSpamLabel(v: string) {
    TrimSpace(ToLower(v)) in {"spam", "not_spam", "unknown"}
  }

  /** routeWithLLM's reading of the router's answer; None when it says nothing usable. */
  function ReadReply(d: Decision, candidates: seq<Candidate>): Option<Route> {
    var asked := if "skill_candidates" in d.params then StringSlice(d.params["skill_candidates"]) else [TrimSpace(d.actionName)];
    var selected := KnownOf(asked, KeysOf(candidates), {});
    var given := TextParam(d.params, "spam_label");
    var spamLabel := if given == "" && IsSpamLabel(d.actionName) then d.actionName else given;
    if selected == [] && spamLabel == "" then None
    else Some(Route(spamLabel, candidates, selected, TextParam(d.params, "candidate_action"), TextParam(d.params, TARGET_KEY), true))
  }

  function TopKeys(candidates: seq<Candidate>): seq<string> {
    seq(if |candidates| < 3 then |candidates| else 3, i requires 0 <= i < |candidates| => candidates[i].skill.key)
  }

  /** reply is the router's answer, None when there is no client or it failed. */
  function RouteFor(skills: seq<Skill>, payload: string, labelOf: string -> string, reply: Option<Decision>): Route {
    var initial, candidates := labelOf(payload), RankSkills(skills, payload, labelOf);
    if candidates == [] then Route(initial, [], [], "", "", false)
    else if |candidates| == 1 then
      var only := candidates[0];
      Route(initial, candidates, [only.skill.key], if only.hardLock then TrimSpace(only.skill.forcedAction) else "", "", false)
    else match (if reply.Some? then ReadReply(reply.value, candidates) else None)
      case None => Route(initial, candidates, TopKeys(candidates), "", "", false)
      case Some(r) =>
        r.(spamLabel := if r.spamLabel != "" then r.spamLabel else initial,
           selected := if r.selected == [] then [candidates[0].skill.key] else r.selected)
  }

  method RouteEvent(skills: seq<Skill>, payload: string, labelOf: string -> string, reply: Option<Decision>) returns (out: Route)
    ensures out == RouteFor(skills, payload, labelOf, reply)
  {
    hide RankSkills, ReadReply, TrimSpace;
    var candidates := RankSkillCandidates(skills, payload, labelOf);
    out := Route(labelOf(payload), candidates, [], "", "", false);
    if out.spamLabel == "spam" && |out.candidates| == 0 {
      return;
    }
    if |candidates| == 1 {
      out := out.(selected := [candidates[0].skill.key]);
      if candidates[0].hardLock {
        out := out.(candidateAction := TrimSpace(candidates[0].skill.forcedAction));
      }
      return;
    }
    if reply.None? || |candidates| == 0 {
      var top := FirstThree(candidates);
      out := out.(selected := top);
      return;
    }
    var answer := ReadReply(reply.value, candidates);
    if answer.None? {
      var top := FirstThree(candidates);
      out := out.(selected := top);
      return;
    }
    ReplyRouted(reply.value, candidates);
    out := out.(usedRouter := true);
    if answer.value.spamLabel != "" {
      out := out.(spamLabel := answer.value.spamLabel);
    }
    out := out.(selected := answer.value.selected);
    out := out.(candidateAction := answer.value.candidateAction, targetKey := answer.value.targetKey);
    if |out.selected| == 0 && |candidates| > 0 {
      out := out.(selected := [candidates[0].skill.key]);
    }
  }

  lemma ReplyRouted(d: Decision, candidates: seq<Candidate>)
    ensures ReadReply(d, candidates).Some? ==>
              ReadReply(d, candidates).value.usedRouter && ReadReply(d, candidates).value.candidates == candidates
  {
    hide KnownOf, TextParam, StringSlice, IsSpamLabel;
  }

  method FirstThree(candidates: seq<Candidate>) returns (out: seq<string>)
    ensures out == TopKeys(candidates)
  {
    out := [];
    for i := 0 to |candidates|
      invariant |out| == i <= 3 && forall j | 0 <= j < i :: out[j] == candidates[j].skill.key
    {
      if i >= 3 {
        break;
      }
      out := out + [candidates[i].skill.key];
    }
  }

  // ---- The decision --------------------------------------------------------

  /** What the event's type prescribes; deterministicOnly also reflects the processor's configuration. */
  datatype EventType = EventType(plainTextAction: string, useLLMFallback: bool, deterministicOnly: bool)

  datatype Model = Absent | Failing(message: string) | Answering(d: Decision)

  /** Everything a decision depends on. */
  datatype Case = Case(
    skills: seq<Skill>,
    masterPrompt: string,
    eventType: EventType,
    payload: string,
    reply: Option<Decision>,
    model: Model,
    targets: seq<ForwardTarget>)

  function NormalizeMemoryMode(mode: string): string {
    var m := ToLower(TrimSpace(mode));
    if m == "insert_only" || m == "none" then m else "update_or_insert"
  }

  function SelectedFor(skills: seq<Skill>, route: Route): seq<Skill> {
    var selected := SelectSkills(skills, route.selected);
    if selected == [] && route.candidates != [] then [route.candidates[0].skill] else selected
  }

  /** The action the matched skill forces; empty when none does. */
  function ForcedBy(matched: Option<Skill>): string {
    if matched.Some? then TrimSpace(matched.value.forcedAction) else ""
  }

  function SkillParams(skill: Skill): map<string, Json> {
    map["skill_key" := JString(skill.key),
        "memory_write_mode" := JString(NormalizeMemoryMode(skill.memoryMode)),
        "skill_match_tokens" := JString(skill.matchContains)]
  }

  /** The decision before any model is asked. */
  function Draft(route: Route, selected: seq<Skill>, matched: Option<Skill>, plainTextAction: string): Decision {
    var forced, plain := ForcedBy(matched), TrimSpace(plainTextAction);
    var d :=
      if forced != "" then Decision(forced, "skill:" + matched.value.key, SkillParams(matched.value), "", [])
      else if plain != "" then Decision(plain, "type plain text action", map[], "", [])
      else if route.spamLabel == "spam" && selected == [] then Decision("no_action", "deterministic spam gate", map[], "", [])
      else Decision("store_mysql", "default", map[], "", []);
    if route.candidateAction != "" && d.actionName == "store_mysql" then
      d.(actionName := route.candidateAction,
         reason := "router:" + route.candidateAction,
         params := d.params[TARGET_KEY := JString(route.targetKey)])
    else d
  }

  predicate AsksModel(c: Case, route: Route, matched: Option<Skill>, draft: Decision) {
    var prompted := matched.Some? && TrimSpace(matched.value.prompt) != "";
    var locked := TrimSpace(c.eventType.plainTextAction) != "" && !c.eventType.useLLMFallback && !prompted;
    && !c.eventType.deterministicOnly && !locked
    && ((c.eventType.useLLMFallback && draft.actionName == "store_mysql") || c.masterPrompt != "" || prompted
        || (route.candidateAction != "" && ForcedBy(matched) == ""))
  }

  /** The decision with the model's answer worked in. */
  function Answered(draft: Decision, route: Route, forced: bool, model: Model): Decision {
    match model
    case Absent => draft
    case Failing(message) => draft.(reason := "llm processing failed: " + message)
    case Answering(d) =>
      if forced then
        draft.(processedText := d.processedText,
               tags := d.tags,
               params := if route.targetKey != "" then draft.params[TARGET_KEY := JString(route.targetKey)] else draft.params)
      else if route.targetKey != "" && TARGET_KEY !in d.params then
        d.(params := d.params[TARGET_KEY := JString(route.targetKey)])
      else d
  }

  /** The reason given to a human is not modelled. */
  const REVIEW := Decision("manual_review", "manual review", map[], "", [])

  function Settled(d: Decision, targets: seq<ForwardTarget>): Decision {
    var (normalized, problem) := Validate(d, targets);
    if problem.None? then normalized
    else if normalized.actionName != "store_mysql" && normalized.actionName != "no_action" then REVIEW
    else d
  }

  function RouteOf(c: Case, labelOf: string -> string): Route {
    RouteFor(c.skills, c.payload, labelOf, c.reply)
  }

  function MatchedOf(c: Case, labelOf: string -> string): Option<Skill> {
    Choose(SelectedFor(c.skills, RouteOf(c, labelOf)), c.payload)
  }

  /** The decision that is put to validation. */
  function Proposed(c: Case, labelOf: string -> string): Decision {
    var route, matched := RouteOf(c, labelOf), MatchedOf(c, labelOf);
    var draft := Draft(route, SelectedFor(c.skills, route), matched, c.eventType.plainTextAction);
    if AsksModel(c, route, matched, draft) then Answered(draft, route, ForcedBy(matched) != "", c.model) else draft
  }

  /** The decision that is executed. */
  function Decided(c: Case, labelOf: string -> string): Decision {
    Settled(Proposed(c, labelOf), c.targets)
  }

  method DraftDecision(route: Route, selected: seq<Skill>, matched: Option<Skill>, plainTextAction: string) returns (decision: Decision)
    ensures decision == Draft(route, selected, matched, plainTextAction)
  {
    hide TrimSpace, SkillParams;
    decision := Decision("store_mysql", "default", map[], "", []);
    if route.spamLabel == "spam" && |selected| == 0 {
      decision := decision.(actionName := "no_action", reason := "deterministic spam gate");
    }
    var plain := TrimSpace(plainTextAction);
    if matched.Some? && TrimSpace(matched.value.forcedAction) != "" {
      decision := decision.(actionName := TrimSpace(matched.value.forcedAction), reason := "skill:" + matched.value.key);
      decision := decision.(params := SkillParams(matched.value));
    } else if plain != "" {
      decision := decision.(actionName := plain, reason := "type plain text action");
    }
    if route.candidateAction != "" && decision.actionName == "store_mysql" {
      decision := decision.(actionName := route.candidateAction, reason := "router:" + route.candidateAction);
      decision := decision.(params := decision.params[TARGET_KEY := JString(route.targetKey)]);
    }
  }

  /** The model is asked when something calls for it, and its answer worked in. */
  method ConsultModel(c: Case, route: Route, matched: Option<Skill>, draft: Decision) returns (decision: Decision)
    ensures decision == if AsksModel(c, route, matched, draft) then Answered(draft, route, ForcedBy(matched) != "", c.model) else draft
  {
    hide TrimSpace;
    decision := draft;
    var forced := matched.Some? && TrimSpace(matched.value.forcedAction) != "";
    var hasSkillPrompt := matched.Some? && TrimSpace(matched.value.prompt) != "";
    var hasLockedPlainTextAction := TrimSpace(c.eventType.plainTextAction) != "" && !c.eventType.useLLMFallback && !hasSkillPrompt;
    var needsLLM := false;
    if !hasLockedPlainTextAction {
      if c.eventType.useLLMFallback && decision.actionName == "store_mysql" {
        needsLLM := true;
      }
      if c.masterPrompt != "" || hasSkillPrompt {
        needsLLM := true;
      }
      if route.candidateAction != "" && !forced {
        needsLLM := true;
      }
    }
    if needsLLM && !c.eventType.deterministicOnly {
      match c.model
      case Absent =>
      case Failing(message) => decision := decision.(reason := "llm processing failed: " + message);
      case Answering(d) =>
        if forced {
          decision := decision.(processedText := d.processedText);
          decision := decision.(tags := d.tags);
          if route.targetKey != "" {
            decision := decision.(params := decision.params[TARGET_KEY := JString(route.targetKey)]);
          }
        } else {
          decision := d;
          if route.targetKey != "" {
            if TARGET_KEY !in decision.params {
              decision := decision.(params := decision.params[TARGET_KEY := JString(route.targetKey)]);
            }
          }
        }
    }
  }

  /** What is left of an event: nothing more after a failure, else its text and how it is remembered. */
  datatype Ending = Failed | Processed(text: string, memory: string)

  const MEMORY_KEY := "memory_write_mode"

  function MemoryMode(d: Decision, matched: Option<Skill>): string {
    if MEMORY_KEY in d.params && d.params[MEMORY_KEY].JString? then NormalizeMemoryMode(d.params[MEMORY_KEY].s)
    else NormalizeMemoryMode(if matched.Some? then matched.value.memoryMode else "")
  }

  /** plainText is the payload as text, for when there is no processed text. */
  function EndingOf(d: Decision, matched: Option<Skill>, outcome: Outcome, plainText: string): Ending {
    if outcome != Delivered then Failed
    else Processed(if TrimSpace(d.processedText) != "" then d.processedText else plainText, MemoryMode(d, matched))
  }

  /** The first half of processWithPolicy: the decision, and the skill that matched. */
  method Decide(c: Case, labelOf: string -> string) returns (decision: Decision, matched: Option<Skill>)
    ensures decision == Decided(c, labelOf) && matched == MatchedOf(c, labelOf)
  {
    hide RouteFor, Choose, SelectSkills, TrimSpace, Validate, Draft, AsksModel, Answered, ForcedBy;
    var route := RouteEvent(c.skills, c.payload, labelOf, c.reply);
    var selected := SelectSkillsForExecution(c.skills, route.selected);
    if |selected| == 0 && |route.candidates| > 0 {
      selected := [route.candidates[0].skill];
    }
    matched := ChooseSkill(selected, c.payload);
    decision := DraftDecision(route, selected, matched, c.eventType.plainTextAction);
    decision := ConsultModel(c, route, matched, decision);
    var normalized, problem := ValidateAndNormalizeDecision(decision, c.targets);
    if problem.Some? {
      if normalized.actionName != "store_mysql" && normalized.actionName != "no_action" {
        decision := REVIEW;
      }
    } else {
      decision := normalized;
    }
  }

  /** processWithPolicy on a stored event. */
  method ProcessWithPolicy(c: Case, labelOf: string -> string, plainText: string, eventId: nat,
                           events: EventStore.MemoryEvents, executor: ActionService, accepts: ForwardTarget -> bool)
    returns (decision: Decision, outcome: Outcome, ending: Ending)
    modifies executor`attempts, events
    ensures decision == Decided(c, labelOf)
    ensures var run := Execution(decision, c.targets, executor.telegram, accepts);
            executor.attempts == old(executor.attempts) + run.attempts && outcome == run.outcome
    ensures events.Now() == EventStore.UpdateStatus(old(events.Now()), eventId, EventStore.StatusOf(outcome == Delivered), decision.actionName)
    ensures ending == EndingOf(decision, MatchedOf(c, labelOf), outcome, plainText)
  {
    hide Decided, MatchedOf, TrimSpace, Execution, MemoryMode, EventStore.UpdateStatus;
    var matched: Option<Skill>;
    decision, matched := Decide(c, labelOf);
    outcome := executor.Execute(decision, c.targets, accepts);
    if outcome != Delivered {
      var _ := events.UpdateEventStatus(eventId, "failed", decision.actionName);
      ending := Failed;
      return;
    }
    var _ := events.UpdateEventStatus(eventId, "processed", decision.actionName);
    var text := plainText;
    if TrimSpace(decision.processedText) != "" {
      text := decision.processedText;
    }
    ending := Processed(text, MemoryMode(decision, matched));
  }

  // ---- What routing guarantees -----------------------------------------------

  /** Every selected key is a candidate's, and something is selected whenever there is a candidate. */
  lemma SelectedAreCandidates(skills: seq<Skill>, payload: string, labelOf: string -> string, reply: Option<Decision>)
    ensures var route := RouteFor(skills, payload, labelOf, reply);
            && route.candidates == RankSkills(skills, payload, labelOf)
            && (forall k | k in route.selected :: exists c :: c in route.candidates && c.skill.key == k)
            && (route.selected == [] <==> route.candidates == [])
  {
    var candidates := RankSkills(skills, payload, labelOf);
    if |candidates| > 1 && reply.Some? {
      ReplyKnown(reply.value, candidates);
    }
    hide RankSkills, ReadReply, TrimSpace;
  }

  lemma ReplyKnown(d: Decision, candidates: seq<Candidate>)
    ensures ReadReply(d, candidates).Some? ==>
              var r := ReadReply(d, candidates).value;
              r.candidates == candidates && forall k | k in r.selected :: exists c :: c in candidates && c.skill.key == k
  {
    var asked := if "skill_candidates" in d.params then StringSlice(d.params["skill_candidates"]) else [TrimSpace(d.actionName)];
    KnownExact(asked, KeysOf(candidates), {});
    hide KnownOf, TextParam, StringSlice, IsSpamLabel, TrimSpace;
  }

  /** The skill for the first candidate is only there for safety: selection never comes back empty. */
  lemma SelectionNeverEmpty(skills: seq<Skill>, payload: string, labelOf: string -> string, reply: Option<Decision>)
    ensures var route := RouteFor(skills, payload, labelOf, reply);
            SelectedFor(skills, route) == SelectSkills(skills, route.selected)
  {
    var route := RouteFor(skills, payload, labelOf, reply);
    SelectedAreCandidates(skills, payload, labelOf, reply);
    if route.candidates != [] {
      assert route.selected[0] in route.selected;
      var c :| c in route.candidates && c.skill.key == route.selected[0];
      RankedExact(skills, payload, labelOf, c);
      SelectedExact(skills, route.selected, c.skill);
    }
    hide RouteFor, SelectSkills, RankSkills, CandidateOf, ToLower, TrimSpace;
  }

  /**
   The matched skill applies to the payload, is a candidate with tokens that was selected, and
   no selected skill that applies comes before it. There is none only if no selected skill applies.
   */
  lemma MatchedIsBest(c: Case, labelOf: string -> string, other: Skill)
    requires other in c.skills && other.key in RouteOf(c, labelOf).selected && Applies(other, c.payload)
    ensures MatchedOf(c, labelOf).Some?
    ensures var sk := MatchedOf(c, labelOf).value;
            && Applies(sk, c.payload) && sk in c.skills && sk.key in RouteOf(c, labelOf).selected
            && !Before(SkillRank(other), SkillRank(sk))
            && exists cand :: cand in RouteOf(c, labelOf).candidates && cand.skill == sk && cand.tokens != []
  {
    var route := RouteOf(c, labelOf);
    SelectionNeverEmpty(c.skills, c.payload, labelOf, c.reply);
    SelectedAreCandidates(c.skills, c.payload, labelOf, c.reply);
    SelectedExact(c.skills, route.selected, other);
    var i := ChosenIsBest(SelectSkills(c.skills, route.selected), c.payload);
    hide RouteFor, SelectSkills, Choose, RankSkills, Applies, SelectedFor;
    var sk := MatchedOf(c, labelOf).value;
    SelectedExact(c.skills, route.selected, sk);
    MatchedCandidate(c, labelOf, sk);
  }

  lemma MatchedCandidate(c: Case, labelOf: string -> string, sk: Skill)
    requires Applies(sk, c.payload) && sk in c.skills
    ensures exists cand :: cand in RouteOf(c, labelOf).candidates && cand.skill == sk && cand.tokens != []
  {
    AppliesIsCandidate(sk, c.payload, labelOf);
    SelectedAreCandidates(c.skills, c.payload, labelOf, c.reply);
    var cand := CandidateOf(sk, ToLower(TrimSpace(c.payload)), labelOf).value;
    RankedExact(c.skills, c.payload, labelOf, cand);
    hide RouteFor, RankSkills, CandidateOf, Applies, TrimSpace, ToLower;
  }

  // ---- What is executed ----------------------------------------------------

  lemma FamilyNames()
    ensures forall name | name in FAMILIES :: name != "" && Trimmed(name)
  {
  }

  /** A decision that does not validate always goes to review. */
  lemma SettledIs(d: Decision, targets: seq<ForwardTarget>)
    ensures Settled(d, targets) == if Validate(d, targets).1.None? then Validate(d, targets).0 else REVIEW
    ensures Validate(d, targets).1.None? ==> TrimSpace(d.actionName) in FAMILIES && Settled(d, targets).actionName == d.actionName
  {
    FamilyNames();
    if d.actionName in FAMILIES {
      TrimSpaceFixes(d.actionName);
    }
    hide TrimSpace, Trimmed, HasParams, KeyParam, Resolve;
  }

  /** Whatever the router and the model say, what is executed is one of the known actions. */
  lemma ExecutedIsKnown(c: Case, labelOf: string -> string)
    ensures TrimSpace(Decided(c, labelOf).actionName) in FAMILIES
  {
    SettledIs(Proposed(c, labelOf), c.targets);
    TrimSpaceFixes("manual_review");
    hide TrimSpace, Settled, Validate, Proposed;
  }

  /**
   The matched skill's forced action is the one proposed, for every answer of the router and
   the model, except that "store_mysql" gives way to the router's candidate action. It is
   executed if it validates; otherwise the event goes to review.
   */
  lemma ForcedActionWins(c: Case, labelOf: string -> string)
    requires ForcedBy(MatchedOf(c, labelOf)) != ""
    ensures var forced, candidate, d := ForcedBy(MatchedOf(c, labelOf)), RouteOf(c, labelOf).candidateAction, Proposed(c, labelOf);
            && (d.actionName == forced <==> forced != "store_mysql" || candidate in {"", "store_mysql"})
            && (d.actionName != forced ==> d.actionName == candidate)
            && Decided(c, labelOf).actionName == if Validate(d, c.targets).1.None? then d.actionName else "manual_review"
  {
    SettledIs(Proposed(c, labelOf), c.targets);
    hide RouteOf, MatchedOf, AsksModel, SelectedFor, Validate, ForcedBy, SkillParams, Settled, TrimSpace;
  }

  /** The target key a forced decision carries: the router's, and only with an answer of the model. */
  function ForcedKey(c: Case, labelOf: string -> string): string {
    var route, matched := RouteOf(c, labelOf), MatchedOf(c, labelOf);
    var draft := Draft(route, SelectedFor(c.skills, route), matched, c.eventType.plainTextAction);
    if AsksModel(c, route, matched, draft) && c.model.Answering? then route.targetKey else ""
  }

  lemma SkillParamsPlain(skill: Skill, key: string)
    ensures var params := SkillParams(skill);
            && KeyParam(params) == "" && KeyParam(params[TARGET_KEY := JString(key)]) == TrimSpace(key)
            && forall keys :: !HasMapParam(params, keys) && !HasMapParam(params[TARGET_KEY := JString(key)], keys)
  {
    hide TrimSpace, NormalizeMemoryMode;
  }

  /** A forced action never has the structured parameters that two of the actions require. */
  lemma ForcedParams(c: Case, labelOf: string -> string)
    requires ForcedBy(MatchedOf(c, labelOf)) !in {"", "store_mysql"}
    ensures var d := Proposed(c, labelOf);
            && KeyParam(d.params) == TrimSpace(ForcedKey(c, labelOf))
            && forall keys :: !HasMapParam(d.params, keys)
  {
    var params := SkillParams(MatchedOf(c, labelOf).value);
    var key := ForcedKey(c, labelOf);
    TrimSpaceFixes("");
    hide RouteOf, MatchedOf, AsksModel, SelectedFor, ForcedBy, TrimSpace, NormalizeMemoryMode, HasMapParam, KeyParam;
    var d := Proposed(c, labelOf);
    SkillParamsPlain(MatchedOf(c, labelOf).value, key);
    assert d.params == (if key == "" then params else params[TARGET_KEY := JString(key)]);
    hide SkillParams;
  }

  /** So a forced action is executed exactly under these conditions: the two structured ones never are. */
  lemma ForcedRunsIff(c: Case, labelOf: string -> string)
    requires ForcedBy(MatchedOf(c, labelOf)) !in {"", "store_mysql", "manual_review"}
    ensures var forced, key, d := ForcedBy(MatchedOf(c, labelOf)), TrimSpace(ForcedKey(c, labelOf)), Proposed(c, labelOf);
            Decided(c, labelOf).actionName == forced <==>
              || forced == "no_action"
              || (forced == "forward_http" && key == "")
              || (forced in {"forward_http", "forward_telegram"} && Resolve(c.targets, key, forced).Some?)
              || (forced == "slack_notify" && Resolve(c.targets, key, forced).Some? && TrimSpace(d.processedText) != "")
  {
    ForcedActionWins(c, labelOf);
    ForcedParams(c, labelOf);
    ForcedTrimmed(MatchedOf(c, labelOf));
    ValidWithoutParams(Proposed(c, labelOf), c.targets);
    hide *;
  }

  /** When a decision validates that has no structured parameters. */
  lemma ValidWithoutParams(d: Decision, targets: seq<ForwardTarget>)
    requires Trimmed(d.actionName) && forall keys :: !HasMapParam(d.params, keys)
    ensures var action, key := d.actionName, KeyParam(d.params);
            Validate(d, targets).1.None? <==>
              || action in PLAIN
              || (action == "forward_http" && key == "")
              || (action in {"forward_http", "forward_telegram"} && Resolve(targets, key, action).Some?)
              || (action == "slack_notify" && Resolve(targets, key, action).Some? && TrimSpace(d.processedText) != "")
  {
    FamilyNames();
    TrimSpaceFixes(d.actionName);
    hide TrimSpace, HasMapParam, Resolve, KeyParam, Trimmed;
  }

  lemma ForcedTrimmed(matched: Option<Skill>)
    ensures Trimmed(ForcedBy(matched))
  {
    if matched.Some? {
      TrimSpaceIsTrimmed(matched.value.forcedAction);
    }
    hide TrimSpace;
  }

  lemma ModesFixed(mode: string)
    ensures NormalizeMemoryMode(NormalizeMemoryMode(mode)) == NormalizeMemoryMode(mode)
  {
    var m := NormalizeMemoryMode(mode);
    assert m in {"insert_only", "none", "update_or_insert"};
    TrimSpaceFixes(m);
    assert ToLower(m) == m;
  }

  /** However the model answers, and even in review, an event of a forcing skill is remembered in that skill's mode. */
  lemma ForcedMemoryMode(c: Case, labelOf: string -> string)
    requires ForcedBy(MatchedOf(c, labelOf)) != ""
    ensures MemoryMode(Decided(c, labelOf), MatchedOf(c, labelOf)) == NormalizeMemoryMode(MatchedOf(c, labelOf).value.memoryMode)
  {
    var skill, d := MatchedOf(c, labelOf).value, Proposed(c, labelOf);
    ModesFixed(skill.memoryMode);
    SettledIs(d, c.targets);
    ProposedMode(c, labelOf);
    ValidateKeepsMode(d, c.targets);
    hide RouteOf, MatchedOf, Validate, Proposed, Settled, NormalizeMemoryMode, TrimSpace;
  }

  lemma ProposedMode(c: Case, labelOf: string -> string)
    requires ForcedBy(MatchedOf(c, labelOf)) != ""
    ensures var d := Proposed(c, labelOf);
            MEMORY_KEY in d.params && d.params[MEMORY_KEY] == JString(NormalizeMemoryMode(MatchedOf(c, labelOf).value.memoryMode))
  {
    hide RouteOf, MatchedOf, AsksModel, SelectedFor, ForcedBy, TrimSpace, NormalizeMemoryMode;
  }

  lemma ValidateKeepsMode(d: Decision, targets: seq<ForwardTarget>)
    ensures var out := Validate(d, targets).0.params;
            (MEMORY_KEY in out <==> MEMORY_KEY in d.params) && (MEMORY_KEY in out ==> out[MEMORY_KEY] == d.params[MEMORY_KEY])
  {
    hide TrimSpace, KeyParam, Resolve, HasParams;
  }

  /** A deterministic-only type is decided the same for every answer of the model. */
  lemma DeterministicIgnoresModel(c: Case, labelOf: string -> string, model: Model)
    requires c.eventType.deterministicOnly
    ensures Decided(c, labelOf) == Decided(c.(model := model), labelOf)
  {
    hide RouteFor, Choose, SelectedFor, Draft, Settled, ForcedBy;
  }

  // ---- A forced action that loses ------------------------------------------

  function Keeper(): Skill {
    Skill("x", true, 0, 0, "a", "store_mysql", "", "")
  }

  function Bystander(): Skill {
    Skill("y", true, 1, 1, "a", "", "", "")
  }

  /** Two skills match; the router picks the one that forces "store_mysql" and suggests "no_action". */
  function Overruled(): Case {
    Case([Keeper(), Bystander()], "", EventType("", false, false), "a",
         Some(Decision("x", "", map["candidate_action" := JString("no_action")], "", [])), Absent, [])
  }

  lemma OneToken()
    ensures MatchedTokens("a", "a") == ["a"] && ToLower("a") == "a" && TrimSpace("a") == "a"
  {
    TrimSpaceFixes("a");
    assert ToLower("a") == "a";
    NoIndexOfChar("a", ',');
    assert ["a"][1..] == [];
    FoundAt("a", "a", 0);
  }

  lemma OverruledCandidates(labelOf: string -> string)
    requires labelOf("a") == "unknown"
    ensures RankSkills(Overruled().skills, "a", labelOf) ==
            [Candidate(Keeper(), ["a"], 13, false), Candidate(Bystander(), ["a"], 10, false)]
  {
    OneToken();
    TrimSpaceFixes("store_mysql");
    TrimSpaceFixes("");
    var x, y := Candidate(Keeper(), ["a"], 13, false), Candidate(Bystander(), ["a"], 10, false);
    hide MatchedTokens, TrimSpace, Contains;
    assert CandidateOf(Keeper(), "a", labelOf) == Some(x);
    assert CandidateOf(Bystander(), "a", labelOf) == Some(y);
    hide CandidateOf;
    assert Overruled().skills[1..] == [Bystander()] && [Bystander()][1..] == [];
    assert AllCandidates([Bystander()], "a", labelOf) == [y];
    assert AllCandidates(Overruled().skills, "a", labelOf) == [x, y];
    assert [x, y][1..] == [y] && [y][1..] == [];
    assert StableSort([y], CandidateRank) == [y];
  }

  lemma OverruledRoute(labelOf: string -> string)
    requires labelOf("a") == "unknown"
    ensures RouteOf(Overruled(), labelOf).candidateAction == "no_action" && RouteOf(Overruled(), labelOf).selected == ["x"]
  {
    OverruledCandidates(labelOf);
    var candidates := RankSkills(Overruled().skills, "a", labelOf);
    assert candidates[0].skill.key in KeysOf(candidates);
    OverruledReply(candidates);
    hide RankSkills, ReadReply, KeysOf;
  }

  lemma OverruledReply(candidates: seq<Candidate>)
    requires "x" in KeysOf(candidates)
    ensures var r := ReadReply(Overruled().reply.value, candidates);
            r.Some? && r.value.selected == ["x"] && r.value.candidateAction == "no_action"
  {
    TrimSpaceFixes("x");
    TrimSpaceFixes("no_action");
    assert ["x"][1..] == [];
    hide TrimSpace, KeysOf, IsSpamLabel;
    assert KnownOf(["x"], KeysOf(candidates), {}) == ["x"];
    hide KnownOf;
  }

  lemma OverruledMatch(labelOf: string -> string)
    requires labelOf("a") == "unknown"
    ensures MatchedOf(Overruled(), labelOf) == Some(Keeper())
  {
    OverruledRoute(labelOf);
    OneToken();
    hide RouteOf, MatchedTokens, TrimSpace, ToLower;
    assert Overruled().skills[1..] == [Bystander()] && [Bystander()][1..] == [];
    assert WithKeys(Overruled().skills, ["x"]) == [Keeper()];
    assert [Keeper()][1..] == [];
    assert SelectSkills(Overruled().skills, ["x"]) == [Keeper()];
  }

  lemma StoreMysqlOverridden(labelOf: string -> string)
    requires labelOf("a") == "unknown"
    ensures ForcedBy(MatchedOf(Overruled(), labelOf)) == "store_mysql"
    ensures Decided(Overruled(), labelOf).actionName == "no_action"
  {
    OverruledRoute(labelOf);
    OverruledMatch(labelOf);
    TrimSpaceFixes("store_mysql");
    ForcedActionWins(Overruled(), labelOf);
    TrimSpaceFixes("no_action");
    hide RouteOf, MatchedOf, TrimSpace, Proposed, Decided;
  }
}
