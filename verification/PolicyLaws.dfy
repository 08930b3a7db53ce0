/**
 What decides an event (internal/service/actions.go:563-705, internal/service/routing.go:35-85,
 185-231), case by case: the router's answer, the skill, the type and the language model.
 */
module PolicyLaws {
  import opened Text
  import opened Json
  import opened Targets
  import opened Dispatch
  import opened Routing
  import opened Policy

  // ---- The route -----------------------------------------------------------

  /** A lone candidate is selected without asking the router, and its locked action is suggested. */
  lemma LoneCandidate(skills: seq<Skill>, payload: string, labelOf: string -> string, reply: Option<Decision>)
    requires |RankSkills(skills, payload, labelOf)| == 1
    ensures var route, only := RouteFor(skills, payload, labelOf, reply), RankSkills(skills, payload, labelOf)[0];
            && route.selected == [only.skill.key] && !route.usedRouter
            && route.spamLabel == labelOf(payload) && route.targetKey == ""
            && route.candidateAction == if only.hardLock then TrimSpace(only.skill.forcedAction) else ""
  {
    hide RankSkills, TrimSpace;
  }

  /** Without a usable answer the first three candidates are selected. */
  predicate TopThree(route: Route, candidates: seq<Candidate>, mark: string) {
    && !route.usedRouter && route.spamLabel == mark && route.candidateAction == "" && route.targetKey == ""
    && |route.selected| == (if |candidates| > 3 then 3 else |candidates|)
    && forall i | 0 <= i < |route.selected| :: route.selected[i] == candidates[i].skill.key
  }

  lemma RouterSilent(skills: seq<Skill>, payload: string, labelOf: string -> string)
    requires |RankSkills(skills, payload, labelOf)| > 1
    ensures TopThree(RouteFor(skills, payload, labelOf, None), RankSkills(skills, payload, labelOf), labelOf(payload))
  {
    hide RankSkills;
  }

  /** The answer's parameter is this text once trimmed; no text counts as the empty one. */
  predicate Says(d: Decision, name: string, text: string) {
    if name in d.params && d.params[name].JString? then text == TrimSpace(d.params[name].s) else text == ""
  }

  /** The answer asks for this skill: in its list, as its one text, or else by its action name. */
  predicate AsksFor(d: Decision, raw: string) {
    if "skill_candidates" !in d.params then raw == TrimSpace(d.actionName)
    else match d.params["skill_candidates"]
      case JArray(items) => JString(raw) in items
      case JString(s) => raw == s && TrimSpace(s) != ""
      case _ => false
  }

  /** The key, which is not blank, is a candidate's and asked for. */
  ghost predicate Picked(d: Decision, candidates: seq<Candidate>, key: string) {
    key != "" && (exists c :: c in candidates && c.skill.key == key) && exists raw :: AsksFor(d, raw) && TrimSpace(raw) == key
  }

  /** The label the answer gives: its parameter, else its action name if that is a label. */
  predicate Labels(d: Decision, mark: string) {
    if Says(d, "spam_label", "") then
      mark == if TrimSpace(ToLower(d.actionName)) in {"spam", "not_spam", "unknown"} then d.actionName else ""
    else Says(d, "spam_label", mark)
  }

  lemma {:induction false} TextsExact(items: seq<Json>, s: string)
    ensures s in TextsIn(items) <==> JString(s) in items
  {
    if items != [] {
      assert items == [items[0]] + items[1..];
      TextsExact(items[1..], s);
    }
  }

  lemma AskedExact(d: Decision, raw: string)
    ensures var asked := if "skill_candidates" in d.params then StringSlice(d.params["skill_candidates"]) else [TrimSpace(d.actionName)];
            raw in asked <==> AsksFor(d, raw)
  {
    hide TrimSpace;
    if "skill_candidates" in d.params && d.params["skill_candidates"].JArray? {
      TextsExact(d.params["skill_candidates"].items, raw);
    }
  }

  lemma ReplyPicks(d: Decision, candidates: seq<Candidate>)
    ensures var asked := if "skill_candidates" in d.params then StringSlice(d.params["skill_candidates"]) else [TrimSpace(d.actionName)];
            forall key :: key in KnownOf(asked, KeysOf(candidates), {}) <==> Picked(d, candidates, key)
  {
    var asked := if "skill_candidates" in d.params then StringSlice(d.params["skill_candidates"]) else [TrimSpace(d.actionName)];
    KnownExact(asked, KeysOf(candidates), {});
    forall raw
      ensures raw in asked <==> AsksFor(d, raw)
    {
      AskedExact(d, raw);
    }
    hide KnownOf, StringSlice, AsksFor, TrimSpace;
  }

  /** What the answer is read as. */
  lemma ReplyRead(d: Decision, candidates: seq<Candidate>, mark: string)
    requires Labels(d, mark)
    ensures var r := ReadReply(d, candidates);
            && (r.Some? <==> mark != "" || exists key :: Picked(d, candidates, key))
            && (r.Some? ==>
                  && r.value.spamLabel == mark && r.value.usedRouter
                  && (forall key :: key in r.value.selected <==> Picked(d, candidates, key))
                  && Says(d, "candidate_action", r.value.candidateAction) && Says(d, TARGET_KEY, r.value.targetKey))
  {
    ReplyPicks(d, candidates);
    var asked := if "skill_candidates" in d.params then StringSlice(d.params["skill_candidates"]) else [TrimSpace(d.actionName)];
    var selected := KnownOf(asked, KeysOf(candidates), {});
    hide StringSlice, Picked, KnownOf, KeysOf, TrimSpace, ToLower;
    if key :| Picked(d, candidates, key) {
      assert key in selected;
    }
    if selected != [] {
      assert Picked(d, candidates, selected[0]);
    }
  }

  /**
   With several candidates the router is heard if it names one of them or gives a label. Then
   exactly the candidates it names are selected, or the first one if it names none, and its
   label, action and target key are taken over; else it is as if it had been silent.
   */
  lemma RouterHeard(skills: seq<Skill>, payload: string, labelOf: string -> string, d: Decision, mark: string)
    requires |RankSkills(skills, payload, labelOf)| > 1 && Labels(d, mark)
    ensures var route, candidates := RouteFor(skills, payload, labelOf, Some(d)), RankSkills(skills, payload, labelOf);
            var names := exists key :: Picked(d, candidates, key);
            if mark == "" && !names then TopThree(route, candidates, labelOf(payload))
            else
              && route.usedRouter && route.spamLabel == (if mark != "" then mark else labelOf(payload))
              && (names ==> forall key :: key in route.selected <==> Picked(d, candidates, key))
              && (!names ==> route.selected == [candidates[0].skill.key])
              && Says(d, "candidate_action", route.candidateAction) && Says(d, TARGET_KEY, route.targetKey)
  {
    var candidates := RankSkills(skills, payload, labelOf);
    ReplyRead(d, candidates, mark);
    hide RankSkills, ReadReply, Picked, Labels, Says, TrimSpace;
    var r := ReadReply(d, candidates);
    if r.Some? && r.value.selected != [] {
      assert r.value.selected[0] in r.value.selected;
    }
  }

  // ---- The decision without the model --------------------------------------

  predicate Forces(matched: Option<Skill>) {
    matched.Some? && TrimSpace(matched.value.forcedAction) != ""
  }

  predicate Prompted(matched: Option<Skill>) {
    matched.Some? && TrimSpace(matched.value.prompt) != ""
  }

  /** The skill's, the type's, or the default action, before the router has its say. */
  function OwnAction(c: Case, route: Route, matched: Option<Skill>): string {
    if Forces(matched) then TrimSpace(matched.value.forcedAction)
    else if TrimSpace(c.eventType.plainTextAction) != "" then TrimSpace(c.eventType.plainTextAction)
    else if route.spamLabel == "spam" && route.candidates == [] then "no_action"
    else "store_mysql"
  }

  /** The router's action only replaces mere storing. */
  predicate Rerouted(c: Case, route: Route, matched: Option<Skill>) {
    OwnAction(c, route, matched) == "store_mysql" && route.candidateAction != ""
  }

  function FirstAction(c: Case, route: Route, matched: Option<Skill>): string {
    if Rerouted(c, route, matched) then route.candidateAction else OwnAction(c, route, matched)
  }

  /** A forcing skill's own parameters, and the router's target with the router's action. */
  predicate FirstParams(c: Case, route: Route, matched: Option<Skill>, params: map<string, Json>) {
    && params.Keys == (if Forces(matched) then {"skill_key", "memory_write_mode", "skill_match_tokens"} else {})
                      + (if Rerouted(c, route, matched) then {TARGET_KEY} else {})
    && (Rerouted(c, route, matched) ==> params[TARGET_KEY] == JString(route.targetKey))
    && (Forces(matched) ==>
          && params["skill_key"] == JString(matched.value.key)
          && params["memory_write_mode"] == JString(NormalizeMemoryMode(matched.value.memoryMode))
          && params["skill_match_tokens"] == JString(matched.value.matchContains))
  }

  /** What can call for the model: a prompt, a fallback from storing, or a router's action that no skill overrules. */
  predicate Consulted(c: Case, route: Route, matched: Option<Skill>) {
    && !c.eventType.deterministicOnly
    && (TrimSpace(c.eventType.plainTextAction) == "" || c.eventType.useLLMFallback || Prompted(matched))
    && (c.masterPrompt != "" || Prompted(matched)
        || (c.eventType.useLLMFallback && FirstAction(c, route, matched) == "store_mysql")
        || (route.candidateAction != "" && !Forces(matched)))
  }

  lemma NothingSelected(c: Case, labelOf: string -> string)
    ensures SelectedFor(c.skills, RouteOf(c, labelOf)) == [] <==> RouteOf(c, labelOf).candidates == []
  {
    SelectedAreCandidates(c.skills, c.payload, labelOf, c.reply);
    hide RouteFor, RankSkills;
  }

  lemma DraftIs(c: Case, labelOf: string -> string)
    ensures var route, matched := RouteOf(c, labelOf), MatchedOf(c, labelOf);
            var draft := Draft(route, SelectedFor(c.skills, route), matched, c.eventType.plainTextAction);
            && draft.actionName == FirstAction(c, route, matched) && draft.processedText == "" && draft.tags == []
            && FirstParams(c, route, matched, draft.params)
  {
    NothingSelected(c, labelOf);
    hide RouteOf, MatchedOf, SelectedFor, TrimSpace, NormalizeMemoryMode;
  }

  lemma ConsultedIs(c: Case, labelOf: string -> string)
    ensures var route, matched := RouteOf(c, labelOf), MatchedOf(c, labelOf);
            var draft := Draft(route, SelectedFor(c.skills, route), matched, c.eventType.plainTextAction);
            AsksModel(c, route, matched, draft) <==> Consulted(c, route, matched)
  {
    DraftIs(c, labelOf);
    hide RouteOf, MatchedOf, SelectedFor, TrimSpace, Draft, FirstParams, FirstAction;
  }

  /** A decision is carried out as validation normalises it, and reviewed by a human if it is refused. */
  function Carried(d: Decision, targets: seq<ForwardTarget>): Decision {
    var (normalized, problem) := Validate(d, targets);
    if problem.Some? then REVIEW else normalized
  }

  /** Without an answer of the model the first action decides; a failed model is named as the reason. */
  lemma UnaskedDecides(c: Case, labelOf: string -> string)
    requires !Consulted(c, RouteOf(c, labelOf), MatchedOf(c, labelOf)) || !c.model.Answering?
    ensures var route, matched, d := RouteOf(c, labelOf), MatchedOf(c, labelOf), Proposed(c, labelOf);
            && d.actionName == FirstAction(c, route, matched) && d.processedText == "" && d.tags == []
            && FirstParams(c, route, matched, d.params)
            && (Consulted(c, route, matched) && c.model.Failing? ==> d.reason == "llm processing failed: " + c.model.message)
            && Decided(c, labelOf) == Carried(d, c.targets)
  {
    DraftIs(c, labelOf);
    ConsultedIs(c, labelOf);
    SettledIs(Proposed(c, labelOf), c.targets);
    hide RouteOf, MatchedOf, SelectedFor, Draft, FirstParams, FirstAction, Validate, Consulted;
  }

  // ---- The decision with the model -----------------------------------------

  /** If no skill forces an action the model's answer is the decision, with the router's target if it names none. */
  lemma ModelDecides(c: Case, labelOf: string -> string)
    requires Consulted(c, RouteOf(c, labelOf), MatchedOf(c, labelOf)) && c.model.Answering? && !Forces(MatchedOf(c, labelOf))
    ensures var key, d := RouteOf(c, labelOf).targetKey, c.model.d;
            var completed := if key == "" || TARGET_KEY in d.params then d else d.(params := d.params[TARGET_KEY := JString(key)]);
            Decided(c, labelOf) == Carried(completed, c.targets)
  {
    ConsultedIs(c, labelOf);
    SettledIs(Proposed(c, labelOf), c.targets);
    hide RouteOf, MatchedOf, SelectedFor, Draft, Validate, Consulted;
  }

  /** A forcing skill keeps its action and parameters; the model gives the text and tags, the router the target. */
  lemma ModelOnlyWords(c: Case, labelOf: string -> string)
    requires Consulted(c, RouteOf(c, labelOf), MatchedOf(c, labelOf)) && c.model.Answering? && Forces(MatchedOf(c, labelOf))
    ensures var route, matched, d := RouteOf(c, labelOf), MatchedOf(c, labelOf), Proposed(c, labelOf);
            && d.actionName == FirstAction(c, route, matched)
            && d.processedText == c.model.d.processedText && d.tags == c.model.d.tags
            && (exists own :: FirstParams(c, route, matched, own)
                              && d.params == if route.targetKey == "" then own else own[TARGET_KEY := JString(route.targetKey)])
            && Decided(c, labelOf) == Carried(d, c.targets)
  {
    DraftIs(c, labelOf);
    ConsultedIs(c, labelOf);
    SettledIs(Proposed(c, labelOf), c.targets);
    var route, matched := RouteOf(c, labelOf), MatchedOf(c, labelOf);
    hide RouteOf, MatchedOf, SelectedFor, Draft, FirstParams, FirstAction, Validate, Consulted;
    assert FirstParams(c, route, matched, Draft(route, SelectedFor(c.skills, route), matched, c.eventType.plainTextAction).params);
  }

  /** Who is not consulted has no say. */
  lemma UnconsultedModel(c: Case, labelOf: string -> string, model: Model)
    requires !Consulted(c, RouteOf(c, labelOf), MatchedOf(c, labelOf))
    ensures Decided(c.(model := model), labelOf) == Decided(c, labelOf)
  {
    ConsultedIs(c, labelOf);
    hide RouteFor, Choose, SelectedFor, Draft, Settled, ForcedBy, Consulted, AsksModel;
    Unasked(c, labelOf, model);
  }

  lemma Unasked(c: Case, labelOf: string -> string, model: Model)
    ensures var other, route, matched := c.(model := model), RouteOf(c, labelOf), MatchedOf(c, labelOf);
            && RouteOf(other, labelOf) == route && MatchedOf(other, labelOf) == matched
            && forall draft :: AsksModel(other, route, matched, draft) <==> AsksModel(c, route, matched, draft)
  {
    hide RouteFor, Choose, SelectedFor, ForcedBy;
  }

  // ---- Afterwards ----------------------------------------------------------

  /** Three modes, read in any case and spacing; whatever is unknown updates or inserts. */
  lemma ModesRead(mode: string)
    ensures NormalizeMemoryMode(mode) in {"insert_only", "none", "update_or_insert"}
    ensures NormalizeMemoryMode(mode) == "insert_only" <==> ToLower(TrimSpace(mode)) == "insert_only"
    ensures NormalizeMemoryMode(mode) == "none" <==> ToLower(TrimSpace(mode)) == "none"
  {
  }

  /** What is left after execution: nothing more on failure, else a text that is never blank by choice, and a memory mode. */
  lemma EndingIs(d: Decision, matched: Option<Skill>, outcome: Outcome, plainText: string)
    ensures var ending := EndingOf(d, matched, outcome, plainText);
            && (ending == Failed <==> outcome != Delivered)
            && (outcome == Delivered ==>
                  && (TrimSpace(d.processedText) != "" ==> ending.text == d.processedText)
                  && (TrimSpace(d.processedText) == "" ==> ending.text == plainText)
                  && (forall s | "memory_write_mode" in d.params && d.params["memory_write_mode"] == JString(s) ::
                        ending.memory == NormalizeMemoryMode(s))
                  && ("memory_write_mode" !in d.params || !d.params["memory_write_mode"].JString? ==>
                        ending.memory == if matched.Some? then NormalizeMemoryMode(matched.value.memoryMode) else "update_or_insert"))
  {
    TrimSpaceFixes("");
    assert ToLower("") == "";
    hide TrimSpace, ToLower;
  }
}
