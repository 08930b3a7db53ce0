/**
 Executing a decision (internal/service/actions.go:50-144), and that execution aims where
 validation did. Sending is an oracle: accepts says for which targets a delivery succeeds.
 */
module Dispatch {
  import opened Text
  import opened Json
  import opened Targets

  datatype Outcome =
    | Delivered
    | UnknownAction
    | TargetNotFound
    | UnsupportedType
    | TelegramUnavailable
    | DeliveryFailed

  /** The targets a delivery was attempted to, in order, and how it ended. */
  datatype Run = Run(attempts: seq<ForwardTarget>, outcome: Outcome)

  /** Where a decision points. */
  datatype Aim =
    | Nowhere
    | Unknown
    | Everyone(targetType: string)
    | NotFound
    | Only(target: ForwardTarget)

  function AimOf(d: Decision, targets: seq<ForwardTarget>): Aim {
    var key := KeyParam(d.params);
    if d.actionName in PLAIN then Nowhere
    else if d.actionName !in FAMILIES then Unknown
    else if key == "" && d.actionName == "forward_http" then Everyone("http")
    else if key == "" && d.actionName == "forward_telegram" then Everyone("telegram")
    else match Resolve(targets, key, d.actionName)
      case None => NotFound
      case Some(t) => Only(t)
  }

  /** The enabled targets of a kind, hydrated. */
  function Audience(targets: seq<ForwardTarget>, targetType: string): seq<ForwardTarget> {
    if targets == [] then []
    else
      var t := Hydrate(targets[0]);
      (if t.targetType == targetType && t.enabled then [t] else []) + Audience(targets[1..], targetType)
  }

  /** Deliveries go out in order until one fails. */
  function Deliver(audience: seq<ForwardTarget>, accepts: ForwardTarget -> bool): Run {
    if audience == [] then Run([], Delivered)
    else if !accepts(audience[0]) then Run([audience[0]], DeliveryFailed)
    else
      var rest := Deliver(audience[1..], accepts);
      Run([audience[0]] + rest.attempts, rest.outcome)
  }

  /** The kinds of target an action knows how to send to. */
  predicate Sendable(action: string, targetType: string) {
    match action
    case "slack_notify" => targetType == "telegram" || targetType == "http"
    case "crm_upsert" => targetType == "http"
    case "ticket_create" => targetType == "http"
    case _ => true
  }

  predicate ByTelegram(action: string, targetType: string) {
    action == "forward_telegram" || (action == "slack_notify" && targetType == "telegram")
  }

  function Execution(d: Decision, targets: seq<ForwardTarget>, telegram: bool, accepts: ForwardTarget -> bool): Run {
    if d.actionName == "forward_telegram" && !telegram then Run([], TelegramUnavailable)
    else match AimOf(d, targets)
      case Nowhere => Run([], Delivered)
      case Unknown => Run([], UnknownAction)
      case Everyone(kind) => Deliver(Audience(targets, kind), accepts)
      case NotFound => Run([], TargetNotFound)
      case Only(t) =>
        if !Sendable(d.actionName, t.targetType) then Run([], UnsupportedType)
        else if ByTelegram(d.actionName, t.targetType) && !telegram then Run([], TelegramUnavailable)
        else Deliver([t], accepts)
  }

  // ---- The executor --------------------------------------------------------

  class ActionService {
    const telegram: bool
    var attempts: seq<ForwardTarget>

    constructor (telegram: bool)
      ensures this.telegram == telegram && attempts == []
    {
      this.telegram := telegram;
      attempts := [];
    }

    /** One request or message; ok when it could be built and was accepted. */
    method Send(target: ForwardTarget, accepts: ForwardTarget -> bool) returns (outcome: Outcome)
      modifies this`attempts
      ensures Run(attempts, outcome) ==
              Run(old(attempts) + Deliver([target], accepts).attempts, Deliver([target], accepts).outcome)
    {
      attempts := attempts + [target];
      outcome := if accepts(target) then Delivered else DeliveryFailed;
    }

    method Broadcast(targets: seq<ForwardTarget>, targetType: string, accepts: ForwardTarget -> bool) returns (outcome: Outcome)
      modifies this`attempts
      ensures var run := Deliver(Audience(targets, targetType), accepts);
              attempts == old(attempts) + run.attempts && outcome == run.outcome
    {
      hide Audience, Hydrate, Deliver;
      ghost var run := Deliver(Audience(targets, targetType), accepts);
      ghost var done: seq<ForwardTarget> := [];
      assert targets[0..] == targets;
      for i := 0 to |targets|
        invariant var rest := Deliver(Audience(targets[i..], targetType), accepts);
                  run.attempts == done + rest.attempts && rest.outcome == run.outcome
        invariant attempts == old(attempts) + done
      {
        AudienceFrom(targets, i, targetType);
        var target := Hydrate(targets[i]);
        if target.targetType != targetType || !target.enabled {
          continue;
        }
        DeliverStep(target, Audience(targets[i + 1..], targetType), accepts);
        done := done + [target];
        attempts := attempts + [target];
        if !accepts(target) {
          return DeliveryFailed;
        }
      }
      assert targets[|targets|..] == [];
      NobodyLeft(targetType, accepts);
      outcome := Delivered;
    }

    method ForwardHTTP(d: Decision, targets: seq<ForwardTarget>, accepts: ForwardTarget -> bool) returns (outcome: Outcome)
      requires d.actionName == "forward_http"
      modifies this`attempts
      ensures var run := Execution(d, targets, telegram, accepts);
              attempts == old(attempts) + run.attempts && outcome == run.outcome
    {
      hide KeyParam, Resolve, Audience, Deliver;
      var targetKey := KeyParam(d.params);
      if targetKey != "" {
        var target := ResolveIntegrationTarget(targets, targetKey, d.actionName);
        if target.None? {
          return TargetNotFound;
        }
        outcome := Send(target.value, accepts);
        return;
      }
      outcome := Broadcast(targets, "http", accepts);
    }

    method ForwardTelegram(d: Decision, targets: seq<ForwardTarget>, accepts: ForwardTarget -> bool) returns (outcome: Outcome)
      requires d.actionName == "forward_telegram"
      modifies this`attempts
      ensures var run := Execution(d, targets, telegram, accepts);
              attempts == old(attempts) + run.attempts && outcome == run.outcome
    {
      hide KeyParam, Resolve, Audience, Deliver;
      if !telegram {
        return TelegramUnavailable;
      }
      var targetKey := KeyParam(d.params);
      if targetKey == "" {
        outcome := Broadcast(targets, "telegram", accepts);
        return;
      }
      var target := ResolveIntegrationTarget(targets, targetKey, d.actionName);
      if target.None? {
        return TargetNotFound;
      }
      outcome := Send(target.value, accepts);
    }

    method NotifyIntegration(d: Decision, targets: seq<ForwardTarget>, accepts: ForwardTarget -> bool) returns (outcome: Outcome)
      requires d.actionName == "slack_notify"
      modifies this`attempts
      ensures var run := Execution(d, targets, telegram, accepts);
              attempts == old(attempts) + run.attempts && outcome == run.outcome
    {
      hide KeyParam, Resolve, Audience, Deliver;
      var target := ResolveIntegrationTarget(targets, KeyParam(d.params), d.actionName);
      if target.None? {
        return TargetNotFound;
      }
      match target.value.targetType
      case "telegram" =>
        if !telegram {
          return TelegramUnavailable;
        }
        outcome := Send(target.value, accepts);
      case "http" => outcome := Send(target.value, accepts);
      case _ => outcome := UnsupportedType;
    }

    method PostStructured(d: Decision, targets: seq<ForwardTarget>, accepts: ForwardTarget -> bool) returns (outcome: Outcome)
      requires d.actionName in {"crm_upsert", "ticket_create"}
      modifies this`attempts
      ensures var run := Execution(d, targets, telegram, accepts);
              attempts == old(attempts) + run.attempts && outcome == run.outcome
    {
      hide KeyParam, Resolve, Audience, Deliver;
      var target := ResolveIntegrationTarget(targets, KeyParam(d.params), d.actionName);
      if target.None? {
        return TargetNotFound;
      }
      if target.value.targetType != "http" {
        return UnsupportedType;
      }
      outcome := Send(target.value, accepts);
    }

    method Execute(d: Decision, targets: seq<ForwardTarget>, accepts: ForwardTarget -> bool) returns (outcome: Outcome)
      modifies this`attempts
      ensures var run := Execution(d, targets, telegram, accepts);
              attempts == old(attempts) + run.attempts && outcome == run.outcome
    {
      hide KeyParam, Resolve, Audience, Deliver;
      match d.actionName
      case "store_mysql" => outcome := Delivered;
      case "no_action" => outcome := Delivered;
      case "manual_review" => outcome := Delivered;
      case "forward_http" => outcome := ForwardHTTP(d, targets, accepts);
      case "forward_telegram" => outcome := ForwardTelegram(d, targets, accepts);
      case "slack_notify" => outcome := NotifyIntegration(d, targets, accepts);
      case "crm_upsert" => outcome := PostStructured(d, targets, accepts);
      case "ticket_create" => outcome := PostStructured(d, targets, accepts);
      case _ => outcome := UnknownAction;
    }
  }

  lemma NobodyLeft(targetType: string, accepts: ForwardTarget -> bool)
    ensures Deliver(Audience([], targetType), accepts) == Run([], Delivered)
  {
  }

  lemma DeliverStep(t: ForwardTarget, rest: seq<ForwardTarget>, accepts: ForwardTarget -> bool)
    ensures Deliver([t] + rest, accepts) ==
            if accepts(t) then Run([t] + Deliver(rest, accepts).attempts, Deliver(rest, accepts).outcome)
            else Run([t], DeliveryFailed)
  {
    assert ([t] + rest)[1..] == rest;
  }

  lemma AudienceFrom(targets: seq<ForwardTarget>, i: nat, targetType: string)
    requires i < |targets|
    ensures var t := Hydrate(targets[i]);
            Audience(targets[i..], targetType) ==
            if t.targetType == targetType && t.enabled then [t] + Audience(targets[i + 1..], targetType)
            else Audience(targets[i + 1..], targetType)
  {
    assert targets[i..][1..] == targets[i + 1..];
    hide Hydrate;
  }

  // ---- Validation and execution agree --------------------------------------

  lemma {:induction false} ResolvedFits(targets: seq<ForwardTarget>, key: string, action: string)
    requires Resolve(targets, key, action).Some?
    ensures key != "" ==> Resolve(targets, key, action).value.targetKey == key
    ensures exists raw :: raw in targets && Hydrate(raw) == Resolve(targets, key, action).value
  {
    hide Hydrate, Supports;
    if !Fits(targets[0], key, action) {
      ResolvedFits(targets[1..], key, action);
    }
  }

  /** Asking by the key of the first that fits any key finds that same target. */
  lemma {:induction false} ResolvedAgain(targets: seq<ForwardTarget>, action: string)
    requires Resolve(targets, "", action).Some?
    ensures var t := Resolve(targets, "", action).value;
            Resolve(targets, t.targetKey, action) == Some(t)
  {
    hide Hydrate, Supports;
    if !Fits(targets[0], "", action) {
      ResolvedAgain(targets[1..], action);
    }
  }

  /** Validation accepted the decision after looking up a target. */
  predicate Aimed(d: Decision, targets: seq<ForwardTarget>) {
    var action, key := TrimSpace(d.actionName), KeyParam(d.params);
    Validate(d, targets).1.None? && action !in PLAIN && !(key == "" && action == "forward_http")
  }

  function Chosen(d: Decision, targets: seq<ForwardTarget>): (t: ForwardTarget)
    requires Aimed(d, targets)
    ensures Resolve(targets, KeyParam(d.params), TrimSpace(d.actionName)) == Some(t)
    ensures Validate(d, targets).0 == WithTarget(d, t.targetKey)
  {
    Resolve(targets, KeyParam(d.params), TrimSpace(d.actionName)).value
  }

  /** What a target key must be to be read back as it was written. */
  predicate KeySurvives(key: string, action: string) {
    if TrimSpace(key) == "" then action != "forward_telegram" else TrimSpace(key) == key
  }

  /** A validated decision aims at the target validation chose, exactly when its key survives trimming. */
  lemma SameTarget(d: Decision, targets: seq<ForwardTarget>)
    requires Aimed(d, targets) && Trimmed(d.actionName)
    ensures var t := Chosen(d, targets);
            AimOf(Validate(d, targets).0, targets) == Only(t) <==> KeySurvives(t.targetKey, d.actionName)
  {
    TrimSpaceFixes(d.actionName);
    var t, asked := Chosen(d, targets), KeyParam(d.params);
    var again := TrimSpace(t.targetKey);
    assert KeyParam(Validate(d, targets).0.params) == again;
    ResolvedFits(targets, asked, d.actionName);
    if asked == "" {
      ResolvedAgain(targets, d.actionName);
    } else {
      AskedTrimmed(d.params);
    }
    if again != "" && Resolve(targets, again, d.actionName).Some? {
      ResolvedFits(targets, again, d.actionName);
    }
    hide TrimSpace, Hydrate, Resolve, Validate, Trimmed;
  }

  lemma AskedTrimmed(params: map<string, Json>)
    ensures TrimSpace(KeyParam(params)) == KeyParam(params)
  {
    if TARGET_KEY in params && params[TARGET_KEY].JString? {
      TrimSpaceIdempotent(params[TARGET_KEY].s);
    } else {
      TrimSpaceFixes("");
    }
    hide TrimSpace;
  }

  /** The action of a validated decision is unknown to execution exactly when its name is padded. */
  lemma UnknownIffPadded(d: Decision, targets: seq<ForwardTarget>)
    requires Validate(d, targets).1.None?
    ensures AimOf(Validate(d, targets).0, targets) == Unknown <==> !Trimmed(d.actionName)
  {
    TrimSpaceIsTrimmed(d.actionName);
    if Trimmed(d.actionName) {
      TrimSpaceFixes(d.actionName);
    }
    if d.actionName in FAMILIES {
      FamiliesTrimmed(d.actionName);
    }
    hide TrimSpace, Trimmed, Resolve, HasParams, KeyParam;
  }

  lemma FamiliesTrimmed(name: string)
    requires name in FAMILIES
    ensures Trimmed(name)
  {
  }

  lemma {:induction false} DeliverTried(audience: seq<ForwardTarget>, accepts: ForwardTarget -> bool)
    ensures var run := Deliver(audience, accepts);
            && run.outcome in {Delivered, DeliveryFailed} && run.attempts <= audience
            && (run.outcome == Delivered ==> run.attempts == audience)
  {
    if audience != [] && accepts(audience[0]) {
      DeliverTried(audience[1..], accepts);
    }
  }

  /** Where a decision points settles what can go wrong. */
  lemma ExecutionFollows(d: Decision, targets: seq<ForwardTarget>, telegram: bool, accepts: ForwardTarget -> bool)
    ensures var run, aim := Execution(d, targets, telegram, accepts), AimOf(d, targets);
            && (run.outcome == UnknownAction <==> aim == Unknown)
            && (run.outcome == TargetNotFound ==> aim == NotFound)
            && (aim.Only? ==> run.attempts == [] || run.attempts == [aim.target])
  {
    var aim := AimOf(d, targets);
    assert d.actionName == "forward_telegram" ==> aim != Unknown;
    match aim {
      case Everyone(kind) => DeliverTried(Audience(targets, kind), accepts);
      case Only(t) => DeliverTried([t], accepts);
      case _ =>
    }
    hide Deliver, Resolve, KeyParam, Audience;
  }

  /** A valid decision that looked up no target needs none. */
  lemma Unaimed(d: Decision, targets: seq<ForwardTarget>)
    requires Validate(d, targets).1.None? && Trimmed(d.actionName) && !Aimed(d, targets)
    ensures Validate(d, targets).0 == d && AimOf(d, targets) in {Nowhere, Everyone("http")}
  {
    TrimSpaceFixes(d.actionName);
    hide TrimSpace, Trimmed, KeyParam, Resolve, HasParams;
  }

  /** With tidy names and keys execution always knows the action and finds the target that was validated. */
  lemma ValidatedExecutes(d: Decision, targets: seq<ForwardTarget>, telegram: bool, accepts: ForwardTarget -> bool)
    requires Validate(d, targets).1.None? && Trimmed(d.actionName)
    requires forall raw | raw in targets :: Hydrate(raw).targetKey != "" && Trimmed(Hydrate(raw).targetKey)
    ensures var run := Execution(Validate(d, targets).0, targets, telegram, accepts);
            && run.outcome != UnknownAction && run.outcome != TargetNotFound
            && (Aimed(d, targets) ==> run.attempts == [] || run.attempts == [Chosen(d, targets)])
  {
    ExecutionFollows(Validate(d, targets).0, targets, telegram, accepts);
    if Aimed(d, targets) {
      SameTarget(d, targets);
      ResolvedFits(targets, KeyParam(d.params), TrimSpace(d.actionName));
      TrimSpaceFixes(Chosen(d, targets).targetKey);
    } else {
      Unaimed(d, targets);
    }
    hide AimOf, Execution, Validate, Aimed, TrimSpace, Hydrate, Resolve;
  }

  /** A padded key is lost: the decision validates, and execution does not find the target. */
  lemma PaddedKeyMisses()
    ensures exists d: Decision, targets: seq<ForwardTarget> ::
              Validate(d, targets).1.None? && Trimmed(d.actionName) && AimOf(Validate(d, targets).0, targets) == NotFound
  {
    var target := ForwardTarget("id", "http", Some(TargetConfig(Some(" crm"), "", None, [])), "", "", true, None);
    var d := Decision("slack_notify", "", map[], "text", []);
    assert Supports(Hydrate(target), "slack_notify") && Hydrate(target).targetKey == " crm";
    TrimSpaceFixes("slack_notify");
    TrimSpaceFixes("text");
    TrimSpaceFixes("crm");
    assert TrimSpace(" crm") == "crm";
    assert Resolve([target], "", "slack_notify") == Some(Hydrate(target));
    assert [target][1..] == [];
    assert Resolve([target], "crm", "slack_notify") == None;
    var out := WithTarget(d, " crm");
    assert Validate(d, [target]) == (out, None);
    assert AimOf(out, [target]) == NotFound;
  }

  /** A padded name is lost: the decision validates as it is, and execution does not know it. */
  lemma PaddedNameUnknown(telegram: bool, accepts: ForwardTarget -> bool)
    ensures var d := Decision(" no_action", "", map[], "", []);
            Validate(d, []) == (d, None) && Execution(d, [], telegram, accepts).outcome == UnknownAction
  {
    TrimSpaceFixes("no_action");
    assert TrimSpace(" no_action") == "no_action";
  }
}
