/**
 Choosing the integration target of a decision, once when the decision is validated and
 again when it is executed (internal/service/integration_targets.go:44-192,
 internal/service/actions.go:46-144). A target's configuration text is modelled decoded.
 */
module Targets {
  import opened Text
  import opened Json

  /** The decoded configuration: only what target selection reads. */
  datatype TargetConfig = TargetConfig(targetKey: Option<string>, purpose: string, enabled: Option<bool>, allowed: seq<string>)

  /** allowed is the decoded list of actions; None when the text is blank or undecodable. */
  datatype ForwardTarget = ForwardTarget(
    id: string,
    targetType: string,
    config: Option<TargetConfig>,
    targetKey: string,
    purpose: string,
    enabled: bool,
    allowed: Option<seq<string>>)

  datatype Decision = Decision(
    actionName: string,
    reason: string,
    params: map<string, Json>,
    processedText: string,
    tags: seq<string>)

  function Config(t: ForwardTarget): TargetConfig {
    match t.config
    case None => TargetConfig(Some(TrimSpace(t.targetType)), "", None, [])
    case Some(c) => if c.targetKey.Some? then c else c.(targetKey := Some(TrimSpace(t.targetType)))
  }

  function Hydrate(t: ForwardTarget): ForwardTarget {
    var c := Config(t);
    t.(targetKey := if c.targetKey.value == "" then t.id else c.targetKey.value,
       purpose := c.purpose,
       enabled := c.enabled.None? || c.enabled.value,
       allowed := if c.allowed != [] then Some(c.allowed) else t.allowed)
  }

  /** Execution hydrates what resolution has hydrated already; the second time changes nothing. */
  lemma HydrateIdempotent(t: ForwardTarget)
    ensures Hydrate(Hydrate(t)) == Hydrate(t)
  {
    hide TrimSpace;
    assert Config(Hydrate(t)) == Config(t);
  }

  /** BuildIntegrationTargetConfig, which the HTTP handlers write targets with. */
  function BuildConfig(targetKey: string, purpose: string, enabled: bool, allowed: seq<string>): TargetConfig {
    TargetConfig(Some(TrimSpace(targetKey)), TrimSpace(purpose), Some(enabled), allowed)
  }

  /** A target written that way under a key that is not blank has a trimmed, non-empty key. */
  lemma BuiltKeyTidy(t: ForwardTarget, targetKey: string, purpose: string, enabled: bool, allowed: seq<string>)
    requires t.config == Some(BuildConfig(targetKey, purpose, enabled, allowed)) && TrimSpace(targetKey) != ""
    ensures Hydrate(t).targetKey != "" && Trimmed(Hydrate(t).targetKey)
  {
    TrimSpaceIsTrimmed(targetKey);
    hide TrimSpace, Trimmed;
  }

  predicate Supports(t: ForwardTarget, action: string) {
    if t.allowed.Some? && t.allowed.value != [] then
      exists item :: item in t.allowed.value && ToLower(TrimSpace(item)) == ToLower(action)
    else if t.targetType == "http" then action in {"forward_http", "crm_upsert", "ticket_create", "slack_notify"}
    else if t.targetType == "telegram" then action in {"forward_telegram", "slack_notify"}
    else action == "forward_http"
  }

  predicate Fits(raw: ForwardTarget, key: string, action: string) {
    var t := Hydrate(raw);
    t.enabled && (key == "" || t.targetKey == key) && Supports(t, action)
  }

  /** The first fitting target, hydrated. */
  function Resolve(targets: seq<ForwardTarget>, key: string, action: string): Option<ForwardTarget> {
    if targets == [] then None
    else if Fits(targets[0], key, action) then Some(Hydrate(targets[0]))
    else Resolve(targets[1..], key, action)
  }

  method TargetSupportsAction(target: ForwardTarget, action: string) returns (ok: bool)
    ensures ok == Supports(target, action)
  {
    if target.allowed.Some? {
      var allowed := target.allowed.value;
      if |allowed| > 0 {
        for i := 0 to |allowed|
          invariant forall item | item in allowed[..i] :: ToLower(TrimSpace(item)) != ToLower(action)
        {
          if ToLower(TrimSpace(allowed[i])) == ToLower(action) {
            return true;
          }
        }
        assert allowed[..|allowed|] == allowed;
        return false;
      }
    }
    match target.targetType
    case "http" => return action == "forward_http" || action == "crm_upsert" || action == "ticket_create" || action == "slack_notify";
    case "telegram" => return action == "forward_telegram" || action == "slack_notify";
    case _ => return action == "forward_http";
  }

  method ResolveIntegrationTarget(targets: seq<ForwardTarget>, targetKey: string, action: string) returns (r: Option<ForwardTarget>)
    ensures r == Resolve(targets, targetKey, action)
  {
    hide Hydrate, Supports;
    for i := 0 to |targets|
      invariant Resolve(targets, targetKey, action) == Resolve(targets[i..], targetKey, action)
    {
      assert targets[i..][1..] == targets[i + 1..];
      var target := Hydrate(targets[i]);
      if !target.enabled {
        continue;
      }
      if targetKey != "" && target.targetKey != targetKey {
        continue;
      }
      var supported := TargetSupportsAction(target, action);
      if supported {
        return Some(target);
      }
    }
    return None;
  }

  // ---- Validation ----------------------------------------------------------

  const TARGET_KEY := "integration_target_key"

  const FAMILIES: set<string> :=
    {"store_mysql", "no_action", "manual_review", "forward_http", "forward_telegram", "slack_notify", "crm_upsert", "ticket_create"}

  const PLAIN: set<string> := {"store_mysql", "no_action", "manual_review"}

  datatype Problem = MissingAction | UnknownFamily | NoTarget | MissingParams

  /** The text parameter, trimmed; empty when it is absent or not text. */
  function KeyParam(params: map<string, Json>): string {
    if TARGET_KEY in params && params[TARGET_KEY].JString? then TrimSpace(params[TARGET_KEY].s) else ""
  }

  predicate HasMapParam(params: map<string, Json>, keys: seq<string>) {
    exists k :: k in keys && k in params && params[k].JObject?
  }

  /** What the action needs besides a target. */
  predicate HasParams(d: Decision, action: string) {
    match action
    case "crm_upsert" => HasMapParam(d.params, ["entity_payload", "lead"])
    case "ticket_create" => HasMapParam(d.params, ["entity_payload", "ticket"])
    case "slack_notify" => HasMapParam(d.params, ["message_fields"]) || TrimSpace(d.processedText) != ""
    case _ => true
  }

  function WithTarget(d: Decision, key: string): Decision {
    d.(params := d.params[TARGET_KEY := JString(key)])
  }

  function Validate(d: Decision, targets: seq<ForwardTarget>): (Decision, Option<Problem>) {
    var action, key := TrimSpace(d.actionName), KeyParam(d.params);
    if action == "" then (d, Some(MissingAction))
    else if action !in FAMILIES then (d, Some(UnknownFamily))
    else if action in PLAIN || (key == "" && action == "forward_http") then (d, None)
    else match Resolve(targets, key, action)
      case None => (d, Some(NoTarget))
      case Some(t) => (WithTarget(d, t.targetKey), if HasParams(d, action) then None else Some(MissingParams))
  }

  method HasMapParamAmong(params: map<string, Json>, keys: seq<string>) returns (ok: bool)
    ensures ok == HasMapParam(params, keys)
  {
    for i := 0 to |keys|
      invariant forall k | k in keys[..i] :: !(k in params && params[k].JObject?)
    {
      if keys[i] in params {
        if params[keys[i]].JObject? {
          return true;
        }
      }
    }
    assert keys[..|keys|] == keys;
    return false;
  }

  method ValidateAndNormalizeDecision(d: Decision, targets: seq<ForwardTarget>) returns (out: Decision, problem: Option<Problem>)
    ensures (out, problem) == Validate(d, targets)
  {
    hide HasMapParam, TrimSpace, Resolve;
    out := d;
    var action := TrimSpace(d.actionName);
    if action == "" {
      return out, Some(MissingAction);
    }
    if action !in FAMILIES {
      return out, Some(UnknownFamily);
    }
    if action == "store_mysql" || action == "no_action" || action == "manual_review" {
      return out, None;
    }
    var targetKey := "";
    if TARGET_KEY in d.params && d.params[TARGET_KEY].JString? {
      targetKey := TrimSpace(d.params[TARGET_KEY].s);
    }
    if targetKey == "" && action == "forward_http" {
      return out, None;
    }
    var target := ResolveIntegrationTarget(targets, targetKey, action);
    if target.None? {
      return out, Some(NoTarget);
    }
    out := out.(params := out.params[TARGET_KEY := JString(target.value.targetKey)]);
    var ok := true;
    match action {
      case "crm_upsert" => ok := HasMapParamAmong(out.params, ["entity_payload", "lead"]);
      case "ticket_create" => ok := HasMapParamAmong(out.params, ["entity_payload", "ticket"]);
      case "slack_notify" =>
        ok := HasMapParamAmong(out.params, ["message_fields"]);
        ok := ok || TrimSpace(out.processedText) != "";
      case _ =>
    }
    KeyIsNoParam(d.params, target.value.targetKey);
    problem := if ok then None else Some(MissingParams);
  }

  /** Writing the target key does not touch the parameters the actions ask for. */
  lemma KeyIsNoParam(params: map<string, Json>, key: string)
    ensures var next := params[TARGET_KEY := JString(key)];
            forall keys | TARGET_KEY !in keys :: HasMapParam(next, keys) <==> HasMapParam(params, keys)
  {
    var next := params[TARGET_KEY := JString(key)];
    forall keys | TARGET_KEY !in keys
      ensures HasMapParam(next, keys) <==> HasMapParam(params, keys)
    {
      assert forall k | k in keys :: k in next <==> k in params;
    }
  }
}
