/**
 Which target an action goes to, what a decision is refused for, and what its deliveries come
 to (internal/service/integration_targets.go:44-210, internal/service/actions.go:50-144), case
 by case.
 */
module TargetLaws {
  import opened Text
  import opened Json
  import opened Targets
  import opened Dispatch

  // ---- Hydration -----------------------------------------------------------

  /** What a target's configuration settles, and what stands in where it says nothing. */
  lemma HydratedIs(t: ForwardTarget)
    ensures var h, kind := Hydrate(t), TrimSpace(t.targetType);
            && h.id == t.id && h.targetType == t.targetType && h.config == t.config
            && (h.enabled <==> t.config.None? || t.config.value.enabled != Some(false))
            && h.purpose == (if t.config.None? then "" else t.config.value.purpose)
            && (t.config.Some? && t.config.value.targetKey.Some? && t.config.value.targetKey.value != "" ==>
                  h.targetKey == t.config.value.targetKey.value)
            && (t.config.Some? && t.config.value.targetKey == Some("") ==> h.targetKey == t.id)
            && (t.config.None? || t.config.value.targetKey.None? ==> h.targetKey == if kind == "" then t.id else kind)
            && (t.config.Some? && t.config.value.allowed != [] ==> h.allowed == Some(t.config.value.allowed))
            && (t.config.None? || t.config.value.allowed == [] ==> h.allowed == t.allowed)
  {
    hide TrimSpace;
  }

  // ---- Choosing ------------------------------------------------------------

  /** A list that is not empty has the action in it up to case and outer space; else the kind of target decides. */
  predicate Allows(t: ForwardTarget, action: string) {
    if t.allowed.Some? && |t.allowed.value| > 0 then
      exists i :: 0 <= i < |t.allowed.value| && ToLower(TrimSpace(t.allowed.value[i])) == ToLower(action)
    else
      || (action == "forward_http" && t.targetType != "telegram")
      || (action == "forward_telegram" && t.targetType == "telegram")
      || (action == "slack_notify" && t.targetType in {"http", "telegram"})
      || (action in {"crm_upsert", "ticket_create"} && t.targetType == "http")
  }

  predicate Suits(t: ForwardTarget, key: string, action: string) {
    t.enabled && (key != "" ==> t.targetKey == key) && Allows(t, action)
  }

  lemma FitsIff(raw: ForwardTarget, key: string, action: string)
    ensures Fits(raw, key, action) <==> Suits(Hydrate(raw), key, action)
  {
    hide Hydrate, TrimSpace, ToLower;
  }

  predicate FirstSuited(targets: seq<ForwardTarget>, key: string, action: string, i: nat) {
    i < |targets| && Suits(Hydrate(targets[i]), key, action) && forall j | 0 <= j < i :: !Suits(Hydrate(targets[j]), key, action)
  }

  /** The first target that suits is resolved, and none only if none does. */
  lemma {:induction false} ResolvedFirst(targets: seq<ForwardTarget>, key: string, action: string) returns (i: nat)
    ensures match Resolve(targets, key, action)
            case None => forall j | 0 <= j < |targets| :: !Suits(Hydrate(targets[j]), key, action)
            case Some(t) => FirstSuited(targets, key, action, i) && t == Hydrate(targets[i])
  {
    hide Hydrate, Suits, Fits;
    i := 0;
    if targets != [] {
      FitsIff(targets[0], key, action);
      var k := ResolvedFirst(targets[1..], key, action);
      assert forall j | 1 <= j < |targets| :: targets[j] == targets[1..][j - 1];
      if !Fits(targets[0], key, action) {
        i := k + 1;
      }
    }
  }

  lemma SomeSuits(targets: seq<ForwardTarget>, key: string, action: string)
    ensures Resolve(targets, key, action).Some? <==> exists raw :: raw in targets && Suits(Hydrate(raw), key, action)
  {
    var i := ResolvedFirst(targets, key, action);
    hide Hydrate, Suits, Resolve;
    if raw :| raw in targets && Suits(Hydrate(raw), key, action) {
      var j :| 0 <= j < |targets| && targets[j] == raw;
    }
  }

  // ---- Validation ----------------------------------------------------------

  /** The decision names this target, trimmed; no text names none. */
  predicate NamesTarget(d: Decision, key: string) {
    if "integration_target_key" in d.params && d.params["integration_target_key"].JString?
    then key == TrimSpace(d.params["integration_target_key"].s) else key == ""
  }

  predicate HasObject(d: Decision, name: string) {
    name in d.params && d.params[name].JObject?
  }

  /** What the action needs to say. */
  predicate SaysEnough(d: Decision, action: string) {
    && (action == "crm_upsert" ==> HasObject(d, "entity_payload") || HasObject(d, "lead"))
    && (action == "ticket_create" ==> HasObject(d, "entity_payload") || HasObject(d, "ticket"))
    && (action == "slack_notify" ==> HasObject(d, "message_fields") || TrimSpace(d.processedText) != "")
  }

  predicate NeedsTarget(action: string, key: string) {
    || action in {"forward_telegram", "slack_notify", "crm_upsert", "ticket_create"}
    || (action == "forward_http" && key != "")
  }

  lemma SaysEnoughIff(d: Decision, action: string)
    ensures HasParams(d, action) <==> SaysEnough(d, action)
  {
    hide TrimSpace;
    assert "entity_payload" in ["entity_payload", "lead"] && "lead" in ["entity_payload", "lead"];
    assert "entity_payload" in ["entity_payload", "ticket"] && "ticket" in ["entity_payload", "ticket"];
    assert "message_fields" in ["message_fields"];
  }

  /** Why a decision is refused, and that nothing else is. */
  lemma RefusedFor(d: Decision, targets: seq<ForwardTarget>, key: string)
    requires NamesTarget(d, key)
    ensures var action, problem := TrimSpace(d.actionName), Validate(d, targets).1;
            var suited := exists raw :: raw in targets && Suits(Hydrate(raw), key, action);
            problem ==
            if action == "" then Some(MissingAction)
            else if action in {"store_mysql", "no_action", "manual_review"} then None
            else if NeedsTarget(action, key) then
              if !suited then Some(NoTarget) else if SaysEnough(d, action) then None else Some(MissingParams)
            else if action == "forward_http" then None
            else Some(UnknownFamily)
  {
    var action := TrimSpace(d.actionName);
    SaysEnoughIff(d, action);
    SomeSuits(targets, key, action);
    hide TrimSpace, Hydrate, Resolve, Suits, HasParams, SaysEnough;
  }

  /** A decision that needs a target comes out with the key of the first that suits; all else stays as it was. */
  lemma WrittenKey(d: Decision, targets: seq<ForwardTarget>, key: string) returns (i: nat)
    requires NamesTarget(d, key)
    ensures var action, out := TrimSpace(d.actionName), Validate(d, targets).0;
            if NeedsTarget(action, key) && FirstSuited(targets, key, action, i) then
              && out.params == d.params["integration_target_key" := JString(Hydrate(targets[i]).targetKey)]
              && (out.actionName, out.reason, out.processedText, out.tags) == (d.actionName, d.reason, d.processedText, d.tags)
            else
              && out == d
              && (NeedsTarget(action, key) ==> forall raw | raw in targets :: !Suits(Hydrate(raw), key, action))
  {
    i := ResolvedFirst(targets, key, TrimSpace(d.actionName));
    hide TrimSpace, Hydrate, Resolve, Suits, HasParams;
  }

  // ---- Deliveries ----------------------------------------------------------

  /** The audience is made of the enabled targets of the kind, in the order listed. */
  lemma {:induction false} AudienceGrows(targets: seq<ForwardTarget>, raw: ForwardTarget, kind: string)
    ensures Audience([], kind) == []
    ensures Audience(targets + [raw], kind) ==
            Audience(targets, kind) + if Hydrate(raw).enabled && Hydrate(raw).targetType == kind then [Hydrate(raw)] else []
  {
    hide Hydrate;
    if targets == [] {
      assert [raw][1..] == [] && [] + [raw] == [raw];
    } else {
      assert (targets + [raw])[0] == targets[0] && (targets + [raw])[1..] == targets[1..] + [raw];
      AudienceGrows(targets[1..], raw, kind);
    }
  }

  /** Deliveries succeed if and only if everyone accepts; a failed run ends with the first who does not. */
  lemma {:induction false} DeliveredIff(audience: seq<ForwardTarget>, accepts: ForwardTarget -> bool)
    ensures var run := Deliver(audience, accepts);
            && (run.outcome == Delivered <==> forall t | t in audience :: accepts(t))
            && (run.outcome == Delivered ==> run.attempts == audience)
            && (run.outcome != Delivered ==>
                  && run.outcome == DeliveryFailed && 0 < |run.attempts| <= |audience|
                  && run.attempts == audience[..|run.attempts|]
                  && !accepts(run.attempts[|run.attempts| - 1])
                  && forall j | 0 <= j < |run.attempts| - 1 :: accepts(run.attempts[j]))
  {
    if audience != [] {
      assert audience == [audience[0]] + audience[1..];
      if accepts(audience[0]) {
        DeliveredIff(audience[1..], accepts);
        hide Deliver;
      }
    }
  }

  /** The kinds of target that can be sent this action. */
  predicate CanSend(action: string, kind: string) {
    && (action in {"crm_upsert", "ticket_create"} ==> kind == "http")
    && (action == "slack_notify" ==> kind in {"http", "telegram"})
  }

  predicate UsesTelegram(action: string, kind: string) {
    action == "forward_telegram" || (action == "slack_notify" && kind == "telegram")
  }

  /** Actions that send nothing, names that are not known, and messages no client is there for. */
  lemma NothingSent(d: Decision, targets: seq<ForwardTarget>, telegram: bool, accepts: ForwardTarget -> bool)
    ensures var run, silent := Execution(d, targets, telegram, accepts), {"store_mysql", "no_action", "manual_review"};
            var sending := {"forward_http", "forward_telegram", "slack_notify", "crm_upsert", "ticket_create"};
            && (d.actionName in silent ==> run == Run([], Delivered))
            && (d.actionName !in silent + sending <==> run == Run([], UnknownAction))
            && (d.actionName == "forward_telegram" && !telegram ==> run == Run([], TelegramUnavailable))
  {
    var aim := AimOf(d, targets);
    ExecutionFollows(d, targets, telegram, accepts);
    hide Resolve, Audience, Deliver, KeyParam;
  }

  /** Without a target key a forward goes to its whole audience. */
  lemma ForwardedToAll(d: Decision, targets: seq<ForwardTarget>, telegram: bool, accepts: ForwardTarget -> bool)
    requires NamesTarget(d, "")
    ensures d.actionName == "forward_http" ==>
              Execution(d, targets, telegram, accepts) == Deliver(Audience(targets, "http"), accepts)
    ensures d.actionName == "forward_telegram" && telegram ==>
              Execution(d, targets, telegram, accepts) == Deliver(Audience(targets, "telegram"), accepts)
  {
    hide Resolve, Audience, Deliver, TrimSpace;
  }

  lemma SentOnce(t: ForwardTarget, accepts: ForwardTarget -> bool)
    ensures Deliver([t], accepts) == Run([t], if accepts(t) then Delivered else DeliveryFailed)
  {
    assert [t][1..] == [];
  }

  lemma AimedAtOne(d: Decision, targets: seq<ForwardTarget>, key: string)
    requires NamesTarget(d, key)
    requires d.actionName in {"slack_notify", "crm_upsert", "ticket_create"}
             || (key != "" && d.actionName in {"forward_http", "forward_telegram"})
    ensures AimOf(d, targets) ==
            match Resolve(targets, key, d.actionName)
            case None => NotFound
            case Some(t) => Only(t)
  {
    hide Resolve, TrimSpace;
  }

  lemma AimDecides(d: Decision, targets: seq<ForwardTarget>, telegram: bool, accepts: ForwardTarget -> bool)
    requires d.actionName == "forward_telegram" ==> telegram
    ensures var run, aim := Execution(d, targets, telegram, accepts), AimOf(d, targets);
            && (aim.NotFound? ==> run == Run([], TargetNotFound))
            && (aim.Only? ==>
                  run == if !CanSend(d.actionName, aim.target.targetType) then Run([], UnsupportedType)
                         else if UsesTelegram(d.actionName, aim.target.targetType) && !telegram then Run([], TelegramUnavailable)
                         else Run([aim.target], if accepts(aim.target) then Delivered else DeliveryFailed))
  {
    hide AimOf, Audience;
    var aim := AimOf(d, targets);
    if aim.Only? {
      SentOnce(aim.target, accepts);
    }
    hide Deliver;
  }

  /** Any other sending goes to the first target that suits, if its kind can be sent it. */
  lemma SentToOne(d: Decision, targets: seq<ForwardTarget>, key: string, telegram: bool, accepts: ForwardTarget -> bool)
    returns (i: nat)
    requires NamesTarget(d, key)
    requires d.actionName in {"slack_notify", "crm_upsert", "ticket_create"}
             || (key != "" && d.actionName in {"forward_http", "forward_telegram"})
    requires d.actionName == "forward_telegram" ==> telegram
    ensures var run := Execution(d, targets, telegram, accepts);
            if FirstSuited(targets, key, d.actionName, i) then
              var t := Hydrate(targets[i]);
              if !CanSend(d.actionName, t.targetType) then run == Run([], UnsupportedType)
              else if UsesTelegram(d.actionName, t.targetType) && !telegram then run == Run([], TelegramUnavailable)
              else run == Run([t], if accepts(t) then Delivered else DeliveryFailed)
            else
              && run == Run([], TargetNotFound)
              && forall raw | raw in targets :: !Suits(Hydrate(raw), key, d.actionName)
  {
    i := ResolvedFirst(targets, key, d.actionName);
    AimedAtOne(d, targets, key);
    AimDecides(d, targets, telegram, accepts);
    hide Resolve, AimOf, Execution, Hydrate, Suits, NamesTarget, CanSend, UsesTelegram;
  }
}
