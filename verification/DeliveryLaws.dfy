/**
 Redeliveries by what is in the payloads (internal/service/actions.go:502-542, 900-932): which
 field identifies a payload, and what its deliveries come to, whatever happens between them.
 */
module DeliveryLaws {
  import opened Text
  import opened Keys
  import opened Json
  import opened EventStore
  import opened Deliveries

  // ---- The identifier of a payload -----------------------------------------

  /** The text of a field without outer white space; blank unless it is a text or a number. */
  function FieldText(fields: map<string, Json>, name: string, numeral: real -> string): string {
    if name !in fields then ""
    else match fields[name]
      case JString(s) => TrimSpace(s)
      case JNumber(x) => TrimSpace(numeral(x))
      case _ => ""
  }

  function MessageText(fields: map<string, Json>, name: string, numeral: real -> string): string {
    if "message" in fields && fields["message"].JObject? then FieldText(fields["message"].fields, name, numeral) else ""
  }

  /** Where an identifier is looked for, most telling first. */
  function Places(fields: map<string, Json>, numeral: real -> string): (texts: seq<string>)
    ensures |texts| == 5
  {
    [FieldText(fields, "event_id", numeral),
     FieldText(fields, "provider_message_id", numeral),
     FieldText(fields, "request_id", numeral),
     MessageText(fields, "provider_message_id", numeral),
     MessageText(fields, "id", numeral)]
  }

  lemma FirstOf(fields: map<string, Json>, names: seq<string>, numeral: real -> string)
    requires names != []
    ensures var text := FieldText(fields, names[0], numeral);
            FirstText(fields, names, numeral) == if text != "" then text else FirstText(fields, names[1..], numeral)
  {
    TrimSpaceFixes("");
    hide TrimSpace;
  }

  lemma FirstOfThree(fields: map<string, Json>, a: string, b: string, c: string, numeral: real -> string)
    ensures var (x, y, z) := (FieldText(fields, a, numeral), FieldText(fields, b, numeral), FieldText(fields, c, numeral));
            FirstText(fields, [a, b, c], numeral) == if x != "" then x else if y != "" then y else z
  {
    hide FieldText;
    FirstOf(fields, [a, b, c], numeral);
    assert [a, b, c][1..] == [b, c];
    FirstOf(fields, [b, c], numeral);
    assert [b, c][1..] == [c];
    FirstOf(fields, [c], numeral);
  }

  lemma FirstOfTwo(fields: map<string, Json>, a: string, b: string, numeral: real -> string)
    ensures var (x, y) := (FieldText(fields, a, numeral), FieldText(fields, b, numeral));
            FirstText(fields, [a, b], numeral) == if x != "" then x else y
  {
    hide FieldText;
    FirstOf(fields, [a, b], numeral);
    assert [a, b][1..] == [b];
    FirstOf(fields, [b], numeral);
  }

  /** The identifier is the first of the five texts that is not blank, and blank only if all are. */
  lemma SourceIsFirst(payload: Json, numeral: real -> string)
    requires payload.JObject?
    ensures var (source, texts) := (SourceEventId(payload, numeral), Places(payload.fields, numeral));
            && (source == "" <==> forall k | 0 <= k < 5 :: texts[k] == "")
            && forall k | 0 <= k < 5 && texts[k] != "" && forall j | 0 <= j < k :: texts[j] == "" :: source == texts[k]
  {
    hide FirstText, FieldText;
    var fields, texts := payload.fields, Places(payload.fields, numeral);
    FirstOfThree(fields, "event_id", "provider_message_id", "request_id", numeral);
    if "message" in fields && fields["message"].JObject? {
      FirstOfTwo(fields["message"].fields, "provider_message_id", "id", numeral);
    }
    var source := SourceEventId(payload, numeral);
    assert source == if texts[0] != "" then texts[0] else if texts[1] != "" then texts[1] else if texts[2] != "" then texts[2]
                     else if texts[3] != "" then texts[3] else texts[4];
    hide SourceEventId, Places;
    forall k | 0 <= k < 5 && texts[k] != "" && forall j | 0 <= j < k :: texts[j] == ""
      ensures source == texts[k]
    {
      assert k > 0 ==> texts[0] == "";
      assert k > 1 ==> texts[1] == "";
      assert k > 2 ==> texts[2] == "";
      assert k > 3 ==> texts[3] == "";
    }
  }

  lemma NoObjectNoSource(payload: Json, numeral: real -> string)
    requires !payload.JObject?
    ensures SourceEventId(payload, numeral) == ""
  {
  }

  /** An event_id identifies its payload, whatever else is in it. */
  predicate HasEventId(payload: Json, id: string, numeral: real -> string) {
    payload.JObject? && FieldText(payload.fields, "event_id", numeral) == id
  }

  lemma EventIdIdentifies(payload: Json, id: string, numeral: real -> string)
    requires HasEventId(payload, id, numeral) && id != ""
    ensures SourceEventId(payload, numeral) == id
  {
    hide SourceEventId, FieldText;
    SourceIsFirst(payload, numeral);
    assert Places(payload.fields, numeral)[0] == id;
  }

  // ---- What every call knows and says --------------------------------------

  /** Past its look, a call goes by the identifier of its payload if that has one. */
  predicate Knows(call: Call, numeral: real -> string) {
    var own := SourceEventId(call.payload, numeral);
    call.phase.Received? || own == "" || call.source == own
  }

  /** The answer is true: a duplicate of a stored event of its own, or an event with that outcome. */
  predicate Honest(db: Db, call: Call) {
    match call.phase
    case Answered(Duplicate(id)) =>
      id in db.events && db.events[id].accountId == call.accountId && db.events[id].source == call.source
    case Answered(Handled(id, ok)) => id in db.events && db.events[id].status == if ok then "processed" else "failed"
    case _ => true
  }

  predicate AllTrue(w: World, numeral: real -> string) {
    forall i | 0 <= i < |w.calls| :: Knows(w.calls[i], numeral) && Honest(w.db, w.calls[i])
  }

  lemma FoundIsOwn(db: Db, accountId: string, source: string)
    requires Indexed(db) && PlainAccount(accountId) && forall id | id in db.events :: PlainAccount(db.events[id].accountId)
    ensures var found := Find(db, accountId, source);
            found.Some? ==> found.value in db.events
                            && db.events[found.value].accountId == accountId && db.events[found.value].source == source
  {
    hide TrimSpace, Scoped, EventIndexed, PlainAccount;
    var found := Find(db, accountId, source);
    if found.Some? {
      ScopedInjective(accountId, source, db.events[found.value].accountId, db.events[found.value].source);
    }
  }

  /** A call that stored nothing new leaves the others' answers alone. */
  lemma OthersTrue(w: World, next: World, i: nat, numeral: real -> string)
    requires AllTrue(w, numeral) && i < |w.calls| && |next.calls| == |w.calls|
    requires forall j | 0 <= j < |w.calls| && j != i :: next.calls[j] == w.calls[j]
    requires Grows(w.db, next.db)
    requires forall j | 0 <= j < |w.calls| && j != i && Made(w.calls[j]).Some? && Made(w.calls[j]).value in w.db.events ::
               next.db.events[Made(w.calls[j]).value].status == w.db.events[Made(w.calls[j]).value].status
    requires Knows(next.calls[i], numeral) && Honest(next.db, next.calls[i])
    ensures AllTrue(next, numeral)
  {
    hide Knows;
    forall j | 0 <= j < |w.calls|
      ensures Knows(next.calls[j], numeral) && Honest(next.db, next.calls[j])
    {
      if j != i {
        assert Honest(w.db, w.calls[j]);
      }
    }
  }

  lemma LookTrue(w: World, i: nat, env: Env, numeral: real -> string)
    requires Sound(w) && PlainCalls(w) && AllTrue(w, numeral) && i < |w.calls| && w.calls[i].phase.Received?
    ensures AllTrue(Deliveries.Step(w, i, env, numeral), numeral)
  {
    var call := w.calls[i];
    PlainEvents(w);
    FoundIsOwn(w.db, call.accountId, SourceEventId(call.payload, numeral));
    hide Find, SourceEventId, Indexed, Shared, Logged, AllSound, PlainAccount;
    OthersTrue(w, Deliveries.Step(w, i, env, numeral), i, numeral);
  }

  lemma TransformTrue(w: World, i: nat, env: Env, numeral: real -> string)
    requires AllTrue(w, numeral) && i < |w.calls| && w.calls[i].phase.Transforming?
    ensures AllTrue(Deliveries.Step(w, i, env, numeral), numeral)
  {
    hide SourceEventId;
    assert Knows(w.calls[i], numeral);
    OthersTrue(w, Deliveries.Step(w, i, env, numeral), i, numeral);
  }

  lemma StoreTrue(w: World, i: nat, env: Env, numeral: real -> string)
    requires Sound(w) && AllTrue(w, numeral) && i < |w.calls| && w.calls[i].phase.Storing?
    ensures AllTrue(Deliveries.Step(w, i, env, numeral), numeral)
  {
    var call := w.calls[i];
    var event := Event(call.accountId, call.source, "processing", "");
    CreateGrows(w.db, event);
    SoundParts(w, i);
    hide SourceEventId, Indexed, Shared, Logged, AllSound, Grows, Scoped;
    assert Knows(call, numeral);
    OthersTrue(w, Deliveries.Step(w, i, env, numeral), i, numeral);
  }

  lemma RunTrue(w: World, i: nat, env: Env, numeral: real -> string)
    requires AllTrue(w, numeral) && i < |w.calls| && w.calls[i].phase.Deciding?
    ensures AllTrue(Deliveries.Step(w, i, env, numeral), numeral)
  {
    hide SourceEventId;
    assert Knows(w.calls[i], numeral);
    OthersTrue(w, Deliveries.Step(w, i, env, numeral), i, numeral);
  }

  /** Only its maker settles an event, so no other answer about it is overwritten. */
  lemma SettleTrue(w: World, i: nat, env: Env, numeral: real -> string)
    requires Sound(w) && AllTrue(w, numeral) && i < |w.calls| && w.calls[i].phase.Settling?
    ensures AllTrue(Deliveries.Step(w, i, env, numeral), numeral)
  {
    var call := w.calls[i];
    CallAt(w, i);
    UpdateGrows(w.db, call.phase.id, StatusOf(call.phase.ok), env.action);
    assert Knows(call, numeral);
    hide SourceEventId, Indexed, Logged, AllSound, Grows, Trimmed, Scoped;
    forall j | 0 <= j < |w.calls| && j != i
      ensures Made(w.calls[j]) != Some(call.phase.id)
    {
      assert Made(w.calls[i]) == Some(call.phase.id);
    }
    OthersTrue(w, Deliveries.Step(w, i, env, numeral), i, numeral);
  }

  lemma {:induction false} AlwaysTrue(ops: seq<Op>, numeral: real -> string)
    requires PlainOps(ops)
    ensures AllTrue(After(ops, numeral), numeral)
  {
    if ops != [] {
      var init := ops[..|ops| - 1];
      assert forall op | op in init :: op in ops;
      var w := After(init, numeral);
      AlwaysTrue(init, numeral);
      AlwaysSound(init, numeral);
      CallsStayPlain(init, numeral);
      hide Sound, PlainCalls, Deliveries.Step;
      match ops[|ops| - 1] {
        case Arrive(a, payload) =>
          hide After, SourceEventId;
        case Advance(i, env) =>
          if i < |w.calls| {
            StepTrue(w, i, env, numeral);
          }
      }
    }
  }

  lemma StepTrue(w: World, i: nat, env: Env, numeral: real -> string)
    requires Sound(w) && PlainCalls(w) && AllTrue(w, numeral) && i < |w.calls|
    ensures AllTrue(Deliveries.Step(w, i, env, numeral), numeral)
  {
    hide Sound, PlainCalls, AllTrue;
    match w.calls[i].phase
    case Received => LookTrue(w, i, env, numeral);
    case Transforming => TransformTrue(w, i, env, numeral);
    case Storing => StoreTrue(w, i, env, numeral);
    case Deciding(_) => RunTrue(w, i, env, numeral);
    case Settling(_, _) => SettleTrue(w, i, env, numeral);
    case Answered(_) =>
  }

  // ---- Deliveries with one event_id ----------------------------------------

  /** What was delivered, in order. */
  function Delivered(ops: seq<Op>): seq<(string, Json)> {
    if ops == [] then []
    else
      var op := ops[|ops| - 1];
      Delivered(ops[..|ops| - 1]) + if op.Arrive? then [(op.accountId, op.payload)] else []
  }

  /** The calls are the deliveries: none is lost or made up, and each keeps its account and payload. */
  lemma {:induction false} CallsAreDeliveries(ops: seq<Op>, numeral: real -> string)
    ensures var (calls, delivered) := (After(ops, numeral).calls, Delivered(ops));
            && |calls| == |delivered|
            && forall i | 0 <= i < |calls| :: (calls[i].accountId, calls[i].payload) == delivered[i]
  {
    hide Create, Find, SourceEventId, UpdateStatus;
    if ops != [] {
      CallsAreDeliveries(ops[..|ops| - 1], numeral);
    }
  }

  lemma {:induction false} DeliveredAt(ops: seq<Op>, accountId: string, payload: Json) returns (i: nat)
    requires Arrive(accountId, payload) in ops
    ensures i < |Delivered(ops)| && Delivered(ops)[i] == (accountId, payload)
  {
    if ops[|ops| - 1] == Arrive(accountId, payload) {
      i := |Delivered(ops)| - 1;
    } else {
      i := DeliveredAt(ops[..|ops| - 1], accountId, payload);
    }
  }

  predicate Carries(call: Call, accountId: string, eventId: string, numeral: real -> string) {
    call.accountId == accountId && HasEventId(call.payload, eventId, numeral)
  }

  lemma CarriesDelivers(w: World, i: nat, accountId: string, eventId: string, numeral: real -> string)
    requires AllTrue(w, numeral) && i < |w.calls| && eventId != ""
    requires Carries(w.calls[i], accountId, eventId, numeral) && !w.calls[i].phase.Received?
    ensures Delivers(w.calls[i], accountId, eventId)
  {
    EventIdIdentifies(w.calls[i].payload, eventId, numeral);
    hide SourceEventId, HasEventId, Honest;
    assert Knows(w.calls[i], numeral);
  }

  /** In every state of every run: of two deliveries with one event_id, one at most has stored or run an event. */
  lemma NeverTwice(ops: seq<Op>, numeral: real -> string, i: nat, j: nat, accountId: string, eventId: string)
    requires PlainOps(ops) && eventId != ""
    requires var calls := After(ops, numeral).calls;
             && i < |calls| && j < |calls| && i != j
             && Carries(calls[i], accountId, eventId, numeral) && Carries(calls[j], accountId, eventId, numeral)
    ensures var calls := After(ops, numeral).calls; Made(calls[i]).None? || Made(calls[j]).None?
  {
    var w := After(ops, numeral);
    AlwaysSound(ops, numeral);
    AlwaysTrue(ops, numeral);
    hide After, Sound, AllTrue, Carries, PlainOps;
    if !w.calls[i].phase.Received? && !w.calls[j].phase.Received? {
      CarriesDelivers(w, i, accountId, eventId, numeral);
      CarriesDelivers(w, j, accountId, eventId, numeral);
      OneMaker(w, i, j);
    }
  }

  /** Event id is the only one of the account with that identifier, ran once, and was answered for by call i alone. */
  ghost predicate OnceFor(w: World, accountId: string, eventId: string, numeral: real -> string, id: Id, i: nat) {
    && id in w.db.events && i < |w.calls|
    && (forall x | x in w.db.events :: w.db.events[x].accountId == accountId && w.db.events[x].source == eventId <==> x == id)
    && id in w.executed && (forall p, q | 0 <= p < q < |w.executed| :: !(w.executed[p] == w.executed[q] == id))
    && w.calls[i].phase in {Answered(Handled(id, true)), Answered(Handled(id, false))}
    && (forall j | 0 <= j < |w.calls| && j != i && Carries(w.calls[j], accountId, eventId, numeral) ::
          w.calls[j].phase in {Answered(Duplicate(id)), Answered(Refused)})
  }

  /**
   However often payloads with one event_id arrive for an account, and whatever happens in
   between: once all calls are answered there is one stored event, one execution, one call that
   handled it, and every other delivery was turned away or pointed to that event.
   */
  lemma RedeliveredOnce(ops: seq<Op>, numeral: real -> string, accountId: string, payload: Json, eventId: string)
    requires PlainOps(ops) && Arrive(accountId, payload) in ops && HasEventId(payload, eventId, numeral) && eventId != ""
    requires var w := After(ops, numeral); forall i | 0 <= i < |w.calls| :: w.calls[i].phase.Answered?
    ensures exists id, i :: OnceFor(After(ops, numeral), accountId, eventId, numeral, id, i)
  {
    var w := After(ops, numeral);
    var d := DeliveredAt(ops, accountId, payload);
    CallsAreDeliveries(ops, numeral);
    AlwaysTrue(ops, numeral);
    hide AllTrue, Delivered, DoneOnce, OnceFor;
    assert Carries(w.calls[d], accountId, eventId, numeral);
    hide Carries, HasEventId, Delivers;
    CarriesDelivers(w, d, accountId, eventId, numeral);
    ExactlyOnce(ops, numeral, accountId, eventId);
    AtMostOnce(ops, numeral);
    hide After, PlainOps;
    var id, i :| DoneOnce(w, accountId, eventId, id, i);
    DoneIsOnce(w, accountId, eventId, numeral, id, i);
  }

  lemma DoneIsOnce(w: World, accountId: string, eventId: string, numeral: real -> string, id: Id, i: nat)
    requires AllTrue(w, numeral) && DoneOnce(w, accountId, eventId, id, i) && eventId != ""
    requires forall i | 0 <= i < |w.calls| :: w.calls[i].phase.Answered?
    requires forall i, j | i in w.db.events && j in w.db.events && SameSource(w.db.events[i], w.db.events[j]) :: i == j
    ensures OnceFor(w, accountId, eventId, numeral, id, i)
  {
    hide Knows;
    forall j | 0 <= j < |w.calls| && j != i && Carries(w.calls[j], accountId, eventId, numeral)
      ensures w.calls[j].phase in {Answered(Duplicate(id)), Answered(Refused)}
    {
      CarriesDelivers(w, j, accountId, eventId, numeral);
      assert Honest(w.db, w.calls[j]);
      hide Carries;
    }
  }

  // ---- Closing an event ----------------------------------------------------

  /** Closing an event writes its status and action, and nothing of any other event. */
  lemma ClosedOnly(db: Db, id: Id, status: string, action: string)
    ensures var next := EventStore.UpdateStatus(db, id, status, action);
            && next.bySource == db.bySource && next.nextId == db.nextId && next.events.Keys == db.events.Keys
            && (forall x | x in db.events :: next.events[x].accountId == db.events[x].accountId && next.events[x].source == db.events[x].source)
            && (forall x | x in db.events && x != id :: next.events[x] == db.events[x])
            && (id in db.events ==> next.events[id].status == status && next.events[id].action == action)
  {
  }

  // ---- One delivery by itself ----------------------------------------------

  /** The payload's own identifier or else that of its canonical form. */
  function Identifier(payload: Json, canonical: Option<Json>, numeral: real -> string): string {
    var own := SourceEventId(payload, numeral);
    if own != "" || canonical.None? then own else SourceEventId(canonical.value, numeral)
  }

  /**
   A delivery that nothing interferes with: a duplicate is told from the payload's own
   identifier only; one that the canonical form would have identified is refused on storing; all
   others are stored once, run once and closed with the outcome.
   */
  lemma DeliveredAlone(db: Db, accountId: string, payload: Json, env: Env, numeral: real -> string)
    requires db.nextId !in db.events
    ensures var w := Alone(db, Call(accountId, payload, "", Received), env, numeral);
            var own, source := SourceEventId(payload, numeral), Identifier(payload, env.canonical, numeral);
            if own != "" && Find(db, accountId, own).Some? then
              w.db == db && w.executed == [] && w.calls[0].phase == Answered(Duplicate(Find(db, accountId, own).value))
            else if source != "" && Scoped(accountId, source) in db.bySource then
              w.db == db && w.executed == [] && w.calls[0].phase == Answered(Refused)
            else
              && w.executed == [db.nextId] && w.calls[0].phase == Answered(Handled(db.nextId, env.executed))
              && w.db.events == db.events[db.nextId :=
                   EventStore.Event(accountId, source, if env.executed then "processed" else "failed", env.action)]
              && w.db.bySource == if source == "" then db.bySource else db.bySource[Scoped(accountId, source) := db.nextId]
  {
    hide SourceEventId, Find, Scoped;
    var w0 := World(db, [Call(accountId, payload, "", Received)], []);
    var w1 := Deliveries.Step(w0, 0, env, numeral);
    var w2 := Deliveries.Step(w1, 0, env, numeral);
    var w3 := Deliveries.Step(w2, 0, env, numeral);
    assert Steps(w0, 0, 5, env, numeral) == Steps(w1, 0, 4, env, numeral);
    if w1.calls[0].phase.Answered? {
      AnsweredStays(w1, 0, 4, env, numeral);
    } else {
      assert Steps(w1, 0, 4, env, numeral) == Steps(w2, 0, 3, env, numeral) == Steps(w3, 0, 2, env, numeral);
      if w3.calls[0].phase.Answered? {
        AnsweredStays(w3, 0, 2, env, numeral);
      } else {
        assert Steps(w3, 0, 2, env, numeral) == Deliveries.Step(Deliveries.Step(w3, 0, env, numeral), 0, env, numeral);
      }
    }
  }
}
