/**
 Stored webhook events and the index that recognises a redelivery
 (CreateEvent, FindEventBySourceEventID and UpdateEventStatus of
 internal/store/memory.go:727-757, 797-812; extractSourceEventID of
 internal/service/actions.go:900-932).
 */
module EventStore {
  import opened Text
  import opened Keys
  import opened Json

  type Id = nat

  datatype Event = Event(accountId: string, source: string, status: string, action: string)

  datatype Db = Db(events: map<Id, Event>, bySource: map<string, Id>, nextId: nat)

  const EMPTY := Db(map[], map[], 0)

  function Find(db: Db, accountId: string, source: string): Option<Id> {
    var key := Scoped(accountId, source);
    if TrimSpace(source) == "" || key !in db.bySource || db.bySource[key] !in db.events then None
    else Some(db.bySource[key])
  }

  function Create(db: Db, event: Event): (Db, Option<Id>) {
    var key := Scoped(event.accountId, event.source);
    if event.source != "" && key in db.bySource then (db, None)
    else (Db(db.events[db.nextId := event],
             if event.source == "" then db.bySource else db.bySource[key := db.nextId],
             db.nextId + 1),
          Some(db.nextId))
  }

  function UpdateStatus(db: Db, id: Id, status: string, action: string): Db {
    if id !in db.events then db
    else db.(events := db.events[id := db.events[id].(status := status, action := action)])
  }

  function StatusOf(ok: bool): string {
    if ok then "processed" else "failed"
  }

  /** The maps as the store updates them under its lock. */
  class MemoryEvents {
    var events: map<Id, Event>
    var eventBySource: map<string, Id>
    var nextID: nat

    constructor ()
      ensures Now() == EMPTY
    {
      events, eventBySource, nextID := map[], map[], 0;
    }

    ghost function Now(): Db
      reads this
    {
      Db(events, eventBySource, nextID)
    }

    method CreateEvent(e: Event) returns (id: Option<Id>)
      modifies this
      ensures (Now(), id) == Create(old(Now()), e)
    {
      if e.source != "" {
        if Scoped(e.accountId, e.source) in eventBySource {
          return None;
        }
      }
      id := Some(nextID);
      nextID := nextID + 1;
      events := events[id.value := e];
      if e.source != "" {
        eventBySource := eventBySource[Scoped(e.accountId, e.source) := id.value];
      }
    }

    method UpdateEventStatus(id: Id, status: string, action: string) returns (ok: bool)
      modifies this
      ensures Now() == UpdateStatus(old(Now()), id, status, action)
      ensures ok <==> id in old(events)
    {
      ok := id in events;
      if !ok {
        return;
      }
      events := events[id := events[id].(status := status, action := action)];
    }

    method FindEventBySourceEventID(accountID: string, source: string) returns (id: Option<Id>)
      ensures id == Find(Now(), accountID, source)
    {
      if TrimSpace(source) == "" {
        return None;
      }
      if Scoped(accountID, source) !in eventBySource {
        return None;
      }
      var found := eventBySource[Scoped(accountID, source)];
      id := if found in events then Some(found) else None;
    }
  }

  // ---- The index -----------------------------------------------------------

  /** Events with a source identifier are indexed under their key, and nothing else is. */
  ghost predicate Indexed(db: Db) {
    && (forall id | id in db.events :: id < db.nextId && EventIndexed(db, id))
    && (forall key | key in db.bySource ::
          db.bySource[key] in db.events && db.events[db.bySource[key]].source != ""
          && key == Scoped(db.events[db.bySource[key]].accountId, db.events[db.bySource[key]].source))
  }

  predicate EventIndexed(db: Db, id: Id)
    requires id in db.events
  {
    var e := db.events[id];
    e.source != "" ==>
      Scoped(e.accountId, e.source) in db.bySource && db.bySource[Scoped(e.accountId, e.source)] == id
  }

  lemma CreateIndexed(db: Db, event: Event)
    requires Indexed(db)
    ensures Indexed(Create(db, event).0)
  {
    var next := Create(db, event).0;
    forall id | id in next.events
      ensures id < next.nextId && EventIndexed(next, id)
    {
      if id in db.events {
        assert EventIndexed(db, id);
      }
    }
    hide Scoped;
  }

  lemma UpdateIndexed(db: Db, id: Id, status: string, action: string)
    requires Indexed(db)
    ensures Indexed(UpdateStatus(db, id, status, action))
  {
    var next := UpdateStatus(db, id, status, action);
    forall i | i in next.events
      ensures i < next.nextId && EventIndexed(next, i)
    {
      assert EventIndexed(db, i);
    }
    hide Scoped;
  }

  /** With plain accounts the index answers exactly what a scan over all events would. */
  lemma FindExact(db: Db, accountId: string, source: string)
    requires Indexed(db) && PlainAccount(accountId) && forall id | id in db.events :: PlainAccount(db.events[id].accountId)
    requires Trimmed(source) && source != ""
    ensures Find(db, accountId, source).Some? <==>
            exists id :: id in db.events && db.events[id].accountId == accountId && db.events[id].source == source
    ensures forall id | id in db.events && db.events[id].accountId == accountId && db.events[id].source == source ::
              Find(db, accountId, source) == Some(id)
  {
    TrimSpaceFixes(source);
    var key := Scoped(accountId, source);
    forall id | id in db.events && db.events[id].accountId == accountId && db.events[id].source == source
      ensures Find(db, accountId, source) == Some(id)
    {
      assert EventIndexed(db, id);
    }
    if key in db.bySource {
      var e := db.events[db.bySource[key]];
      ScopedInjective(accountId, source, e.accountId, e.source);
    }
    hide Scoped;
  }

  /** Without that the index confuses accounts: a first delivery is refused. */
  lemma ColonsConfuseAccounts()
    ensures var db := Create(EMPTY, Event("a:", "b", "processing", "")).0;
            Create(db, Event("a", ":b", "processing", "")).1 == None
  {
    assert Scoped("a:", "b") == Scoped("a", ":b") == "a:::b";
  }

  // ---- The source identifier of a payload ----------------------------------

  /** asString; how a number is written is a parameter. */
  function AsString(v: Json, numeral: real -> string): string {
    match v
    case JString(s) => s
    case JNumber(x) => numeral(x)
    case _ => ""
  }

  /** The first of the named fields that is not blank. */
  function FirstText(fields: map<string, Json>, names: seq<string>, numeral: real -> string): string {
    if names == [] then ""
    else
      var text := if names[0] in fields then TrimSpace(AsString(fields[names[0]], numeral)) else "";
      if text != "" then text else FirstText(fields, names[1..], numeral)
  }

  function SourceEventId(payload: Json, numeral: real -> string): string {
    if !payload.JObject? then ""
    else
      var own := FirstText(payload.fields, ["event_id", "provider_message_id", "request_id"], numeral);
      if own != "" then own
      else if "message" in payload.fields && payload.fields["message"].JObject? then
        FirstText(payload.fields["message"].fields, ["provider_message_id", "id"], numeral)
      else ""
  }

  lemma {:induction false} FirstTextTrimmed(fields: map<string, Json>, names: seq<string>, numeral: real -> string)
    ensures Trimmed(FirstText(fields, names, numeral))
  {
    if names != [] {
      if names[0] in fields {
        TrimSpaceIsTrimmed(AsString(fields[names[0]], numeral));
      }
      FirstTextTrimmed(fields, names[1..], numeral);
    }
    hide TrimSpace, AsString;
  }

  lemma SourceTrimmed(payload: Json, numeral: real -> string)
    ensures Trimmed(SourceEventId(payload, numeral))
  {
    hide FirstText;
    if payload.JObject? {
      FirstTextTrimmed(payload.fields, ["event_id", "provider_message_id", "request_id"], numeral);
      if "message" in payload.fields && payload.fields["message"].JObject? {
        FirstTextTrimmed(payload.fields["message"].fields, ["provider_message_id", "id"], numeral);
      }
    }
  }
}
