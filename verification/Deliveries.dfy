/**
 Any number of ProcessWebhook calls in flight at once (internal/service/actions.go:502-542,
 674-681). Each call is a chain of steps that are atomic in the store; the steps of
 different calls interleave in any order. The transformer's and the executor's answers are
 whatever the environment gives.
 */
module Deliveries {
  import opened Text
  import opened Keys
  import opened Json
  import opened EventStore

  datatype Answer = Duplicate(id: Id) | Refused | Handled(id: Id, ok: bool)

  datatype Phase =
    | Received
    | Transforming
    | Storing
    | Deciding(id: Id)
    | Settling(id: Id, ok: bool)
    | Answered(answer: Answer)

  datatype Call = Call(accountId: string, payload: Json, source: string, phase: Phase)

  /** The stored events, the calls so far, and every event Execute was called for, in order. */
  datatype World = World(db: Db, calls: seq<Call>, executed: seq<Id>)

  const START := World(EMPTY, [], [])

  /** What the outside gives the next step: the canonical payload, if any, and Execute's result. */
  datatype Env = Env(canonical: Option<Json>, executed: bool, action: string)

  datatype Op = Arrive(accountId: string, payload: Json) | Advance(call: nat, env: Env)

  function Look(db: Db, call: Call, numeral: real -> string): Call {
    var source := SourceEventId(call.payload, numeral);
    var found := Find(db, call.accountId, source);
    call.(source := source, phase := if source != "" && found.Some? then Answered(Duplicate(found.value)) else Transforming)
  }

  function Transformed(call: Call, canonical: Option<Json>, numeral: real -> string): Call {
    call.(source := if canonical.Some? && call.source == "" then SourceEventId(canonical.value, numeral) else call.source,
          phase := Storing)
  }

  function Step(w: World, i: nat, env: Env, numeral: real -> string): (next: World)
    requires i < |w.calls|
    ensures |next.calls| == |w.calls|
  {
    var call := w.calls[i];
    match call.phase
    case Received => w.(calls := w.calls[i := Look(w.db, call, numeral)])
    case Transforming => w.(calls := w.calls[i := Transformed(call, env.canonical, numeral)])
    case Storing =>
      var (db, id) := Create(w.db, Event(call.accountId, call.source, "processing", ""));
      World(db, w.calls[i := call.(phase := if id.Some? then Deciding(id.value) else Answered(Refused))], w.executed)
    case Deciding(id) =>
      World(w.db, w.calls[i := call.(phase := Settling(id, env.executed))], w.executed + [id])
    case Settling(id, ok) =>
      World(UpdateStatus(w.db, id, StatusOf(ok), env.action), w.calls[i := call.(phase := Answered(Handled(id, ok)))], w.executed)
    case Answered(_) => w
  }

  function Perform(w: World, op: Op, numeral: real -> string): World {
    match op
    case Arrive(a, payload) => w.(calls := w.calls + [Call(a, payload, "", Received)])
    case Advance(i, env) => if i < |w.calls| then Step(w, i, env, numeral) else w
  }

  function After(ops: seq<Op>, numeral: real -> string): World {
    if ops == [] then START else Perform(After(ops[..|ops| - 1], numeral), ops[|ops| - 1], numeral)
  }

  // ---- The invariant -------------------------------------------------------

  /** The event a call has stored. */
  function Made(call: Call): Option<Id> {
    match call.phase
    case Deciding(id) => Some(id)
    case Settling(id, _) => Some(id)
    case Answered(Handled(id, _)) => Some(id)
    case _ => None
  }

  /** The event a call has run Execute for. */
  function Ran(call: Call): Option<Id> {
    if call.phase.Deciding? then None else Made(call)
  }

  predicate CallSound(db: Db, call: Call) {
    && Trimmed(call.source)
    && (Made(call).Some? ==>
          Made(call).value in db.events
          && db.events[Made(call).value].accountId == call.accountId && db.events[Made(call).value].source == call.source)
    && (call.phase.Answered? && Made(call).None? ==>
          call.source != "" && Scoped(call.accountId, call.source) in db.bySource)
  }

  /** Every event was stored by one call, which alone may run it. */
  ghost predicate Shared(w: World) {
    && (forall i, j | 0 <= i < j < |w.calls| && Made(w.calls[i]).Some? :: Made(w.calls[i]) != Made(w.calls[j]))
    && (forall id | id in w.db.events :: exists i :: 0 <= i < |w.calls| && Made(w.calls[i]) == Some(id))
  }

  ghost predicate Logged(w: World) {
    && (forall p, q | 0 <= p < q < |w.executed| :: w.executed[p] != w.executed[q])
    && (forall id | id in w.executed :: exists i :: 0 <= i < |w.calls| && Ran(w.calls[i]) == Some(id))
    && (forall i | 0 <= i < |w.calls| && Ran(w.calls[i]).Some? :: Ran(w.calls[i]).value in w.executed)
  }

  predicate AllSound(db: Db, calls: seq<Call>) {
    forall i | 0 <= i < |calls| :: CallSound(db, calls[i])
  }

  ghost predicate Sound(w: World) {
    Indexed(w.db) && AllSound(w.db, w.calls) && Shared(w) && Logged(w)
  }

  // ---- Every step keeps it -------------------------------------------------

  ghost predicate Grows(a: Db, b: Db) {
    && (forall id | id in a.events ::
          id in b.events && b.events[id].accountId == a.events[id].accountId && b.events[id].source == a.events[id].source)
    && a.bySource.Keys <= b.bySource.Keys
  }

  lemma StillSound(a: Db, b: Db, call: Call)
    requires Grows(a, b) && CallSound(a, call)
    ensures CallSound(b, call)
  {
    hide Trimmed, Scoped;
  }

  /** A step that neither stores nor runs anything. */
  lemma QuietSound(w: World, i: nat, call: Call)
    requires Sound(w) && i < |w.calls| && CallSound(w.db, call)
    requires Made(call) == Made(w.calls[i]) && Ran(call) == Ran(w.calls[i])
    ensures Sound(w.(calls := w.calls[i := call]))
  {
    hide CallSound, Made, Ran, Indexed;
    var calls := w.calls[i := call];
    assert forall j | 0 <= j < |calls| :: Made(calls[j]) == Made(w.calls[j]) && Ran(calls[j]) == Ran(w.calls[j]);
    forall id | id in w.db.events
      ensures exists j :: 0 <= j < |calls| && Made(calls[j]) == Some(id)
    {
      var j :| 0 <= j < |w.calls| && Made(w.calls[j]) == Some(id);
      assert Made(calls[j]) == Some(id);
    }
    forall id | id in w.executed
      ensures exists j :: 0 <= j < |calls| && Ran(calls[j]) == Some(id)
    {
      var j :| 0 <= j < |w.calls| && Ran(w.calls[j]) == Some(id);
      assert Ran(calls[j]) == Some(id);
    }
  }

  lemma LookSound(db: Db, call: Call, numeral: real -> string)
    requires Indexed(db) && call.phase.Received?
    ensures CallSound(db, Look(db, call, numeral)) && Made(Look(db, call, numeral)) == None
  {
    SourceTrimmed(call.payload, numeral);
    hide SourceEventId, Scoped, Trimmed;
  }

  lemma TransformedSound(db: Db, call: Call, canonical: Option<Json>, numeral: real -> string)
    requires CallSound(db, call) && call.phase.Transforming?
    ensures CallSound(db, Transformed(call, canonical, numeral)) && Made(Transformed(call, canonical, numeral)) == None
  {
    if canonical.Some? {
      SourceTrimmed(canonical.value, numeral);
    }
    hide SourceEventId, Trimmed;
  }

  lemma CreateGrows(db: Db, event: Event)
    requires Indexed(db)
    ensures Grows(db, Create(db, event).0)
  {
    hide Scoped, EventIndexed;
  }

  /** A call that moves on without a new event. */
  lemma PhaseSound(db: Db, call: Call, phase: Phase)
    requires CallSound(db, call) && Made(call.(phase := phase)) == Made(call)
    requires phase == Answered(Refused) ==> call.source != "" && Scoped(call.accountId, call.source) in db.bySource
    requires phase.Answered? && phase.answer.Duplicate? ==> call.phase == phase
    ensures CallSound(db, call.(phase := phase))
  {
    hide Trimmed, Scoped;
  }

  lemma CallAt(w: World, i: nat)
    requires Sound(w) && i < |w.calls|
    ensures CallSound(w.db, w.calls[i])
  {
    hide CallSound, Shared, Logged, Indexed;
  }

  lemma StoreRefused(w: World, i: nat, env: Env, numeral: real -> string)
    requires Sound(w) && i < |w.calls| && w.calls[i].phase.Storing?
    requires Create(w.db, Event(w.calls[i].accountId, w.calls[i].source, "processing", "")).1.None?
    ensures Sound(Step(w, i, env, numeral))
  {
    var call := w.calls[i];
    CallAt(w, i);
    PhaseSound(w.db, call, Answered(Refused));
    QuietSound(w, i, call.(phase := Answered(Refused)));
    assert Step(w, i, env, numeral) == w.(calls := w.calls[i := call.(phase := Answered(Refused))]);
    hide Sound, Scoped, CallSound, Find;
  }

  /** A new event, and the call that stored it. */
  lemma StoredShared(w: World, i: nat, call: Call, db: Db)
    requires Shared(w) && i < |w.calls| && Made(w.calls[i]) == None && w.db.nextId !in w.db.events
    requires forall j | 0 <= j < |w.calls| && Made(w.calls[j]).Some? :: Made(w.calls[j]).value in w.db.events
    requires Made(call) == Some(w.db.nextId) && db.events.Keys == w.db.events.Keys + {w.db.nextId}
    ensures Shared(World(db, w.calls[i := call], w.executed))
  {
    hide Made;
    var calls := w.calls[i := call];
    assert calls[i] == call;
    forall id | id in db.events
      ensures exists j :: 0 <= j < |calls| && Made(calls[j]) == Some(id)
    {
      if id == w.db.nextId {
        assert Made(calls[i]) == Some(id);
      } else {
        var j :| 0 <= j < |w.calls| && Made(w.calls[j]) == Some(id);
        assert Made(calls[j]) == Some(id);
      }
    }
  }

  lemma SameLog(w: World, i: nat, call: Call, db: Db)
    requires Logged(w) && i < |w.calls| && Ran(call) == Ran(w.calls[i])
    ensures Logged(World(db, w.calls[i := call], w.executed))
  {
    hide Ran;
    var calls := w.calls[i := call];
    assert forall j | 0 <= j < |calls| :: Ran(calls[j]) == Ran(w.calls[j]);
    forall id | id in w.executed
      ensures exists j :: 0 <= j < |calls| && Ran(calls[j]) == Some(id)
    {
      var j :| 0 <= j < |w.calls| && Ran(w.calls[j]) == Some(id);
      assert Ran(calls[j]) == Some(id);
    }
  }

  lemma GrownCalls(w: World, i: nat, call: Call, db: Db)
    requires Grows(w.db, db) && i < |w.calls| && CallSound(db, call) && AllSound(w.db, w.calls)
    ensures AllSound(db, w.calls[i := call])
  {
    var calls := w.calls[i := call];
    forall j | 0 <= j < |calls|
      ensures CallSound(db, calls[j])
    {
      if j != i {
        StillSound(w.db, db, w.calls[j]);
      }
    }
    hide CallSound, Grows;
  }

  lemma StoredSound(db: Db, call: Call)
    requires CallSound(db, call) && call.phase.Storing?
    ensures var event := Event(call.accountId, call.source, "processing", "");
            Create(db, event).1.Some? ==> CallSound(Create(db, event).0, call.(phase := Deciding(db.nextId)))
  {
    hide Trimmed, Scoped;
  }

  lemma CreatedEvents(db: Db, event: Event)
    requires Create(db, event).1.Some?
    ensures Create(db, event).0.events.Keys == db.events.Keys + {db.nextId}
  {
    hide Scoped;
  }

  lemma SoundParts(w: World, i: nat)
    requires Sound(w) && i < |w.calls|
    ensures w.db.nextId !in w.db.events
    ensures forall j | 0 <= j < |w.calls| && Made(w.calls[j]).Some? :: Made(w.calls[j]).value in w.db.events
  {
    hide Scoped, Trimmed, EventIndexed, Shared, Logged;
  }

  lemma StoreStep(w: World, i: nat, env: Env, numeral: real -> string)
    requires i < |w.calls| && w.calls[i].phase.Storing?
    requires Create(w.db, Event(w.calls[i].accountId, w.calls[i].source, "processing", "")).1.Some?
    ensures var call := w.calls[i];
            Step(w, i, env, numeral) == World(Create(w.db, Event(call.accountId, call.source, "processing", "")).0,
                                              w.calls[i := call.(phase := Deciding(w.db.nextId))], w.executed)
  {
    hide Scoped;
  }

  lemma StoreSound(w: World, i: nat, env: Env, numeral: real -> string)
    requires Sound(w) && i < |w.calls| && w.calls[i].phase.Storing?
    requires Create(w.db, Event(w.calls[i].accountId, w.calls[i].source, "processing", "")).1.Some?
    ensures Sound(Step(w, i, env, numeral))
  {
    hide Create, CallSound, Shared, Logged, Grows, Indexed, AllSound, Step;
    var call := w.calls[i];
    var event := Event(call.accountId, call.source, "processing", "");
    var db, stored := Create(w.db, event).0, call.(phase := Deciding(w.db.nextId));
    StoreStep(w, i, env, numeral);
    CreateIndexed(w.db, event);
    CreateGrows(w.db, event);
    CallAt(w, i);
    StoredSound(w.db, call);
    SoundParts(w, i);
    CreatedEvents(w.db, event);
    GrownCalls(w, i, stored, db);
    StoredShared(w, i, stored, db);
    SameLog(w, i, stored, db);
  }

  lemma ExecuteSound(w: World, i: nat, env: Env, numeral: real -> string)
    requires Sound(w) && i < |w.calls| && w.calls[i].phase.Deciding?
    ensures Sound(Step(w, i, env, numeral))
  {
    var call, id := w.calls[i], w.calls[i].phase.id;
    var done := call.(phase := Settling(id, env.executed));
    var next := World(w.db, w.calls[i := done], w.executed + [id]);
    assert Step(w, i, env, numeral) == next;
    CallAt(w, i);
    PhaseSound(w.db, call, done.phase);
    GrownCalls(w, i, done, w.db);
    SameShared(w, i, done, w.db, next.executed);
    LogGrows(w, i, done, id);
    hide AllSound, CallSound, Shared, Logged, Indexed, Grows, UpdateStatus;
  }

  lemma SameShared(w: World, i: nat, call: Call, db: Db, log: seq<Id>)
    requires Shared(w) && i < |w.calls| && Made(call) == Made(w.calls[i]) && db.events.Keys == w.db.events.Keys
    ensures Shared(World(db, w.calls[i := call], log))
  {
    hide Made;
    var calls := w.calls[i := call];
    assert forall j | 0 <= j < |calls| :: Made(calls[j]) == Made(w.calls[j]);
    forall id | id in db.events
      ensures exists j :: 0 <= j < |calls| && Made(calls[j]) == Some(id)
    {
      var j :| 0 <= j < |w.calls| && Made(w.calls[j]) == Some(id);
      assert Made(calls[j]) == Some(id);
    }
  }

  /** Nobody has run the event yet, because only its maker may. */
  lemma LogGrows(w: World, i: nat, call: Call, id: Id)
    requires Shared(w) && Logged(w) && i < |w.calls|
    requires w.calls[i].phase == Deciding(id) && Ran(call) == Some(id)
    ensures Logged(World(w.db, w.calls[i := call], w.executed + [id]))
  {
    var calls := w.calls[i := call];
    assert id !in w.executed;
    hide Made, Ran, Shared;
    assert calls[i] == call;
    forall x | x in w.executed + [id]
      ensures exists j :: 0 <= j < |calls| && Ran(calls[j]) == Some(x)
    {
      if x == id {
        assert Ran(calls[i]) == Some(x);
      } else {
        var j :| 0 <= j < |w.calls| && Ran(w.calls[j]) == Some(x);
        assert j != i;
        assert Ran(calls[j]) == Some(x);
      }
    }
  }

  lemma UpdateGrows(db: Db, id: Id, status: string, action: string)
    ensures Grows(db, UpdateStatus(db, id, status, action))
    ensures UpdateStatus(db, id, status, action).events.Keys == db.events.Keys
  {
  }

  lemma SettleSound(w: World, i: nat, env: Env, numeral: real -> string)
    requires Sound(w) && i < |w.calls| && w.calls[i].phase.Settling?
    ensures Sound(Step(w, i, env, numeral))
  {
    var call, id, ok := w.calls[i], w.calls[i].phase.id, w.calls[i].phase.ok;
    var done, db := call.(phase := Answered(Handled(id, ok))), UpdateStatus(w.db, id, StatusOf(ok), env.action);
    var next := World(db, w.calls[i := done], w.executed);
    assert Step(w, i, env, numeral) == next;
    UpdateIndexed(w.db, id, StatusOf(ok), env.action);
    UpdateGrows(w.db, id, StatusOf(ok), env.action);
    CallAt(w, i);
    PhaseSound(w.db, call, done.phase);
    StillSound(w.db, db, done);
    GrownCalls(w, i, done, db);
    SameShared(w, i, done, db, w.executed);
    SameLog(w, i, done, db);
    hide AllSound, CallSound, Shared, Logged, Indexed, Grows, UpdateStatus;
  }

  lemma StepSound(w: World, i: nat, env: Env, numeral: real -> string)
    requires Sound(w) && i < |w.calls|
    ensures Sound(Step(w, i, env, numeral))
  {
    var call := w.calls[i];
    hide Indexed, CallSound, Shared, Logged, Look, Transformed;
    match call.phase
    case Received =>
      LookSound(w.db, call, numeral);
      QuietSound(w, i, Look(w.db, call, numeral));
    case Transforming =>
      TransformedSound(w.db, call, env.canonical, numeral);
      QuietSound(w, i, Transformed(call, env.canonical, numeral));
    case Storing =>
      if Create(w.db, Event(call.accountId, call.source, "processing", "")).1.None? {
        StoreRefused(w, i, env, numeral);
      } else {
        StoreSound(w, i, env, numeral);
      }
    case Deciding(_) => ExecuteSound(w, i, env, numeral);
    case Settling(_, _) => SettleSound(w, i, env, numeral);
    case Answered(_) =>
  }

  lemma ArriveShared(w: World, call: Call)
    requires Shared(w) && Made(call) == None
    ensures Shared(w.(calls := w.calls + [call]))
  {
    hide Made;
    var calls := w.calls + [call];
    forall id | id in w.db.events
      ensures exists j :: 0 <= j < |calls| && Made(calls[j]) == Some(id)
    {
      var j :| 0 <= j < |w.calls| && Made(w.calls[j]) == Some(id);
      assert Made(calls[j]) == Some(id);
    }
  }

  lemma ArriveLogged(w: World, call: Call)
    requires Logged(w) && Ran(call) == None
    ensures Logged(w.(calls := w.calls + [call]))
  {
    hide Ran;
    var calls := w.calls + [call];
    forall id | id in w.executed
      ensures exists j :: 0 <= j < |calls| && Ran(calls[j]) == Some(id)
    {
      var j :| 0 <= j < |w.calls| && Ran(w.calls[j]) == Some(id);
      assert Ran(calls[j]) == Some(id);
    }
  }

  lemma ArriveSound(w: World, accountId: string, payload: Json)
    requires Sound(w)
    ensures Sound(w.(calls := w.calls + [Call(accountId, payload, "", Received)]))
  {
    var call := Call(accountId, payload, "", Received);
    ArriveShared(w, call);
    ArriveLogged(w, call);
    hide Indexed, Shared, Logged;
  }

  lemma {:induction false} AlwaysSound(ops: seq<Op>, numeral: real -> string)
    ensures Sound(After(ops, numeral))
  {
    if ops != [] {
      var w := After(ops[..|ops| - 1], numeral);
      AlwaysSound(ops[..|ops| - 1], numeral);
      match ops[|ops| - 1] {
        case Arrive(a, payload) => ArriveSound(w, a, payload);
        case Advance(i, env) =>
          if i < |w.calls| {
            StepSound(w, i, env, numeral);
          }
      }
      hide Sound, Step;
    }
  }

  // ---- What holds over every run -------------------------------------------

  /** The two are deliveries of the same thing. */
  predicate SameSource(a: Event, b: Event) {
    a.source != "" && a.accountId == b.accountId && a.source == b.source
  }

  /**
   However the calls interleave, and whatever the account identifiers, one source event of an
   account is stored once and executed once at most.
   */
  lemma AtMostOnce(ops: seq<Op>, numeral: real -> string)
    ensures var w := After(ops, numeral);
            && (forall i, j | i in w.db.events && j in w.db.events && SameSource(w.db.events[i], w.db.events[j]) :: i == j)
            && (forall p | 0 <= p < |w.executed| :: w.executed[p] in w.db.events)
            && (forall p, q | 0 <= p < q < |w.executed| :: !SameSource(w.db.events[w.executed[p]], w.db.events[w.executed[q]]))
  {
    var w := After(ops, numeral);
    AlwaysSound(ops, numeral);
    hide After;
    forall i, j | i in w.db.events && j in w.db.events && SameSource(w.db.events[i], w.db.events[j])
      ensures i == j
    {
      assert EventIndexed(w.db, i) && EventIndexed(w.db, j);
    }
    forall p | 0 <= p < |w.executed|
      ensures w.executed[p] in w.db.events
    {
      assert w.executed[p] in w.executed;
      var i :| 0 <= i < |w.calls| && Ran(w.calls[i]) == Some(w.executed[p]);
      CallAt(w, i);
    }
  }

  predicate PlainOps(ops: seq<Op>) {
    forall op | op in ops && op.Arrive? :: PlainAccount(op.accountId)
  }

  predicate PlainCalls(w: World) {
    forall i | 0 <= i < |w.calls| :: PlainAccount(w.calls[i].accountId)
  }

  lemma {:induction false} CallsStayPlain(ops: seq<Op>, numeral: real -> string)
    requires PlainOps(ops)
    ensures PlainCalls(After(ops, numeral))
  {
    if ops != [] {
      var init := ops[..|ops| - 1];
      assert forall op | op in init :: op in ops;
      CallsStayPlain(init, numeral);
      assert ops[|ops| - 1] in ops;
    }
    hide PlainAccount, Create, Find, SourceEventId, UpdateStatus;
  }

  lemma PlainEvents(w: World)
    requires Sound(w) && PlainCalls(w)
    ensures forall id | id in w.db.events :: PlainAccount(w.db.events[id].accountId)
  {
    forall id | id in w.db.events
      ensures PlainAccount(w.db.events[id].accountId)
    {
      var i :| 0 <= i < |w.calls| && Made(w.calls[i]) == Some(id);
      CallAt(w, i);
    }
    hide PlainAccount;
  }

  /** In every reachable state the index finds an event exactly when one is stored. */
  lemma IndexAlwaysExact(ops: seq<Op>, numeral: real -> string, accountId: string, source: string)
    requires PlainOps(ops) && PlainAccount(accountId) && Trimmed(source) && source != ""
    ensures var db := After(ops, numeral).db;
            && (Find(db, accountId, source).Some? <==>
                  exists id :: id in db.events && db.events[id].accountId == accountId && db.events[id].source == source)
            && forall id | id in db.events && db.events[id].accountId == accountId && db.events[id].source == source ::
                 Find(db, accountId, source) == Some(id)
  {
    AlwaysSound(ops, numeral);
    CallsStayPlain(ops, numeral);
    PlainEvents(After(ops, numeral));
    FindExact(After(ops, numeral).db, accountId, source);
    hide *;
    hide Sound;
  }

  /** The call was for this source event of the account. */
  predicate Delivers(call: Call, accountId: string, source: string) {
    call.accountId == accountId && call.source == source
  }

  /** Call i stored and executed the source event, as event id; nothing else did either. */
  ghost predicate DoneOnce(w: World, accountId: string, source: string, id: Id, i: nat) {
    && id in w.db.events && w.db.events[id].accountId == accountId && w.db.events[id].source == source
    && id in w.executed && (forall p, q | 0 <= p < q < |w.executed| :: !(w.executed[p] == w.executed[q] == id))
    && i < |w.calls| && Made(w.calls[i]) == Some(id)
    && (forall j | 0 <= j < |w.calls| && j != i && Delivers(w.calls[j], accountId, source) :: Made(w.calls[j]).None?)
  }

  /**
   Once every call has been answered, a source event that was delivered at all is stored
   exactly once and was executed exactly once; the one call that did both says so, and every
   other call for it was turned away.
   */
  lemma ExactlyOnce(ops: seq<Op>, numeral: real -> string, accountId: string, source: string)
    requires PlainOps(ops) && source != ""
    requires var w := After(ops, numeral);
             && (forall i | 0 <= i < |w.calls| :: w.calls[i].phase.Answered?)
             && (exists i :: 0 <= i < |w.calls| && Delivers(w.calls[i], accountId, source))
    ensures exists id, i :: DoneOnce(After(ops, numeral), accountId, source, id, i)
  {
    var w := After(ops, numeral);
    AlwaysSound(ops, numeral);
    CallsStayPlain(ops, numeral);
    hide *;
    var d :| 0 <= d < |w.calls| && Delivers(w.calls[d], accountId, source);
    DoneByOne(w, d, accountId, source);
  }

  lemma DoneByOne(w: World, d: nat, accountId: string, source: string)
    requires Sound(w) && PlainCalls(w) && source != ""
    requires (forall i | 0 <= i < |w.calls| :: w.calls[i].phase.Answered?) && d < |w.calls| && Delivers(w.calls[d], accountId, source)
    ensures exists id, i :: DoneOnce(w, accountId, source, id, i)
  {
    hide Indexed, AllSound, Trimmed, PlainCalls;
    var id := StoredFor(w, d);
    var i :| 0 <= i < |w.calls| && Made(w.calls[i]) == Some(id);
    CallAt(w, i);
    assert Ran(w.calls[i]) == Some(id);
    forall j | 0 <= j < |w.calls| && j != i && Delivers(w.calls[j], accountId, source)
      ensures Made(w.calls[j]).None?
    {
      OneMaker(w, i, j);
    }
    assert DoneOnce(w, accountId, source, id, i);
  }

  /** Whatever an answered call with a source was told, its event is stored. */
  lemma StoredFor(w: World, d: nat) returns (id: Id)
    requires Sound(w) && PlainCalls(w) && d < |w.calls| && w.calls[d].phase.Answered? && w.calls[d].source != ""
    ensures id in w.db.events && SameSource(w.db.events[id], Event(w.calls[d].accountId, w.calls[d].source, "", ""))
  {
    CallAt(w, d);
    PlainEvents(w);
    var call := w.calls[d];
    if Made(call).Some? {
      id := Made(call).value;
    } else {
      id := w.db.bySource[Scoped(call.accountId, call.source)];
      ScopedInjective(call.accountId, call.source, w.db.events[id].accountId, w.db.events[id].source);
    }
    hide Scoped, PlainAccount, Trimmed;
  }

  /** Two calls for the same source cannot both have stored an event. */
  lemma OneMaker(w: World, i: nat, j: nat)
    requires Sound(w) && i < |w.calls| && j < |w.calls| && i != j
    requires w.calls[i].source != "" && w.calls[i].accountId == w.calls[j].accountId && w.calls[i].source == w.calls[j].source
    ensures Made(w.calls[i]).None? || Made(w.calls[j]).None?
  {
    CallAt(w, i);
    CallAt(w, j);
    hide Scoped, Trimmed;
  }

  // ---- One call by itself --------------------------------------------------

  function Steps(w: World, i: nat, n: nat, env: Env, numeral: real -> string): (next: World)
    requires i < |w.calls|
    ensures |next.calls| == |w.calls|
    decreases n
  {
    if n == 0 then w else Steps(Step(w, i, env, numeral), i, n - 1, env, numeral)
  }

  /** All the steps of one call, with nothing in between; a call takes five at most. */
  function Alone(db: Db, call: Call, env: Env, numeral: real -> string): (w: World)
    ensures |w.calls| == 1
  {
    Steps(World(db, [call], []), 0, 5, env, numeral)
  }

  lemma {:induction false} AnsweredStays(w: World, i: nat, n: nat, env: Env, numeral: real -> string)
    requires i < |w.calls| && w.calls[i].phase.Answered?
    ensures Steps(w, i, n, env, numeral) == w
    decreases n
  {
    if n > 0 {
      AnsweredStays(w, i, n - 1, env, numeral);
    }
  }

  /** ProcessWebhook; executed lists the events it called Execute for. */
  method ProcessWebhook(store: MemoryEvents, accountId: string, payload: Json, env: Env, numeral: real -> string)
    returns (answer: Answer, executed: seq<Id>)
    modifies store
    ensures var w := Alone(old(store.Now()), Call(accountId, payload, "", Received), env, numeral);
            store.Now() == w.db && executed == w.executed && w.calls[0].phase == Answered(answer)
  {
    hide SourceEventId, Find, UpdateStatus, Create;
    ghost var w0 := World(store.Now(), [Call(accountId, payload, "", Received)], []);
    executed := [];
    var source := SourceEventId(payload, numeral);
    ghost var w1 := Step(w0, 0, env, numeral);
    if source != "" {
      var existing := store.FindEventBySourceEventID(accountId, source);
      if existing.Some? {
        AnsweredStays(w1, 0, 4, env, numeral);
        return Duplicate(existing.value), [];
      }
    }
    if env.canonical.Some? && source == "" {
      source := SourceEventId(env.canonical.value, numeral);
    }
    ghost var w2 := Step(w1, 0, env, numeral);
    assert w2.calls == [Call(accountId, payload, source, Storing)] && w2.db == w0.db;
    ghost var w3 := Step(w2, 0, env, numeral);
    assert Steps(w0, 0, 5, env, numeral) == Steps(w1, 0, 4, env, numeral) == Steps(w2, 0, 3, env, numeral);
    var id := store.CreateEvent(Event(accountId, source, "processing", ""));
    if id.None? {
      AnsweredStays(w3, 0, 2, env, numeral);
      return Refused, [];
    }
    executed := [id.value];
    var _ := store.UpdateEventStatus(id.value, StatusOf(env.executed), env.action);
    answer := Handled(id.value, env.executed);
    assert Steps(w2, 0, 3, env, numeral) == Steps(w3, 0, 2, env, numeral) == Step(Step(w3, 0, env, numeral), 0, env, numeral);
  }
}
