/**
 Histories of calls that all succeed and end with the secret lookup wrong: a rename that then
 fails, a value shared by two accounts, and a manual restore
 (internal/store/memory.go:231-250, 444-578).
 */
module Histories {
  import opened Text
  import opened WebhookId
  import opened Registry
  import opened Lookup
  import opened LookupRuns
  import opened Aliases

  // ---- States on the way ---------------------------------------------------

  /** Two accounts, ann and bob. */
  function TwoAccounts(): Registry {
    EMPTY.(
      accounts := map[0 := Account("ann", "ann"), 1 := Account("bob", "bob")],
      accountBySlug := map["ann" := 0, "bob" := 1],
      accountByAlias := map["ann" := 0, "bob" := 1],
      nextId := 2)
  }

  /** Ann has created a secret. */
  function Created(): Registry {
    TwoAccounts().(
      secrets := map[2 := WebhookSecret(0, 0, "s", true)],
      secretByHash := map["s" := 2],
      identities := map[3 := Identity(0, 0, 2, "ann", "s", "ann.s", Active)],
      byLocalPart := map["ann.s" := 3],
      nextId := 4)
  }

  /** And deleted it: its mailbox is tombstoned. */
  function Deleted(): Registry {
    Created().(
      secrets := map[2 := WebhookSecret(0, 0, "s", false)],
      identities := map[3 := Identity(0, 0, 2, "ann", "s", "ann.s", Tombstoned)])
  }

  /** And given up the alias. */
  function MovedAway(): Registry {
    Deleted().(
      accounts := map[0 := Account("ann", "cat"), 1 := Account("bob", "bob")],
      accountByAlias := map["bob" := 1, "cat" := 0])
  }

  /** Bob has a live secret with the same value. */
  function SecondSecret(): Registry {
    MovedAway().(
      secrets := map[2 := WebhookSecret(0, 0, "s", false), 4 := WebhookSecret(1, 0, "s", true)],
      secretByHash := map["s" := 4],
      identities := map[3 := Identity(0, 0, 2, "ann", "s", "ann.s", Tombstoned), 5 := Identity(1, 0, 4, "bob", "s", "bob.s", Active)],
      byLocalPart := map["ann.s" := 3, "bob.s" := 5],
      nextId := 6)
  }

  /** Bob creates a secret with the value of ann's live one. */
  function Shared(): Registry {
    Created().(
      secrets := map[2 := WebhookSecret(0, 0, "s", true), 4 := WebhookSecret(1, 0, "s", true)],
      secretByHash := map["s" := 4],
      identities := map[3 := Identity(0, 0, 2, "ann", "s", "ann.s", Active), 5 := Identity(1, 0, 4, "bob", "s", "bob.s", Active)],
      byLocalPart := map["ann.s" := 3, "bob.s" := 5],
      nextId := 6)
  }

  /** Ann moves to another alias with her live secret. */
  function Renamed(): Registry {
    Created().(
      accounts := map[0 := Account("ann", "cat"), 1 := Account("bob", "bob")],
      accountByAlias := map["bob" := 1, "cat" := 0],
      identities := map[3 := Identity(0, 0, 2, "ann", "s", "ann.s", Tombstoned), 4 := Identity(0, 0, 2, "cat", "s", "cat.s", Active)],
      byLocalPart := map["ann.s" := 3, "cat.s" := 4],
      nextId := 5)
  }

  // ---- Single steps --------------------------------------------------------

  lemma SamplePart(alias: string)
    requires forall c | c in alias :: 'a' <= c <= 'z'
    ensures BuildLocalPart(alias, "s") == alias + ".s"
  {
    forall i | 0 <= i < |alias|
      ensures 'a' <= alias[i] <= 'z'
    {
      assert alias[i] in alias;
    }
    AliasFormFixed(alias);
    TrimSpaceFixes("s");
    hide Alias, TrimSpace, AliasForm;
    assert alias + "." + "s" == alias + ".s";
  }

  lemma SampleParts()
    ensures BuildLocalPart("ann", "s") == "ann.s" && BuildLocalPart("bob", "s") == "bob.s" && BuildLocalPart("cat", "s") == "cat.s"
  {
    hide BuildLocalPart;
    SamplePart("ann");
    SamplePart("bob");
    SamplePart("cat");
    assert "ann" + ".s" == "ann.s" && "bob" + ".s" == "bob.s" && "cat" + ".s" == "cat.s";
  }

  lemma SampleSlugs()
    ensures SlugFromEmail("ann@x") == "ann" && SlugFromEmail("bob@x") == "bob"
  {
    IndexOfChar("ann", '@', "x");
    IndexOfChar("bob", '@', "x");
    assert "ann" + "@" + "x" == "ann@x" && "bob" + "@" + "x" == "bob@x";
    assert "ann@x"[..3] == "ann" && "bob@x"[..3] == "bob";
    hide Index;
  }

  lemma Append(r: Registry, ops: seq<Op>, op: Op)
    ensures After(r, ops + [op]) == Step(After(r, ops), op).0
    ensures CarefulRun(r, ops + [op]) <==> CarefulRun(r, ops) && Careful(After(r, ops), op)
  {
    assert (ops + [op])[..|ops + [op]| - 1] == ops;
    hide Step, Careful;
  }

  lemma StepsToCreated()
    ensures Step(Step(EMPTY, OpCreateAccount("ann@x")).0, OpCreateAccount("bob@x")).0 == TwoAccounts()
    ensures Step(TwoAccounts(), OpCreateSecret(0, 0, "s")).0 == Created()
  {
    SampleParts();
    SampleSlugs();
    hide SlugFromEmail, BuildLocalPart;
    var next := Step(TwoAccounts(), OpCreateSecret(0, 0, "s")).0;
    assert next.identities == Created().identities && next.secrets == Created().secrets;
  }

  lemma StepToDeleted()
    ensures Step(Created(), OpDeleteSecret(0, 2)).0 == Deleted()
  {
    var next := Step(Created(), OpDeleteSecret(0, 2)).0;
    assert next.identities == Deleted().identities && next.secrets == Deleted().secrets;
  }

  lemma RealiasesDeleted()
    ensures Realias(Deleted(), 0, "cat") == MovedAway()
  {
    var named := Realias(Deleted(), 0, "cat");
    assert named.accounts == MovedAway().accounts && named.accountByAlias == MovedAway().accountByAlias;
  }

  lemma NothingToMove()
    ensures Rekey(MovedAway(), 0, "ann", "cat", [3]) == (MovedAway(), true)
  {
    hide BuildLocalPart;
    assert !NeedsRekey(MovedAway(), 0, "ann", 3);
    assert [3][1..] == [];
  }

  lemma MovesAway()
    ensures Step(Deleted(), OpRename(0, "cat", [3])).0 == MovedAway()
    ensures Careful(Deleted(), OpRename(0, "cat", [3]))
  {
    RealiasesDeleted();
    NothingToMove();
    hide Rekey, Realias, BuildLocalPart;
  }

  lemma CreatesSecond()
    ensures Step(MovedAway(), OpCreateSecret(1, 0, "s")) == (SecondSecret(), Done)
  {
    SampleParts();
    hide BuildLocalPart;
    assert CreateSecretCheck(MovedAway(), 1, "s") == Done;
    var made := ActivateIdentity(StoreSecret(MovedAway(), 1, 0, "s"), 1, 4);
    assert made.identities == SecondSecret().identities && made.byLocalPart == SecondSecret().byLocalPart;
    assert made.secrets == SecondSecret().secrets && made.secretByHash == SecondSecret().secretByHash;
  }

  lemma CreatesShared()
    ensures Step(Created(), OpCreateSecret(1, 0, "s")) == (Shared(), Done)
  {
    SampleParts();
    hide BuildLocalPart;
    assert CreateSecretCheck(Created(), 1, "s") == Done;
    var made := ActivateIdentity(StoreSecret(Created(), 1, 0, "s"), 1, 4);
    assert made.identities == Shared().identities && made.byLocalPart == Shared().byLocalPart;
    assert made.secrets == Shared().secrets && made.secretByHash == Shared().secretByHash;
  }

  lemma LastRename()
    ensures var (next, outcome) := Rename(SecondSecret(), 1, "ann", [3, 5]);
            outcome == IdentityReserved && 1 in next.accounts && next.accounts[1].publicAlias == "ann"
            && Resolve(SecondSecret(), 1, "s") == Some(4) && Resolve(next, 1, "s") == None
  {
    SampleParts();
    hide SlugFromEmail, BuildLocalPart;
    var named := Realias(SecondSecret(), 1, "ann");
    assert RekeyOne(named, 1, "bob", "ann", 3) == (named, true);
    assert RekeyOne(named, 1, "bob", "ann", 5) == (named, false);
    assert [3, 5][1..] == [5];
    assert Rekey(named, 1, "bob", "ann", [5]) == (named, false);
  }

  // ---- Histories -----------------------------------------------------------

  function Start(): seq<Op> {
    [OpCreateAccount("ann@x")] + [OpCreateAccount("bob@x")] + [OpCreateSecret(0, 0, "s")]
  }

  lemma CarefulCreates()
    ensures forall r :: Careful(r, OpCreateAccount("ann@x")) && Careful(r, OpCreateAccount("bob@x")) && Careful(r, OpDeleteSecret(0, 2))
    ensures Careful(TwoAccounts(), OpCreateSecret(0, 0, "s")) && Careful(MovedAway(), OpCreateSecret(1, 0, "s"))
  {
  }

  lemma StartRun()
    ensures CarefulRun(EMPTY, Start()) && After(EMPTY, Start()) == Created()
  {
    StepsToCreated();
    CarefulCreates();
    var ops1 := [OpCreateAccount("ann@x")];
    var ops2 := ops1 + [OpCreateAccount("bob@x")];
    assert [] + ops1 == ops1;
    Append(EMPTY, [], OpCreateAccount("ann@x"));
    Append(EMPTY, ops1, OpCreateAccount("bob@x"));
    Append(EMPTY, ops2, OpCreateSecret(0, 0, "s"));
    assert After(EMPTY, []) == EMPTY && CarefulRun(EMPTY, []);
    hide *;
  }

  /** Ann deletes her secret and renames; bob creates one with the same value. */
  function BeforeRename(): seq<Op> {
    Start() + [OpDeleteSecret(0, 2)] + [OpRename(0, "cat", [3])] + [OpCreateSecret(1, 0, "s")]
  }

  lemma BeforeRenameRun()
    ensures CarefulRun(EMPTY, BeforeRename()) && After(EMPTY, BeforeRename()) == SecondSecret()
  {
    StartRun();
    StepToDeleted();
    MovesAway();
    CreatesSecond();
    CarefulCreates();
    var ops1 := Start() + [OpDeleteSecret(0, 2)];
    var ops2 := ops1 + [OpRename(0, "cat", [3])];
    Append(EMPTY, Start(), OpDeleteSecret(0, 2));
    Append(EMPTY, ops1, OpRename(0, "cat", [3]));
    Append(EMPTY, ops2, OpCreateSecret(1, 0, "s"));
    assert BeforeRename() == ops2 + [OpCreateSecret(1, 0, "s")];
    hide *;
  }

  /**
   Ann leaves a deleted mailbox behind under an alias she gives up. Bob, who takes that alias
   next, is told that his rename failed, yet he keeps the new alias, and his live secret is
   found no more.
   */
  lemma FailedRenameLosesSecret()
    ensures CarefulRun(EMPTY, BeforeRename()) && Visits([3, 5], After(EMPTY, BeforeRename()))
    ensures Resolve(After(EMPTY, BeforeRename()), 1, "s") == Some(4)
    ensures var (next, outcome) := Rename(After(EMPTY, BeforeRename()), 1, "ann", [3, 5]);
            outcome == IdentityReserved && 1 in next.accounts && next.accounts[1].publicAlias == "ann" && Resolve(next, 1, "s") == None
  {
    BeforeRenameRun();
    LastRename();
    assert Visits([3, 5], SecondSecret());
    hide *;
  }

  /** Bob is given a secret with the value of ann's, and ann's is accepted no more. */
  lemma SharedValueLosesSecret()
    ensures var before, after := After(EMPTY, Start()), After(EMPTY, Start() + [OpCreateSecret(1, 0, "s")]);
            && CarefulRun(EMPTY, Start()) && Step(before, OpCreateSecret(1, 0, "s")).1 == Done
            && Resolve(before, 0, "s") == Some(2)
            && OwnsActive(after, 0, "s") && Resolve(after, 0, "s") == None && Resolve(after, 1, "s") == Some(4)
  {
    StartRun();
    CreatesShared();
    Append(EMPTY, Start(), OpCreateSecret(1, 0, "s"));
    SharedLookups();
    hide *;
  }

  lemma SharedLookups()
    ensures Resolve(Created(), 0, "s") == Some(2)
    ensures OwnsActive(Shared(), 0, "s") && Resolve(Shared(), 0, "s") == None && Resolve(Shared(), 1, "s") == Some(4)
  {
    SampleParts();
    hide BuildLocalPart;
    assert ActiveIdentity(Shared(), 0, "s", 3);
  }

  lemma SecretMoved()
    ensures var named := Realias(Created(), 0, "cat");
            NeedsRekey(named, 0, "ann", 3) && !OwnedByOther(named, 0, "cat.s") && Moved(named, "cat", 3) == Renamed()
  {
    SampleParts();
    hide BuildLocalPart;
    var named := Realias(Created(), 0, "cat");
    var moved := Moved(named, "cat", 3);
    assert moved.identities == Renamed().identities && moved.byLocalPart == Renamed().byLocalPart;
    assert named.accountByAlias == Renamed().accountByAlias && named.accounts == Renamed().accounts;
  }

  lemma RekeysSecret()
    ensures Rekey(Realias(Created(), 0, "cat"), 0, "ann", "cat", [3]) == (Renamed(), true)
  {
    SecretMoved();
    SampleParts();
    var named := Realias(Created(), 0, "cat");
    assert named.identities[3].value == "s";
    hide BuildLocalPart, NeedsRekey, OwnedByOther, Moved, Realias;
    assert RekeyOne(named, 0, "ann", "cat", 3) == (Renamed(), true);
    assert [3][1..] == [];
  }

  lemma MovesSecret()
    ensures Step(Created(), OpRename(0, "cat", [3])) == (Renamed(), Done)
  {
    RekeysSecret();
    hide Rekey, Realias, Renamed;
  }

  /** What the last two calls of the restore history do. */
  function Restored(): Registry {
    SetStatus(SetStatus(Renamed(), 4, Blocked), 3, Active)
  }

  lemma RestoresOld()
    ensures Step(Renamed(), OpBlock(0, 4)) == (SetStatus(Renamed(), 4, Blocked), Done)
    ensures Step(SetStatus(Renamed(), 4, Blocked), OpRestore(0, 3)) == (Restored(), Done)
    ensures OwnsActive(Restored(), 0, "s") && Resolve(Restored(), 0, "s") == None
  {
    SampleParts();
    hide BuildLocalPart;
    var blocked := SetStatus(Renamed(), 4, Blocked);
    assert 2 in blocked.secrets && blocked.secrets[2] == WebhookSecret(0, 0, "s", true);
    assert HasActiveSecret(blocked, 0, "s");
    assert ActiveIdentity(Restored(), 0, "s", 3);
  }

  function RestoreHistory(): seq<Op> {
    Start() + [OpRename(0, "cat", [3])] + [OpBlock(0, 4)] + [OpRestore(0, 3)]
  }

  /**
   Ann renames, blocks the new identity and restores the old one. Every call succeeds, and she
   owns an active identity whose value is not accepted.
   */
  lemma RestoreLosesSecret()
    ensures var after := After(EMPTY, RestoreHistory());
            OwnsActive(after, 0, "s") && Resolve(after, 0, "s") == None && !Agrees(after)
  {
    hide Step, SetStatus, Resolve, OwnsActive, Careful;
    StartRun();
    MovesSecret();
    RestoresOld();
    var ops1 := Start() + [OpRename(0, "cat", [3])];
    var ops2 := ops1 + [OpBlock(0, 4)];
    Append(EMPTY, Start(), OpRename(0, "cat", [3]));
    Append(EMPTY, ops1, OpBlock(0, 4));
    Append(EMPTY, ops2, OpRestore(0, 3));
    assert RestoreHistory() == ops2 + [OpRestore(0, 3)];
    hide *;
    DisagreesAt(After(EMPTY, RestoreHistory()), 0, "s");
  }

  // ---- A sign-up that takes an alias ---------------------------------------

  /** Ann alone. */
  function OneAccount(alias: string): Registry {
    EMPTY.(
      accounts := map[0 := Account("ann", alias)],
      accountBySlug := map["ann" := 0],
      accountByAlias := map[alias := 0],
      nextId := 1)
  }

  /** Bob has signed up after ann took his name as her alias. */
  function SameAlias(): Registry {
    OneAccount("bob").(
      accounts := map[0 := Account("ann", "bob"), 1 := Account("bob", "bob")],
      accountBySlug := map["ann" := 0, "bob" := 1],
      accountByAlias := map["bob" := 1],
      nextId := 2)
  }

  function SignUps(): seq<Op> {
    [OpCreateAccount("ann@x")] + [OpRename(0, "bob", [])] + [OpCreateAccount("bob@x")]
  }

  lemma SignUpSteps()
    ensures Step(EMPTY, OpCreateAccount("ann@x")).0 == OneAccount("ann")
    ensures Step(OneAccount("ann"), OpRename(0, "bob", [])) == (OneAccount("bob"), Done)
    ensures Step(OneAccount("bob"), OpCreateAccount("bob@x")).0 == SameAlias()
  {
    SampleSlugs();
    hide SlugFromEmail;
    var named := Realias(OneAccount("ann"), 0, "bob");
    assert named.accountByAlias == OneAccount("bob").accountByAlias && named.accounts == OneAccount("bob").accounts;
    assert named == OneAccount("bob");
  }

  /** Ann renames to "bob"; then bob signs up. Both have the alias, and the index has lost ann. */
  lemma SignUpTakesAlias()
    ensures After(EMPTY, SignUps()) == SameAlias() && !AliasesIndexed(SameAlias())
    ensures Overwrites(OneAccount("bob"), OpCreateAccount("bob@x"))
  {
    SignUpSteps();
    SampleSlugs();
    var ops1 := [OpCreateAccount("ann@x")];
    var ops2 := ops1 + [OpRename(0, "bob", [])];
    assert [] + ops1 == ops1;
    Append(EMPTY, [], OpCreateAccount("ann@x"));
    Append(EMPTY, ops1, OpRename(0, "bob", []));
    Append(EMPTY, ops2, OpCreateAccount("bob@x"));
    assert After(EMPTY, []) == EMPTY;
    hide Step, After, SlugFromEmail;
    assert !Indexed(SameAlias(), 0);
  }
}
