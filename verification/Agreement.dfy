/**
 The lookup in any state in which it agrees with the plain definition, also one that a manual
 restore has left: exactly which calls, renames apart, keep it agreeing
 (internal/store/memory.go:313-329, 369-380, 399-414, 444-533).
 */
module Agreement {
  import opened Text
  import opened WebhookId
  import opened Registry
  import opened Ownership
  import opened Lookup
  import opened Renaming
  import opened LookupRuns

  /** The owner of an active identity resolves its value. */
  predicate Served(r: Registry, id: Id)
    requires id in r.identities
  {
    Resolve(r, r.identities[id].accountId, r.identities[id].value).Some?
  }

  predicate AllServed(r: Registry) {
    forall id | id in r.identities && r.identities[id].status == Active :: Served(r, id)
  }

  /** What is found is owned, as long as active identities are served. */
  lemma ServedIsOwned(r: Registry, a: Id, v: string)
    requires Filed(r) && Tame(r) && AllServed(r) && Resolve(r, a, v).Some?
    ensures OwnsActive(r, a, v)
  {
    var id := FoundAt(r, a, v);
    assert Served(r, id);
    SameSecret(r, a, r.identities[id].accountId, v);
    assert ActiveIdentity(r, a, v, id);
  }

  /** The identity at the mailbox is active and has the value that was looked up. */
  lemma FoundAt(r: Registry, a: Id, v: string) returns (id: Id)
    requires Filed(r) && Tame(r) && Resolve(r, a, v).Some?
    ensures id in r.identities && r.identities[id].status == Active && r.identities[id].value == v
  {
    hide BuildLocalPart;
    id := r.byLocalPart[LocalPartOf(r, a, v)];
    assert IdentityFiled(r, id);
    SameMailboxSameValue(r.identities[id], r.accounts[a].publicAlias, v);
  }

  lemma SameSecret(r: Registry, a: Id, b: Id, v: string)
    requires Resolve(r, a, v).Some? && Resolve(r, b, v).Some?
    ensures a == b
  {
    hide IdentityActiveFor;
  }

  lemma AgreesIffServed(r: Registry)
    requires Filed(r) && Tame(r)
    ensures Agrees(r) <==> AllServed(r)
  {
    hide Filed, Tame, Resolve;
    if Agrees(r) {
      forall id | id in r.identities && r.identities[id].status == Active
        ensures Served(r, id)
      {
        assert ActiveIdentity(r, r.identities[id].accountId, r.identities[id].value, id);
        AgreesAt(r, r.identities[id].accountId, r.identities[id].value);
      }
    }
    if AllServed(r) {
      forall a, v
        ensures Resolve(r, a, v).Some? <==> OwnsActive(r, a, v)
      {
        if Resolve(r, a, v).Some? {
          ServedIsOwned(r, a, v);
        }
        if OwnsActive(r, a, v) {
          var id :| id in r.identities && ActiveIdentity(r, a, v, id);
          assert Served(r, id);
        }
      }
    }
  }

  /** The identity that stands at the mailbox of this one's value under its account's alias. */
  function Mailbox(r: Registry, id: Id): (m: Id)
    requires Filed(r) && id in r.identities && Served(r, id)
    ensures m in r.identities && r.identities[m].status == Active
  {
    r.byLocalPart[LocalPartOf(r, r.identities[id].accountId, r.identities[id].value)]
  }

  // ---- Blocking ------------------------------------------------------------

  /** No other active identity is served by this one. */
  predicate Idle(r: Registry, id: Id)
    requires Filed(r)
  {
    forall k | k in r.identities && r.identities[k].status == Active && k != id && Served(r, k) :: Mailbox(r, k) != id
  }

  lemma BlockedServed(r: Registry, identityId: Id, k: Id)
    requires Filed(r) && identityId in r.identities && k in r.identities && Served(r, k)
    ensures var next := SetStatus(r, identityId, Blocked);
            Served(next, k) <==> Mailbox(r, k) != identityId
  {
    hide BuildLocalPart;
  }

  lemma BlockedActive(r: Registry, identityId: Id)
    requires identityId in r.identities
    ensures var next := SetStatus(r, identityId, Blocked);
            next.identities.Keys == r.identities.Keys
            && forall k | k in r.identities ::
                 next.identities[k].status == Active <==> r.identities[k].status == Active && k != identityId
  {
  }

  lemma BlockDone(r: Registry, accountId: Id, identityId: Id)
    requires Block(r, accountId, identityId).1 == Done
    ensures identityId in r.identities && Block(r, accountId, identityId).0 == SetStatus(r, identityId, Blocked)
  {
    hide SetStatus;
  }

  lemma BlockExact(r: Registry, accountId: Id, identityId: Id)
    requires Filed(r) && Tame(r) && Agrees(r) && Block(r, accountId, identityId).1 == Done
    ensures Agrees(Block(r, accountId, identityId).0) <==> Idle(r, identityId)
  {
    BlockDone(r, accountId, identityId);
    var next := SetStatus(r, identityId, Blocked);
    BlockedActive(r, identityId);
    hide Filed, Tame, Agrees, Served, Mailbox, OwnersKept, Block, SetStatus;
    StatusFiled(r, identityId, Blocked);
    StatusTame(r, identityId, Blocked);
    AgreesIffServed(r);
    AgreesIffServed(next);
    forall k | k in r.identities && r.identities[k].status == Active
      ensures Served(r, k) && (Served(next, k) <==> Mailbox(r, k) != identityId)
    {
      BlockedServed(r, identityId, k);
    }
  }

  // ---- Revoking ------------------------------------------------------------

  /** The identities that stay active do not depend on the secrets: not for their value, nor at their mailbox. */
  predicate Dispensable(r: Registry, ids: set<Id>)
    requires Filed(r)
  {
    forall k | k in r.identities && r.identities[k].status == Active && r.identities[k].secretId !in ids && Served(r, k) ::
      StaysServed(r, ids, k)
  }

  predicate StaysServed(r: Registry, ids: set<Id>, k: Id)
    requires Filed(r) && k in r.identities && Served(r, k)
  {
    r.secretByHash[r.identities[k].value] !in ids && r.identities[Mailbox(r, k)].secretId !in ids
  }

  lemma RevokedServed(r: Registry, ids: set<Id>, k: Id)
    requires Filed(r) && k in r.identities && Served(r, k)
    ensures var next := Tombstone(Revoke(r, ids), ids);
            k in next.identities && (Served(next, k) <==> StaysServed(r, ids, k))
  {
    hide BuildLocalPart;
  }

  lemma RevokedTame(r: Registry, ids: set<Id>)
    requires Tame(r)
    ensures Tame(Tombstone(Revoke(r, ids), ids))
  {
    hide Trimmed;
  }

  lemma RevokeExact(r: Registry, ids: set<Id>)
    requires Filed(r) && Tame(r) && Agrees(r)
    ensures Agrees(Tombstone(Revoke(r, ids), ids)) <==> Dispensable(r, ids)
  {
    var next := Tombstone(Revoke(r, ids), ids);
    RevokedFiled(r, ids);
    RevokedTame(r, ids);
    AgreesIffServed(r);
    AgreesIffServed(next);
    StillActive(r, ids);
    hide Filed, Tame, Agrees, Served, StaysServed, OwnersKept, Tombstone, Revoke;
    forall k | k in r.identities && r.identities[k].status == Active
      ensures Served(r, k) && k in next.identities && (Served(next, k) <==> StaysServed(r, ids, k))
    {
      RevokedServed(r, ids, k);
    }
  }

  lemma StillActive(r: Registry, ids: set<Id>)
    ensures var next := Tombstone(Revoke(r, ids), ids);
            next.identities.Keys == r.identities.Keys
            && forall k | k in r.identities ::
                 next.identities[k].status == Active <==> r.identities[k].status == Active && r.identities[k].secretId !in ids
  {
  }

  // ---- Creating ------------------------------------------------------------

  /** When the secret may be created, its account has no active identity with the value. */
  lemma OwnValueFree(r: Registry, accountId: Id, value: string, k: Id)
    requires Filed(r) && CreateSecretCheck(r, accountId, value) == Done && k in r.identities && Served(r, k)
    ensures !(r.identities[k].accountId == accountId && r.identities[k].value == value)
  {
    hide BuildLocalPart;
  }

  lemma TargetServed(r: Registry, accountId: Id, typeId: Id, value: string)
    requires Filed(r) && CreateSecretCheck(r, accountId, value) == Done
    ensures var next, id := CreateSecret(r, accountId, typeId, value).0, Target(r, accountId, value);
            id in next.identities && Served(next, id)
  {
    TargetSound(r, accountId, typeId, value);
    TargetIndexed(r, accountId, typeId, value);
    CreateFrame(r, accountId, typeId, value);
    hide CreateSecret, Target, Filed, BuildLocalPart;
  }

  lemma TargetIndexed(r: Registry, accountId: Id, typeId: Id, value: string)
    requires CreateSecretCheck(r, accountId, value) == Done
    ensures var next, lp := CreateSecret(r, accountId, typeId, value).0, LocalPartOf(r, accountId, value);
            lp in next.byLocalPart && next.byLocalPart[lp] == Target(r, accountId, value)
  {
    hide BuildLocalPart;
  }

  /** What it takes to be served, with the mailbox m. */
  predicate ServedBy(r: Registry, a: Id, v: string, m: Id) {
    && v in r.secretByHash && r.secretByHash[v] in r.secrets
    && r.secrets[r.secretByHash[v]] == WebhookSecret(a, r.secrets[r.secretByHash[v]].typeId, v, true)
    && a in r.accounts && LocalPartOf(r, a, v) in r.byLocalPart && r.byLocalPart[LocalPartOf(r, a, v)] == m
    && m in r.identities && r.identities[m].status == Active
  }

  lemma ServedMeans(r: Registry, k: Id)
    requires Filed(r) && k in r.identities && Served(r, k)
    ensures ServedBy(r, r.identities[k].accountId, r.identities[k].value, Mailbox(r, k))
  {
    hide BuildLocalPart;
  }

  lemma ServedFrom(r: Registry, k: Id, m: Id)
    requires k in r.identities && ServedBy(r, r.identities[k].accountId, r.identities[k].value, m)
    ensures Served(r, k)
  {
    hide BuildLocalPart;
  }

  lemma OtherServed(r: Registry, accountId: Id, typeId: Id, value: string, k: Id)
    requires Filed(r) && CreateSecretCheck(r, accountId, value) == Done
    requires k in r.identities && Served(r, k) && r.identities[k].value != value
    requires var next := CreateSecret(r, accountId, typeId, value).0;
             k in next.identities && next.identities[k] == r.identities[k]
    ensures Served(CreateSecret(r, accountId, typeId, value).0, k)
  {
    hide CreateSecret, CreateSecretCheck, Target, Filed, Served, Mailbox, Backed, CarriesAlias, BuildLocalPart;
    var next, m := CreateSecret(r, accountId, typeId, value).0, Mailbox(r, k);
    CreateFrame(r, accountId, typeId, value);
    TargetSound(r, accountId, typeId, value);
    ServedMeans(r, k);
    CreateKeeps(r, accountId, typeId, value, m, LocalPartOf(r, r.identities[k].accountId, r.identities[k].value));
    CreateStays(r, accountId, typeId, value, m);
    FiledSecrets(r);
    ServedFrom(next, k, m);
  }

  lemma CreateStays(r: Registry, accountId: Id, typeId: Id, value: string, m: Id)
    requires Filed(r) && CreateSecretCheck(r, accountId, value) == Done && m in r.identities
    ensures var next := CreateSecret(r, accountId, typeId, value).0;
            m in next.identities && (m != Target(r, accountId, value) ==> next.identities[m] == r.identities[m])
  {
    FiledIds(r);
    CreateStaysIn(r, accountId, typeId, value, m);
    CreateKeeps(r, accountId, typeId, value, m, "");
    hide CreateSecret, CreateSecretCheck, Target, Filed;
  }

  lemma CreateSecretExact(r: Registry, accountId: Id, typeId: Id, value: string)
    requires Filed(r) && Tame(r) && Agrees(r) && Trimmed(value) && CreateSecret(r, accountId, typeId, value).1 == Done
    ensures Agrees(CreateSecret(r, accountId, typeId, value).0) <==> !OthersUse(r, accountId, value)
  {
    var next := CreateSecret(r, accountId, typeId, value).0;
    if OthersUse(r, accountId, value) {
      UsedValueLost(r, accountId, typeId, value);
    } else {
      CreatedChecked(r, accountId, typeId, value);
      AgreesIffServed(r);
      CreateSecretFiled(r, accountId, typeId, value);
      CreateSecretTame(r, accountId, typeId, value);
      TargetServed(r, accountId, typeId, value);
      forall k | k in next.identities && next.identities[k].status == Active
        ensures Served(next, k)
      {
        if k != Target(r, accountId, value) {
          CreateKeeps(r, accountId, typeId, value, k, "");
          OwnValueFree(r, accountId, value, k);
          OtherServed(r, accountId, typeId, value, k);
        }
        hide CreateSecret, CreateSecretCheck, Filed, Tame, Agrees, Served;
      }
      AgreesIffServed(next);
    }
    hide *;
  }

  // ---- Steps and runs ------------------------------------------------------

  /** What keeps the lookup agreeing through a call other than a rename. */
  predicate StaysAgreeing(r: Registry, op: Op)
    requires Filed(r)
  {
    match op
    case OpCreateSecret(a, _, v) => CreateSecretCheck(r, a, v) == Done ==> !OthersUse(r, a, v)
    case OpBlock(a, i) => Block(r, a, i).1 == Done ==> Idle(r, i)
    case OpRestore(a, i) => Restore(r, a, i).1 == Done ==> RestoreFinds(r, a, i)
    case OpDeleteSecret(a, s) => DeleteSecret(r, a, s).1 == Done ==> Dispensable(r, {s})
    case OpDeleteType(a, t) => DeleteType(r, a, t).1 == Done ==> Dispensable(r, SecretsOfType(r, a, t))
    case _ => true
  }

  lemma SameLookups(r: Registry, next: Registry)
    requires Filed(r) && Tame(r) && Agrees(r)
    requires next.secrets == r.secrets && next.secretByHash == r.secretByHash
    requires next.identities == r.identities && next.byLocalPart == r.byLocalPart && next.nextId >= r.nextId
    requires forall a | a in r.accounts :: a in next.accounts && next.accounts[a] == r.accounts[a]
    requires forall a | a in next.accounts :: a < next.nextId
    ensures Filed(next) && Tame(next) && Agrees(next)
  {
    SameFiled(r, next);
    SameTame(r, next);
    AgreesIffServed(r);
    forall k | k in r.identities && r.identities[k].status == Active
      ensures Served(next, k)
    {
      SameServed(r, next, k);
    }
    AgreesIffServed(next);
    hide Filed, Tame, Agrees, Served, OwnersKept;
  }

  lemma SameTame(r: Registry, next: Registry)
    requires Tame(r) && next.secrets == r.secrets && next.identities == r.identities
    requires forall a | a in next.accounts :: a < next.nextId
    ensures Tame(next)
  {
    hide Trimmed;
  }

  lemma SameServed(r: Registry, next: Registry, k: Id)
    requires AllServed(r) && k in r.identities && r.identities[k].status == Active
    requires next.secrets == r.secrets && next.secretByHash == r.secretByHash
    requires next.identities == r.identities && next.byLocalPart == r.byLocalPart
    requires forall a | a in r.accounts :: a in next.accounts && next.accounts[a] == r.accounts[a]
    ensures Served(next, k)
  {
    assert Served(r, k);
    hide AllServed, BuildLocalPart;
  }

  lemma TameIds(r: Registry)
    requires Tame(r)
    ensures forall a | a in r.accounts :: a < r.nextId
  {
    hide Trimmed;
  }

  lemma NewIdsAgree(r: Registry, op: Op)
    requires Filed(r) && Tame(r) && Agrees(r) && (op.OpCreateAccount? || op.OpCreateType?)
    ensures Tame(Step(r, op).0) && Agrees(Step(r, op).0)
  {
    TameIds(r);
    hide Filed, Tame, Agrees, CreateAccount;
    if op.OpCreateAccount? {
      SignUpFrame(r, op.email);
      SameLookups(r, CreateAccount(r, op.email));
    } else {
      SameLookups(r, CreateType(r, op.accountId));
    }
  }

  lemma DeleteTypeExact(r: Registry, accountId: Id, typeId: Id)
    requires Filed(r) && Tame(r) && Agrees(r) && DeleteType(r, accountId, typeId).1 == Done
    ensures Tame(DeleteType(r, accountId, typeId).0)
    ensures Agrees(DeleteType(r, accountId, typeId).0) <==> Dispensable(r, SecretsOfType(r, accountId, typeId))
  {
    var ids, untyped := SecretsOfType(r, accountId, typeId), r.(typeOwner := r.typeOwner - {typeId});
    TameIds(r);
    SameLookups(r, untyped);
    RevokedTame(untyped, ids);
    RevokeExact(untyped, ids);
    SameDispensable(r, untyped, ids);
    assert DeleteType(r, accountId, typeId).0 == Tombstone(Revoke(untyped, ids), ids);
    hide *;
  }

  lemma SameDispensable(r: Registry, next: Registry, ids: set<Id>)
    requires Filed(r) && Filed(next) && next.accounts == r.accounts
    requires next.secrets == r.secrets && next.secretByHash == r.secretByHash
    requires next.identities == r.identities && next.byLocalPart == r.byLocalPart
    ensures Dispensable(next, ids) <==> Dispensable(r, ids)
  {
    hide Filed, BuildLocalPart;
    forall k | k in r.identities
      ensures Served(next, k) <==> Served(r, k)
      ensures Served(r, k) ==> (StaysServed(next, ids, k) <==> StaysServed(r, ids, k))
    {
    }
  }

  lemma DeleteSecretExact(r: Registry, accountId: Id, secretId: Id)
    requires Filed(r) && Tame(r) && Agrees(r) && DeleteSecret(r, accountId, secretId).1 == Done
    ensures Tame(DeleteSecret(r, accountId, secretId).0)
    ensures Agrees(DeleteSecret(r, accountId, secretId).0) <==> Dispensable(r, {secretId})
  {
    RevokedTame(r, {secretId});
    RevokeExact(r, {secretId});
    hide Filed, Tame, Agrees, Dispensable, Tombstone, Revoke;
  }

  lemma StatusExact(r: Registry, op: Op)
    requires Filed(r) && Tame(r) && Agrees(r) && (op.OpBlock? || op.OpRestore?)
    ensures Tame(Step(r, op).0)
    ensures Agrees(Step(r, op).0) <==> StaysAgreeing(r, op)
  {
    hide Filed, Tame, Agrees, Idle, RestoreFinds, SetStatus, HasActiveSecret;
    if op.OpBlock? && Block(r, op.accountId, op.identityId).1 == Done {
      StatusTame(r, op.identityId, Blocked);
      BlockExact(r, op.accountId, op.identityId);
    }
    if op.OpRestore? && Restore(r, op.accountId, op.identityId).1 == Done {
      StatusTame(r, op.identityId, Active);
      RestoreExact(r, op.accountId, op.identityId);
    }
  }

  /** From any state in which the lookup agrees, a call other than a rename keeps it so exactly under this condition. */
  lemma StepAgreesIff(r: Registry, op: Op)
    requires Filed(r) && Tame(r) && Agrees(r) && !op.OpRename? && (op.OpCreateSecret? ==> Trimmed(op.value))
    ensures Filed(Step(r, op).0) && Tame(Step(r, op).0)
    ensures Agrees(Step(r, op).0) <==> StaysAgreeing(r, op)
  {
    StepFiled(r, op);
    hide Filed, Tame, Agrees, OwnersKept, Idle, Dispensable, OthersUse, Block, Restore, DeleteSecret, DeleteType, CreateSecret;
    match op
    case OpCreateSecret(a, t, v) =>
      CreateSecretTame(r, a, t, v);
      CreatedIff(r, a, t, v);
      if CreateSecretCheck(r, a, v) == Done {
        CreateSecretExact(r, a, t, v);
      }
    case OpBlock(_, _) => StatusExact(r, op);
    case OpRestore(_, _) => StatusExact(r, op);
    case OpDeleteSecret(a, s) =>
      if DeleteSecret(r, a, s).1 == Done {
        DeleteSecretExact(r, a, s);
      } else {
        Refused(r, op);
      }
    case OpDeleteType(a, t) =>
      if DeleteType(r, a, t).1 == Done {
        DeleteTypeExact(r, a, t);
      } else {
        Refused(r, op);
      }
    case _ => NewIdsAgree(r, op);
  }

  lemma Refused(r: Registry, op: Op)
    requires (op.OpDeleteSecret? || op.OpDeleteType?) && Step(r, op).1 != Done
    ensures Step(r, op).0 == r
  {
    hide Tombstone, Revoke, SecretsOfType;
  }

  lemma CreatedIff(r: Registry, accountId: Id, typeId: Id, value: string)
    ensures var (next, outcome) := CreateSecret(r, accountId, typeId, value);
            if CreateSecretCheck(r, accountId, value) == Done then outcome == Done else next == r
  {
    hide CreateSecretCheck, ActivateIdentity, StoreSecret;
  }

  /** Each call of the run keeps the lookup agreeing; a rename is made from a sound state and is not blocked. */
  predicate AgreeingRun(ops: seq<Op>) {
    ops != [] ==>
      var init, op := ops[..|ops| - 1], ops[|ops| - 1];
      var r := After(EMPTY, init);
      && AgreeingRun(init)
      && (op.OpCreateSecret? ==> Trimmed(op.value))
      && if op.OpRename? then Sound(r) && Visits(op.order, r) && !RenameBlocked(r, op.accountId, op.newAlias)
         else Filed(r) && StaysAgreeing(r, op)
  }

  /** Over every such run, restores that are found without being clean included, the lookup agrees at every point. */
  lemma {:induction false} AgreesThroughout(ops: seq<Op>)
    requires AgreeingRun(ops)
    ensures var r := After(EMPTY, ops); Filed(r) && Tame(r) && Agrees(r)
  {
    hide Filed, Tame, Agrees, Sound, StaysAgreeing, Step, RenameBlocked, Visits;
    if ops == [] {
      NothingAgrees();
    } else {
      var init, op := ops[..|ops| - 1], ops[|ops| - 1];
      var r := After(EMPTY, init);
      AgreesThroughout(init);
      if op.OpRename? {
        RenameStepSound(r, op.accountId, op.newAlias, op.order);
        RenameIs(r, op);
        SoundAgrees(Step(r, op).0);
      } else {
        StepAgreesIff(r, op);
      }
    }
  }

  lemma RenameIs(r: Registry, op: Op)
    requires op.OpRename?
    ensures Step(r, op) == Rename(r, op.accountId, op.newAlias, op.order)
  {
    hide Rename;
  }

  lemma SoundAgrees(r: Registry)
    requires Sound(r)
    ensures Filed(r) && Tame(r) && Agrees(r)
  {
    LookupAgrees(r);
    hide Filed, Tame, AllBacked, AllCarry, OnePerValue, Agrees;
  }

  lemma NothingAgrees()
    ensures Filed(EMPTY) && Tame(EMPTY) && Agrees(EMPTY)
  {
    AgreesIffServed(EMPTY);
    hide Agrees, Served;
  }
}
