/**
 The three-map secret lookup agrees with the plain definition: a value is accepted for an
 account exactly when the account owns an active identity with that secret value
 (internal/store/memory.go:231-250, 382-414, 473-591).
 */
module Lookup {
  import opened Text
  import opened WebhookId
  import opened Registry
  import opened Ownership

  predicate ActiveIdentity(r: Registry, accountId: Id, value: string, id: Id) {
    id in r.identities && r.identities[id].status == Active
    && r.identities[id].accountId == accountId && r.identities[id].value == value
  }

  /** The plain definition. */
  predicate OwnsActive(r: Registry, accountId: Id, value: string) {
    exists id :: id in r.identities && ActiveIdentity(r, accountId, value, id)
  }

  ghost predicate Agrees(r: Registry) {
    forall a, v :: Resolve(r, a, v).Some? <==> OwnsActive(r, a, v)
  }

  // ---- The invariant -------------------------------------------------------

  /** The identity is the one its mailbox name indexes and names the live secret of its value. */
  predicate Backed(r: Registry, id: Id)
    requires id in r.identities
  {
    var i := r.identities[id];
    && i.accountId in r.accounts
    && i.localPart in r.byLocalPart && r.byLocalPart[i.localPart] == id
    && i.value in r.secretByHash && r.secretByHash[i.value] == i.secretId && i.secretId in r.secrets
    && r.secrets[i.secretId].active && r.secrets[i.secretId].accountId == i.accountId
  }

  predicate CarriesAlias(r: Registry, id: Id)
    requires id in r.identities
  {
    var i := r.identities[id];
    i.accountId in r.accounts && i.publicAlias == r.accounts[i.accountId].publicAlias
  }

  predicate Tame(r: Registry) {
    && (forall id | id in r.secrets :: Trimmed(r.secrets[id].value))
    && (forall id | id in r.identities :: Trimmed(r.identities[id].value))
    && (forall id | id in r.accounts :: id < r.nextId)
  }

  predicate AllBacked(r: Registry) {
    forall id | id in r.identities && r.identities[id].status == Active :: Backed(r, id)
  }

  predicate AllCarry(r: Registry, pending: set<Id>) {
    forall id | id in r.identities && r.identities[id].status == Active && id !in pending :: CarriesAlias(r, id)
  }

  predicate OnePerValue(r: Registry) {
    forall i, j | i in r.identities && j in r.identities && r.identities[i].status == r.identities[j].status == Active
      && r.identities[i].value == r.identities[j].value :: i == j
  }

  /** All of the invariant but the aliases of the identities that are still to be rekeyed. */
  predicate SoundBut(r: Registry, pending: set<Id>) {
    Filed(r) && Tame(r) && AllBacked(r) && AllCarry(r, pending) && OnePerValue(r)
  }

  predicate Sound(r: Registry) {
    SoundBut(r, {})
  }

  lemma SameValueSameMailbox(r: Registry, i: Id, j: Id)
    requires Filed(r) && i in r.identities && j in r.identities && r.identities[i].value == r.identities[j].value
    requires Backed(r, i) && Backed(r, j) && CarriesAlias(r, i) && CarriesAlias(r, j)
    ensures i == j
  {
    hide BuildLocalPart;
    assert IdentityFiled(r, i) && IdentityFiled(r, j);
  }

  /** One active identity per value follows from the rest. */
  lemma SoundFrom(r: Registry)
    requires Filed(r) && Tame(r) && AllBacked(r) && AllCarry(r, {})
    ensures Sound(r)
  {
    hide Filed, Backed, CarriesAlias;
    forall i, j | i in r.identities && j in r.identities && r.identities[i].status == r.identities[j].status == Active
                  && r.identities[i].value == r.identities[j].value
      ensures i == j
    {
      SameValueSameMailbox(r, i, j);
    }
  }

  lemma LookupAgrees(r: Registry)
    requires Sound(r)
    ensures Agrees(r)
  {
    forall a, v
      ensures Resolve(r, a, v).Some? <==> OwnsActive(r, a, v)
    {
      if Resolve(r, a, v).Some? {
        ResolvedIsOwned(r, a, v);
      }
      if OwnsActive(r, a, v) {
        var id :| id in r.identities && ActiveIdentity(r, a, v, id);
        hide BuildLocalPart;
        assert Backed(r, id) && CarriesAlias(r, id) && IdentityFiled(r, id);
      }
    }
  }

  /** The indexed active identity has the value that was looked up, and so the account too. */
  lemma ResolvedIsOwned(r: Registry, a: Id, v: string)
    requires SoundBut(r, {}) && Resolve(r, a, v).Some?
    ensures OwnsActive(r, a, v)
  {
    var secret := r.secrets[r.secretByHash[v]];
    var id := r.byLocalPart[LocalPartOf(r, a, secret.value)];
    var i := r.identities[id];
    assert IdentityFiled(r, id) && Backed(r, id);
    BuildLocalPartInjective(i.publicAlias, i.value, r.accounts[a].publicAlias, v);
    TrimSpaceFixes(i.value);
    TrimSpaceFixes(v);
    assert ActiveIdentity(r, a, v, id);
  }

  // ---- Operations that keep the invariant ----------------------------------

  /** An identity stays backed while its account, index entry and secret stay as they are. */
  lemma StillBacked(r: Registry, next: Registry, id: Id)
    requires id in r.identities && id in next.identities
    requires next.identities[id] == r.identities[id].(status := next.identities[id].status)
    requires Backed(r, id) && CarriesAlias(r, id)
    requires var i := r.identities[id];
             && i.accountId in next.accounts && next.accounts[i.accountId] == r.accounts[i.accountId]
             && i.localPart in next.byLocalPart && next.byLocalPart[i.localPart] == r.byLocalPart[i.localPart]
             && i.value in next.secretByHash && next.secretByHash[i.value] == r.secretByHash[i.value]
             && i.secretId in next.secrets && next.secrets[i.secretId] == r.secrets[i.secretId]
    ensures Backed(next, id) && CarriesAlias(next, id)
  {
  }

  /** Another account has an active identity with this value. */
  predicate OthersUse(r: Registry, accountId: Id, value: string) {
    exists id :: id in r.identities && r.identities[id].status == Active
                 && r.identities[id].value == value && r.identities[id].accountId != accountId
  }

  lemma NewIdsSound(r: Registry, next: Registry)
    requires Sound(r)
    requires next.secrets == r.secrets && next.secretByHash == r.secretByHash
    requires next.identities == r.identities && next.byLocalPart == r.byLocalPart && next.nextId >= r.nextId
    requires forall a | a in r.accounts :: a in next.accounts && next.accounts[a] == r.accounts[a]
    requires forall a | a in next.accounts :: a < next.nextId
    ensures Sound(next)
  {
    RestatusFiled(r, next);
    hide Filed;
    forall id | id in next.identities && next.identities[id].status == Active
      ensures Backed(next, id) && CarriesAlias(next, id)
    {
      assert Backed(r, id) && CarriesAlias(r, id);
    }
    SoundFrom(next);
  }

  /** Identities only go inactive; secrets are revoked only when no active identity names them any more. */
  lemma DeactivateSound(r: Registry, next: Registry)
    requires Sound(r)
    requires next.accounts == r.accounts && next.secretByHash == r.secretByHash
    requires next.byLocalPart == r.byLocalPart && next.nextId == r.nextId
    requires next.identities.Keys == r.identities.Keys && next.secrets.Keys == r.secrets.Keys
    requires forall id | id in r.identities ::
               next.identities[id] == r.identities[id].(status := next.identities[id].status)
               && (next.identities[id].status == Active ==> r.identities[id].status == Active)
    requires forall id | id in r.secrets :: next.secrets[id] == r.secrets[id].(active := next.secrets[id].active)
    requires forall id | id in next.identities && next.identities[id].status == Active ::
               next.identities[id].secretId in r.secrets && next.secrets[next.identities[id].secretId] == r.secrets[next.identities[id].secretId]
    ensures Sound(next)
  {
    RestatusFiled(r, next);
    DeactivatedTame(r, next);
    hide Filed, Tame, Backed, CarriesAlias, OnePerValue;
    forall id | id in next.identities && next.identities[id].status == Active
      ensures Backed(next, id) && CarriesAlias(next, id)
    {
      DeactivatedBacked(r, next, id);
    }
    SoundFrom(next);
  }

  lemma DeactivatedTame(r: Registry, next: Registry)
    requires Tame(r)
    requires next.accounts == r.accounts && next.nextId == r.nextId
    requires next.identities.Keys == r.identities.Keys && next.secrets.Keys == r.secrets.Keys
    requires forall id | id in r.identities :: next.identities[id] == r.identities[id].(status := next.identities[id].status)
    requires forall id | id in r.secrets :: next.secrets[id] == r.secrets[id].(active := next.secrets[id].active)
    ensures Tame(next)
  {
    hide Trimmed;
  }

  lemma DeactivatedBacked(r: Registry, next: Registry, id: Id)
    requires id in r.identities && Backed(r, id) && CarriesAlias(r, id)
    requires next.accounts == r.accounts && next.secretByHash == r.secretByHash && next.byLocalPart == r.byLocalPart
    requires id in next.identities && next.identities[id] == r.identities[id].(status := next.identities[id].status)
    requires var s := r.identities[id].secretId; s in r.secrets && s in next.secrets && next.secrets[s] == r.secrets[s]
    ensures Backed(next, id) && CarriesAlias(next, id)
  {
  }

  lemma DeleteSound(r: Registry, ids: set<Id>, types: map<Id, Id>)
    requires Sound(r)
    ensures Sound(Tombstone(Revoke(r.(typeOwner := types), ids), ids))
  {
    hide Filed;
    var next := Tombstone(Revoke(r.(typeOwner := types), ids), ids);
    forall id | id in next.identities && next.identities[id].status == Active
      ensures next.identities[id].secretId in r.secrets
      ensures next.secrets[next.identities[id].secretId] == r.secrets[next.identities[id].secretId]
    {
      assert Backed(r, id);
    }
    DeactivateSound(r, next);
  }

  lemma StatusBacked(r: Registry, identityId: Id, status: IdentityStatus, id: Id)
    requires identityId in r.identities && id in r.identities && Backed(r, id) && CarriesAlias(r, id)
    ensures Backed(SetStatus(r, identityId, status), id) && CarriesAlias(SetStatus(r, identityId, status), id)
  {
  }

  lemma StatusTame(r: Registry, identityId: Id, status: IdentityStatus)
    requires Tame(r) && identityId in r.identities
    ensures Tame(SetStatus(r, identityId, status))
  {
    hide Trimmed;
  }

  /** Changing one status keeps the invariant, given that an identity made active is backed. */
  lemma StatusSound(r: Registry, identityId: Id, status: IdentityStatus)
    requires Sound(r) && identityId in r.identities
    requires status == Active ==> Backed(r, identityId) && CarriesAlias(r, identityId)
    ensures Sound(SetStatus(r, identityId, status))
  {
    hide Filed, Tame, Backed, CarriesAlias, OnePerValue;
    var next := SetStatus(r, identityId, status);
    StatusFiled(r, identityId, status);
    StatusTame(r, identityId, status);
    forall id | id in next.identities && next.identities[id].status == Active
      ensures Backed(next, id) && CarriesAlias(next, id)
    {
      StatusBacked(r, identityId, status, id);
    }
    SoundFrom(next);
  }

  /** When the secret may be created, no identity with its value is active. */
  lemma ValueUnused(r: Registry, accountId: Id, value: string, id: Id)
    requires Sound(r) && CreateSecretCheck(r, accountId, value) == Done && !OthersUse(r, accountId, value)
    requires id in r.identities && r.identities[id].status == Active
    ensures r.identities[id].value != value
  {
    hide BuildLocalPart;
    assert Backed(r, id) && CarriesAlias(r, id) && IdentityFiled(r, id);
  }

  /** The identity that the new secret activates. */
  function Target(r: Registry, accountId: Id, value: string): Id
    requires accountId in r.accounts
  {
    var localPart := LocalPartOf(r, accountId, value);
    if localPart in r.byLocalPart && r.byLocalPart[localPart] in r.identities then r.byLocalPart[localPart] else r.nextId + 1
  }

  lemma TargetSound(r: Registry, accountId: Id, typeId: Id, value: string)
    requires Filed(r) && CreateSecretCheck(r, accountId, value) == Done
    ensures var next, id := CreateSecret(r, accountId, typeId, value).0, Target(r, accountId, value);
            id in next.identities && Backed(next, id) && CarriesAlias(next, id)
            && next.identities[id].value == value && next.identities[id].accountId == accountId
            && next.identities[id].status == Active
  {
    TargetFields(r, accountId, typeId, value);
    CreateFrame(r, accountId, typeId, value);
    hide BuildLocalPart, CreateSecret, Target, Filed;
  }

  /** The identity the new secret activates carries the secret and the account's alias, and its mailbox indexes it. */
  lemma TargetFields(r: Registry, accountId: Id, typeId: Id, value: string)
    requires Filed(r) && CreateSecretCheck(r, accountId, value) == Done
    ensures var next, id := CreateSecret(r, accountId, typeId, value).0, Target(r, accountId, value);
            && id in next.identities && accountId in r.accounts
            && next.identities[id].accountId == accountId && next.identities[id].value == value
            && next.identities[id].status == Active && next.identities[id].secretId == r.nextId
            && next.identities[id].publicAlias == r.accounts[accountId].publicAlias
            && next.identities[id].localPart in next.byLocalPart && next.byLocalPart[next.identities[id].localPart] == id
  {
    hide BuildLocalPart, IdentityFiled;
  }

  /** Creating a secret changes one identity and adds entries; everything else stays. */
  lemma CreateFrame(r: Registry, accountId: Id, typeId: Id, value: string)
    requires CreateSecretCheck(r, accountId, value) == Done
    ensures var next := CreateSecret(r, accountId, typeId, value).0;
            && next.accounts == r.accounts && next.secretByHash == r.secretByHash[value := r.nextId]
            && next.secrets == r.secrets[r.nextId := WebhookSecret(accountId, typeId, value, true)]
  {
    hide BuildLocalPart;
  }

  lemma CreateKeeps(r: Registry, accountId: Id, typeId: Id, value: string, id: Id, lp: string)
    requires CreateSecretCheck(r, accountId, value) == Done
    ensures var next := CreateSecret(r, accountId, typeId, value).0;
            && (id in next.identities && id != Target(r, accountId, value) ==>
                  id in r.identities && next.identities[id] == r.identities[id])
            && (lp in r.byLocalPart && r.byLocalPart[lp] in r.identities ==>
                  lp in next.byLocalPart && next.byLocalPart[lp] == r.byLocalPart[lp])
  {
    hide BuildLocalPart;
  }

  lemma CreateStaysIn(r: Registry, accountId: Id, typeId: Id, value: string, m: Id)
    requires CreateSecretCheck(r, accountId, value) == Done && m in r.identities && m < r.nextId
    ensures m in CreateSecret(r, accountId, typeId, value).0.identities
  {
    hide BuildLocalPart;
  }

  lemma TargetOwn(r: Registry, accountId: Id, value: string)
    requires CreateSecretCheck(r, accountId, value) == Done && Target(r, accountId, value) in r.identities && r.nextId + 1 !in r.identities
    ensures r.identities[Target(r, accountId, value)].accountId == accountId
  {
    hide BuildLocalPart;
  }

  lemma OthersUntouched(r: Registry, accountId: Id, typeId: Id, value: string, id: Id)
    requires Filed(r) && CreateSecretCheck(r, accountId, value) == Done
    requires id in CreateSecret(r, accountId, typeId, value).0.identities && id != Target(r, accountId, value)
    requires id in r.identities ==> Backed(r, id) && CarriesAlias(r, id) && r.identities[id].value != value
    ensures id in r.identities && CreateSecret(r, accountId, typeId, value).0.identities[id] == r.identities[id]
    ensures Backed(CreateSecret(r, accountId, typeId, value).0, id)
            && CarriesAlias(CreateSecret(r, accountId, typeId, value).0, id)
  {
    CreateFrame(r, accountId, typeId, value);
    CreateKeeps(r, accountId, typeId, value, id, "");
    CreateKeeps(r, accountId, typeId, value, id, r.identities[id].localPart);
    FiledSecrets(r);
    hide CreateSecret, Filed, CreateSecretCheck, Target;
    StillBacked(r, CreateSecret(r, accountId, typeId, value).0, id);
  }

  lemma FiledSecrets(r: Registry)
    requires Filed(r)
    ensures forall id | id in r.secrets :: id < r.nextId
  {
  }

  lemma CreateSecretTame(r: Registry, accountId: Id, typeId: Id, value: string)
    requires Tame(r) && Trimmed(value)
    ensures Tame(CreateSecret(r, accountId, typeId, value).0)
  {
    hide BuildLocalPart, Trimmed;
  }

  /** A new secret: its value is fresh among active identities, so only its own mailbox changes. */
  lemma CreateSecretSound(r: Registry, accountId: Id, typeId: Id, value: string)
    requires Sound(r) && Trimmed(value) && !OthersUse(r, accountId, value)
    ensures Sound(CreateSecret(r, accountId, typeId, value).0)
  {
    hide Filed, Tame, Backed, CarriesAlias, ActivateIdentity, BuildLocalPart, CreateSecretCheck, Target;
    if CreateSecretCheck(r, accountId, value) == Done {
      var next := CreateSecret(r, accountId, typeId, value).0;
      CreateSecretFiled(r, accountId, typeId, value);
      CreateSecretTame(r, accountId, typeId, value);
      assert accountId in r.accounts by {
        CheckedAccount(r, accountId, value);
      }
      TargetSound(r, accountId, typeId, value);
      forall id | id in next.identities && next.identities[id].status == Active
        ensures Backed(next, id) && CarriesAlias(next, id)
      {
        if id != Target(r, accountId, value) {
          CreateKeeps(r, accountId, typeId, value, id, "");
          ValueUnused(r, accountId, value, id);
          OthersUntouched(r, accountId, typeId, value, id);
        }
      }
      SoundFrom(next);
    }
  }

  lemma CheckedAccount(r: Registry, accountId: Id, value: string)
    requires CreateSecretCheck(r, accountId, value) == Done
    ensures accountId in r.accounts
  {
  }

  /** The identity may be made active again: it is current, indexed, and names a live secret. */
  predicate CleanRestore(r: Registry, accountId: Id, identityId: Id) {
    Restore(r, accountId, identityId).1 == Done ==> Backed(r, identityId) && CarriesAlias(r, identityId)
  }

  lemma RestoreSound(r: Registry, accountId: Id, identityId: Id)
    requires Sound(r) && CleanRestore(r, accountId, identityId)
    ensures Sound(Restore(r, accountId, identityId).0)
  {
    if Restore(r, accountId, identityId).1 == Done {
      StatusSound(r, identityId, Active);
    }
    hide *;
  }
}
