/**
 What the calls on types, secrets and identities do and refuse (internal/store/memory.go:132-600),
 said of the entries themselves, and that a revoked secret stays revoked for ever.
 */
module Lifecycle {
  import opened Text
  import opened WebhookId
  import opened Registry
  import opened Ownership

  // ---- Deleting a type or a secret -----------------------------------------

  predicate OfType(s: WebhookSecret, accountId: Id, typeId: Id) {
    s.accountId == accountId && s.typeId == typeId
  }

  /** The identity names a secret of the type that is in force. */
  predicate NamesLive(r: Registry, i: Identity, accountId: Id, typeId: Id) {
    i.secretId in r.secrets && OfType(r.secrets[i.secretId], accountId, typeId) && r.secrets[i.secretId].active
  }

  lemma DeletedFrame(r: Registry, accountId: Id, typeId: Id)
    requires DeleteType(r, accountId, typeId).1 == Done
    ensures var next := DeleteType(r, accountId, typeId).0;
            && next == r.(typeOwner := r.typeOwner - {typeId}, secrets := next.secrets, identities := next.identities)
            && next.secrets.Keys == r.secrets.Keys && next.identities.Keys == r.identities.Keys
  {
    hide SecretsOfType;
  }

  lemma DeletedIdentity(r: Registry, accountId: Id, typeId: Id, i: Id)
    requires DeleteType(r, accountId, typeId).1 == Done && i in r.identities
    ensures var next := DeleteType(r, accountId, typeId).0;
            i in next.identities
            && next.identities[i] == if NamesLive(r, r.identities[i], accountId, typeId)
                                     then r.identities[i].(status := Tombstoned) else r.identities[i]
  {
  }

  lemma DeletedSecret(r: Registry, accountId: Id, typeId: Id, s: Id)
    requires DeleteType(r, accountId, typeId).1 == Done && s in r.secrets
    ensures var next := DeleteType(r, accountId, typeId).0;
            s in next.secrets
            && next.secrets[s] == if OfType(r.secrets[s], accountId, typeId) then r.secrets[s].(active := false) else r.secrets[s]
  {
  }

  /**
   The owner of a type can delete it, and no one else. No secret of the type stays in force, no
   identity that named a live one stays active, and nothing else changes.
   */
  lemma TypeDeleted(r: Registry, accountId: Id, typeId: Id)
    ensures var (next, outcome) := DeleteType(r, accountId, typeId);
            && (outcome == Done <==> typeId in r.typeOwner && r.typeOwner[typeId] == accountId)
            && (outcome != Done ==> outcome == TypeNotFound && next == r)
            && (outcome == Done ==> TypeGone(r, next, accountId, typeId))
  {
    var (next, outcome) := DeleteType(r, accountId, typeId);
    if outcome == Done {
      DeletedFrame(r, accountId, typeId);
      hide DeleteType, NamesLive;
      forall s | s in r.secrets
        ensures next.secrets[s] == if OfType(r.secrets[s], accountId, typeId) then r.secrets[s].(active := false) else r.secrets[s]
      {
        DeletedSecret(r, accountId, typeId, s);
      }
      forall i | i in r.identities
        ensures next.identities[i] == if NamesLive(r, r.identities[i], accountId, typeId)
                                      then r.identities[i].(status := Tombstoned) else r.identities[i]
      {
        DeletedIdentity(r, accountId, typeId, i);
      }
    }
  }

  predicate TypeGone(r: Registry, next: Registry, accountId: Id, typeId: Id) {
    && next.secrets.Keys == r.secrets.Keys && next.identities.Keys == r.identities.Keys
    && (forall s | s in next.secrets && OfType(next.secrets[s], accountId, typeId) :: !next.secrets[s].active)
    && (forall i | i in r.identities && NamesLive(r, r.identities[i], accountId, typeId) ::
          next.identities[i] == r.identities[i].(status := Tombstoned))
    && (forall s | s in r.secrets :: next.secrets[s] == r.secrets[s].(active := next.secrets[s].active))
    && (forall s | s in r.secrets && !OfType(r.secrets[s], accountId, typeId) :: next.secrets[s] == r.secrets[s])
    && (forall i | i in r.identities && !NamesLive(r, r.identities[i], accountId, typeId) ::
          next.identities[i] == r.identities[i])
    && next == r.(typeOwner := r.typeOwner - {typeId}, secrets := next.secrets, identities := next.identities)
  }

  /** A deleted secret is revoked and every identity that named it retired; only its account can delete it. */
  lemma SecretDeleted(r: Registry, accountId: Id, secretId: Id)
    ensures var (next, outcome) := DeleteSecret(r, accountId, secretId);
            && (outcome == Done <==> secretId in r.secrets && r.secrets[secretId].accountId == accountId)
            && (outcome != Done ==> outcome == SecretNotFound && next == r)
            && (outcome == Done ==>
                  && next == r.(secrets := next.secrets, identities := next.identities)
                  && next.secrets == r.secrets[secretId := r.secrets[secretId].(active := false)]
                  && next.identities.Keys == r.identities.Keys
                  && forall i | i in r.identities ::
                       next.identities[i] == if r.identities[i].secretId == secretId
                                             then r.identities[i].(status := Tombstoned) else r.identities[i])
  {
  }

  // ---- Revoked for ever ----------------------------------------------------

  /** Secrets stay, with their account, type and value, and none comes back into force. */
  predicate OnlyRevokes(a: Registry, b: Registry) {
    forall s | s in a.secrets ::
      && s in b.secrets && b.secrets[s] == a.secrets[s].(active := b.secrets[s].active)
      && (b.secrets[s].active ==> a.secrets[s].active)
  }

  lemma {:induction false} RekeyKeepsSecrets(r: Registry, accountId: Id, oldAlias: string, newAlias: string, order: seq<Id>)
    ensures Rekey(r, accountId, oldAlias, newAlias, order).0.secrets == r.secrets
    decreases |order|
  {
    hide BuildLocalPart;
    if order != [] {
      RekeyKeepsSecrets(RekeyOne(r, accountId, oldAlias, newAlias, order[0]).0, accountId, oldAlias, newAlias, order[1..]);
    }
  }

  lemma CreateOnlyRevokes(r: Registry, accountId: Id, typeId: Id, value: string)
    requires Filed(r)
    ensures OnlyRevokes(r, CreateSecret(r, accountId, typeId, value).0)
  {
    hide BuildLocalPart, IdentityFiled;
  }

  lemma RenameKeepsSecrets(r: Registry, accountId: Id, newAlias: string, order: seq<Id>)
    ensures Rename(r, accountId, newAlias, order).0.secrets == r.secrets
  {
    hide Rekey;
    if accountId in r.accounts {
      RekeyKeepsSecrets(Realias(r, accountId, newAlias), accountId, r.accounts[accountId].publicAlias, newAlias, order);
    }
  }

  lemma StepOnlyRevokes(r: Registry, op: Op)
    requires Filed(r)
    ensures OnlyRevokes(r, Step(r, op).0)
  {
    hide Filed, CreateSecret, SlugFromEmail, DeleteType, DeleteSecret, Rename, HasActiveSecret;
    match op
    case OpCreateSecret(a, t, v) => CreateOnlyRevokes(r, a, t, v);
    case OpDeleteType(a, t) => TypeDeleted(r, a, t);
    case OpDeleteSecret(a, s) => SecretDeleted(r, a, s);
    case OpRename(a, alias, order) => RenameKeepsSecrets(r, a, alias, order);
    case _ =>
  }

  /** Over every run, whatever is created, renamed or restored in it. */
  lemma {:induction false} RevokedForEver(r: Registry, ops: seq<Op>)
    requires Filed(r)
    ensures OnlyRevokes(r, After(r, ops))
  {
    hide Filed, Step;
    if ops != [] {
      var before, op := After(r, ops[..|ops| - 1]), ops[|ops| - 1];
      OwnershipPermanent(r, ops[..|ops| - 1]);
      RevokedForEver(r, ops[..|ops| - 1]);
      StepOnlyRevokes(before, op);
    }
  }

  lemma ResolvedLive(r: Registry, accountId: Id, value: string)
    ensures var found := Resolve(r, accountId, value);
            found.Some? ==> found.value in r.secrets && r.secrets[found.value].active
                            && r.secrets[found.value].accountId == accountId
  {
    hide IdentityActiveFor;
  }

  /** Once its type was deleted, no call whatever makes a secret of it accepted again. */
  lemma DeletedTypeStaysDead(r: Registry, accountId: Id, typeId: Id, ops: seq<Op>, x: Id, value: string)
    requires Filed(r) && DeleteType(r, accountId, typeId).1 == Done
    ensures var found := Resolve(After(DeleteType(r, accountId, typeId).0, ops), x, value);
            found.Some? && found.value in r.secrets ==> !OfType(r.secrets[found.value], accountId, typeId)
  {
    hide Filed, Resolve, DeleteType;
    var next := DeleteType(r, accountId, typeId).0;
    TypeDeleted(r, accountId, typeId);
    DeleteTypeFiled(r, accountId, typeId);
    RevokedForEver(next, ops);
    ResolvedLive(After(next, ops), x, value);
    hide After;
  }

  // ---- Signing up, creating and restoring ----------------------------------

  /** The slug is the part before the first @, or all of it. */
  lemma SlugSplits(email: string)
    ensures var slug := SlugFromEmail(email);
            slug <= email && '@' !in slug && (slug == email || email[|slug|] == '@')
  {
    forall j | 0 <= j < |email| && email[j] == '@'
      ensures |SlugFromEmail(email)| <= j && Index(email, "@") >= 0
    {
      assert OccursAt(email, "@", j);
      IndexIsFirst(email, "@", j);
    }
  }

  /** A known slug changes nothing; a new one makes an account that slug and alias lead to, and touches no other. */
  lemma SignedUp(r: Registry, email: string)
    ensures var (next, slug) := (CreateAccount(r, email), SlugFromEmail(email));
            && slug in next.accountBySlug
            && (slug in r.accountBySlug ==> next == r)
            && (slug !in r.accountBySlug ==>
                  var id := next.accountBySlug[slug];
                  && id == r.nextId < next.nextId && id in next.accounts
                  && next.accounts[id].slug == slug && next.accounts[id].publicAlias == slug
                  && slug in next.accountByAlias && next.accountByAlias[slug] == id
                  && next.accounts - {id} == r.accounts - {id}
                  && next.accountBySlug - {slug} == r.accountBySlug
                  && next.accountByAlias - {slug} == r.accountByAlias - {slug}
                  && next == r.(accounts := next.accounts, accountBySlug := next.accountBySlug,
                                accountByAlias := next.accountByAlias, nextId := next.nextId))
  {
    hide SlugFromEmail;
  }

  /** A new type can be deleted by the account that made it, and by no other. */
  lemma NewTypeIsOwned(r: Registry, accountId: Id, other: Id)
    ensures (DeleteType(CreateType(r, accountId), other, r.nextId).1 == Done) <==> other == accountId
    ensures var next := CreateType(r, accountId);
            next == r.(typeOwner := next.typeOwner, nextId := r.nextId + 1) && next.typeOwner - {r.nextId} == r.typeOwner - {r.nextId}
  {
    hide SecretsOfType, Revoke, Tombstone;
  }

  /** Some identity holds the mailbox for another account. */
  predicate HeldByOther(r: Registry, accountId: Id, localPart: string) {
    exists i :: i in r.identities && r.identities[i].localPart == localPart && r.identities[i].accountId != accountId
  }

  predicate ActiveAt(r: Registry, localPart: string) {
    && localPart in r.byLocalPart && r.byLocalPart[localPart] in r.identities
    && r.identities[r.byLocalPart[localPart]].status == Active
  }

  /** What a new secret is refused for. */
  lemma CreateSecretRefused(r: Registry, accountId: Id, typeId: Id, value: string)
    requires Filed(r)
    ensures var (next, outcome) := CreateSecret(r, accountId, typeId, value);
            && (outcome != Done ==> next == r)
            && if accountId !in r.accounts then outcome == AccountNotFound
               else
                 var localPart := BuildLocalPart(r.accounts[accountId].publicAlias, value);
                 outcome == if HeldByOther(r, accountId, localPart) then IdentityReserved
                            else if ActiveAt(r, localPart) then IdentityAlreadyActive
                            else Done
  {
    hide BuildLocalPart, ActivateIdentity, StoreSecret;
    if accountId in r.accounts {
      var localPart := BuildLocalPart(r.accounts[accountId].publicAlias, value);
      forall i | i in r.identities && r.identities[i].localPart == localPart
        ensures localPart in r.byLocalPart && r.byLocalPart[localPart] in r.identities
                && r.identities[r.byLocalPart[localPart]].accountId == r.identities[i].accountId
      {
        assert IdentityFiled(r, i);
      }
    }
  }

  lemma SecretStored(r: Registry, accountId: Id, typeId: Id, value: string)
    requires Filed(r) && CreateSecret(r, accountId, typeId, value).1 == Done
    ensures var next := CreateSecret(r, accountId, typeId, value).0;
            && accountId in r.accounts && r.nextId !in r.secrets
            && next.accounts == r.accounts
            && next.secrets == r.secrets[r.nextId := WebhookSecret(accountId, typeId, value, true)]
            && next.secretByHash == r.secretByHash[value := r.nextId]
  {
    hide BuildLocalPart;
  }

  /**
   A created secret is new, live and accepted for its account, and the mailbox under the
   account's alias is an active identity of that account, type, secret and value.
   */
  lemma SecretCreated(r: Registry, accountId: Id, typeId: Id, value: string)
    requires Filed(r) && CreateSecret(r, accountId, typeId, value).1 == Done
    ensures var next := CreateSecret(r, accountId, typeId, value).0;
            var alias := r.accounts[accountId].publicAlias;
            var localPart := BuildLocalPart(alias, value);
            && r.nextId !in r.secrets
            && next.secrets == r.secrets[r.nextId := WebhookSecret(accountId, typeId, value, true)]
            && localPart in next.byLocalPart
            && next.byLocalPart - {localPart} == r.byLocalPart - {localPart}
            && var mailbox := next.byLocalPart[localPart];
            && next.identities == r.identities[mailbox :=
                 Identity(accountId, typeId, r.nextId, alias, value, localPart, Active)]
            && (mailbox in r.identities ==> localPart in r.byLocalPart && mailbox == r.byLocalPart[localPart])
  {
    hide BuildLocalPart;
    SecretStored(r, accountId, typeId, value);
    FiledIds(r);
  }

  lemma CreatedAccepted(r: Registry, accountId: Id, typeId: Id, value: string)
    requires Filed(r) && CreateSecret(r, accountId, typeId, value).1 == Done
    ensures Resolve(CreateSecret(r, accountId, typeId, value).0, accountId, value) == Some(r.nextId)
  {
    hide BuildLocalPart, CreateSecret, Filed;
    SecretStored(r, accountId, typeId, value);
    SecretCreated(r, accountId, typeId, value);
  }

  /** Restoring is refused for a foreign identity, and for a retired one whose value no live secret of the account has. */
  lemma RestoreRefused(r: Registry, accountId: Id, identityId: Id)
    ensures var (next, outcome) := Restore(r, accountId, identityId);
            && (outcome == IdentityNotFound <==> identityId !in r.identities || r.identities[identityId].accountId != accountId)
            && (outcome != Done ==> next == r)
            && (outcome == Done ==> next == r.(identities := next.identities)
                                    && next.identities == r.identities[identityId := r.identities[identityId].(status := Active)])
            && (outcome != IdentityNotFound ==>
                  (outcome == SecretRequired <==>
                    && r.identities[identityId].status == Tombstoned
                    && forall s | s in r.secrets && r.secrets[s].active ::
                         !(r.secrets[s].accountId == accountId && r.secrets[s].value == r.identities[identityId].value)))
            && outcome in {Done, IdentityNotFound, SecretRequired}
  {
  }

  /** Statuses by name: only "blocked" and "active" are known, and only the account itself can set them. */
  lemma StatusUpdated(r: Registry, accountId: Id, identityId: Id, status: string)
    ensures var (next, outcome) := UpdateStatus(r, accountId, identityId, status);
            && (outcome == IdentityNotFound <==> identityId !in r.identities || r.identities[identityId].accountId != accountId)
            && (outcome == UnsupportedStatus <==> outcome != IdentityNotFound && status != "blocked" && status != "active")
            && (outcome != Done ==> next == r)
            && (outcome == Done ==>
                  && next == r.(identities := next.identities)
                  && next.identities == r.identities[identityId :=
                       r.identities[identityId].(status := if status == "blocked" then Blocked else Active)])
            && (status == "blocked" ==> outcome in {Done, IdentityNotFound})
  {
    hide HasActiveSecret;
  }
}
