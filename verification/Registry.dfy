/**
 Accounts, public aliases, webhook secrets and mailbox identities: the maps of
 internal/store/memory.go that index one another, and what every operation does to them.
 Identifiers come from a counter, which stands for fresh UUIDs. Time stamps, owner e-mails
 and access tokens are not part of this model.
 */
module Registry {
  import opened Text
  import opened WebhookId

  type Id = nat

  datatype Account = Account(slug: string, publicAlias: string)

  datatype WebhookSecret = WebhookSecret(accountId: Id, typeId: Id, value: string, active: bool)

  datatype IdentityStatus = Active | Blocked | Tombstoned

  datatype Identity = Identity(
    accountId: Id,
    typeId: Id,
    secretId: Id,
    publicAlias: string,
    value: string,
    localPart: string,
    status: IdentityStatus)

  datatype Registry = Registry(
    accounts: map<Id, Account>,
    accountBySlug: map<string, Id>,
    accountByAlias: map<string, Id>,
    typeOwner: map<Id, Id>,
    secrets: map<Id, WebhookSecret>,
    secretByHash: map<string, Id>,
    identities: map<Id, Identity>,
    byLocalPart: map<string, Id>,
    nextId: nat)

  const EMPTY := Registry(map[], map[], map[], map[], map[], map[], map[], map[], 0)

  datatype Outcome =
    | Done
    | AccountNotFound
    | AliasInUse
    | IdentityReserved
    | IdentityAlreadyActive
    | IdentityNotFound
    | SecretNotFound
    | TypeNotFound
    | SecretRequired
    | UnsupportedStatus

  // ---- Accounts and types --------------------------------------------------

  function SlugFromEmail(email: string): string {
    var at := Index(email, "@");
    if at < 0 then email else email[..at]
  }

  function CreateAccount(r: Registry, email: string): Registry {
    var slug := SlugFromEmail(email);
    if slug in r.accountBySlug then r
    else r.(accounts := r.accounts[r.nextId := Account(slug, slug)],
            accountBySlug := r.accountBySlug[slug := r.nextId],
            accountByAlias := r.accountByAlias[slug := r.nextId],
            nextId := r.nextId + 1)
  }

  function CreateType(r: Registry, accountId: Id): Registry {
    r.(typeOwner := r.typeOwner[r.nextId := accountId], nextId := r.nextId + 1)
  }

  // ---- Secrets and identities ----------------------------------------------

  function LocalPartOf(r: Registry, accountId: Id, value: string): string
    requires accountId in r.accounts
  {
    BuildLocalPart(r.accounts[accountId].publicAlias, value)
  }

  /** activateIdentityLocked: the mailbox is taken over if it exists, created if not. */
  function ActivateIdentity(r: Registry, accountId: Id, secretId: Id): Registry
    requires accountId in r.accounts && secretId in r.secrets
  {
    var alias, secret := r.accounts[accountId].publicAlias, r.secrets[secretId];
    var localPart := BuildLocalPart(alias, secret.value);
    if localPart in r.byLocalPart && r.byLocalPart[localPart] in r.identities then
      var id := r.byLocalPart[localPart];
      r.(identities := r.identities[id := r.identities[id].(
        typeId := secret.typeId, secretId := secretId, publicAlias := alias, value := secret.value, status := Active)])
    else
      r.(identities := r.identities[r.nextId :=
           Identity(accountId, secret.typeId, secretId, alias, secret.value, localPart, Active)],
         byLocalPart := r.byLocalPart[localPart := r.nextId],
         nextId := r.nextId + 1)
  }

  function CreateSecretCheck(r: Registry, accountId: Id, value: string): Outcome {
    if accountId !in r.accounts then AccountNotFound
    else
      var localPart := LocalPartOf(r, accountId, value);
      if localPart in r.byLocalPart && r.byLocalPart[localPart] in r.identities then
        var identity := r.identities[r.byLocalPart[localPart]];
        if identity.accountId != accountId then IdentityReserved
        else if identity.status == Active then IdentityAlreadyActive
        else Done
      else Done
  }

  function StoreSecret(r: Registry, accountId: Id, typeId: Id, value: string): Registry {
    r.(secrets := r.secrets[r.nextId := WebhookSecret(accountId, typeId, value, true)],
       secretByHash := r.secretByHash[value := r.nextId],
       nextId := r.nextId + 1)
  }

  function CreateSecret(r: Registry, accountId: Id, typeId: Id, value: string): (Registry, Outcome) {
    var check := CreateSecretCheck(r, accountId, value);
    if check != Done then (r, check)
    else (ActivateIdentity(StoreSecret(r, accountId, typeId, value), accountId, r.nextId), Done)
  }

  /** tombstoneIdentityBySecretLocked, for all the given secrets. */
  function Tombstone(r: Registry, secretIds: set<Id>): Registry {
    r.(identities := map id | id in r.identities ::
         if r.identities[id].secretId in secretIds then r.identities[id].(status := Tombstoned) else r.identities[id])
  }

  function Revoke(r: Registry, secretIds: set<Id>): Registry {
    r.(secrets := map id | id in r.secrets ::
         if id in secretIds then r.secrets[id].(active := false) else r.secrets[id])
  }

  function DeleteSecret(r: Registry, accountId: Id, secretId: Id): (Registry, Outcome) {
    if secretId !in r.secrets || r.secrets[secretId].accountId != accountId then (r, SecretNotFound)
    else (Tombstone(Revoke(r, {secretId}), {secretId}), Done)
  }

  function SecretsOfType(r: Registry, accountId: Id, typeId: Id): set<Id> {
    set id | id in r.secrets && r.secrets[id].accountId == accountId && r.secrets[id].typeId == typeId && r.secrets[id].active
  }

  function DeleteType(r: Registry, accountId: Id, typeId: Id): (Registry, Outcome) {
    if typeId !in r.typeOwner || r.typeOwner[typeId] != accountId then (r, TypeNotFound)
    else
      var ids := SecretsOfType(r, accountId, typeId);
      (Tombstone(Revoke(r.(typeOwner := r.typeOwner - {typeId}), ids), ids), Done)
  }

  predicate HasActiveSecret(r: Registry, accountId: Id, value: string) {
    exists id :: id in r.secrets && r.secrets[id].accountId == accountId && r.secrets[id].value == value && r.secrets[id].active
  }

  function SetStatus(r: Registry, identityId: Id, status: IdentityStatus): Registry
    requires identityId in r.identities
  {
    r.(identities := r.identities[identityId := r.identities[identityId].(status := status)])
  }

  function Block(r: Registry, accountId: Id, identityId: Id): (Registry, Outcome) {
    if identityId !in r.identities || r.identities[identityId].accountId != accountId then (r, IdentityNotFound)
    else (SetStatus(r, identityId, Blocked), Done)
  }

  function Restore(r: Registry, accountId: Id, identityId: Id): (Registry, Outcome) {
    if identityId !in r.identities || r.identities[identityId].accountId != accountId then (r, IdentityNotFound)
    else
      var identity := r.identities[identityId];
      if identity.status == Tombstoned && !HasActiveSecret(r, accountId, identity.value) then (r, SecretRequired)
      else (SetStatus(r, identityId, Active), Done)
  }

  /** UpdateWebhookIdentityStatus, by the name of the status. */
  function UpdateStatus(r: Registry, accountId: Id, identityId: Id, status: string): (Registry, Outcome) {
    if status == "blocked" then Block(r, accountId, identityId)
    else if status == "active" then Restore(r, accountId, identityId)
    else if identityId !in r.identities || r.identities[identityId].accountId != accountId then (r, IdentityNotFound)
    else (r, UnsupportedStatus)
  }

  // ---- Changing an alias ---------------------------------------------------

  predicate NeedsRekey(r: Registry, accountId: Id, oldAlias: string, id: Id) {
    && id in r.identities && r.identities[id].accountId == accountId
    && r.identities[id].status == Active && r.identities[id].publicAlias == oldAlias
  }

  predicate OwnedByOther(r: Registry, accountId: Id, localPart: string) {
    localPart in r.byLocalPart && r.byLocalPart[localPart] in r.identities
    && r.identities[r.byLocalPart[localPart]].accountId != accountId
  }

  /** An identity is retired and a copy takes its place under the new alias. */
  function Moved(r: Registry, newAlias: string, id: Id): Registry
    requires id in r.identities
  {
    var identity := r.identities[id];
    var newLocalPart := BuildLocalPart(newAlias, identity.value);
    r.(identities := r.identities[id := identity.(status := Tombstoned)]
                     [r.nextId := identity.(publicAlias := newAlias, localPart := newLocalPart)],
       byLocalPart := r.byLocalPart[newLocalPart := r.nextId],
       nextId := r.nextId + 1)
  }

  /** One iteration of the rekey loop; false when the new mailbox belongs to someone else. */
  function RekeyOne(r: Registry, accountId: Id, oldAlias: string, newAlias: string, id: Id): (Registry, bool) {
    if !NeedsRekey(r, accountId, oldAlias, id) then (r, true)
    else if OwnedByOther(r, accountId, BuildLocalPart(newAlias, r.identities[id].value)) then (r, false)
    else (Moved(r, newAlias, id), true)
  }

  /** The loop over the identities, in the order the range happens to visit them. */
  function Rekey(r: Registry, accountId: Id, oldAlias: string, newAlias: string, order: seq<Id>): (Registry, bool)
    decreases |order|
  {
    if order == [] then (r, true)
    else
      var step := RekeyOne(r, accountId, oldAlias, newAlias, order[0]);
      if !step.1 then step else Rekey(step.0, accountId, oldAlias, newAlias, order[1..])
  }

  /** The account and alias maps after a rename, before any identity has been touched. */
  function Realias(r: Registry, accountId: Id, newAlias: string): Registry
    requires accountId in r.accounts
  {
    var account := r.accounts[accountId];
    r.(accounts := r.accounts[accountId := account.(publicAlias := newAlias)],
       accountByAlias := (r.accountByAlias - {account.publicAlias})[newAlias := accountId])
  }

  predicate AliasTaken(r: Registry, accountId: Id, newAlias: string) {
    newAlias in r.accountByAlias && r.accountByAlias[newAlias] != accountId
  }

  function Rename(r: Registry, accountId: Id, newAlias: string, order: seq<Id>): (Registry, Outcome) {
    if accountId !in r.accounts then (r, AccountNotFound)
    else if AliasTaken(r, accountId, newAlias) then (r, AliasInUse)
    else
      var done := Rekey(Realias(r, accountId, newAlias), accountId, r.accounts[accountId].publicAlias, newAlias, order);
      (done.0, if done.1 then Done else IdentityReserved)
  }

  /**
   A range visits every identity that was there when it started. It may also visit entries
   added on the way, so the order is allowed to name more.
   */
  predicate Visits(order: seq<Id>, r: Registry) {
    forall id | id in r.identities :: id in order
  }

  // ---- Looking a secret up -------------------------------------------------

  predicate IdentityActiveFor(r: Registry, accountId: Id, value: string) {
    && accountId in r.accounts
    && var localPart := LocalPartOf(r, accountId, value);
    && localPart in r.byLocalPart && r.byLocalPart[localPart] in r.identities
    && r.identities[r.byLocalPart[localPart]].status == Active
  }

  /** ResolveSecretAnyType: the secret that value stands for at the account. */
  function Resolve(r: Registry, accountId: Id, value: string): Option<Id> {
    if value !in r.secretByHash || r.secretByHash[value] !in r.secrets then None
    else
      var id := r.secretByHash[value];
      var secret := r.secrets[id];
      if secret.accountId != accountId || !secret.active then None
      else if !IdentityActiveFor(r, secret.accountId, secret.value) then None
      else Some(id)
  }

  // ---- Runs ----------------------------------------------------------------

  datatype Op =
    | OpCreateAccount(email: string)
    | OpCreateType(accountId: Id)
    | OpDeleteType(accountId: Id, typeId: Id)
    | OpCreateSecret(accountId: Id, typeId: Id, value: string)
    | OpDeleteSecret(accountId: Id, secretId: Id)
    | OpBlock(accountId: Id, identityId: Id)
    | OpRestore(accountId: Id, identityId: Id)
    | OpRename(accountId: Id, newAlias: string, order: seq<Id>)

  function Step(r: Registry, op: Op): (Registry, Outcome) {
    match op
    case OpCreateAccount(email) => (CreateAccount(r, email), Done)
    case OpCreateType(a) => (CreateType(r, a), Done)
    case OpDeleteType(a, t) => DeleteType(r, a, t)
    case OpCreateSecret(a, t, v) => CreateSecret(r, a, t, v)
    case OpDeleteSecret(a, s) => DeleteSecret(r, a, s)
    case OpBlock(a, i) => Block(r, a, i)
    case OpRestore(a, i) => Restore(r, a, i)
    case OpRename(a, alias, order) => Rename(r, a, alias, order)
  }

  function After(r: Registry, ops: seq<Op>): Registry {
    if ops == [] then r else Step(After(r, ops[..|ops| - 1]), ops[|ops| - 1]).0
  }
}
