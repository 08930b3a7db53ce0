/**
 The in-memory store as the program updates it: each locked method of
 internal/store/memory.go does to the maps what the registry function says.
 */
module MemoryStore {
  import opened Text
  import opened WebhookId
  import opened R = Registry

  class MemoryStore {
    var accountsByID: map<Id, Account>
    var accountsBySlug: map<string, Id>
    var accountsByAlias: map<string, Id>
    var typesByID: map<Id, Id>
    var secretsByID: map<Id, WebhookSecret>
    var secretByHash: map<string, Id>
    var identitiesByID: map<Id, Identity>
    var identityByLocalPart: map<string, Id>
    var nextID: nat

    constructor ()
      ensures Now() == EMPTY
    {
      accountsByID, accountsBySlug, accountsByAlias, typesByID := map[], map[], map[], map[];
      secretsByID, secretByHash, identitiesByID, identityByLocalPart := map[], map[], map[], map[];
      nextID := 0;
    }

    ghost function Now(): Registry
      reads this
    {
      Registry(accountsByID, accountsBySlug, accountsByAlias, typesByID, secretsByID, secretByHash,
               identitiesByID, identityByLocalPart, nextID)
    }

    method NewID() returns (id: Id)
      modifies this`nextID
      ensures id == old(nextID) && nextID == id + 1
    {
      id := nextID;
      nextID := nextID + 1;
    }

    method CreateAccount(email: string) returns (id: Id)
      modifies this
      ensures Now() == R.CreateAccount(old(Now()), email)
      ensures SlugFromEmail(email) in accountsBySlug && id == accountsBySlug[SlugFromEmail(email)]
    {
      hide SlugFromEmail;
      var slug := SlugFromEmail(email);
      if slug in accountsBySlug {
        return accountsBySlug[slug];
      }
      id := NewID();
      accountsByID := accountsByID[id := Account(slug, slug)];
      accountsBySlug := accountsBySlug[slug := id];
      accountsByAlias := accountsByAlias[slug := id];
    }

    method CreateWebhookType(accountID: Id) returns (id: Id)
      modifies this
      ensures Now() == CreateType(old(Now()), accountID) && id == old(nextID)
    {
      id := NewID();
      typesByID := typesByID[id := accountID];
    }

    method ActivateIdentityLocked(accountID: Id, secretID: Id)
      requires accountID in accountsByID && secretID in secretsByID
      modifies this
      ensures Now() == ActivateIdentity(old(Now()), accountID, secretID)
    {
      hide BuildLocalPart;
      var alias, secret := accountsByID[accountID].publicAlias, secretsByID[secretID];
      var localPart := BuildLocalPart(alias, secret.value);
      if localPart in identityByLocalPart && identityByLocalPart[localPart] in identitiesByID {
        var identityID := identityByLocalPart[localPart];
        var identity := identitiesByID[identityID];
        identity := identity.(typeId := secret.typeId, secretId := secretID);
        identity := identity.(publicAlias := alias, value := secret.value, status := Active);
        identitiesByID := identitiesByID[identityID := identity];
        return;
      }
      var id := NewID();
      identitiesByID := identitiesByID[id :=
        Identity(accountID, secret.typeId, secretID, alias, secret.value, localPart, Active)];
      identityByLocalPart := identityByLocalPart[localPart := id];
    }

    method CreateSecretWithValue(accountID: Id, typeID: Id, value: string) returns (outcome: Outcome)
      modifies this
      ensures (Now(), outcome) == CreateSecret(old(Now()), accountID, typeID, value)
    {
      hide BuildLocalPart, ActivateIdentity;
      if accountID !in accountsByID {
        return AccountNotFound;
      }
      var localPart := BuildLocalPart(accountsByID[accountID].publicAlias, value);
      if localPart in identityByLocalPart && identityByLocalPart[localPart] in identitiesByID {
        var identity := identitiesByID[identityByLocalPart[localPart]];
        if identity.accountId != accountID {
          return IdentityReserved;
        }
        if identity.status == Active {
          return IdentityAlreadyActive;
        }
      }
      var id := NewID();
      secretsByID := secretsByID[id := WebhookSecret(accountID, typeID, value, true)];
      secretByHash := secretByHash[value := id];
      ActivateIdentityLocked(accountID, id);
      outcome := Done;
    }

    method TombstoneIdentityBySecretLocked(secretID: Id)
      modifies this`identitiesByID
      ensures Now() == Tombstone(old(Now()), {secretID})
    {
      var pending := identitiesByID.Keys;
      while pending != {}
        invariant pending <= old(identitiesByID).Keys && identitiesByID.Keys == old(identitiesByID).Keys
        invariant forall id | id in pending :: identitiesByID[id] == old(identitiesByID)[id]
        invariant forall id | id in identitiesByID.Keys - pending ::
                    identitiesByID[id] == Tombstone(old(Now()), {secretID}).identities[id]
      {
        var id :| id in pending;
        pending := pending - {id};
        if identitiesByID[id].secretId == secretID {
          identitiesByID := identitiesByID[id := identitiesByID[id].(status := Tombstoned)];
        }
      }
      assert identitiesByID == Tombstone(old(Now()), {secretID}).identities;
    }

    method DeleteSecret(accountID: Id, secretID: Id) returns (outcome: Outcome)
      modifies this
      ensures (Now(), outcome) == R.DeleteSecret(old(Now()), accountID, secretID)
    {
      hide Tombstone;
      if secretID !in secretsByID || secretsByID[secretID].accountId != accountID {
        return SecretNotFound;
      }
      secretsByID := secretsByID[secretID := secretsByID[secretID].(active := false)];
      assert secretsByID == Revoke(old(Now()), {secretID}).secrets;
      TombstoneIdentityBySecretLocked(secretID);
      outcome := Done;
    }

    method DeleteWebhookType(accountID: Id, typeID: Id) returns (outcome: Outcome)
      modifies this
      ensures (Now(), outcome) == DeleteType(old(Now()), accountID, typeID)
    {
      hide Tombstone, Revoke;
      if typeID !in typesByID || typesByID[typeID] != accountID {
        return TypeNotFound;
      }
      typesByID := typesByID - {typeID};
      ghost var start := Now();
      ghost var done: set<Id> := {};
      RevokeNothing(start);
      var pending := secretsByID.Keys;
      while pending != {}
        invariant pending <= start.secrets.Keys && secretsByID.Keys == start.secrets.Keys
        invariant done == SecretsOfType(start, accountID, typeID) - pending
        invariant Now() == Tombstone(Revoke(start, done), done)
        invariant forall id | id in pending :: secretsByID[id] == start.secrets[id]
      {
        var id :| id in pending;
        pending := pending - {id};
        var sec := secretsByID[id];
        if sec.accountId == accountID && sec.typeId == typeID && sec.active {
          RevokeOneMore(start, done, id);
          secretsByID := secretsByID[id := sec.(active := false)];
          TombstoneIdentityBySecretLocked(id);
          done := done + {id};
        }
      }
      assert done == SecretsOfType(start, accountID, typeID);
      outcome := Done;
    }

    method UpdateWebhookIdentityStatus(accountID: Id, identityID: Id, status: string) returns (outcome: Outcome)
      modifies this
      ensures (Now(), outcome) == UpdateStatus(old(Now()), accountID, identityID, status)
    {
      if identityID !in identitiesByID || identitiesByID[identityID].accountId != accountID {
        return IdentityNotFound;
      }
      var identity := identitiesByID[identityID];
      if status == "blocked" {
        identity := identity.(status := Blocked);
      } else if status == "active" {
        if identity.status == Tombstoned {
          var found := HasActiveSecretLocked(accountID, identity.value);
          if !found {
            return SecretRequired;
          }
        }
        identity := identity.(status := Active);
      } else {
        return UnsupportedStatus;
      }
      identitiesByID := identitiesByID[identityID := identity];
      outcome := Done;
    }

    method HasActiveSecretLocked(accountID: Id, value: string) returns (found: bool)
      ensures found == HasActiveSecret(Now(), accountID, value)
    {
      var pending := secretsByID.Keys;
      while pending != {}
        invariant pending <= secretsByID.Keys
        invariant forall id | id in secretsByID.Keys - pending ::
                    !(secretsByID[id].accountId == accountID && secretsByID[id].value == value && secretsByID[id].active)
      {
        var id :| id in pending;
        pending := pending - {id};
        var secret := secretsByID[id];
        if secret.accountId == accountID && secret.value == value && secret.active {
          return true;
        }
      }
      found := false;
    }

    /** One iteration of the rekey loop; false when the new mailbox is reserved. */
    method RekeyIdentity(accountID: Id, oldAlias: string, newAlias: string, id: Id) returns (ok: bool)
      modifies this`identitiesByID, this`identityByLocalPart, this`nextID
      ensures (Now(), ok) == RekeyOne(old(Now()), accountID, oldAlias, newAlias, id)
    {
      hide BuildLocalPart;
      if id !in identitiesByID {
        return true;
      }
      var identity := identitiesByID[id];
      if identity.accountId != accountID || identity.status != Active || identity.publicAlias != oldAlias {
        return true;
      }
      var newLocalPart := BuildLocalPart(newAlias, identity.value);
      if newLocalPart in identityByLocalPart && identityByLocalPart[newLocalPart] in identitiesByID {
        if identitiesByID[identityByLocalPart[newLocalPart]].accountId != accountID {
          return false;
        }
      }
      identitiesByID := identitiesByID[id := identity.(status := Tombstoned)];
      var copyID := NewID();
      identitiesByID := identitiesByID[copyID := identity.(publicAlias := newAlias, localPart := newLocalPart)];
      identityByLocalPart := identityByLocalPart[newLocalPart := copyID];
      ok := true;
    }

    /** order is the order in which the map range happens to visit the identities. */
    method RekeyActiveIdentities(accountID: Id, oldAlias: string, newAlias: string, order: seq<Id>) returns (ok: bool)
      modifies this`identitiesByID, this`identityByLocalPart, this`nextID
      ensures (Now(), ok) == Rekey(old(Now()), accountID, oldAlias, newAlias, order)
    {
      hide RekeyOne;
      ghost var start := Now();
      assert order[0..] == order;
      for i := 0 to |order|
        invariant Rekey(Now(), accountID, oldAlias, newAlias, order[i..]) == Rekey(start, accountID, oldAlias, newAlias, order)
      {
        assert order[i..][0] == order[i] && order[i..][1..] == order[i + 1..];
        ok := RekeyIdentity(accountID, oldAlias, newAlias, order[i]);
        if !ok {
          return;
        }
      }
      assert order[|order|..] == [];
      ok := true;
    }

    method UpdateAccountPublicAlias(accountID: Id, publicAlias: string, order: seq<Id>) returns (outcome: Outcome)
      modifies this
      ensures (Now(), outcome) == Rename(old(Now()), accountID, publicAlias, order)
    {
      hide Rekey;
      if accountID !in accountsByID {
        return AccountNotFound;
      }
      if publicAlias in accountsByAlias && accountsByAlias[publicAlias] != accountID {
        return AliasInUse;
      }
      var account := accountsByID[accountID];
      accountsByAlias := accountsByAlias - {account.publicAlias};
      var oldAlias := account.publicAlias;
      accountsByID := accountsByID[accountID := account.(publicAlias := publicAlias)];
      accountsByAlias := accountsByAlias[publicAlias := accountID];
      var ok := RekeyActiveIdentities(accountID, oldAlias, publicAlias, order);
      outcome := if ok then Done else IdentityReserved;
    }

    method IsIdentityActiveForSecretLocked(accountID: Id, value: string) returns (ok: bool)
      ensures ok == IdentityActiveFor(Now(), accountID, value)
    {
      hide BuildLocalPart;
      if accountID !in accountsByID {
        return false;
      }
      var localPart := BuildLocalPart(accountsByID[accountID].publicAlias, value);
      if localPart !in identityByLocalPart || identityByLocalPart[localPart] !in identitiesByID {
        return false;
      }
      return identitiesByID[identityByLocalPart[localPart]].status == Active;
    }

    method ResolveSecretAnyType(accountID: Id, value: string) returns (r: Option<Id>)
      ensures r == Resolve(Now(), accountID, value)
    {
      if value !in secretByHash || secretByHash[value] !in secretsByID {
        return None;
      }
      var id := secretByHash[value];
      var secret := secretsByID[id];
      if secret.accountId != accountID || !secret.active {
        return None;
      }
      var ok := IsIdentityActiveForSecretLocked(secret.accountId, secret.value);
      if !ok {
        return None;
      }
      return Some(id);
    }

    method ValidateSecret(accountID: Id, typeID: Id, value: string) returns (r: Option<Id>)
      ensures r == match Resolve(Now(), accountID, value)
                   case None => None
                   case Some(id) => if id in secretsByID && secretsByID[id].typeId == typeID then Some(id) else None
    {
      if value !in secretByHash || secretByHash[value] !in secretsByID {
        return None;
      }
      var id := secretByHash[value];
      var secret := secretsByID[id];
      if secret.accountId != accountID || secret.typeId != typeID || !secret.active {
        return None;
      }
      var ok := IsIdentityActiveForSecretLocked(secret.accountId, secret.value);
      if !ok {
        return None;
      }
      return Some(id);
    }
  }

  lemma RevokeNothing(r: Registry)
    ensures Tombstone(Revoke(r, {}), {}) == r
  {
  }

  /** Revoking and tombstoning one secret more. */
  lemma RevokeOneMore(r: Registry, done: set<Id>, id: Id)
    requires id in r.secrets && id !in done
    ensures var now := Tombstone(Revoke(r, done), done);
            var revoked := now.(secrets := now.secrets[id := now.secrets[id].(active := false)]);
            && Tombstone(revoked, {id}) == Tombstone(Revoke(r, done + {id}), done + {id})
            && forall i | i in r.secrets && i !in done && i != id ::
                 i in revoked.secrets && revoked.secrets[i] == r.secrets[i]
  {
    var now := Tombstone(Revoke(r, done), done);
    var revoked := now.(secrets := now.secrets[id := now.secrets[id].(active := false)]);
    var end := Tombstone(Revoke(r, done + {id}), done + {id});
    assert revoked.secrets == end.secrets;
    assert Tombstone(revoked, {id}).identities == end.identities;
  }
}
