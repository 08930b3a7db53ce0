/**
 Mailbox ownership is permanent: over every run, failed renames, blocks, restores and
 deletions included, a mailbox name stays indexed and stays with one account
 (internal/store/memory.go:231-250, 313-380, 444-578).
 */
module Ownership {
  import opened Text
  import opened WebhookId
  import opened Registry

  predicate IdentityFiled(r: Registry, id: Id)
    requires id in r.identities
  {
    var i := r.identities[id];
    && id < r.nextId
    && i.localPart == BuildLocalPart(i.publicAlias, i.value)
    && i.localPart in r.byLocalPart && r.byLocalPart[i.localPart] in r.identities
    && r.identities[r.byLocalPart[i.localPart]].accountId == i.accountId
  }

  /** The indexes point at what they are about. Holds in every reachable state. */
  predicate Filed(r: Registry) {
    && (forall id | id in r.identities :: IdentityFiled(r, id))
    && (forall lp | lp in r.byLocalPart ::
          r.byLocalPart[lp] in r.identities && r.identities[r.byLocalPart[lp]].localPart == lp)
    && (forall v | v in r.secretByHash ::
          r.secretByHash[v] in r.secrets && r.secrets[r.secretByHash[v]].value == v)
    && (forall id | id in r.secrets :: id < r.nextId)
  }

  function Owner(r: Registry, localPart: string): Id
    requires localPart in r.byLocalPart && r.byLocalPart[localPart] in r.identities
  {
    r.identities[r.byLocalPart[localPart]].accountId
  }

  /** Every mailbox name of a is still there in b, with its owner. */
  predicate OwnersKept(a: Registry, b: Registry) {
    forall lp | lp in a.byLocalPart && a.byLocalPart[lp] in a.identities ::
      lp in b.byLocalPart && b.byLocalPart[lp] in b.identities && Owner(b, lp) == Owner(a, lp)
  }

  lemma StoreSecretFiled(r: Registry, accountId: Id, typeId: Id, value: string)
    requires Filed(r)
    ensures var next := StoreSecret(r, accountId, typeId, value);
            Filed(next) && OwnersKept(r, next)
  {
    hide BuildLocalPart;
    var next := StoreSecret(r, accountId, typeId, value);
    forall id | id in next.identities
      ensures IdentityFiled(next, id)
    {
      assert IdentityFiled(r, id);
    }
  }

  lemma FiledIds(r: Registry)
    requires Filed(r)
    ensures r.nextId !in r.identities
    ensures forall id | id in r.identities :: id < r.nextId
  {
    forall id | id in r.identities
      ensures id < r.nextId
    {
      assert IdentityFiled(r, id);
    }
  }

  /**
   From r to next one identity is put under its own local part. If it was there already it
   keeps its account and its local part; if the local part was, it keeps its owner. Other
   identities change no more than their status.
   */
  predicate Puts(r: Registry, next: Registry, id: Id) {
    && next.identities.Keys == r.identities.Keys + {id}
    && (forall i | i in r.identities && i != id :: next.identities[i] == r.identities[i].(status := next.identities[i].status))
    && next.secrets == r.secrets && next.secretByHash == r.secretByHash
    && r.nextId <= next.nextId && id < next.nextId
    && PutsAt(r, next, id, next.identities[id])
  }

  predicate PutsAt(r: Registry, next: Registry, id: Id, put: Identity) {
    && next.byLocalPart == r.byLocalPart[put.localPart := id]
    && put.localPart == BuildLocalPart(put.publicAlias, put.value)
    && (id in r.identities ==> r.identities[id].accountId == put.accountId && r.identities[id].localPart == put.localPart)
    && !OwnedByOther(r, put.accountId, put.localPart)
  }

  lemma PutIdentityFiled(r: Registry, next: Registry, id: Id, i: Id)
    requires Filed(r) && Puts(r, next, id) && i in next.identities
    ensures IdentityFiled(next, i)
  {
    hide BuildLocalPart;
    if i in r.identities {
      assert IdentityFiled(r, i);
    }
  }

  lemma PutIndexFiled(r: Registry, next: Registry, id: Id, lp: string)
    requires Filed(r) && Puts(r, next, id) && lp in next.byLocalPart
    ensures next.byLocalPart[lp] in next.identities && next.identities[next.byLocalPart[lp]].localPart == lp
    ensures lp in r.byLocalPart ==> r.byLocalPart[lp] in r.identities && Owner(next, lp) == Owner(r, lp)
  {
    hide BuildLocalPart, IdentityFiled;
  }

  lemma PutOwnersKept(r: Registry, next: Registry, id: Id)
    requires Filed(r) && Puts(r, next, id)
    ensures OwnersKept(r, next)
  {
    forall lp | lp in r.byLocalPart && r.byLocalPart[lp] in r.identities
      ensures lp in next.byLocalPart && next.byLocalPart[lp] in next.identities && Owner(next, lp) == Owner(r, lp)
    {
      assert lp in next.byLocalPart;
      PutIndexFiled(r, next, id, lp);
    }
    hide Filed, Puts, Owner;
  }

  lemma PutsFiled(r: Registry, next: Registry, id: Id)
    requires Filed(r) && Puts(r, next, id)
    ensures Filed(next) && OwnersKept(r, next)
  {
    hide IdentityFiled, PutsAt, OwnersKept;
    PutOwnersKept(r, next, id);
    forall i | i in next.identities
      ensures IdentityFiled(next, i)
    {
      PutIdentityFiled(r, next, id, i);
    }
    forall lp | lp in next.byLocalPart
      ensures next.byLocalPart[lp] in next.identities && next.identities[next.byLocalPart[lp]].localPart == lp
    {
      PutIndexFiled(r, next, id, lp);
    }
  }

  lemma TakeoverPutsAt(r: Registry, accountId: Id, secretId: Id)
    requires Filed(r) && accountId in r.accounts && secretId in r.secrets
    requires var lp := LocalPartOf(r, accountId, r.secrets[secretId].value);
             !OwnedByOther(r, accountId, lp) && lp in r.byLocalPart
    ensures var next, id := ActivateIdentity(r, accountId, secretId), r.byLocalPart[LocalPartOf(r, accountId, r.secrets[secretId].value)];
            id in next.identities && PutsAt(r, next, id, next.identities[id])
  {
    hide BuildLocalPart, IdentityFiled;
    var next, lp := ActivateIdentity(r, accountId, secretId), LocalPartOf(r, accountId, r.secrets[secretId].value);
    assert next.byLocalPart == r.byLocalPart[lp := r.byLocalPart[lp]];
  }

  lemma TakeoverPuts(r: Registry, accountId: Id, secretId: Id)
    requires Filed(r) && accountId in r.accounts && secretId in r.secrets
    requires var lp := LocalPartOf(r, accountId, r.secrets[secretId].value);
             !OwnedByOther(r, accountId, lp) && lp in r.byLocalPart
    ensures var lp := LocalPartOf(r, accountId, r.secrets[secretId].value);
            Puts(r, ActivateIdentity(r, accountId, secretId), r.byLocalPart[lp])
  {
    FiledIds(r);
    TakeoverPutsAt(r, accountId, secretId);
    hide BuildLocalPart, IdentityFiled, PutsAt, OwnedByOther;
  }

  lemma FreshPutsAt(r: Registry, accountId: Id, secretId: Id)
    requires Filed(r) && accountId in r.accounts && secretId in r.secrets
    requires LocalPartOf(r, accountId, r.secrets[secretId].value) !in r.byLocalPart
    ensures var next := ActivateIdentity(r, accountId, secretId);
            r.nextId in next.identities && PutsAt(r, next, r.nextId, next.identities[r.nextId])
  {
    FiledIds(r);
    hide BuildLocalPart, Filed;
  }

  lemma FreshPuts(r: Registry, accountId: Id, secretId: Id)
    requires Filed(r) && accountId in r.accounts && secretId in r.secrets
    requires LocalPartOf(r, accountId, r.secrets[secretId].value) !in r.byLocalPart
    ensures Puts(r, ActivateIdentity(r, accountId, secretId), r.nextId)
  {
    FiledIds(r);
    FreshPutsAt(r, accountId, secretId);
    hide BuildLocalPart, Filed, PutsAt;
  }

  lemma ActivateFiled(r: Registry, accountId: Id, secretId: Id)
    requires Filed(r) && accountId in r.accounts && secretId in r.secrets
    requires !OwnedByOther(r, accountId, LocalPartOf(r, accountId, r.secrets[secretId].value))
    ensures var next := ActivateIdentity(r, accountId, secretId);
            Filed(next) && OwnersKept(r, next)
  {
    var next, lp := ActivateIdentity(r, accountId, secretId), LocalPartOf(r, accountId, r.secrets[secretId].value);
    hide *;
    if lp in r.byLocalPart {
      TakeoverPuts(r, accountId, secretId);
      PutsFiled(r, next, r.byLocalPart[lp]);
    } else {
      FreshPuts(r, accountId, secretId);
      PutsFiled(r, next, r.nextId);
    }
  }

  lemma CreateSecretFiled(r: Registry, accountId: Id, typeId: Id, value: string)
    requires Filed(r)
    ensures var next := CreateSecret(r, accountId, typeId, value).0;
            Filed(next) && OwnersKept(r, next)
  {
    hide Filed, OwnersKept, ActivateIdentity;
    OwnersReflexive(r);
    if CreateSecretCheck(r, accountId, value) == Done {
      var stored := StoreSecret(r, accountId, typeId, value);
      StoreSecretFiled(r, accountId, typeId, value);
      ActivateFiled(stored, accountId, r.nextId);
      OwnersTransitive(r, stored, ActivateIdentity(stored, accountId, r.nextId));
    }
  }

  lemma RestatusFiled(r: Registry, next: Registry)
    requires Filed(r)
    requires next.byLocalPart == r.byLocalPart && next.secretByHash == r.secretByHash && next.nextId >= r.nextId
    requires next.identities.Keys == r.identities.Keys && next.secrets.Keys == r.secrets.Keys
    requires forall id | id in r.identities :: next.identities[id] == r.identities[id].(status := next.identities[id].status)
    requires forall id | id in r.secrets :: next.secrets[id] == r.secrets[id].(active := next.secrets[id].active)
    ensures Filed(next) && OwnersKept(r, next)
  {
    hide BuildLocalPart;
    forall id | id in next.identities
      ensures IdentityFiled(next, id)
    {
      assert IdentityFiled(r, id);
    }
  }

  lemma MovedPutsAt(r: Registry, accountId: Id, newAlias: string, id: Id)
    requires Filed(r) && id in r.identities && r.identities[id].accountId == accountId
    requires !OwnedByOther(r, accountId, BuildLocalPart(newAlias, r.identities[id].value))
    ensures var next := Moved(r, newAlias, id);
            r.nextId in next.identities && PutsAt(r, next, r.nextId, next.identities[r.nextId])
  {
    FiledIds(r);
    hide BuildLocalPart, Filed, OwnedByOther;
  }

  lemma MovedFrame(r: Registry, newAlias: string, id: Id)
    requires id in r.identities && r.nextId !in r.identities
    ensures var next := Moved(r, newAlias, id);
            && next.identities.Keys == r.identities.Keys + {r.nextId}
            && next.secrets == r.secrets && next.secretByHash == r.secretByHash && next.nextId == r.nextId + 1
            && forall i | i in r.identities :: next.identities[i] == r.identities[i].(status := next.identities[i].status)
  {
    hide BuildLocalPart;
  }

  lemma MovedPuts(r: Registry, accountId: Id, newAlias: string, id: Id)
    requires Filed(r) && id in r.identities && r.identities[id].accountId == accountId
    requires !OwnedByOther(r, accountId, BuildLocalPart(newAlias, r.identities[id].value))
    ensures Puts(r, Moved(r, newAlias, id), r.nextId)
  {
    FiledIds(r);
    MovedPutsAt(r, accountId, newAlias, id);
    MovedFrame(r, newAlias, id);
    hide BuildLocalPart, Filed, PutsAt, OwnedByOther, Moved;
  }

  lemma RekeyOneFiled(r: Registry, accountId: Id, oldAlias: string, newAlias: string, id: Id)
    requires Filed(r)
    ensures var next := RekeyOne(r, accountId, oldAlias, newAlias, id).0;
            Filed(next) && OwnersKept(r, next)
  {
    OwnersReflexive(r);
    hide BuildLocalPart, Filed, OwnersKept, Puts, OwnedByOther, Moved;
    if RekeyOne(r, accountId, oldAlias, newAlias, id).0 != r {
      MovedPuts(r, accountId, newAlias, id);
      PutsFiled(r, Moved(r, newAlias, id), r.nextId);
    }
  }

  lemma {:induction false} RekeyFiled(r: Registry, accountId: Id, oldAlias: string, newAlias: string, order: seq<Id>)
    requires Filed(r)
    ensures var next := Rekey(r, accountId, oldAlias, newAlias, order).0;
            Filed(next) && OwnersKept(r, next)
    decreases |order|
  {
    hide Filed, RekeyOne;
    if order == [] {
      OwnersReflexive(r);
    } else {
      var step := RekeyOne(r, accountId, oldAlias, newAlias, order[0]);
      RekeyOneFiled(r, accountId, oldAlias, newAlias, order[0]);
      if step.1 {
        RekeyFiled(step.0, accountId, oldAlias, newAlias, order[1..]);
        OwnersTransitive(r, step.0, Rekey(step.0, accountId, oldAlias, newAlias, order[1..]).0);
      }
    }
  }

  lemma OwnersReflexive(r: Registry)
    ensures OwnersKept(r, r)
  {
  }

  lemma OwnersTransitive(a: Registry, b: Registry, c: Registry)
    requires OwnersKept(a, b) && OwnersKept(b, c)
    ensures OwnersKept(a, c)
  {
  }

  lemma RenameFiled(r: Registry, accountId: Id, newAlias: string, order: seq<Id>)
    requires Filed(r)
    ensures var next := Rename(r, accountId, newAlias, order).0;
            Filed(next) && OwnersKept(r, next)
  {
    OwnersReflexive(r);
    if accountId in r.accounts && !AliasTaken(r, accountId, newAlias) {
      var named, oldAlias := Realias(r, accountId, newAlias), r.accounts[accountId].publicAlias;
      RestatusFiled(r, named);
      hide Filed, Rekey, OwnersKept;
      RekeyFiled(named, accountId, oldAlias, newAlias, order);
      OwnersTransitive(r, named, Rekey(named, accountId, oldAlias, newAlias, order).0);
    }
  }

  lemma SameFiled(r: Registry, next: Registry)
    requires Filed(r)
    requires next.byLocalPart == r.byLocalPart && next.secretByHash == r.secretByHash && next.nextId >= r.nextId
    requires next.identities == r.identities && next.secrets == r.secrets
    ensures Filed(next) && OwnersKept(r, next)
  {
    RestatusFiled(r, next);
    hide *;
  }

  lemma RevokedFiled(r: Registry, ids: set<Id>)
    requires Filed(r)
    ensures var next := Tombstone(Revoke(r, ids), ids);
            Filed(next) && OwnersKept(r, next)
  {
    hide Filed, OwnersKept;
    RestatusFiled(r, Tombstone(Revoke(r, ids), ids));
  }

  lemma DeleteTypeFiled(r: Registry, accountId: Id, typeId: Id)
    requires Filed(r)
    ensures var next := DeleteType(r, accountId, typeId).0;
            Filed(next) && OwnersKept(r, next)
  {
    OwnersReflexive(r);
    var ids, untyped := SecretsOfType(r, accountId, typeId), r.(typeOwner := r.typeOwner - {typeId});
    SameFiled(r, untyped);
    RevokedFiled(untyped, ids);
    OwnersTransitive(r, untyped, Tombstone(Revoke(untyped, ids), ids));
    hide Filed, OwnersKept, SecretsOfType, Tombstone, Revoke;
  }

  lemma StatusFiled(r: Registry, identityId: Id, status: IdentityStatus)
    requires Filed(r) && identityId in r.identities
    ensures Filed(SetStatus(r, identityId, status)) && OwnersKept(r, SetStatus(r, identityId, status))
  {
    hide Filed, OwnersKept;
    RestatusFiled(r, SetStatus(r, identityId, status));
  }

  lemma BlockFiled(r: Registry, accountId: Id, identityId: Id)
    requires Filed(r)
    ensures Filed(Block(r, accountId, identityId).0) && OwnersKept(r, Block(r, accountId, identityId).0)
  {
    OwnersReflexive(r);
    hide Filed, OwnersKept, SetStatus;
    if identityId in r.identities {
      StatusFiled(r, identityId, Blocked);
    }
  }

  lemma RestoreFiled(r: Registry, accountId: Id, identityId: Id)
    requires Filed(r)
    ensures Filed(Restore(r, accountId, identityId).0) && OwnersKept(r, Restore(r, accountId, identityId).0)
  {
    OwnersReflexive(r);
    hide Filed, OwnersKept, SetStatus, HasActiveSecret;
    if identityId in r.identities {
      StatusFiled(r, identityId, Active);
    }
  }

  lemma StepFiled(r: Registry, op: Op)
    requires Filed(r)
    ensures Filed(Step(r, op).0) && OwnersKept(r, Step(r, op).0)
  {
    hide Filed, OwnersKept, CreateSecret, Rename, CreateAccount, DeleteType, Tombstone, Revoke, Block, Restore;
    match op
    case OpCreateAccount(email) => CreateAccountFiled(r, email);
    case OpCreateType(a) => SameFiled(r, CreateType(r, a));
    case OpCreateSecret(a, t, v) => CreateSecretFiled(r, a, t, v);
    case OpRename(a, alias, order) => RenameFiled(r, a, alias, order);
    case OpDeleteSecret(_, s) => OwnersReflexive(r); RevokedFiled(r, {s});
    case OpDeleteType(a, t) => DeleteTypeFiled(r, a, t);
    case OpBlock(a, i) => BlockFiled(r, a, i);
    case OpRestore(a, i) => RestoreFiled(r, a, i);
  }

  lemma CreateAccountFiled(r: Registry, email: string)
    requires Filed(r)
    ensures Filed(CreateAccount(r, email)) && OwnersKept(r, CreateAccount(r, email))
  {
    CreateAccountFrame(r, email);
    hide *;
    SameFiled(r, CreateAccount(r, email));
  }

  lemma CreateAccountFrame(r: Registry, email: string)
    ensures var next := CreateAccount(r, email);
            && next.byLocalPart == r.byLocalPart && next.secretByHash == r.secretByHash && next.nextId >= r.nextId
            && next.identities == r.identities && next.secrets == r.secrets
  {
    hide SlugFromEmail;
  }

  /** Over every run a mailbox name keeps its index entry and its owner. */
  lemma {:induction false} OwnershipPermanent(r: Registry, ops: seq<Op>)
    requires Filed(r)
    ensures Filed(After(r, ops)) && OwnersKept(r, After(r, ops))
  {
    hide Filed, OwnersKept, Step;
    if ops == [] {
      OwnersReflexive(r);
    } else {
      var init := After(r, ops[..|ops| - 1]);
      OwnershipPermanent(r, ops[..|ops| - 1]);
      StepFiled(init, ops[|ops| - 1]);
      OwnersTransitive(r, init, After(r, ops));
    }
  }

  /** So in every reachable state identities that share a mailbox name share their account. */
  lemma OneOwnerPerMailbox(ops: seq<Op>, i: Id, j: Id)
    requires i in After(EMPTY, ops).identities && j in After(EMPTY, ops).identities
    requires After(EMPTY, ops).identities[i].localPart == After(EMPTY, ops).identities[j].localPart
    ensures After(EMPTY, ops).identities[i].accountId == After(EMPTY, ops).identities[j].accountId
  {
    OwnershipPermanent(EMPTY, ops);
    assert IdentityFiled(After(EMPTY, ops), i) && IdentityFiled(After(EMPTY, ops), j);
  }
}
