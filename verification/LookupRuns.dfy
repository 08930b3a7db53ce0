/**
 The lookup over whole runs, and exactly which operations make it stop agreeing: a rename
 that hits someone else's mailbox, a secret value another account is using, and a manual
 restore of an identity that is no longer the indexed one.
 */
module LookupRuns {
  import opened Text
  import opened WebhookId
  import opened Registry
  import opened Ownership
  import opened Lookup
  import opened Renaming

  // ---- Renames -------------------------------------------------------------

  /** Every active identity of a has an active successor with its secret at the mailbox under the new alias. */
  ghost predicate Succeeded(a: Registry, b: Registry, accountId: Id, newAlias: string) {
    forall id | id in a.identities && a.identities[id].status == Active && a.identities[id].accountId == accountId ::
      HasSuccessor(a.identities[id], b, newAlias)
  }

  predicate HasSuccessor(i: Identity, b: Registry, newAlias: string) {
    var lp := BuildLocalPart(newAlias, i.value);
    && lp in b.byLocalPart && b.byLocalPart[lp] in b.identities
    && b.identities[b.byLocalPart[lp]] == i.(publicAlias := newAlias, localPart := lp, status := Active)
  }

  lemma SuccessorsFollow(a: Registry, b: Registry, accountId: Id, newAlias: string)
    requires SameActive(a, b, accountId) && Sound(b) && Renamed(b, accountId, newAlias)
    ensures Succeeded(a, b, accountId, newAlias)
  {
    hide BuildLocalPart;
    forall id | id in a.identities && a.identities[id].status == Active && a.identities[id].accountId == accountId
      ensures HasSuccessor(a.identities[id], b, newAlias)
    {
      var i := a.identities[id];
      assert IsWith(a, accountId, i.value, i.secretId, i.typeId, id);
      assert OwnsActiveWith(b, accountId, i.value, i.secretId, i.typeId);
      var j :| j in b.identities && IsWith(b, accountId, i.value, i.secretId, i.typeId, j);
      assert IdentityFiled(b, j) && Backed(b, j) && CarriesAlias(b, j);
    }
  }

  lemma SameOwnership(a: Registry, b: Registry, accountId: Id)
    requires SameActive(a, b, accountId) && SameForeign(a, b, accountId)
    ensures forall x, v :: OwnsActive(a, x, v) <==> OwnsActive(b, x, v)
  {
    forall x, v
      ensures OwnsActive(a, x, v) <==> OwnsActive(b, x, v)
    {
      OwnershipCarries(a, b, accountId, x, v);
      OwnershipCarries(b, a, accountId, x, v);
    }
  }

  lemma OwnershipCarries(a: Registry, b: Registry, accountId: Id, x: Id, v: string)
    requires SameActive(a, b, accountId) || SameActive(b, a, accountId)
    requires SameForeign(a, b, accountId) || SameForeign(b, a, accountId)
    ensures OwnsActive(a, x, v) ==> OwnsActive(b, x, v)
  {
    if OwnsActive(a, x, v) {
      var id :| id in a.identities && ActiveIdentity(a, x, v, id);
      if x == accountId {
        var i := a.identities[id];
        assert IsWith(a, accountId, v, i.secretId, i.typeId, id);
        assert OwnsActiveWith(a, accountId, v, i.secretId, i.typeId);
        assert OwnsActiveWith(b, accountId, v, i.secretId, i.typeId);
        var j :| j in b.identities && IsWith(b, accountId, v, i.secretId, i.typeId, j);
        assert ActiveIdentity(b, x, v, j);
      } else {
        assert SameIfForeign(a, b, accountId, id) || SameIfForeign(b, a, accountId, id);
        assert ActiveIdentity(b, x, v, id);
      }
    }
  }

  lemma SameResolution(a: Registry, b: Registry, accountId: Id)
    requires SameActive(a, b, accountId) && SameForeign(a, b, accountId)
    requires a.secretByHash == b.secretByHash && Agrees(a) && Agrees(b)
    ensures forall x, v :: Resolve(b, x, v) == Resolve(a, x, v)
  {
    SameOwnership(a, b, accountId);
    forall x, v
      ensures Resolve(b, x, v) == Resolve(a, x, v)
    {
      assert Resolve(a, x, v).Some? <==> OwnsActive(a, x, v);
      assert Resolve(b, x, v).Some? <==> OwnsActive(b, x, v);
      hide IdentityActiveFor, OwnsActive;
    }
  }

  lemma SameForeignFrom(r: Registry, named: Registry, b: Registry, accountId: Id)
    requires named.identities == r.identities && SameForeign(named, b, accountId)
    ensures SameForeign(r, b, accountId)
  {
    forall id
      ensures SameIfForeign(r, b, accountId, id)
    {
      assert SameIfForeign(named, b, accountId, id);
    }
  }

  /**
   A rename to a free alias succeeds exactly when no active identity would move onto another
   account's mailbox; exactly then the lookup still agrees with the plain definition. A
   successful one accepts exactly the same secrets for every account as before, leaves no
   active identity under the old alias, gives every active identity an indexed successor, and
   touches no identity of another account.
   */
  lemma RenameExact(r: Registry, accountId: Id, newAlias: string, order: seq<Id>)
    requires Sound(r) && accountId in r.accounts && !AliasTaken(r, accountId, newAlias) && Visits(order, r)
    ensures var (next, outcome) := Rename(r, accountId, newAlias, order);
            && (outcome == Done <==> !RenameBlocked(r, accountId, newAlias))
            && (Agrees(next) <==> !RenameBlocked(r, accountId, newAlias))
            && (outcome == Done ==>
                  && Sound(next) && Renamed(next, accountId, newAlias)
                  && (forall x, v :: Resolve(next, x, v) == Resolve(r, x, v))
                  && (r.accounts[accountId].publicAlias != newAlias ==>
                        && (forall id :: !NeedsRekey(next, accountId, r.accounts[accountId].publicAlias, id))
                        && !AliasTaken(next, accountId, r.accounts[accountId].publicAlias))
                  && Succeeded(r, next, accountId, newAlias) && SameForeign(r, next, accountId))
  {
    var oldAlias := r.accounts[accountId].publicAlias;
    var named := Realias(r, accountId, newAlias);
    var done := Rekey(named, accountId, oldAlias, newAlias, order);
    RekeyOutcome(r, accountId, newAlias, order);
    RealiasStarts(r, accountId, newAlias);
    LookupAgrees(r);
    SameForeignFrom(r, named, done.0, accountId);
    if done.1 {
      LookupAgrees(done.0);
      SuccessorsFollow(r, done.0, accountId, newAlias);
      SameResolution(r, done.0, accountId);
      NobodyWaits(done.0, accountId, oldAlias);
      OldAliasFree(r, named, done.0, accountId, newAlias);
    } else {
      BlockedDisagrees(done.0, accountId, oldAlias, newAlias);
    }
    hide Rekey, Realias, Agrees, Sound, SoundBut, Succeeded, SameForeign, SameActive, SameOwners, RenameBlocked,
         AliasTaken, NeedsRekey, Resolve, Waiting, Visits;
  }

  lemma OldAliasFree(r: Registry, named: Registry, b: Registry, accountId: Id, newAlias: string)
    requires accountId in r.accounts && named == Realias(r, accountId, newAlias)
    requires SameElsewhere(named, b, accountId)
    ensures r.accounts[accountId].publicAlias != newAlias ==> !AliasTaken(b, accountId, r.accounts[accountId].publicAlias)
  {
  }

  lemma NobodyWaits(r: Registry, accountId: Id, oldAlias: string)
    ensures Waiting(r, accountId, oldAlias) == {} ==> forall id :: !NeedsRekey(r, accountId, oldAlias, id)
  {
    forall id
      ensures NeedsRekey(r, accountId, oldAlias, id) ==> id in Waiting(r, accountId, oldAlias)
    {
    }
  }

  // ---- Shared values -------------------------------------------------------

  /** The value now stands for the new account's secret. */
  lemma ValueTaken(r: Registry, accountId: Id, typeId: Id, value: string, other: Id)
    requires CreateSecretCheck(r, accountId, value) == Done && other != accountId
    ensures Resolve(CreateSecret(r, accountId, typeId, value).0, other, value).None?
  {
    CreateFrame(r, accountId, typeId, value);
    hide CreateSecret, CreateSecretCheck, IdentityActiveFor;
  }

  lemma CreatedChecked(r: Registry, accountId: Id, typeId: Id, value: string)
    requires CreateSecret(r, accountId, typeId, value).1 == Done
    ensures CreateSecretCheck(r, accountId, value) == Done
  {
    hide CreateSecretCheck, ActivateIdentity, StoreSecret;
  }

  lemma UsedValueLost(r: Registry, accountId: Id, typeId: Id, value: string)
    requires Filed(r) && CreateSecret(r, accountId, typeId, value).1 == Done && OthersUse(r, accountId, value)
    ensures !Agrees(CreateSecret(r, accountId, typeId, value).0)
  {
    hide CreateSecret, CreateSecretCheck, Tame, AllBacked, AllCarry, OnePerValue, Filed, Resolve, Agrees;
    var next := CreateSecret(r, accountId, typeId, value).0;
    var id :| id in r.identities && r.identities[id].status == Active
              && r.identities[id].value == value && r.identities[id].accountId != accountId;
    var other := r.identities[id].accountId;
    CreatedChecked(r, accountId, typeId, value);
    ValueTaken(r, accountId, typeId, value, other);
    IdentityStays(r, accountId, typeId, value, id);
    assert ActiveIdentity(next, other, value, id);
    DisagreesAt(next, other, value);
  }

  lemma IdentityStays(r: Registry, accountId: Id, typeId: Id, value: string, id: Id)
    requires Filed(r) && CreateSecret(r, accountId, typeId, value).1 == Done
    requires id in r.identities && r.identities[id].accountId != accountId
    ensures var next := CreateSecret(r, accountId, typeId, value).0;
            id in next.identities && next.identities[id] == r.identities[id]
  {
    hide CreateSecret, CreateSecretCheck, Target, Filed;
    FiledIds(r);
    CreatedChecked(r, accountId, typeId, value);
    CheckedAccount(r, accountId, value);
    if Target(r, accountId, value) in r.identities {
      TargetOwn(r, accountId, value);
    }
    CreateStaysIn(r, accountId, typeId, value, id);
    CreateKeeps(r, accountId, typeId, value, id, "");
  }

  // ---- Restores ------------------------------------------------------------

  /** The value stands for a live secret of the account, and its mailbox now is the restored one or active. */
  predicate RestoreFinds(r: Registry, accountId: Id, identityId: Id)
    requires identityId in r.identities
  {
    var v := r.identities[identityId].value;
    && v in r.secretByHash && r.secretByHash[v] in r.secrets
    && r.secrets[r.secretByHash[v]].active && r.secrets[r.secretByHash[v]].accountId == accountId
    && accountId in r.accounts
    && var lp := LocalPartOf(r, accountId, v);
    && lp in r.byLocalPart && r.byLocalPart[lp] in r.identities
    && (r.byLocalPart[lp] == identityId || r.identities[r.byLocalPart[lp]].status == Active)
  }

  lemma RestoredResolves(r: Registry, accountId: Id, identityId: Id)
    requires Filed(r) && identityId in r.identities
    ensures var next := SetStatus(r, identityId, Active);
            Resolve(next, accountId, r.identities[identityId].value).Some? <==> RestoreFinds(r, accountId, identityId)
  {
    hide BuildLocalPart, IdentityFiled;
  }

  /** A restore keeps the lookup agreeing exactly when the restored value is found afterwards. */
  lemma RestoreExact(r: Registry, accountId: Id, identityId: Id)
    requires Filed(r) && Tame(r) && Agrees(r) && Restore(r, accountId, identityId).1 == Done
    ensures Agrees(Restore(r, accountId, identityId).0) <==> RestoreFinds(r, accountId, identityId)
  {
    RestoreDone(r, accountId, identityId);
    var next, v := SetStatus(r, identityId, Active), r.identities[identityId].value;
    RestoredResolves(r, accountId, identityId);
    RestoredOwns(r, accountId, identityId, accountId, v);
    hide *;
    if RestoreFinds(r, accountId, identityId) {
      forall a, x
        ensures Resolve(next, a, x).Some? <==> OwnsActive(next, a, x)
      {
        RestoredOwns(r, accountId, identityId, a, x);
        RestoredFound(r, accountId, identityId, a, x);
        AgreesAt(r, a, x);
      }
      AgreesFrom(next);
    } else {
      DisagreesAt(next, accountId, v);
    }
  }

  lemma AgreesAt(r: Registry, a: Id, x: string)
    requires Agrees(r)
    ensures Resolve(r, a, x).Some? <==> OwnsActive(r, a, x)
  {
  }

  lemma AgreesFrom(r: Registry)
    requires forall a, x :: Resolve(r, a, x).Some? <==> OwnsActive(r, a, x)
    ensures Agrees(r)
  {
  }

  lemma DisagreesAt(r: Registry, a: Id, x: string)
    requires Resolve(r, a, x).None? && OwnsActive(r, a, x)
    ensures !Agrees(r)
  {
  }

  lemma RestoreDone(r: Registry, accountId: Id, identityId: Id)
    requires Restore(r, accountId, identityId).1 == Done
    ensures identityId in r.identities && r.identities[identityId].accountId == accountId
    ensures Restore(r, accountId, identityId).0 == SetStatus(r, identityId, Active)
  {
    hide HasActiveSecret, SetStatus;
  }

  lemma RestoredOwns(r: Registry, accountId: Id, identityId: Id, a: Id, x: string)
    requires identityId in r.identities && r.identities[identityId].accountId == accountId
    ensures OwnsActive(SetStatus(r, identityId, Active), a, x) <==>
            OwnsActive(r, a, x) || (a == accountId && x == r.identities[identityId].value)
  {
    var next := SetStatus(r, identityId, Active);
    if OwnsActive(next, a, x) {
      var id :| id in next.identities && ActiveIdentity(next, a, x, id);
      assert id == identityId || ActiveIdentity(r, a, x, id);
    }
    if OwnsActive(r, a, x) {
      var id :| id in r.identities && ActiveIdentity(r, a, x, id);
      assert ActiveIdentity(next, a, x, id);
    }
    if a == accountId && x == r.identities[identityId].value {
      assert ActiveIdentity(next, a, x, identityId);
    }
  }

  lemma RestoredFound(r: Registry, accountId: Id, identityId: Id, a: Id, x: string)
    requires Filed(r) && Tame(r) && identityId in r.identities && RestoreFinds(r, accountId, identityId)
    ensures Resolve(SetStatus(r, identityId, Active), a, x).Some? <==>
            Resolve(r, a, x).Some? || (a == accountId && x == r.identities[identityId].value)
  {
    var next := SetStatus(r, identityId, Active);
    RestoredResolves(r, accountId, identityId);
    ResolvedStays(r, identityId, a, x);
    if Resolve(next, a, x).Some? && Resolve(r, a, x).None? {
      NewlyFound(r, accountId, identityId, a, x);
    }
    hide Resolve, SetStatus, Filed, Tame;
  }

  lemma ResolvedStays(r: Registry, identityId: Id, a: Id, x: string)
    requires identityId in r.identities
    ensures Resolve(r, a, x).Some? ==> Resolve(SetStatus(r, identityId, Active), a, x).Some?
  {
    hide BuildLocalPart;
  }

  /** What is found only after the restore has its mailbox at the restored identity, and so its value. */
  lemma NewlyFound(r: Registry, accountId: Id, identityId: Id, a: Id, x: string)
    requires Filed(r) && Tame(r) && identityId in r.identities && RestoreFinds(r, accountId, identityId)
    requires Resolve(SetStatus(r, identityId, Active), a, x).Some? && Resolve(r, a, x).None?
    ensures a == accountId && x == r.identities[identityId].value
  {
    MailboxRestored(r, identityId, a, x);
    hide Resolve, Filed, BuildLocalPart, LocalPartOf;
    assert IdentityFiled(r, identityId);
    SameMailboxSameValue(r.identities[identityId], r.accounts[a].publicAlias, x);
  }

  lemma MailboxRestored(r: Registry, identityId: Id, a: Id, x: string)
    requires Filed(r) && Tame(r) && identityId in r.identities
    requires Resolve(SetStatus(r, identityId, Active), a, x).Some? && Resolve(r, a, x).None?
    ensures a in r.accounts && r.identities[identityId].localPart == BuildLocalPart(r.accounts[a].publicAlias, x)
    ensures x in r.secretByHash && r.secretByHash[x] in r.secrets && r.secrets[r.secretByHash[x]].accountId == a
    ensures IdentityFiled(r, identityId) && Trimmed(x) && Trimmed(r.identities[identityId].value)
  {
    hide BuildLocalPart, Trimmed;
  }

  // ---- Runs ----------------------------------------------------------------

  /** What keeps the lookup agreeing, as something the caller can check before the call. */
  predicate Careful(r: Registry, op: Op) {
    match op
    case OpCreateSecret(a, _, v) => Trimmed(v) && !OthersUse(r, a, v)
    case OpRestore(a, i) => CleanRestore(r, a, i)
    case OpRename(a, alias, order) => Visits(order, r) && !RenameBlocked(r, a, alias)
    case _ => true
  }

  predicate CarefulRun(r: Registry, ops: seq<Op>) {
    ops != [] ==> CarefulRun(r, ops[..|ops| - 1]) && Careful(After(r, ops[..|ops| - 1]), ops[|ops| - 1])
  }

  lemma AccountStepSound(r: Registry, op: Op)
    requires Sound(r) && (op.OpCreateAccount? || op.OpCreateType?)
    ensures Sound(Step(r, op).0)
  {
    IdsBelow(r);
    hide Sound, SoundBut, CreateAccount;
    if op.OpCreateAccount? {
      SignUpFrame(r, op.email);
      NewIdsSound(r, CreateAccount(r, op.email));
    } else {
      NewIdsSound(r, CreateType(r, op.accountId));
    }
  }

  lemma SignUpFrame(r: Registry, email: string)
    requires forall a | a in r.accounts :: a < r.nextId
    ensures var next := CreateAccount(r, email);
            && next.secrets == r.secrets && next.secretByHash == r.secretByHash
            && next.identities == r.identities && next.byLocalPart == r.byLocalPart && next.nextId >= r.nextId
            && (forall a | a in r.accounts :: a in next.accounts && next.accounts[a] == r.accounts[a])
            && (forall a | a in next.accounts :: a < next.nextId)
  {
    hide SlugFromEmail;
  }

  lemma IdsBelow(r: Registry)
    requires Sound(r)
    ensures forall a | a in r.accounts :: a < r.nextId
  {
    hide Filed, AllBacked, AllCarry, OnePerValue, Trimmed;
  }

  lemma DeleteStepSound(r: Registry, op: Op)
    requires Sound(r) && (op.OpDeleteSecret? || op.OpDeleteType?)
    ensures Sound(Step(r, op).0)
  {
    hide Sound, SoundBut, Revoke, Tombstone, SecretsOfType;
    match op
    case OpDeleteSecret(a, s) =>
      DeleteSound(r, {s}, r.typeOwner);
      assert r.(typeOwner := r.typeOwner) == r;
    case OpDeleteType(a, t) =>
      DeleteSound(r, SecretsOfType(r, a, t), r.typeOwner - {t});
  }

  lemma StepSound(r: Registry, op: Op)
    requires Sound(r) && Careful(r, op)
    ensures Sound(Step(r, op).0)
  {
    hide Sound, SoundBut, OthersUse, CleanRestore, RenameBlocked, CreateSecret, Restore, Block, Rename, DeleteSecret, DeleteType;
    match op
    case OpCreateSecret(a, t, v) => CreateSecretSound(r, a, t, v);
    case OpBlock(a, i) => BlockStepSound(r, a, i);
    case OpRestore(a, i) => RestoreSound(r, a, i);
    case OpRename(a, alias, order) => RenameStepSound(r, a, alias, order);
    case OpDeleteSecret(_, _) => DeleteStepSound(r, op);
    case OpDeleteType(_, _) => DeleteStepSound(r, op);
    case _ => AccountStepSound(r, op);
  }

  lemma BlockStepSound(r: Registry, accountId: Id, identityId: Id)
    requires Sound(r)
    ensures Sound(Block(r, accountId, identityId).0)
  {
    if identityId in r.identities && r.identities[identityId].accountId == accountId {
      StatusSound(r, identityId, Blocked);
      assert Block(r, accountId, identityId).0 == SetStatus(r, identityId, Blocked);
    } else {
      assert Block(r, accountId, identityId).0 == r;
    }
    hide *;
  }

  lemma RenameStepSound(r: Registry, accountId: Id, newAlias: string, order: seq<Id>)
    requires Sound(r) && Visits(order, r) && !RenameBlocked(r, accountId, newAlias)
    ensures Sound(Rename(r, accountId, newAlias, order).0)
  {
    if accountId in r.accounts && !AliasTaken(r, accountId, newAlias) {
      RenameExact(r, accountId, newAlias, order);
    }
    hide Sound, SoundBut, Rekey;
  }

  lemma {:induction false} CarefulRunSound(r: Registry, ops: seq<Op>)
    requires Sound(r) && CarefulRun(r, ops)
    ensures Sound(After(r, ops))
  {
    hide Sound, Careful, Step;
    if ops != [] {
      CarefulRunSound(r, ops[..|ops| - 1]);
      StepSound(After(r, ops[..|ops| - 1]), ops[|ops| - 1]);
    }
  }

  /** Over every careful run from the empty store, a value is accepted exactly for its active owner. */
  lemma LookupAgreesAlways(ops: seq<Op>)
    requires CarefulRun(EMPTY, ops)
    ensures forall a, v :: Resolve(After(EMPTY, ops), a, v).Some? <==> OwnsActive(After(EMPTY, ops), a, v)
  {
    CarefulRunSound(EMPTY, ops);
    LookupAgrees(After(EMPTY, ops));
    hide After, CarefulRun, Sound, Resolve, OwnsActive;
  }

  /** The mailboxes under the alias just given up still belong to the account. */
  lemma BackUnblocked(r: Registry, b: Registry, accountId: Id)
    requires Sound(r) && accountId in r.accounts && SameActive(r, b, accountId) && OwnersKept(r, b)
    ensures !RenameBlocked(b, accountId, r.accounts[accountId].publicAlias)
  {
    var alias := r.accounts[accountId].publicAlias;
    hide BuildLocalPart;
    forall id | id in b.identities && b.identities[id].status == Active && b.identities[id].accountId == accountId
      ensures !OwnedByOther(b, accountId, BuildLocalPart(alias, b.identities[id].value))
    {
      var i := b.identities[id];
      assert IsWith(b, accountId, i.value, i.secretId, i.typeId, id);
      assert OwnsActiveWith(r, accountId, i.value, i.secretId, i.typeId);
      var j :| j in r.identities && IsWith(r, accountId, i.value, i.secretId, i.typeId, j);
      assert IdentityFiled(r, j) && Backed(r, j) && CarriesAlias(r, j);
      assert Owner(b, r.identities[j].localPart) == accountId;
    }
  }

  /** What the return trip needs from the way out. */
  lemma ThereIsBack(r: Registry, accountId: Id, newAlias: string, order: seq<Id>)
    requires Sound(r) && accountId in r.accounts
    requires !AliasTaken(r, accountId, newAlias) && Visits(order, r) && !RenameBlocked(r, accountId, newAlias)
    ensures !RenameBlocked(Rename(r, accountId, newAlias, order).0, accountId, r.accounts[accountId].publicAlias)
  {
    var next := Rename(r, accountId, newAlias, order).0;
    RekeyOutcome(r, accountId, newAlias, order);
    RenameFiled(r, accountId, newAlias, order);
    hide Rekey, SameElsewhere, RenameBlocked, MidRename, SameActive, OwnersKept, AliasTaken;
    BackUnblocked(r, next, accountId);
  }

  /**
   After a successful rename to a different alias the way back is always open, and going
   there and back accepts the same secrets as at the start, for every account.
   */
  lemma RenameThereAndBack(r: Registry, accountId: Id, newAlias: string, order: seq<Id>, back: seq<Id>)
    requires Sound(r) && accountId in r.accounts && newAlias != r.accounts[accountId].publicAlias
    requires !AliasTaken(r, accountId, newAlias) && Visits(order, r) && !RenameBlocked(r, accountId, newAlias)
    requires Visits(back, Rename(r, accountId, newAlias, order).0)
    ensures var mid := Rename(r, accountId, newAlias, order).0;
            var (end, outcome) := Rename(mid, accountId, r.accounts[accountId].publicAlias, back);
            outcome == Done && forall x, v :: Resolve(end, x, v) == Resolve(r, x, v)
  {
    var mid := Rename(r, accountId, newAlias, order).0;
    RenameExact(r, accountId, newAlias, order);
    ThereIsBack(r, accountId, newAlias, order);
    RenameExact(mid, accountId, r.accounts[accountId].publicAlias, back);
    hide Rename, Sound, Resolve, AliasTaken, RenameBlocked, Visits, Succeeded, SameForeign, Agrees, NeedsRekey;
  }
}
