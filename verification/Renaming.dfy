/**
 Changing a public alias (UpdateAccountPublicAlias and the rekey loop of
 internal/store/memory.go:231-250, 548-578): when it succeeds, what it does to the
 identities, and that exactly then the lookup keeps agreeing with the plain definition.
 */
module Renaming {
  import opened Text
  import opened WebhookId
  import opened Registry
  import opened Ownership
  import opened Lookup

  /** The account has an active identity with this value, secret and type. */
  predicate OwnsActiveWith(r: Registry, accountId: Id, value: string, secretId: Id, typeId: Id) {
    exists id :: id in r.identities && IsWith(r, accountId, value, secretId, typeId, id)
  }

  predicate IsWith(r: Registry, accountId: Id, value: string, secretId: Id, typeId: Id, id: Id) {
    ActiveIdentity(r, accountId, value, id) && r.identities[id].secretId == secretId && r.identities[id].typeId == typeId
  }

  /** Some active identity of the account would move onto a mailbox of another account. */
  predicate RenameBlocked(r: Registry, accountId: Id, newAlias: string) {
    exists id :: id in r.identities && r.identities[id].status == Active && r.identities[id].accountId == accountId
                 && OwnedByOther(r, accountId, BuildLocalPart(newAlias, r.identities[id].value))
  }

  // ---- One iteration -------------------------------------------------------

  /** The identities of the account that still carry the old alias. */
  function Waiting(r: Registry, accountId: Id, oldAlias: string): set<Id> {
    set id | id in r.identities && NeedsRekey(r, accountId, oldAlias, id)
  }

  predicate Renamed(r: Registry, accountId: Id, newAlias: string) {
    accountId in r.accounts && r.accounts[accountId].publicAlias == newAlias
  }

  predicate MidRename(r: Registry, accountId: Id, oldAlias: string, newAlias: string) {
    Renamed(r, accountId, newAlias) && SoundBut(r, Waiting(r, accountId, oldAlias))
  }

  /** The mailbox belongs to another account before and after, with the same entry, or to none such. */
  predicate SameOwner(a: Registry, b: Registry, accountId: Id, lp: string) {
    && (OwnedByOther(a, accountId, lp) <==> OwnedByOther(b, accountId, lp))
    && (OwnedByOther(a, accountId, lp) ==> b.byLocalPart[lp] == a.byLocalPart[lp])
  }

  ghost predicate SameOwners(a: Registry, b: Registry, accountId: Id) {
    forall lp :: SameOwner(a, b, accountId, lp)
  }

  /** An identity of another account is the same before and after. */
  predicate SameIfForeign(a: Registry, b: Registry, accountId: Id, id: Id) {
    && (id in a.identities && a.identities[id].accountId != accountId ==> id in b.identities && b.identities[id] == a.identities[id])
    && (id in b.identities && b.identities[id].accountId != accountId ==> id in a.identities && b.identities[id] == a.identities[id])
  }

  ghost predicate SameForeign(a: Registry, b: Registry, accountId: Id) {
    forall id :: SameIfForeign(a, b, accountId, id)
  }

  /** What no iteration touches. */
  ghost predicate SameElsewhere(a: Registry, b: Registry, accountId: Id) {
    && b.accounts == a.accounts && b.accountByAlias == a.accountByAlias
    && b.secrets == a.secrets && b.secretByHash == a.secretByHash
    && SameForeign(a, b, accountId) && SameOwners(a, b, accountId)
  }

  ghost predicate SameActive(a: Registry, b: Registry, accountId: Id) {
    forall v, s, t :: OwnsActiveWith(a, accountId, v, s, t) <==> OwnsActiveWith(b, accountId, v, s, t)
  }

  predicate Movable(r: Registry, accountId: Id, oldAlias: string, newAlias: string, id: Id) {
    NeedsRekey(r, accountId, oldAlias, id) && !OwnedByOther(r, accountId, BuildLocalPart(newAlias, r.identities[id].value))
  }

  lemma MovedIdentity(r: Registry, newAlias: string, id: Id, i: Id)
    requires id in r.identities && r.nextId !in r.identities
    ensures var next := Moved(r, newAlias, id);
            && (i in next.identities <==> i == r.nextId || i in r.identities)
            && (i in r.identities && i != id ==> next.identities[i] == r.identities[i])
            && next.identities[id].accountId == next.identities[r.nextId].accountId == r.identities[id].accountId
  {
    hide BuildLocalPart;
  }

  lemma MovedForeign(r: Registry, accountId: Id, oldAlias: string, newAlias: string, id: Id, i: Id)
    requires Filed(r) && Movable(r, accountId, oldAlias, newAlias, id)
    ensures SameIfForeign(r, Moved(r, newAlias, id), accountId, i)
  {
    FiledIds(r);
    MovedIdentity(r, newAlias, id, i);
    hide BuildLocalPart, Filed, Moved, OwnedByOther;
  }

  lemma MovedEntry(r: Registry, newAlias: string, id: Id, lp: string)
    requires id in r.identities
    ensures var next, moved := Moved(r, newAlias, id), BuildLocalPart(newAlias, r.identities[id].value);
            && (lp in next.byLocalPart <==> lp == moved || lp in r.byLocalPart)
            && (lp in next.byLocalPart ==> next.byLocalPart[lp] == if lp == moved then r.nextId else r.byLocalPart[lp])
  {
    hide BuildLocalPart;
  }

  lemma MovedAccount(r: Registry, newAlias: string, id: Id, i: Id)
    requires id in r.identities && r.nextId !in r.identities
    ensures var next := Moved(r, newAlias, id);
            && (i in next.identities <==> i == r.nextId || i in r.identities)
            && (i in next.identities ==>
                  next.identities[i].accountId == r.identities[if i == r.nextId then id else i].accountId)
  {
    hide BuildLocalPart;
  }

  lemma MovedOwner(r: Registry, accountId: Id, oldAlias: string, newAlias: string, id: Id, lp: string)
    requires Filed(r) && Movable(r, accountId, oldAlias, newAlias, id)
    ensures SameOwner(r, Moved(r, newAlias, id), accountId, lp)
  {
    FiledIds(r);
    MovedEntry(r, newAlias, id, lp);
    MovedAccount(r, newAlias, id, r.nextId);
    if lp in r.byLocalPart {
      MovedAccount(r, newAlias, id, r.byLocalPart[lp]);
    }
    hide BuildLocalPart, Filed, Moved;
  }

  lemma MovedPlain(r: Registry, newAlias: string, id: Id)
    requires id in r.identities
    ensures var next := Moved(r, newAlias, id);
            next.accounts == r.accounts && next.accountByAlias == r.accountByAlias
            && next.secrets == r.secrets && next.secretByHash == r.secretByHash
  {
    hide BuildLocalPart;
  }

  lemma MovedElsewhere(r: Registry, accountId: Id, oldAlias: string, newAlias: string, id: Id)
    requires Filed(r) && Movable(r, accountId, oldAlias, newAlias, id)
    ensures SameElsewhere(r, Moved(r, newAlias, id), accountId)
  {
    MovedPlain(r, newAlias, id);
    hide Filed, SameOwner, SameIfForeign, Moved, Movable;
    var next := Moved(r, newAlias, id);
    forall lp
      ensures SameOwner(r, next, accountId, lp)
    {
      MovedOwner(r, accountId, oldAlias, newAlias, id, lp);
    }
    forall i
      ensures SameIfForeign(r, next, accountId, i)
    {
      MovedForeign(r, accountId, oldAlias, newAlias, id, i);
    }
  }

  /** The copy stands for the identity it was made from. */
  lemma MovedActive(r: Registry, accountId: Id, oldAlias: string, newAlias: string, id: Id)
    requires Filed(r) && Movable(r, accountId, oldAlias, newAlias, id)
    ensures SameActive(r, Moved(r, newAlias, id), accountId)
  {
    var next := Moved(r, newAlias, id);
    forall v, s, t
      ensures OwnsActiveWith(r, accountId, v, s, t) <==> OwnsActiveWith(next, accountId, v, s, t)
    {
      if OwnsActiveWith(r, accountId, v, s, t) {
        var i :| i in r.identities && IsWith(r, accountId, v, s, t, i);
        MovedWith(r, accountId, oldAlias, newAlias, id, v, s, t, i);
      }
      if OwnsActiveWith(next, accountId, v, s, t) {
        var j :| j in next.identities && IsWith(next, accountId, v, s, t, j);
        CameFrom(r, accountId, oldAlias, newAlias, id, v, s, t, j);
      }
      hide *;
    }
  }

  lemma MovedWith(r: Registry, accountId: Id, oldAlias: string, newAlias: string, id: Id, v: string, s: Id, t: Id, i: Id)
    requires Filed(r) && Movable(r, accountId, oldAlias, newAlias, id)
    requires i in r.identities && IsWith(r, accountId, v, s, t, i)
    ensures OwnsActiveWith(Moved(r, newAlias, id), accountId, v, s, t)
  {
    FiledIds(r);
    hide BuildLocalPart, Filed;
    var next, j := Moved(r, newAlias, id), if i == id then r.nextId else i;
    assert j in next.identities;
    assert IsWith(next, accountId, v, s, t, j);
  }

  lemma CameFrom(r: Registry, accountId: Id, oldAlias: string, newAlias: string, id: Id, v: string, s: Id, t: Id, j: Id)
    requires Filed(r) && Movable(r, accountId, oldAlias, newAlias, id)
    requires IsWith(Moved(r, newAlias, id), accountId, v, s, t, j)
    ensures OwnsActiveWith(r, accountId, v, s, t)
  {
    hide BuildLocalPart, Filed;
    assert IsWith(r, accountId, v, s, t, if j == r.nextId then id else j);
  }

  /** The copy is backed and carries the new alias. */
  lemma CopyBacked(r: Registry, accountId: Id, oldAlias: string, newAlias: string, id: Id)
    requires Movable(r, accountId, oldAlias, newAlias, id) && Renamed(r, accountId, newAlias) && Backed(r, id)
    ensures var next := Moved(r, newAlias, id);
            Backed(next, r.nextId) && CarriesAlias(next, r.nextId)
  {
    hide BuildLocalPart;
  }

  /** Another active identity cannot sit on the mailbox the copy takes over. */
  lemma OthersStay(r: Registry, accountId: Id, oldAlias: string, newAlias: string, id: Id, other: Id)
    requires Filed(r) && Tame(r) && AllBacked(r) && OnePerValue(r)
    requires Movable(r, accountId, oldAlias, newAlias, id)
    requires other in r.identities && r.identities[other].status == Active && other != id
    ensures r.identities[other].localPart != BuildLocalPart(newAlias, r.identities[id].value)
  {
    assert IdentityFiled(r, other);
    if r.identities[other].localPart == BuildLocalPart(newAlias, r.identities[id].value) {
      SameMailboxSameValue(r.identities[other], newAlias, r.identities[id].value);
    }
  }

  lemma SameMailboxSameValue(i: Identity, alias: string, value: string)
    requires i.localPart == BuildLocalPart(i.publicAlias, i.value) == BuildLocalPart(alias, value)
    requires Trimmed(i.value) && Trimmed(value)
    ensures i.value == value
  {
    BuildLocalPartInjective(i.publicAlias, i.value, alias, value);
    TrimSpaceFixes(i.value);
    TrimSpaceFixes(value);
  }

  lemma OtherBacked(r: Registry, newAlias: string, id: Id, other: Id)
    requires Filed(r) && id in r.identities && other in r.identities && other != id && Backed(r, other)
    requires r.identities[other].localPart != BuildLocalPart(newAlias, r.identities[id].value)
    ensures var next := Moved(r, newAlias, id);
            && other in next.identities && next.identities[other] == r.identities[other] && Backed(next, other)
            && (CarriesAlias(r, other) ==> CarriesAlias(next, other))
  {
    FiledIds(r);
    hide BuildLocalPart, Filed;
    var next := Moved(r, newAlias, id);
    assert next.identities[other] == r.identities[other];
    assert next.byLocalPart[r.identities[other].localPart] == r.byLocalPart[r.identities[other].localPart];
  }

  lemma MovedTame(r: Registry, newAlias: string, id: Id)
    requires Tame(r) && id in r.identities
    ensures Tame(Moved(r, newAlias, id))
  {
    hide Trimmed, BuildLocalPart;
  }

  /** Active identities after the move: the copy, and the others as they were. */
  lemma MovedActiveIds(r: Registry, newAlias: string, id: Id, i: Id)
    requires Filed(r) && id in r.identities
    requires i in Moved(r, newAlias, id).identities && Moved(r, newAlias, id).identities[i].status == Active
    ensures i == r.nextId || (i != id && i in r.identities && Moved(r, newAlias, id).identities[i] == r.identities[i])
  {
    hide BuildLocalPart, Filed;
  }

  lemma MovedBacked(r: Registry, accountId: Id, oldAlias: string, newAlias: string, id: Id, i: Id)
    requires MidRename(r, accountId, oldAlias, newAlias) && Movable(r, accountId, oldAlias, newAlias, id)
    requires i in Moved(r, newAlias, id).identities && Moved(r, newAlias, id).identities[i].status == Active
    ensures Backed(Moved(r, newAlias, id), i)
    ensures i !in Waiting(Moved(r, newAlias, id), accountId, oldAlias) ==> CarriesAlias(Moved(r, newAlias, id), i)
  {
    hide Backed, CarriesAlias, Filed, Tame, OnePerValue, Moved, BuildLocalPart;
    MovedActiveIds(r, newAlias, id, i);
    if i == r.nextId {
      CopyBacked(r, accountId, oldAlias, newAlias, id);
    } else {
      OthersStay(r, accountId, oldAlias, newAlias, id, i);
      OtherBacked(r, newAlias, id, i);
    }
  }

  lemma MovedOnePerValue(r: Registry, newAlias: string, id: Id)
    requires Filed(r) && OnePerValue(r) && id in r.identities && r.identities[id].status == Active
    ensures OnePerValue(Moved(r, newAlias, id))
  {
    FiledIds(r);
    hide BuildLocalPart, Filed;
  }

  lemma MoveKeepsMidRename(r: Registry, accountId: Id, oldAlias: string, newAlias: string, id: Id)
    requires MidRename(r, accountId, oldAlias, newAlias) && Movable(r, accountId, oldAlias, newAlias, id)
    ensures MidRename(Moved(r, newAlias, id), accountId, oldAlias, newAlias)
  {
    var next := Moved(r, newAlias, id);
    RekeyOneFiled(r, accountId, oldAlias, newAlias, id);
    assert RekeyOne(r, accountId, oldAlias, newAlias, id).0 == next;
    MovedTame(r, newAlias, id);
    MovedOnePerValue(r, newAlias, id);
    assert Renamed(next, accountId, newAlias);
    hide Backed, CarriesAlias, Filed, Tame, OnePerValue, Moved, RekeyOne, BuildLocalPart;
    forall i | i in next.identities && next.identities[i].status == Active
      ensures Backed(next, i)
      ensures i !in Waiting(next, accountId, oldAlias) ==> CarriesAlias(next, i)
    {
      MovedBacked(r, accountId, oldAlias, newAlias, id, i);
    }
  }

  /** Under a different alias the moved identity stops waiting and nothing starts to. */
  lemma MovedNeed(r: Registry, accountId: Id, oldAlias: string, newAlias: string, id: Id, i: Id)
    requires NeedsRekey(r, accountId, oldAlias, id) && oldAlias != newAlias && r.nextId !in r.identities
    ensures NeedsRekey(Moved(r, newAlias, id), accountId, oldAlias, i) <==> NeedsRekey(r, accountId, oldAlias, i) && i != id
    ensures NeedsRekey(r, accountId, oldAlias, i) ==> i in r.identities
  {
    hide BuildLocalPart;
  }

  lemma MoveServes(r: Registry, accountId: Id, oldAlias: string, newAlias: string, id: Id)
    requires Filed(r) && Movable(r, accountId, oldAlias, newAlias, id) && oldAlias != newAlias
    ensures Waiting(Moved(r, newAlias, id), accountId, oldAlias) == Waiting(r, accountId, oldAlias) - {id}
  {
    FiledIds(r);
    hide Filed, Moved, NeedsRekey, OwnedByOther;
    forall i
      ensures i in Waiting(Moved(r, newAlias, id), accountId, oldAlias) <==> i in Waiting(r, accountId, oldAlias) - {id}
    {
      MovedNeed(r, accountId, oldAlias, newAlias, id, i);
      NeedsKnown(Moved(r, newAlias, id), accountId, oldAlias, i);
    }
  }

  lemma NeedsKnown(r: Registry, accountId: Id, oldAlias: string, i: Id)
    ensures NeedsRekey(r, accountId, oldAlias, i) ==> i in r.identities
  {
  }

  lemma RekeyOneIs(r: Registry, accountId: Id, oldAlias: string, newAlias: string, id: Id)
    ensures RekeyOne(r, accountId, oldAlias, newAlias, id) ==
            if Movable(r, accountId, oldAlias, newAlias, id) then (Moved(r, newAlias, id), true)
            else (r, !NeedsRekey(r, accountId, oldAlias, id))
    ensures Movable(r, accountId, oldAlias, newAlias, id) ==> id in r.identities
  {
    hide BuildLocalPart;
  }

  lemma SameReflexive(r: Registry, accountId: Id)
    ensures SameElsewhere(r, r, accountId) && SameActive(r, r, accountId)
  {
  }

  lemma SameTransitive(a: Registry, b: Registry, c: Registry, accountId: Id)
    requires SameElsewhere(a, b, accountId) && SameElsewhere(b, c, accountId)
    requires SameActive(a, b, accountId) && SameActive(b, c, accountId)
    ensures SameElsewhere(a, c, accountId) && SameActive(a, c, accountId)
  {
    hide OwnedByOther, OwnsActiveWith;
    forall lp
      ensures SameOwner(a, c, accountId, lp)
    {
      assert SameOwner(a, b, accountId, lp) && SameOwner(b, c, accountId, lp);
    }
    forall id
      ensures SameIfForeign(a, c, accountId, id)
    {
      assert SameIfForeign(a, b, accountId, id) && SameIfForeign(b, c, accountId, id);
    }
  }

  lemma {:induction false} RekeyKeeps(r: Registry, accountId: Id, oldAlias: string, newAlias: string, order: seq<Id>)
    requires MidRename(r, accountId, oldAlias, newAlias)
    ensures var done := Rekey(r, accountId, oldAlias, newAlias, order);
            && MidRename(done.0, accountId, oldAlias, newAlias)
            && SameElsewhere(r, done.0, accountId) && SameActive(r, done.0, accountId)
            && (done.1 && oldAlias != newAlias ==>
                  forall id | id in Waiting(done.0, accountId, oldAlias) :: id in Waiting(r, accountId, oldAlias) && id !in order)
    decreases |order|
  {
    hide SameElsewhere, SameActive, Moved, Movable, Waiting, Renamed, Filed, Tame, AllBacked, AllCarry, OnePerValue, RekeyOne;
    SameReflexive(r, accountId);
    if order != [] {
      var id := order[0];
      RekeyOneIs(r, accountId, oldAlias, newAlias, id);
      if Movable(r, accountId, oldAlias, newAlias, id) {
        var next := Moved(r, newAlias, id);
        StepKeeps(r, accountId, oldAlias, newAlias, id);
        RekeyKeeps(next, accountId, oldAlias, newAlias, order[1..]);
        SameTransitive(r, next, Rekey(next, accountId, oldAlias, newAlias, order[1..]).0, accountId);
      } else if !NeedsRekey(r, accountId, oldAlias, id) {
        NotWaiting(r, accountId, oldAlias, id);
        RekeyKeeps(r, accountId, oldAlias, newAlias, order[1..]);
      }
      assert forall x :: x in order <==> x == id || x in order[1..];
    }
  }

  lemma NotWaiting(r: Registry, accountId: Id, oldAlias: string, id: Id)
    requires !NeedsRekey(r, accountId, oldAlias, id)
    ensures id !in Waiting(r, accountId, oldAlias)
  {
  }

  lemma StepKeeps(r: Registry, accountId: Id, oldAlias: string, newAlias: string, id: Id)
    requires MidRename(r, accountId, oldAlias, newAlias) && Movable(r, accountId, oldAlias, newAlias, id)
    ensures var next := Moved(r, newAlias, id);
            && MidRename(next, accountId, oldAlias, newAlias)
            && SameElsewhere(r, next, accountId) && SameActive(r, next, accountId)
            && (oldAlias != newAlias ==> Waiting(next, accountId, oldAlias) == Waiting(r, accountId, oldAlias) - {id})
  {
    MoveKeepsMidRename(r, accountId, oldAlias, newAlias, id);
    MovedElsewhere(r, accountId, oldAlias, newAlias, id);
    MovedActive(r, accountId, oldAlias, newAlias, id);
    if oldAlias != newAlias {
      MoveServes(r, accountId, oldAlias, newAlias, id);
    }
    hide *;
  }

  // ---- A whole rename ------------------------------------------------------

  /** Renaming the account itself: every active identity it has waits for its new mailbox. */
  lemma RealiasBacked(r: Registry, accountId: Id, newAlias: string, id: Id)
    requires accountId in r.accounts && id in r.identities && Backed(r, id) && CarriesAlias(r, id)
    requires r.identities[id].status == Active
    ensures var named := Realias(r, accountId, newAlias);
            && Backed(named, id)
            && (CarriesAlias(named, id) || NeedsRekey(named, accountId, r.accounts[accountId].publicAlias, id))
  {
  }

  lemma RealiasStarts(r: Registry, accountId: Id, newAlias: string)
    requires Sound(r) && accountId in r.accounts
    ensures var named, oldAlias := Realias(r, accountId, newAlias), r.accounts[accountId].publicAlias;
            MidRename(named, accountId, oldAlias, newAlias)
            && named.identities == r.identities && named.byLocalPart == r.byLocalPart
            && named.secrets == r.secrets && named.secretByHash == r.secretByHash
  {
    var named, oldAlias := Realias(r, accountId, newAlias), r.accounts[accountId].publicAlias;
    RestatusFiled(r, named);
    hide Filed, OnePerValue, Trimmed, Backed, CarriesAlias, NeedsRekey;
    forall id | id in named.identities && named.identities[id].status == Active
      ensures Backed(named, id)
      ensures id !in Waiting(named, accountId, oldAlias) ==> CarriesAlias(named, id)
    {
      RealiasBacked(r, accountId, newAlias, id);
    }
    assert OnePerValue(named) by {
      OnePerValueSame(r, named);
    }
  }

  lemma OnePerValueSame(a: Registry, b: Registry)
    requires OnePerValue(a) && b.identities == a.identities
    ensures OnePerValue(b)
  {
  }

  /** With nobody waiting, or nothing to wait for, the invariant is whole again. */
  lemma MidRenameEnds(r: Registry, accountId: Id, oldAlias: string, newAlias: string)
    requires MidRename(r, accountId, oldAlias, newAlias)
    requires oldAlias == newAlias || Waiting(r, accountId, oldAlias) == {}
    ensures Sound(r)
  {
    hide Filed, Tame, AllBacked, OnePerValue;
    forall id | id in r.identities && r.identities[id].status == Active
      ensures CarriesAlias(r, id)
    {
      if id in Waiting(r, accountId, oldAlias) {
        assert r.identities[id].publicAlias == oldAlias;
      }
    }
  }

  lemma BlockedStays(a: Registry, b: Registry, accountId: Id, newAlias: string)
    requires SameElsewhere(a, b, accountId) && SameActive(a, b, accountId)
    ensures RenameBlocked(a, accountId, newAlias) ==> RenameBlocked(b, accountId, newAlias)
  {
    hide OwnedByOther, BuildLocalPart, SameForeign;
    if RenameBlocked(a, accountId, newAlias) {
      var id :| id in a.identities && a.identities[id].status == Active && a.identities[id].accountId == accountId
                && OwnedByOther(a, accountId, BuildLocalPart(newAlias, a.identities[id].value));
      var i := a.identities[id];
      assert IsWith(a, accountId, i.value, i.secretId, i.typeId, id);
      assert OwnsActiveWith(b, accountId, i.value, i.secretId, i.typeId);
      var j :| j in b.identities && IsWith(b, accountId, i.value, i.secretId, i.typeId, j);
      assert b.identities[j].value == i.value;
      assert SameOwner(a, b, accountId, BuildLocalPart(newAlias, i.value));
    }
  }

  lemma BlockedBack(a: Registry, b: Registry, accountId: Id, newAlias: string)
    requires SameElsewhere(a, b, accountId) && SameActive(a, b, accountId)
    ensures RenameBlocked(b, accountId, newAlias) ==> RenameBlocked(a, accountId, newAlias)
  {
    hide OwnedByOther, BuildLocalPart, SameForeign;
    if RenameBlocked(b, accountId, newAlias) {
      var id :| id in b.identities && b.identities[id].status == Active && b.identities[id].accountId == accountId
                && OwnedByOther(b, accountId, BuildLocalPart(newAlias, b.identities[id].value));
      var i := b.identities[id];
      assert IsWith(b, accountId, i.value, i.secretId, i.typeId, id);
      assert OwnsActiveWith(a, accountId, i.value, i.secretId, i.typeId);
      var j :| j in a.identities && IsWith(a, accountId, i.value, i.secretId, i.typeId, j);
      assert a.identities[j].value == i.value;
      assert SameOwner(a, b, accountId, BuildLocalPart(newAlias, i.value));
    }
  }

  /** A failing loop stops at an identity that is blocked. */
  lemma {:induction false} FailureBlocked(r: Registry, accountId: Id, oldAlias: string, newAlias: string, order: seq<Id>)
    requires !Rekey(r, accountId, oldAlias, newAlias, order).1
    ensures RenameBlocked(Rekey(r, accountId, oldAlias, newAlias, order).0, accountId, newAlias)
    decreases |order|
  {
    hide BuildLocalPart, OwnedByOther, Moved;
    RekeyOneIs(r, accountId, oldAlias, newAlias, order[0]);
    if RekeyOne(r, accountId, oldAlias, newAlias, order[0]).1 {
      FailureBlocked(RekeyOne(r, accountId, oldAlias, newAlias, order[0]).0, accountId, oldAlias, newAlias, order[1..]);
    }
  }

  /** In a sound state nothing blocks the alias the account already has. */
  lemma SoundUnblocked(r: Registry, accountId: Id, alias: string)
    requires Sound(r) && Renamed(r, accountId, alias)
    ensures !RenameBlocked(r, accountId, alias)
  {
    hide BuildLocalPart;
    forall id | id in r.identities && r.identities[id].status == Active && r.identities[id].accountId == accountId
      ensures !OwnedByOther(r, accountId, BuildLocalPart(alias, r.identities[id].value))
    {
      assert IdentityFiled(r, id) && Backed(r, id) && CarriesAlias(r, id);
    }
  }

  /** A blocked identity is active but not found: its mailbox is someone else's and not active for it. */
  lemma BlockedDisagrees(r: Registry, accountId: Id, oldAlias: string, newAlias: string)
    requires MidRename(r, accountId, oldAlias, newAlias) && RenameBlocked(r, accountId, newAlias)
    ensures !Agrees(r)
  {
    hide BuildLocalPart;
    var id :| id in r.identities && r.identities[id].status == Active && r.identities[id].accountId == accountId
              && OwnedByOther(r, accountId, BuildLocalPart(newAlias, r.identities[id].value));
    var v := r.identities[id].value;
    assert ActiveIdentity(r, accountId, v, id);
    var lp := BuildLocalPart(newAlias, v);
    var other := r.byLocalPart[lp];
    assert IdentityFiled(r, other);
    SameMailboxSameValue(r.identities[other], newAlias, v);
    assert r.identities[other].status != Active;
    assert Resolve(r, accountId, v).None?;
  }

  /** The whole loop, from a sound state with the account renamed. */
  lemma RekeyOutcome(r: Registry, accountId: Id, newAlias: string, order: seq<Id>)
    requires Sound(r) && accountId in r.accounts && Visits(order, r)
    ensures var oldAlias := r.accounts[accountId].publicAlias;
            var named := Realias(r, accountId, newAlias);
            var done := Rekey(named, accountId, oldAlias, newAlias, order);
            && MidRename(done.0, accountId, oldAlias, newAlias)
            && SameElsewhere(named, done.0, accountId) && SameActive(r, done.0, accountId)
            && (done.1 <==> !RenameBlocked(r, accountId, newAlias))
            && (done.1 ==> Sound(done.0) && (oldAlias != newAlias ==> Waiting(done.0, accountId, oldAlias) == {}))
            && (!done.1 ==> RenameBlocked(done.0, accountId, newAlias))
  {
    var oldAlias := r.accounts[accountId].publicAlias;
    var named := Realias(r, accountId, newAlias);
    var done := Rekey(named, accountId, oldAlias, newAlias, order);
    RealiasStarts(r, accountId, newAlias);
    RekeyKeeps(named, accountId, oldAlias, newAlias, order);
    SameNamed(r, named, done.0, accountId, newAlias);
    BlockedStays(named, done.0, accountId, newAlias);
    BlockedBack(named, done.0, accountId, newAlias);
    if done.1 {
      if oldAlias != newAlias {
        AllVisited(named, done.0, accountId, oldAlias, order);
      }
      MidRenameEnds(done.0, accountId, oldAlias, newAlias);
      SoundUnblocked(done.0, accountId, newAlias);
    } else {
      FailureBlocked(named, accountId, oldAlias, newAlias, order);
    }
    hide *;
  }

  lemma SameNamed(r: Registry, named: Registry, next: Registry, accountId: Id, newAlias: string)
    requires named.identities == r.identities && named.byLocalPart == r.byLocalPart
    ensures SameActive(named, next, accountId) ==> SameActive(r, next, accountId)
    ensures RenameBlocked(named, accountId, newAlias) <==> RenameBlocked(r, accountId, newAlias)
  {
    hide BuildLocalPart;
    forall v, s, t
      ensures OwnsActiveWith(r, accountId, v, s, t) <==> OwnsActiveWith(named, accountId, v, s, t)
    {
      forall id
        ensures IsWith(r, accountId, v, s, t, id) <==> IsWith(named, accountId, v, s, t, id)
      {
      }
    }
  }

  lemma AllVisited(r: Registry, next: Registry, accountId: Id, oldAlias: string, order: seq<Id>)
    requires Visits(order, r)
    requires forall id | id in Waiting(next, accountId, oldAlias) :: id in Waiting(r, accountId, oldAlias) && id !in order
    ensures Waiting(next, accountId, oldAlias) == {}
  {
  }
}
