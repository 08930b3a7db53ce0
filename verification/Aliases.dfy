/**
 The index of public aliases: it agrees with the accounts until a new account's slug meets
 another account's alias, and exactly that step breaks it (internal/store/memory.go:132-163,
 231-250).
 */
module Aliases {
  import opened Text
  import opened WebhookId
  import opened Registry

  /** The index has every account under its alias, and nothing else. */
  predicate AliasesIndexed(r: Registry) {
    && (forall a | a in r.accounts :: a < r.nextId && Indexed(r, a))
    && (forall alias | alias in r.accountByAlias ::
          r.accountByAlias[alias] in r.accounts && r.accounts[r.accountByAlias[alias]].publicAlias == alias)
  }

  predicate Indexed(r: Registry, a: Id)
    requires a in r.accounts
  {
    r.accounts[a].publicAlias in r.accountByAlias && r.accountByAlias[r.accounts[a].publicAlias] == a
  }

  /** Signing up makes a new account whose slug is another account's alias. */
  predicate Overwrites(r: Registry, op: Op) {
    op.OpCreateAccount? && SlugFromEmail(op.email) !in r.accountBySlug && SlugFromEmail(op.email) in r.accountByAlias
  }

  lemma SameAliases(r: Registry, next: Registry)
    requires AliasesIndexed(r)
    requires next.accounts == r.accounts && next.accountByAlias == r.accountByAlias && next.nextId >= r.nextId
    ensures AliasesIndexed(next)
  {
  }

  /** The rekey loop leaves accounts and aliases alone. */
  lemma {:induction false} RekeyKeepsAliases(r: Registry, accountId: Id, oldAlias: string, newAlias: string, order: seq<Id>)
    ensures var next := Rekey(r, accountId, oldAlias, newAlias, order).0;
            next.accounts == r.accounts && next.accountByAlias == r.accountByAlias && next.nextId >= r.nextId
    decreases |order|
  {
    hide BuildLocalPart, OwnedByOther, NeedsRekey;
    if order != [] && RekeyOne(r, accountId, oldAlias, newAlias, order[0]).1 {
      RekeyKeepsAliases(RekeyOne(r, accountId, oldAlias, newAlias, order[0]).0, accountId, oldAlias, newAlias, order[1..]);
    }
  }

  lemma RealiasIndexed(r: Registry, accountId: Id, newAlias: string)
    requires AliasesIndexed(r) && accountId in r.accounts && !AliasTaken(r, accountId, newAlias)
    ensures AliasesIndexed(Realias(r, accountId, newAlias))
  {
    var next := Realias(r, accountId, newAlias);
    forall a | a in next.accounts
      ensures a < next.nextId && Indexed(next, a)
    {
      assert Indexed(r, a) && Indexed(r, accountId);
    }
  }

  lemma RenameIndexed(r: Registry, accountId: Id, newAlias: string, order: seq<Id>)
    requires AliasesIndexed(r)
    ensures AliasesIndexed(Rename(r, accountId, newAlias, order).0)
  {
    if accountId in r.accounts && !AliasTaken(r, accountId, newAlias) {
      var named, oldAlias := Realias(r, accountId, newAlias), r.accounts[accountId].publicAlias;
      RealiasIndexed(r, accountId, newAlias);
      RekeyKeepsAliases(named, accountId, oldAlias, newAlias, order);
      SameAliases(named, Rekey(named, accountId, oldAlias, newAlias, order).0);
    }
    hide AliasesIndexed, Rekey, Realias;
  }

  lemma CreateAccountExact(r: Registry, email: string)
    requires AliasesIndexed(r)
    ensures AliasesIndexed(CreateAccount(r, email)) <==> !Overwrites(r, OpCreateAccount(email))
  {
    hide SlugFromEmail;
    var slug, next := SlugFromEmail(email), CreateAccount(r, email);
    if Overwrites(r, OpCreateAccount(email)) {
      var owner := r.accountByAlias[slug];
      assert owner in r.accounts && owner != r.nextId;
      assert !Indexed(next, owner);
    } else {
      SignedUpIndexed(r, email);
    }
  }

  lemma SignedUpIndexed(r: Registry, email: string)
    requires AliasesIndexed(r) && !Overwrites(r, OpCreateAccount(email))
    ensures AliasesIndexed(CreateAccount(r, email))
  {
    hide SlugFromEmail;
    var next := CreateAccount(r, email);
    forall a | a in next.accounts
      ensures a < next.nextId && Indexed(next, a)
    {
      if a in r.accounts {
        assert Indexed(r, a);
      }
    }
  }

  lemma CreateSecretIndexed(r: Registry, accountId: Id, typeId: Id, value: string)
    requires AliasesIndexed(r)
    ensures AliasesIndexed(CreateSecret(r, accountId, typeId, value).0)
  {
    hide AliasesIndexed, BuildLocalPart;
    SameAliases(r, CreateSecret(r, accountId, typeId, value).0);
  }

  lemma FlagsIndexed(r: Registry, op: Op)
    requires AliasesIndexed(r) && (op.OpBlock? || op.OpRestore?)
    ensures AliasesIndexed(Step(r, op).0)
  {
    hide AliasesIndexed, HasActiveSecret;
    SameAliases(r, Step(r, op).0);
  }

  lemma DeletesIndexed(r: Registry, op: Op)
    requires AliasesIndexed(r) && (op.OpDeleteSecret? || op.OpDeleteType? || op.OpCreateType?)
    ensures AliasesIndexed(Step(r, op).0)
  {
    hide AliasesIndexed, SecretsOfType;
    SameAliases(r, Step(r, op).0);
  }

  /** Exactly one kind of call breaks the index. */
  lemma AliasStepExact(r: Registry, op: Op)
    requires AliasesIndexed(r)
    ensures AliasesIndexed(Step(r, op).0) <==> !Overwrites(r, op)
  {
    hide AliasesIndexed, CreateAccount, Rename, CreateSecret, SlugFromEmail;
    match op
    case OpCreateAccount(email) => CreateAccountExact(r, email);
    case OpRename(a, alias, order) => RenameIndexed(r, a, alias, order);
    case OpCreateSecret(a, t, v) => CreateSecretIndexed(r, a, t, v);
    case OpBlock(_, _) => FlagsIndexed(r, op);
    case OpRestore(_, _) => FlagsIndexed(r, op);
    case _ => DeletesIndexed(r, op);
  }

  predicate NeverOverwrites(ops: seq<Op>) {
    ops != [] ==> NeverOverwrites(ops[..|ops| - 1]) && !Overwrites(After(EMPTY, ops[..|ops| - 1]), ops[|ops| - 1])
  }

  /** Over every run without such a call no two accounts ever share an alias, and the index finds each. */
  lemma {:induction false} AliasesStayIndexed(ops: seq<Op>)
    requires NeverOverwrites(ops)
    ensures AliasesIndexed(After(EMPTY, ops))
    ensures forall a, b | a in After(EMPTY, ops).accounts && b in After(EMPTY, ops).accounts
              && After(EMPTY, ops).accounts[a].publicAlias == After(EMPTY, ops).accounts[b].publicAlias :: a == b
  {
    if ops != [] {
      AliasesStayIndexed(ops[..|ops| - 1]);
      AliasStepExact(After(EMPTY, ops[..|ops| - 1]), ops[|ops| - 1]);
    }
    hide Overwrites, Step;
    var r := After(EMPTY, ops);
    forall a, b | a in r.accounts && b in r.accounts && r.accounts[a].publicAlias == r.accounts[b].publicAlias
      ensures a == b
    {
      assert Indexed(r, a) && Indexed(r, b);
    }
  }
}
