/**
 Map keys that put an account in front of another name, as "account::name"
 (internal/store/memory.go:729-742, 1126-1160).
 */
module Keys {
  import opened Text

  /** Account identifiers are UUIDs: they hold no ':'. */
  predicate PlainAccount(accountId: string) {
    ':' !in accountId
  }

  function Scoped(accountId: string, name: string): string {
    accountId + "::" + name
  }

  lemma ScopedInjective(a1: string, n1: string, a2: string, n2: string)
    requires PlainAccount(a1) && PlainAccount(a2) && Scoped(a1, n1) == Scoped(a2, n2)
    ensures a1 == a2 && n1 == n2
  {
    var key := Scoped(a1, n1);
    assert key == a1 + ":" + (":" + n1) && key == a2 + ":" + (":" + n2);
    IndexOfChar(a1, ':', ":" + n1);
    IndexOfChar(a2, ':', ":" + n2);
    assert key[..|a1|] == a1 && key[|a1| + 2..] == n1;
    assert key[..|a2|] == a2 && key[|a2| + 2..] == n2;
  }

  /**
   Any two accounts whose keys can meet at all: one of the identifiers, with its separator,
   begins the other. Plain identifiers never do.
   */
  lemma ScopedCollides(a1: string, a2: string)
    ensures (exists n1, n2 :: n1 != "" && n2 != "" && Scoped(a1, n1) == Scoped(a2, n2))
            <==> a1 + "::" <= a2 + "::" || a2 + "::" <= a1 + "::"
  {
    var x, y := a1 + "::", a2 + "::";
    if n1, n2 :| n1 != "" && n2 != "" && Scoped(a1, n1) == Scoped(a2, n2) {
      assert x == Scoped(a1, n1)[..|x|] && y == Scoped(a2, n2)[..|y|];
    }
    if x <= y {
      var n := y[|x|..] + "n";
      assert Scoped(a1, n) == x + n == y + "n" == Scoped(a2, "n");
    }
    if y <= x {
      var n := x[|y|..] + "n";
      assert Scoped(a2, n) == y + n == x + "n" == Scoped(a1, "n");
    }
  }
}
