/**
 Go's order on strings and sort.Strings, used for key paths and top-level keys
 (internal/service/fingerprint.go:25, internal/service/llm_compaction.go:166).
 */
module Sorting {
  predicate Distinct(s: seq<string>) {
    forall i, j | 0 <= i < j < |s| :: s[i] != s[j]
  }

  /** Go's string order. */
  predicate Less(a: string, b: string) {
    b != "" && (a == "" || a[0] < b[0] || (a[0] == b[0] && Less(a[1..], b[1..])))
  }

  lemma {:induction false} LessIrreflexive(a: string)
    ensures !Less(a, a)
  {
    if a != "" {
      LessIrreflexive(a[1..]);
    }
  }

  lemma {:induction false} LessTransitive(a: string, b: string, c: string)
    requires Less(a, b) && Less(b, c)
    ensures Less(a, c)
  {
    if a != "" && a[0] == b[0] == c[0] {
      LessTransitive(a[1..], b[1..], c[1..]);
    }
  }

  lemma {:induction false} LessTotal(a: string, b: string)
    requires a != b
    ensures Less(a, b) || Less(b, a)
  {
    if a != "" && b != "" && a[0] == b[0] {
      assert a == [a[0]] + a[1..] && b == [b[0]] + b[1..];
      LessTotal(a[1..], b[1..]);
    }
  }

  predicate InOrder(s: seq<string>) {
    forall i, j | 0 <= i < j < |s| :: !Less(s[j], s[i])
  }

  lemma NotLessTransitive(a: string, b: string, c: string)
    requires !Less(b, a) && !Less(c, b)
    ensures !Less(c, a)
  {
    if a != b {
      LessTotal(a, b);
    }
    if b != c {
      LessTotal(b, c);
    }
    if Less(c, a) && a != b && b != c {
      LessTransitive(c, a, b);
      LessTransitive(b, c, b);
      LessIrreflexive(b);
    }
    hide Less;
  }

  lemma InsertedInOrder(s: seq<string>, i: nat, x: string)
    requires InOrder(s) && i <= |s|
    requires i > 0 ==> !Less(x, s[i - 1])
    requires i < |s| ==> !Less(s[i], x)
    ensures InOrder(s[..i] + [x] + s[i..])
  {
    var t := s[..i] + [x] + s[i..];
    forall j | 0 <= j < i
      ensures !Less(x, s[j])
    {
      if j < i - 1 {
        NotLessTransitive(s[j], s[i - 1], x);
      }
    }
    forall j | i <= j < |s|
      ensures !Less(s[j], x)
    {
      if j > i {
        NotLessTransitive(x, s[i], s[j]);
      }
    }
    hide Less;
    forall a, b | 0 <= a < b < |t|
      ensures !Less(t[b], t[a])
    {
      assert t[a] == (if a < i then s[a] else if a == i then x else s[a - 1]);
      assert t[b] == (if b < i then s[b] else if b == i then x else s[b - 1]);
    }
  }

  method InsertString(s: seq<string>, x: string) returns (r: seq<string>)
    requires InOrder(s)
    ensures InOrder(r) && multiset(r) == multiset(s) + multiset{x}
  {
    hide Less, InOrder;
    var i := |s|;
    while i > 0 && Less(x, s[i - 1])
      invariant 0 <= i <= |s|
      invariant i < |s| ==> Less(x, s[i])
    {
      i := i - 1;
    }
    if i < |s| {
      LessAsymmetric(x, s[i]);
    }
    InsertedInOrder(s, i, x);
    r := s[..i] + [x] + s[i..];
    assert s == s[..i] + s[i..];
  }

  /** sort.Strings. */
  method SortStrings(s: seq<string>) returns (r: seq<string>)
    ensures InOrder(r) && multiset(r) == multiset(s)
  {
    r := [];
    for n := 0 to |s|
      invariant InOrder(r) && multiset(r) == multiset(s[..n])
    {
      r := InsertString(r, s[n]);
      assert s[..n + 1] == s[..n] + [s[n]];
      hide InOrder;
    }
    assert s[..|s|] == s;
  }

  lemma LessAsymmetric(a: string, b: string)
    requires Less(a, b)
    ensures !Less(b, a)
  {
    if Less(b, a) {
      LessTransitive(a, b, a);
      LessIrreflexive(a);
    }
    hide Less;
  }

  lemma SameHead(s: seq<string>, t: seq<string>)
    requires InOrder(s) && InOrder(t) && multiset(s) == multiset(t) && s != []
    ensures t != [] && s[0] == t[0]
  {
    hide Less;
    assert s[0] in multiset(t);
    var i :| 0 <= i < |t| && t[i] == s[0];
    assert t[0] in multiset(s);
    var j :| 0 <= j < |s| && s[j] == t[0];
    if s[0] != t[0] {
      LessTotal(s[0], t[0]);
    }
  }

  lemma TailBag(s: seq<string>)
    requires s != []
    ensures multiset(s[1..]) == multiset(s) - multiset{s[0]}
  {
    assert s == [s[0]] + s[1..];
  }

  /** Sorting leaves no choice: the order of equal multisets is one and the same. */
  lemma {:induction false} InOrderUnique(s: seq<string>, t: seq<string>)
    requires InOrder(s) && InOrder(t) && multiset(s) == multiset(t)
    ensures s == t
  {
    assert |multiset(s)| == |s| && |multiset(t)| == |t|;
    if s != [] {
      SameHead(s, t);
      TailBag(s);
      TailBag(t);
      assert InOrder(s[1..]) && InOrder(t[1..]);
      InOrderUnique(s[1..], t[1..]);
      assert s == [s[0]] + s[1..] && t == [t[0]] + t[1..];
      hide InOrder;
    }
  }

  lemma {:induction false} SortedExists(s: seq<string>) returns (r: seq<string>)
    ensures InOrder(r) && multiset(r) == multiset(s)
  {
    r := [];
    if s != [] {
      var rest := SortedExists(s[1..]);
      var i := Place(rest, s[0], |rest|);
      InsertedInOrder(rest, i, s[0]);
      r := rest[..i] + [s[0]] + rest[i..];
      assert rest == rest[..i] + rest[i..] && s == [s[0]] + s[1..];
    }
  }

  lemma {:induction false} Place(s: seq<string>, x: string, n: nat) returns (i: nat)
    requires n <= |s| && (n < |s| ==> !Less(s[n], x))
    ensures i <= |s| && (i > 0 ==> !Less(x, s[i - 1])) && (i < |s| ==> !Less(s[i], x))
  {
    hide Less;
    i := n;
    if n > 0 && Less(x, s[n - 1]) {
      LessAsymmetric(x, s[n - 1]);
      i := Place(s, x, n - 1);
    }
  }
}
