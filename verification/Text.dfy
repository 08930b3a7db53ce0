/**
 ASCII model of the string operations the Go code takes from package strings:
 TrimSpace, ToLower, ReplaceAll of one character, Index, Split and HasPrefix.
 */
module Text {

  datatype Option<+T> = None | Some(value: T)

  // ---- TrimSpace -----------------------------------------------------------

  predicate IsSpace(c: char) {
    c == ' ' || '\t' <= c <= '\r'
  }

  function TrimLeft(s: string): string {
    if s != "" && IsSpace(s[0]) then TrimLeft(s[1..]) else s
  }

  function TrimRight(s: string): string {
    if s != "" && IsSpace(s[|s| - 1]) then TrimRight(s[..|s| - 1]) else s
  }

  function TrimSpace(s: string): string {
    TrimRight(TrimLeft(s))
  }

  /** No white space at either end. */
  predicate Trimmed(s: string) {
    s != "" ==> !IsSpace(s[0]) && !IsSpace(s[|s| - 1])
  }

  predicate Blank(s: string) {
    forall c | c in s :: IsSpace(c)
  }

  lemma {:induction false} TrimLeftSplits(s: string) returns (lead: string)
    ensures s == lead + TrimLeft(s) && Blank(lead)
    ensures TrimLeft(s) != "" ==> !IsSpace(TrimLeft(s)[0])
  {
    if s != "" && IsSpace(s[0]) {
      var rest := TrimLeftSplits(s[1..]);
      lead := [s[0]] + rest;
    } else {
      lead := "";
    }
  }

  lemma {:induction false} TrimRightSplits(s: string) returns (tail: string)
    ensures s == TrimRight(s) + tail && Blank(tail)
    ensures TrimRight(s) != "" ==> !IsSpace(TrimRight(s)[|TrimRight(s)| - 1])
  {
    if s != "" && IsSpace(s[|s| - 1]) {
      var rest := TrimRightSplits(s[..|s| - 1]);
      tail := rest + [s[|s| - 1]];
    } else {
      tail := "";
    }
  }

  /** TrimSpace removes exactly a blank prefix and a blank suffix. */
  lemma TrimSpaceSplits(s: string) returns (lead: string, tail: string)
    ensures s == lead + TrimSpace(s) + tail && Blank(lead) && Blank(tail)
    ensures Trimmed(TrimSpace(s))
  {
    lead := TrimLeftSplits(s);
    tail := TrimRightSplits(TrimLeft(s));
    var left, mid := TrimLeft(s), TrimSpace(s);
    if mid != "" {
      assert left[0] == mid[0];
    }
  }

  lemma TrimSpaceIsTrimmed(s: string)
    ensures Trimmed(TrimSpace(s))
    ensures |TrimSpace(s)| <= |s|
  {
    var _, _ := TrimSpaceSplits(s);
  }

  lemma TrimSpaceFixes(s: string)
    requires Trimmed(s)
    ensures TrimSpace(s) == s
  {
  }

  lemma TrimSpaceIdempotent(s: string)
    ensures TrimSpace(TrimSpace(s)) == TrimSpace(s)
  {
    TrimSpaceIsTrimmed(s);
    TrimSpaceFixes(TrimSpace(s));
  }

  // ---- ToLower and ReplaceAll(" ", "-") ------------------------------------

  function LowerChar(c: char): char {
    if 'A' <= c <= 'Z' then c - 'A' + 'a' else c
  }

  function ToLower(s: string): (r: string)
    ensures |r| == |s|
    ensures forall i | 0 <= i < |s| :: r[i] == LowerChar(s[i])
  {
    seq(|s|, i requires 0 <= i < |s| => LowerChar(s[i]))
  }

  function SpacesToDashes(s: string): (r: string)
    ensures |r| == |s|
    ensures forall i | 0 <= i < |s| :: r[i] == if s[i] == ' ' then '-' else s[i]
  {
    seq(|s|, i requires 0 <= i < |s| => if s[i] == ' ' then '-' else s[i])
  }

  lemma ToLowerConcat(a: string, b: string)
    ensures ToLower(a + b) == ToLower(a) + ToLower(b)
  {
  }

  lemma ToLowerKeepsTrimmed(s: string)
    requires Trimmed(s)
    ensures Trimmed(ToLower(s))
  {
  }

  lemma {:induction false} TrimRightShortens(s: string)
    ensures |TrimRight(s)| <= |s|
    ensures |TrimRight(s)| == |s| ==> TrimRight(s) == s && (s != "" ==> !IsSpace(s[|s| - 1]))
  {
    if s != "" && IsSpace(s[|s| - 1]) {
      TrimRightShortens(s[..|s| - 1]);
    }
  }

  // ---- Concatenation -------------------------------------------------------

  lemma Assoc(a: string, b: string, c: string)
    ensures (a + b) + c == a + (b + c)
  {
  }

  lemma HeadTail(c: char, r: string)
    ensures ([c] + r)[0] == c && ([c] + r)[1..] == r
  {
  }

  lemma InCons<T>(x: T, rest: seq<T>, p: T)
    requires p in [x] + rest
    ensures p == x || p in rest
  {
  }

  lemma DropAppend(a: string, b: string, n: nat)
    requires n <= |a|
    ensures (a + b)[n..] == a[n..] + b
  {
  }

  lemma Cut(a: string, b: string)
    ensures (a + b)[..|a|] == a && (a + b)[|a|..] == b
  {
  }

  // ---- Index, Contains, HasPrefix and Split --------------------------------

  predicate OccursAt(s: string, sub: string, i: nat) {
    i + |sub| <= |s| && s[i..i + |sub|] == sub
  }

  /** First index of sub in s, or -1. */
  function Index(s: string, sub: string): (r: int)
    ensures -1 <= r <= |s|
    ensures 0 <= r ==> OccursAt(s, sub, r)
  {
    if OccursAt(s, sub, 0) then 0
    else if s == "" then -1
    else
      var r := Index(s[1..], sub);
      if r < 0 then -1
      else
        assert OccursAt(s, sub, r + 1) by {
          OccursShift(s, sub, r + 1);
        }
        r + 1
  }

  lemma OccursShift(s: string, sub: string, j: nat)
    requires s != "" && 1 <= j
    ensures OccursAt(s, sub, j) <==> OccursAt(s[1..], sub, j - 1)
  {
    var n := |sub|;
    if j + n <= |s| {
      var x, y := s[j..j + n], s[1..][j - 1..j - 1 + n];
      assert |x| == |y| == n;
      assert forall k | 0 <= k < n :: x[k] == s[j + k] && y[k] == s[j + k];
      assert x == y;
    }
  }

  /** Nothing occurs before the index; where there is none, nothing occurs at all. */
  lemma {:induction false} IndexIsFirst(s: string, sub: string, j: nat)
    requires OccursAt(s, sub, j)
    ensures 0 <= Index(s, sub) <= j
  {
    if !OccursAt(s, sub, 0) {
      OccursShift(s, sub, j);
      IndexIsFirst(s[1..], sub, j - 1);
    }
  }

  predicate Contains(s: string, sub: string) {
    Index(s, sub) >= 0
  }

  /** The part occurs somewhere. */
  ghost predicate Occurs(whole: string, part: string) {
    exists i: nat :: OccursAt(whole, part, i)
  }

  lemma OccursContains(whole: string, part: string)
    ensures Occurs(whole, part) <==> Contains(whole, part)
  {
    if i: nat :| OccursAt(whole, part, i) {
      IndexIsFirst(whole, part, i);
    }
  }

  predicate HasPrefix(s: string, p: string) {
    p <= s
  }

  function TrimPrefix(s: string, p: string): string {
    if HasPrefix(s, p) then s[|p|..] else s
  }

  /** The index is the first occurrence: an occurrence with none before it is it. */
  lemma IndexIs(s: string, sub: string, i: nat)
    requires OccursAt(s, sub, i)
    requires forall j: nat | j < i :: !OccursAt(s, sub, j)
    ensures Index(s, sub) == i
  {
    IndexIsFirst(s, sub, i);
  }

  lemma IndexNone(s: string, sub: string)
    requires forall j: nat :: !OccursAt(s, sub, j)
    ensures Index(s, sub) == -1
  {
  }

  /** strings.Split for a non-empty separator. */
  function Split(s: string, sep: string): (parts: seq<string>)
    requires sep != ""
    ensures |parts| >= 1
    decreases |s|
  {
    var i := Index(s, sep);
    if i < 0 then [s]
    else [s[..i]] + Split(s[i + |sep|..], sep)
  }

  /** A one-character separator that does not occur in a is found right after a. */
  lemma IndexOfChar(a: string, c: char, b: string)
    requires c !in a
    ensures Index(a + [c] + b, [c]) == |a|
  {
    var s := a + [c] + b;
    assert s[|a|..|a| + 1] == [c];
    forall j: nat | j < |a|
      ensures !OccursAt(s, [c], j)
    {
      assert s[j..j + 1] == [a[j]];
    }
    IndexIs(s, [c], |a|);
  }

  lemma NoIndexOfChar(a: string, c: char)
    requires c !in a
    ensures Index(a, [c]) == -1
  {
    forall j: nat
      ensures !OccursAt(a, [c], j)
    {
      if j < |a| {
        assert a[j..j + 1] == [a[j]];
      }
    }
    IndexNone(a, [c]);
  }

  function Join(parts: seq<string>, sep: string): string {
    if parts == [] then ""
    else if |parts| == 1 then parts[0]
    else parts[0] + sep + Join(parts[1..], sep)
  }

  /** Splitting the dotted join of separator-free parts gives the parts back. */
  lemma {:induction false} SplitJoin(parts: seq<string>, c: char)
    requires |parts| >= 1
    requires forall p | p in parts :: c !in p
    ensures Split(Join(parts, [c]), [c]) == parts
  {
    if |parts| == 1 {
      NoIndexOfChar(parts[0], c);
    } else {
      var rest := Join(parts[1..], [c]);
      IndexOfChar(parts[0], c, rest);
      SplitJoin(parts[1..], c);
      var s := parts[0] + [c] + rest;
      assert s[..|parts[0]|] == parts[0];
      assert s[|parts[0]| + 1..] == rest;
    }
  }
}
