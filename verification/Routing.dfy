/**
 Ranking, filtering and choosing the skills that apply to an event
 (internal/service/routing.go, internal/service/actions.go:822-860). The keyword list of the
 spam detector is an arbitrary labelling of payloads.
 */
module Routing {
  import opened Text
  import opened Json
  import opened Targets

  datatype Skill = Skill(
    key: string,
    enabled: bool,
    priority: int,
    createdAt: int,
    matchContains: string,
    forcedAction: string,
    prompt: string,
    memoryMode: string)

  // ---- Stable sorting ------------------------------------------------------

  /** A sort key, compared position by position. */
  datatype Rank = Rank(a: int, b: int, c: int)

  predicate Before(x: Rank, y: Rank) {
    x.a < y.a || (x.a == y.a && (x.b < y.b || (x.b == y.b && x.c < y.c)))
  }

  function Insert<T>(x: T, s: seq<T>, rank: T -> Rank): seq<T> {
    if s == [] || !Before(rank(s[0]), rank(x)) then [x] + s else [s[0]] + Insert(x, s[1..], rank)
  }

  /** sort.SliceStable. */
  function StableSort<T>(s: seq<T>, rank: T -> Rank): seq<T> {
    if s == [] then [] else Insert(s[0], StableSort(s[1..], rank), rank)
  }

  ghost predicate Ordered<T(!new)>(s: seq<T>, rank: T -> Rank) {
    forall i, j | 0 <= i < j < |s| :: !Before(rank(s[j]), rank(s[i]))
  }

  lemma {:induction false} InsertPermutes<T(!new)>(x: T, s: seq<T>, rank: T -> Rank)
    ensures multiset(Insert(x, s, rank)) == multiset([x]) + multiset(s)
    ensures forall y | y in Insert(x, s, rank) :: y == x || y in s
  {
    if s != [] && Before(rank(s[0]), rank(x)) {
      InsertPermutes(x, s[1..], rank);
      assert s == [s[0]] + s[1..];
    }
  }

  lemma {:induction false} InsertOrdered<T(!new)>(x: T, s: seq<T>, rank: T -> Rank)
    requires Ordered(s, rank)
    ensures Ordered(Insert(x, s, rank), rank)
  {
    var t := Insert(x, s, rank);
    if s != [] && Before(rank(s[0]), rank(x)) {
      InsertOrdered(x, s[1..], rank);
      InsertPermutes(x, s[1..], rank);
      forall j | 1 <= j < |t|
        ensures !Before(rank(t[j]), rank(t[0]))
      {
        assert t[j] in Insert(x, s[1..], rank);
      }
    } else {
      forall i, j | 0 <= i < j < |t|
        ensures !Before(rank(t[j]), rank(t[i]))
      {
        assert t[j] == s[j - 1];
      }
    }
  }

  /** The elements of this rank, in the order in which they come. */
  function OfRank<T>(s: seq<T>, rank: T -> Rank, r: Rank): seq<T> {
    if s == [] then [] else (if rank(s[0]) == r then [s[0]] else []) + OfRank(s[1..], rank, r)
  }

  lemma {:induction false} InsertStable<T(!new)>(x: T, s: seq<T>, rank: T -> Rank, r: Rank)
    ensures OfRank(Insert(x, s, rank), rank, r) == OfRank([x] + s, rank, r)
  {
    assert ([x] + s)[1..] == s;
    if s != [] && Before(rank(s[0]), rank(x)) {
      InsertStable(x, s[1..], rank, r);
      var rest := Insert(x, s[1..], rank);
      assert ([s[0]] + rest)[1..] == rest;
      assert ([x] + s[1..])[1..] == s[1..];
    }
  }

  lemma {:induction false} SortStable<T(!new)>(s: seq<T>, rank: T -> Rank, r: Rank)
    ensures OfRank(StableSort(s, rank), rank, r) == OfRank(s, rank, r)
  {
    if s != [] {
      var rest := StableSort(s[1..], rank);
      SortStable(s[1..], rank, r);
      InsertStable(s[0], rest, rank, r);
      assert ([s[0]] + rest)[1..] == rest;
    }
  }

  /** The sort returns an ordered permutation in which elements of equal rank keep their order. */
  lemma {:induction false} SortOrdered<T(!new)>(s: seq<T>, rank: T -> Rank)
    ensures Ordered(StableSort(s, rank), rank) && multiset(StableSort(s, rank)) == multiset(s)
    ensures forall r :: OfRank(StableSort(s, rank), rank, r) == OfRank(s, rank, r)
  {
    forall r
      ensures OfRank(StableSort(s, rank), rank, r) == OfRank(s, rank, r)
    {
      SortStable(s, rank, r);
    }
    if s != [] {
      SortOrdered(s[1..], rank);
      InsertOrdered(s[0], StableSort(s[1..], rank), rank);
      InsertPermutes(s[0], StableSort(s[1..], rank), rank);
      assert s == [s[0]] + s[1..];
    }
  }

  function FirstWhere<T>(s: seq<T>, p: T -> bool): Option<T> {
    if s == [] then None else if p(s[0]) then Some(s[0]) else FirstWhere(s[1..], p)
  }

  /** Of those with p, the one of least rank, and of these the earliest. */
  ghost predicate Best<T(!new)>(s: seq<T>, p: T -> bool, rank: T -> Rank, i: nat) {
    && i < |s| && p(s[i])
    && forall j | 0 <= j < |s| && p(s[j]) :: !Before(rank(s[j]), rank(s[i])) && (j < i ==> Before(rank(s[i]), rank(s[j])))
  }

  lemma {:induction false} FirstOfInserted<T(!new)>(x: T, s: seq<T>, p: T -> bool, rank: T -> Rank)
    requires Ordered(s, rank)
    ensures var found := FirstWhere(s, p);
            FirstWhere(Insert(x, s, rank), p) ==
            if p(x) && (found.None? || !Before(rank(found.value), rank(x))) then Some(x) else found
  {
    if s == [] || !Before(rank(s[0]), rank(x)) {
      assert ([x] + s)[1..] == s;
      FirstIsIn(s, p);
    } else {
      FirstOfInserted(x, s[1..], p, rank);
      var rest := Insert(x, s[1..], rank);
      assert ([s[0]] + rest)[1..] == rest;
    }
  }

  lemma {:induction false} FirstIsIn<T(!new)>(s: seq<T>, p: T -> bool)
    ensures FirstWhere(s, p).Some? ==> FirstWhere(s, p).value in s && p(FirstWhere(s, p).value)
    ensures FirstWhere(s, p).None? ==> forall x | x in s :: !p(x)
  {
    if s != [] {
      FirstIsIn(s[1..], p);
    }
  }

  /** Scanning the sorted copy finds the best of the original. */
  lemma {:induction false} FirstOfSorted<T(!new)>(s: seq<T>, p: T -> bool, rank: T -> Rank) returns (i: nat)
    ensures match FirstWhere(StableSort(s, rank), p)
            case None => forall j | 0 <= j < |s| :: !p(s[j])
            case Some(x) => Best(s, p, rank, i) && x == s[i]
  {
    i := 0;
    if s != [] {
      var sorted := StableSort(s[1..], rank);
      SortOrdered(s[1..], rank);
      FirstOfInserted(s[0], sorted, p, rank);
      var k := FirstOfSorted(s[1..], p, rank);
      var found := FirstWhere(sorted, p);
      assert StableSort(s, rank) == Insert(s[0], sorted, rank);
      hide *;
      if found.Some? {
        BestOfTwo(s, p, rank, k);
        if !(p(s[0]) && !Before(rank(found.value), rank(s[0]))) {
          i := k + 1;
        }
      } else {
        BestAlone(s, p, rank);
      }
    }
  }

  lemma BestAlone<T(!new)>(s: seq<T>, p: T -> bool, rank: T -> Rank)
    requires s != [] && forall j | 0 <= j < |s[1..]| :: !p(s[1..][j])
    ensures forall j | 1 <= j < |s| :: !p(s[j])
    ensures p(s[0]) ==> Best(s, p, rank, 0)
  {
    forall j | 1 <= j < |s|
      ensures !p(s[j])
    {
      assert s[j] == s[1..][j - 1];
    }
  }

  /** The best of a list is its head or the best of its tail. */
  lemma BestOfTwo<T(!new)>(s: seq<T>, p: T -> bool, rank: T -> Rank, k: nat)
    requires s != [] && Best(s[1..], p, rank, k)
    ensures s[k + 1] == s[1..][k]
    ensures Best(s, p, rank, if p(s[0]) && !Before(rank(s[k + 1]), rank(s[0])) then 0 else k + 1)
  {
    forall j | 1 <= j < |s| && p(s[j])
      ensures !Before(rank(s[j]), rank(s[k + 1])) && (j < k + 1 ==> Before(rank(s[k + 1]), rank(s[j])))
    {
      assert s[j] == s[1..][j - 1];
    }
  }

  // ---- Tokens --------------------------------------------------------------

  /** The tokens, out of these comma-separated pieces, that the payload contains. */
  function TokensIn(pieces: seq<string>, payload: string): seq<string> {
    if pieces == [] then []
    else
      var token := TrimSpace(ToLower(pieces[0]));
      (if token != "" && Contains(payload, token) then [token] else []) + TokensIn(pieces[1..], payload)
  }

  function MatchedTokens(payload: string, matchContains: string): seq<string> {
    TokensIn(Split(matchContains, ","), payload)
  }

  method FindMatchedTokens(payload: string, matchContains: string) returns (out: seq<string>)
    ensures out == MatchedTokens(payload, matchContains)
  {
    hide Contains, TrimSpace, Split;
    var pieces := Split(matchContains, ",");
    out := [];
    for i := 0 to |pieces|
      invariant out + TokensIn(pieces[i..], payload) == TokensIn(pieces, payload)
    {
      assert pieces[i..][1..] == pieces[i + 1..];
      var token := TrimSpace(ToLower(pieces[i]));
      if token == "" {
        continue;
      }
      if Contains(payload, token) {
        out := out + [token];
      }
    }
  }

  method MatchesAnyToken(payload: string, matchContains: string) returns (ok: bool)
    ensures ok <==> MatchedTokens(payload, matchContains) != []
  {
    hide Contains, TrimSpace, Split;
    var pieces := Split(matchContains, ",");
    for i := 0 to |pieces|
      invariant TokensIn(pieces[i..], payload) == TokensIn(pieces, payload)
    {
      assert pieces[i..][1..] == pieces[i + 1..];
      var token := TrimSpace(ToLower(pieces[i]));
      if token == "" {
        continue;
      }
      if Contains(payload, token) {
        return true;
      }
    }
    ok := false;
  }

  lemma FoundAt(s: string, sub: string, i: nat)
    requires OccursAt(s, sub, i)
    ensures Contains(s, sub)
  {
    IndexIsFirst(s, sub, i);
  }

  lemma BlankLowers(s: string)
    requires Blank(s)
    ensures Blank(ToLower(s))
  {
    forall c | c in ToLower(s)
      ensures IsSpace(c)
    {
      var i :| 0 <= i < |s| && c == LowerChar(s[i]);
      assert s[i] in s;
    }
  }

  lemma WiderContains(l: string, m: string, t: string, token: string)
    requires Contains(m, token)
    ensures Contains(l + m + t, token)
  {
    var i := Index(m, token);
    assert (l + m + t)[|l| + i..|l| + i + |token|] == m[i..i + |token|];
    hide Index;
    FoundAt(l + m + t, token, |l| + i);
  }

  /** An occurrence begins and ends with a character that is no space, so it lies in the middle. */
  lemma MiddleContains(l: string, m: string, t: string, token: string)
    requires Blank(l) && Blank(t) && Trimmed(token) && token != "" && Contains(l + m + t, token)
    ensures Contains(m, token)
  {
    var whole := l + m + t;
    var i := Index(whole, token);
    assert OccursAt(whole, token, i);
    var last := i + |token| - 1;
    hide Index, Contains;
    assert whole[i] == whole[i..i + |token|][0] == token[0];
    assert whole[last] == whole[i..i + |token|][|token| - 1] == token[|token| - 1];
    assert m[i - |l|..i - |l| + |token|] == whole[i..i + |token|];
    FoundAt(m, token, i - |l|);
  }

  /** Surrounding space does not hide a token, nor make one. */
  lemma TrimKeepsTokens(payload: string, token: string)
    requires Trimmed(token) && token != ""
    ensures Contains(ToLower(TrimSpace(payload)), token) <==> Contains(ToLower(payload), token)
  {
    var lead, tail := TrimSpaceSplits(payload);
    var mid := TrimSpace(payload);
    ToLowerConcat(lead + mid, tail);
    ToLowerConcat(lead, mid);
    BlankLowers(lead);
    BlankLowers(tail);
    var l, m, t := ToLower(lead), ToLower(mid), ToLower(tail);
    assert ToLower(payload) == l + m + t;
    hide *;
    if Contains(m, token) {
      WiderContains(l, m, t, token);
    }
    if Contains(l + m + t, token) {
      MiddleContains(l, m, t, token);
    }
  }

  /** The two matchers, one on the trimmed payload, find the same. */
  lemma {:induction false} TokensAgree(pieces: seq<string>, payload: string)
    ensures TokensIn(pieces, ToLower(TrimSpace(payload))) == TokensIn(pieces, ToLower(payload))
  {
    if pieces != [] {
      var token := TrimSpace(ToLower(pieces[0]));
      TokensAgree(pieces[1..], payload);
      TrimSpaceIsTrimmed(ToLower(pieces[0]));
      if token != "" {
        TrimKeepsTokens(payload, token);
      }
    }
    hide TrimSpace, Contains, ToLower, Trimmed;
  }

  // ---- Candidates ----------------------------------------------------------

  /** strings.EqualFold, on ASCII. */
  predicate EqualFold(a: string, b: string) {
    ToLower(a) == ToLower(b)
  }

  datatype Candidate = Candidate(skill: Skill, tokens: seq<string>, score: int, hardLock: bool)

  function CandidateOf(skill: Skill, payload: string, labelOf: string -> string): Option<Candidate> {
    var tokens, forced := MatchedTokens(payload, skill.matchContains), TrimSpace(skill.forcedAction);
    if !skill.enabled || (tokens == [] && TrimSpace(skill.matchContains) != "") then None
    else Some(Candidate(
      skill,
      tokens,
      |tokens| * 10 + (if forced != "" then 3 else 0) + (if TrimSpace(skill.prompt) != "" then 2 else 0)
        + (if Contains(ToLower(skill.key), "spam") && labelOf(payload) == "spam" then 20 else 0),
      forced != "" && !EqualFold(forced, "store_mysql")))
  }

  function AllCandidates(skills: seq<Skill>, payload: string, labelOf: string -> string): seq<Candidate> {
    if skills == [] then []
    else
      var c := CandidateOf(skills[0], payload, labelOf);
      (if c.Some? then [c.value] else []) + AllCandidates(skills[1..], payload, labelOf)
  }

  function CandidateRank(c: Candidate): Rank {
    Rank(-c.score, c.skill.priority, c.skill.createdAt)
  }

  function RankSkills(skills: seq<Skill>, payload: string, labelOf: string -> string): seq<Candidate> {
    StableSort(AllCandidates(skills, ToLower(TrimSpace(payload)), labelOf), CandidateRank)
  }

  lemma CandidatesFrom(skills: seq<Skill>, i: nat, payload: string, labelOf: string -> string)
    requires i < |skills|
    ensures AllCandidates(skills[i..], payload, labelOf) ==
            match CandidateOf(skills[i], payload, labelOf)
            case None => AllCandidates(skills[i + 1..], payload, labelOf)
            case Some(c) => [c] + AllCandidates(skills[i + 1..], payload, labelOf)
  {
    assert skills[i..][1..] == skills[i + 1..];
    hide CandidateOf;
  }

  lemma CandidatesEnd(payload: string, labelOf: string -> string)
    ensures AllCandidates([], payload, labelOf) == []
  {
  }

  method RankSkillCandidates(skills: seq<Skill>, payload: string, labelOf: string -> string) returns (out: seq<Candidate>)
    ensures out == RankSkills(skills, payload, labelOf)
  {
    hide Contains, TrimSpace, MatchedTokens, EqualFold, StableSort;
    var normalized := ToLower(TrimSpace(payload));
    hide ToLower;
    hide AllCandidates;
    out := [];
    for i := 0 to |skills|
      invariant out + AllCandidates(skills[i..], normalized, labelOf) == AllCandidates(skills, normalized, labelOf)
    {
      CandidatesFrom(skills, i, normalized, labelOf);
      var skill := skills[i];
      if !skill.enabled {
        continue;
      }
      var tokens := FindMatchedTokens(normalized, skill.matchContains);
      if |tokens| == 0 && TrimSpace(skill.matchContains) != "" {
        continue;
      }
      ghost var c := CandidateOf(skill, normalized, labelOf);
      var score := |tokens| * 10;
      if TrimSpace(skill.forcedAction) != "" {
        score := score + 3;
      }
      if TrimSpace(skill.prompt) != "" {
        score := score + 2;
      }
      if Contains(ToLower(skill.key), "spam") && labelOf(normalized) == "spam" {
        score := score + 20;
      }
      var hardLock := TrimSpace(skill.forcedAction) != "" && !EqualFold(TrimSpace(skill.forcedAction), "store_mysql");
      assert c == Some(Candidate(skill, tokens, score, hardLock));
      out := out + [Candidate(skill, tokens, score, hardLock)];
    }
    CandidatesEnd(normalized, labelOf);
    assert skills[|skills|..] == [];
    assert out == AllCandidates(skills, normalized, labelOf);
    out := StableSort(out, CandidateRank);
  }

  // ---- Selection -----------------------------------------------------------

  /** The known keys among these, trimmed, each where it comes first. */
  function KnownOf(keys: seq<string>, allowed: set<string>, seen: set<string>): seq<string> {
    if keys == [] then []
    else
      var key := TrimSpace(keys[0]);
      if key == "" || key !in allowed || key in seen then KnownOf(keys[1..], allowed, seen)
      else [key] + KnownOf(keys[1..], allowed, seen + {key})
  }

  function KeysOf(candidates: seq<Candidate>): set<string> {
    set c | c in candidates :: c.skill.key
  }

  method FilterKnownSkills(keys: seq<string>, candidates: seq<Candidate>) returns (out: seq<string>)
    ensures out == KnownOf(keys, KeysOf(candidates), {})
  {
    hide TrimSpace, KeysOf;
    var allowed := KeysOf(candidates);
    var seen: set<string> := {};
    out := [];
    for i := 0 to |keys|
      invariant out + KnownOf(keys[i..], allowed, seen) == KnownOf(keys, allowed, {})
    {
      assert keys[i..][1..] == keys[i + 1..];
      var key := TrimSpace(keys[i]);
      if key == "" {
        continue;
      }
      if key !in allowed {
        continue;
      }
      if key in seen {
        continue;
      }
      assert KnownOf(keys[i..], allowed, seen) == [key] + KnownOf(keys[i + 1..], allowed, seen + {key});
      seen := seen + {key};
      out := out + [key];
    }
  }

  /** What is kept is exactly what is known, non-blank and not kept before, and nothing twice. */
  lemma {:induction false} KnownExact(keys: seq<string>, allowed: set<string>, seen: set<string>)
    ensures var out := KnownOf(keys, allowed, seen);
            && (forall k :: k in out <==> k != "" && k in allowed && k !in seen && exists raw :: raw in keys && TrimSpace(raw) == k)
            && (forall i, j | 0 <= i < j < |out| :: out[i] != out[j])
  {
    hide TrimSpace;
    if keys != [] {
      var key := TrimSpace(keys[0]);
      assert keys == [keys[0]] + keys[1..];
      if key == "" || key !in allowed || key in seen {
        KnownExact(keys[1..], allowed, seen);
      } else {
        KnownExact(keys[1..], allowed, seen + {key});
      }
    }
  }

  function SkillRank(s: Skill): Rank {
    Rank(s.priority, s.createdAt, 0)
  }

  function WithKeys(skills: seq<Skill>, keys: seq<string>): seq<Skill> {
    if skills == [] then []
    else (if skills[0].key in keys then [skills[0]] else []) + WithKeys(skills[1..], keys)
  }

  function SelectSkills(skills: seq<Skill>, selected: seq<string>): seq<Skill> {
    if selected == [] then [] else StableSort(WithKeys(skills, selected), SkillRank)
  }

  method SelectSkillsForExecution(skills: seq<Skill>, selected: seq<string>) returns (out: seq<Skill>)
    ensures out == SelectSkills(skills, selected)
  {
    if |selected| == 0 {
      return [];
    }
    var want := set key | key in selected;
    out := [];
    for i := 0 to |skills|
      invariant out + WithKeys(skills[i..], selected) == WithKeys(skills, selected)
    {
      assert skills[i..][1..] == skills[i + 1..];
      if skills[i].key in want {
        out := out + [skills[i]];
      }
    }
    assert out == WithKeys(skills, selected);
    out := StableSort(out, SkillRank);
  }

  /** The skill is switched on and one of its tokens is in the payload. */
  predicate Applies(skill: Skill, payload: string) {
    skill.enabled && MatchedTokens(ToLower(payload), skill.matchContains) != []
  }

  function AppliesTo(payload: string): Skill -> bool {
    s => Applies(s, payload)
  }

  function Choose(skills: seq<Skill>, payload: string): Option<Skill> {
    FirstWhere(StableSort(skills, SkillRank), AppliesTo(payload))
  }

  method ChooseSkill(skills: seq<Skill>, payload: string) returns (r: Option<Skill>)
    ensures r == Choose(skills, payload)
  {
    hide MatchedTokens, StableSort, ToLower;
    if |skills| == 0 {
      NoneToChoose(payload);
      return None;
    }
    var normalized := ToLower(payload);
    var ordered := StableSort(skills, SkillRank);
    for i := 0 to |ordered|
      invariant FirstWhere(ordered[i..], AppliesTo(payload)) == FirstWhere(ordered, AppliesTo(payload))
    {
      assert ordered[i..][1..] == ordered[i + 1..];
      var sk := ordered[i];
      if !sk.enabled {
        continue;
      }
      var matched := MatchesAnyToken(normalized, sk.matchContains);
      if matched {
        return Some(sk);
      }
    }
    r := None;
  }

  lemma NoneToChoose(payload: string)
    ensures Choose([], payload) == None
  {
  }

  /** The chosen skill is the best that applies: lowest priority number, then oldest, then first listed. */
  lemma ChosenIsBest(skills: seq<Skill>, payload: string) returns (i: nat)
    ensures match Choose(skills, payload)
            case None => forall sk | sk in skills :: !Applies(sk, payload)
            case Some(x) => Best(skills, AppliesTo(payload), SkillRank, i) && x == skills[i] && Applies(x, payload)
  {
    i := FirstOfSorted(skills, AppliesTo(payload), SkillRank);
    hide Applies, StableSort, FirstWhere;
    if Choose(skills, payload).None? {
      forall sk | sk in skills
        ensures !Applies(sk, payload)
      {
        assert !AppliesTo(payload)(sk);
      }
    }
  }

  // ---- Candidates and choice together --------------------------------------

  lemma {:induction false} CandidatesExact(skills: seq<Skill>, payload: string, labelOf: string -> string, c: Candidate)
    ensures c in AllCandidates(skills, payload, labelOf) <==> c.skill in skills && CandidateOf(c.skill, payload, labelOf) == Some(c)
  {
    if skills != [] {
      assert skills == [skills[0]] + skills[1..];
      CandidatesExact(skills[1..], payload, labelOf, c);
      CandidateSkill(skills[0], payload, labelOf);
    }
    hide CandidateOf;
  }

  lemma CandidateSkill(skill: Skill, payload: string, labelOf: string -> string)
    ensures CandidateOf(skill, payload, labelOf).Some? ==> CandidateOf(skill, payload, labelOf).value.skill == skill
  {
    hide MatchedTokens, TrimSpace, Contains, EqualFold;
  }

  /**
   Ranking keeps every candidate as often as it occurs, and none comes after one that it beats:
   by score, then by priority number, then by age; candidates equal in all three keep their order.
   */
  lemma RankedExact(skills: seq<Skill>, payload: string, labelOf: string -> string, c: Candidate)
    ensures var ranked, all := RankSkills(skills, payload, labelOf), AllCandidates(skills, ToLower(TrimSpace(payload)), labelOf);
            && (c in ranked <==> c.skill in skills && CandidateOf(c.skill, ToLower(TrimSpace(payload)), labelOf) == Some(c))
            && multiset(ranked) == multiset(all)
            && (forall i, j | 0 <= i < j < |ranked| :: !Beats(ranked[j], ranked[i]))
            && (forall r :: OfRank(ranked, CandidateRank, r) == OfRank(all, CandidateRank, r))
  {
    var all, ranked := AllCandidates(skills, ToLower(TrimSpace(payload)), labelOf), RankSkills(skills, payload, labelOf);
    SortOrdered(all, CandidateRank);
    assert c in multiset(ranked) <==> c in multiset(all);
    CandidatesExact(skills, ToLower(TrimSpace(payload)), labelOf, c);
    assert c in multiset(ranked) <==> c in ranked;
    hide StableSort, AllCandidates, CandidateOf, TrimSpace, ToLower;
    forall i, j | 0 <= i < j < |ranked|
      ensures !Beats(ranked[j], ranked[i])
    {
      assert !Before(CandidateRank(ranked[j]), CandidateRank(ranked[i]));
    }
  }

  /** The first is the better candidate. */
  predicate Beats(x: Candidate, y: Candidate) {
    || x.score > y.score
    || (x.score == y.score && x.skill.priority < y.skill.priority)
    || (x.score == y.score && x.skill.priority == y.skill.priority && x.skill.createdAt < y.skill.createdAt)
  }

  lemma {:induction false} WithKeysExact(skills: seq<Skill>, keys: seq<string>, sk: Skill)
    ensures sk in WithKeys(skills, keys) <==> sk in skills && sk.key in keys
  {
    if skills != [] {
      assert skills == [skills[0]] + skills[1..];
      WithKeysExact(skills[1..], keys, sk);
    }
  }

  lemma {:induction false} NoKeys(skills: seq<Skill>)
    ensures WithKeys(skills, []) == []
  {
    if skills != [] {
      NoKeys(skills[1..]);
    }
  }

  /** Exactly the skills with a selected key, lowest priority number first, then oldest, then as listed. */
  lemma SelectedExact(skills: seq<Skill>, selected: seq<string>, sk: Skill)
    ensures var out := SelectSkills(skills, selected);
            && (sk in out <==> sk in skills && sk.key in selected)
            && Ordered(out, SkillRank) && multiset(out) == multiset(WithKeys(skills, selected))
            && forall r :: OfRank(out, SkillRank, r) == OfRank(WithKeys(skills, selected), SkillRank, r)
  {
    var kept := WithKeys(skills, selected);
    WithKeysExact(skills, selected, sk);
    NoKeys(skills);
    SortOrdered(kept, SkillRank);
    assert sk in multiset(kept) <==> sk in multiset(StableSort(kept, SkillRank));
    hide StableSort, WithKeys, OfRank;
  }

  /** A skill that applies to the payload is always a candidate, with tokens. */
  lemma AppliesIsCandidate(sk: Skill, payload: string, labelOf: string -> string)
    requires Applies(sk, payload)
    ensures var c := CandidateOf(sk, ToLower(TrimSpace(payload)), labelOf);
            c.Some? && c.value.skill == sk && c.value.tokens != []
  {
    TokensAgree(Split(sk.matchContains, ","), payload);
    hide TokensIn, Split, TrimSpace, ToLower, Contains, EqualFold;
  }
}
