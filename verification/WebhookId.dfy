/**
 Mailbox names (internal/webhookid/webhookid.go): a public alias in normal form,
 a dot, and a trimmed secret; and the e-mail address built from them.
 */
module WebhookId {
  import opened Text

  predicate IsAliasChar(c: char) {
    'a' <= c <= 'z' || '0' <= c <= '9' || c == '-' || c == '_'
  }

  predicate IsEdgeMark(c: char) {
    c == '-' || c == '_'
  }

  predicate WritesDash(c: char) {
    !IsAliasChar(c) || c == '-'
  }

  /** What the filtering loop writes for one character. */
  function Written(c: char, lastDash: bool): string {
    if !WritesDash(c) then [c] else if lastDash then "" else "-"
  }

  /** What the filtering loop writes for the rest of the text. */
  function Collapse(s: string, lastDash: bool): string {
    if s == "" then "" else Written(s[0], lastDash) + Collapse(s[1..], WritesDash(s[0]))
  }

  function TrimMarksLeft(s: string): string {
    if s != "" && IsEdgeMark(s[0]) then TrimMarksLeft(s[1..]) else s
  }

  function TrimMarksRight(s: string): string {
    if s != "" && IsEdgeMark(s[|s| - 1]) then TrimMarksRight(s[..|s| - 1]) else s
  }

  function TrimMarks(s: string): string {
    TrimMarksRight(TrimMarksLeft(s))
  }

  function Alias(input: string): string {
    TrimMarks(Collapse(SpacesToDashes(ToLower(TrimSpace(input))), false))
  }

  method NormalizePublicAlias(input: string) returns (r: string)
    ensures r == Alias(input)
  {
    hide TrimMarks, ToLower, TrimSpace, SpacesToDashes;
    var alias := SpacesToDashes(ToLower(TrimSpace(input)));
    var b, lastDash := "", false;
    for i := 0 to |alias|
      invariant b + Collapse(alias[i..], lastDash) == Collapse(alias, false)
    {
      var c := alias[i];
      ghost var rest, sofar, ended := alias[i..], b, lastDash;
      if !IsAliasChar(c) {
        if !lastDash {
          b := b + "-";
          lastDash := true;
        }
      } else if c == '-' {
        if !lastDash {
          b := b + [c];
        }
        lastDash := true;
      } else {
        b := b + [c];
        lastDash := false;
      }
      assert rest[0] == c && rest[1..] == alias[i + 1..];
      assert b == sofar + Written(c, ended) && lastDash == WritesDash(c);
      Assoc(sofar, Written(c, ended), Collapse(rest[1..], lastDash));
    }
    assert alias[|alias|..] == "" && b + "" == b;
    r := TrimMarks(b);
  }

  /**
   The normal form, said without the algorithm: only a-z, 0-9, '-' and '_', no two
   dashes in a row, and neither mark at an end. In particular there is no '.'.
   */
  predicate AliasForm(s: string) {
    && (forall c | c in s :: IsAliasChar(c))
    && (forall i | 0 <= i < |s| - 1 :: !(s[i] == '-' && s[i + 1] == '-'))
    && (s != "" ==> !IsEdgeMark(s[0]) && !IsEdgeMark(s[|s| - 1]))
  }

  predicate SingleDashes(s: string, lastDash: bool) {
    && (forall c | c in s :: IsAliasChar(c))
    && (forall i | 0 <= i < |s| - 1 :: !(s[i] == '-' && s[i + 1] == '-'))
    && (lastDash && s != "" ==> s[0] != '-')
  }

  lemma {:induction false} CollapseForm(s: string, lastDash: bool)
    ensures SingleDashes(Collapse(s, lastDash), lastDash)
  {
    if s != "" {
      CollapseForm(s[1..], WritesDash(s[0]));
    }
  }

  lemma {:induction false} CollapseFixes(s: string, lastDash: bool)
    requires SingleDashes(s, lastDash)
    ensures Collapse(s, lastDash) == s
  {
    if s != "" {
      CollapseFixes(s[1..], s[0] == '-');
    }
  }

  lemma {:induction false} TrimMarksLeftForm(s: string)
    requires SingleDashes(s, false)
    ensures SingleDashes(TrimMarksLeft(s), false)
    ensures TrimMarksLeft(s) != "" ==> !IsEdgeMark(TrimMarksLeft(s)[0])
  {
    if s != "" && IsEdgeMark(s[0]) {
      TrimMarksLeftForm(s[1..]);
    }
  }

  lemma {:induction false} TrimMarksRightForm(s: string)
    requires SingleDashes(s, false) && (s != "" ==> !IsEdgeMark(s[0]))
    ensures AliasForm(TrimMarksRight(s))
  {
    if s != "" && IsEdgeMark(s[|s| - 1]) {
      TrimMarksRightForm(s[..|s| - 1]);
    }
  }

  lemma AliasReachesForm(input: string)
    ensures AliasForm(Alias(input))
  {
    var text := SpacesToDashes(ToLower(TrimSpace(input)));
    var mid := Collapse(text, false);
    CollapseForm(text, false);
    TrimMarksLeftForm(mid);
    TrimMarksRightForm(TrimMarksLeft(mid));
  }

  /** A normal form is lower-case and has no outer or inner spaces. */
  lemma FormIsPlain(s: string)
    requires AliasForm(s)
    ensures Trimmed(s) && ToLower(s) == s && SpacesToDashes(s) == s
  {
    if s != "" {
      assert s[0] in s && s[|s| - 1] in s;
    }
    forall i | 0 <= i < |s|
      ensures ToLower(s)[i] == s[i] && s[i] != ' '
    {
      assert s[i] in s;
    }
  }

  /** And no marks to trim. */
  lemma FormUnmarked(s: string)
    requires AliasForm(s)
    ensures TrimMarks(s) == s
  {
  }

  lemma AliasFormFixed(s: string)
    requires AliasForm(s)
    ensures Alias(s) == s
  {
    FormIsPlain(s);
    TrimSpaceFixes(s);
    CollapseFixes(s, false);
    FormUnmarked(s);
    hide TrimSpace, ToLower, SpacesToDashes, Collapse, TrimMarks, AliasForm;
  }

  /** Normalising always reaches the normal form, and the normal forms are its fixed points. */
  lemma AliasNormal(input: string)
    ensures AliasForm(Alias(input))
    ensures Alias(input) == input <==> AliasForm(input)
  {
    AliasReachesForm(input);
    if AliasForm(input) {
      AliasFormFixed(input);
    }
  }

  lemma AliasIdempotent(input: string)
    ensures Alias(Alias(input)) == Alias(input)
  {
    AliasNormal(input);
    AliasNormal(Alias(input));
  }

  lemma AliasHasNoDot(input: string)
    ensures '.' !in Alias(input) && '@' !in Alias(input)
    ensures forall c | c in Alias(input) :: !IsSpace(c) && LowerChar(c) == c
  {
    AliasNormal(input);
  }

  // ---- Local parts ---------------------------------------------------------

  function Secret(input: string): string {
    TrimSpace(input)
  }

  function BuildLocalPart(publicAlias: string, secret: string): string {
    Alias(publicAlias) + "." + Secret(secret)
  }

  function ParseLocalPart(localPart: string): Option<(string, string)> {
    var trimmed := TrimSpace(localPart);
    var idx := Index(trimmed, ".");
    if idx <= 0 || idx >= |trimmed| - 1 then None
    else Some((Alias(trimmed[..idx]), Secret(trimmed[idx + 1..])))
  }

  /** Parsing inverts building exactly when both normalised parts are non-empty. */
  lemma ParseBuildLocalPart(publicAlias: string, secret: string)
    ensures ParseLocalPart(BuildLocalPart(publicAlias, secret)) ==
            if Alias(publicAlias) != "" && Secret(secret) != ""
            then Some((Alias(publicAlias), Secret(secret))) else None
  {
    var a, s := Alias(publicAlias), Secret(secret);
    var lp := BuildLocalPart(publicAlias, secret);
    AliasHasNoDot(publicAlias);
    AliasIdempotent(publicAlias);
    TrimSpaceIsTrimmed(secret);
    TrimSpaceIdempotent(secret);
    assert lp[0] == if a == "" then '.' else a[0];
    assert lp[|lp| - 1] == if s == "" then '.' else s[|s| - 1];
    TrimSpaceFixes(lp);
    IndexOfChar(a, '.', s);
    assert lp[..|a|] == a && lp[|a| + 1..] == s;
  }

  /** Distinct normalised pairs never share a mailbox name, empty parts included. */
  lemma BuildLocalPartInjective(a1: string, s1: string, a2: string, s2: string)
    requires BuildLocalPart(a1, s1) == BuildLocalPart(a2, s2)
    ensures Alias(a1) == Alias(a2) && Secret(s1) == Secret(s2)
  {
    AliasHasNoDot(a1);
    AliasHasNoDot(a2);
    IndexOfChar(Alias(a1), '.', Secret(s1));
    IndexOfChar(Alias(a2), '.', Secret(s2));
    var lp := BuildLocalPart(a1, s1);
    assert lp[..|Alias(a1)|] == Alias(a1) && lp[|Alias(a1)| + 1..] == Secret(s1);
    assert lp[..|Alias(a2)|] == Alias(a2) && lp[|Alias(a2)| + 1..] == Secret(s2);
  }

  // ---- Addresses -----------------------------------------------------------

  function Host(domain: string): string {
    TrimSpace(ToLower(domain))
  }

  function BuildEmailAddress(publicAlias: string, secret: string, domain: string): string {
    BuildLocalPart(publicAlias, secret) + "@" + Host(domain)
  }

  function ParseEmailAddress(address: string): Option<(string, string, string)> {
    var trimmed := TrimSpace(ToLower(address));
    var at := Index(trimmed, "@");
    if at < 0 || at == 0 || at == |trimmed| - 1 then None
    else match ParseLocalPart(trimmed[..at])
      case None => None
      case Some(pair) => Some((pair.0, pair.1, trimmed[at + 1..]))
  }

  lemma LowerFixes(s: string)
    requires forall c | c in s :: LowerChar(c) == c
    ensures ToLower(s) == s
  {
    forall i | 0 <= i < |s|
      ensures ToLower(s)[i] == s[i]
    {
      assert s[i] in s;
    }
  }

  lemma HostIsLower(domain: string)
    ensures ToLower(Host(domain)) == Host(domain)
  {
    var low, h := ToLower(domain), Host(domain);
    var lead, tail := TrimSpaceSplits(low);
    hide TrimSpace;
    forall c | c in h
      ensures LowerChar(c) == c
    {
      var i :| 0 <= i < |h| && h[i] == c;
      assert low[|lead| + i] == c;
    }
    LowerFixes(h);
  }

  /** The address as it is read: only the secret and the domain have letters to lower. */
  lemma BuiltAddressShape(publicAlias: string, secret: string, domain: string)
    requires Host(domain) != ""
    ensures TrimSpace(ToLower(BuildEmailAddress(publicAlias, secret, domain)))
         == Alias(publicAlias) + "." + ToLower(Secret(secret)) + "@" + Host(domain)
  {
    var a, s, h := Alias(publicAlias), Secret(secret), Host(domain);
    AliasHasNoDot(publicAlias);
    LowerFixes(a);
    HostIsLower(domain);
    ToLowerConcat(a + "." + s, "@" + h);
    ToLowerConcat(a + ".", s);
    ToLowerConcat(a, ".");
    ToLowerConcat("@", h);
    LowerFixes(".");
    LowerFixes("@");
    var low := a + "." + ToLower(s) + "@" + h;
    assert (a + "." + s) + ("@" + h) == BuildEmailAddress(publicAlias, secret, domain);
    assert (a + "." + ToLower(s)) + ("@" + h) == low;
    TrimSpaceIsTrimmed(ToLower(domain));
    assert low[0] == if a == "" then '.' else a[0];
    assert low[|low| - 1] == h[|h| - 1];
    TrimSpaceFixes(low);
  }

  /**
   An address parses back to its alias, lower-cased secret and domain exactly when the
   three normalised parts are non-empty and the secret holds no '@'.
   */
  lemma ParseBuildEmailAddress(publicAlias: string, secret: string, domain: string)
    ensures ParseEmailAddress(BuildEmailAddress(publicAlias, secret, domain))
         == Some((Alias(publicAlias), ToLower(Secret(secret)), Host(domain)))
       <==> Alias(publicAlias) != "" && Secret(secret) != "" && Host(domain) != "" && '@' !in Secret(secret)
  {
    if Host(domain) == "" {
      // A parsed host is never empty.
    } else if '@' !in Secret(secret) {
      ParseCleanAddress(publicAlias, secret, domain);
    } else {
      BuiltAddressShape(publicAlias, secret, domain);
      LowerKeepsAt(Secret(secret));
      CutInsideSecret(Alias(publicAlias), ToLower(Secret(secret)), Host(domain));
    }
  }

  lemma ParseCleanAddress(publicAlias: string, secret: string, domain: string)
    requires Host(domain) != "" && '@' !in Secret(secret)
    ensures ParseEmailAddress(BuildEmailAddress(publicAlias, secret, domain))
         == if Alias(publicAlias) != "" && Secret(secret) != ""
            then Some((Alias(publicAlias), ToLower(Secret(secret)), Host(domain))) else None
  {
    hide TrimSpace, ToLower, Alias, ParseLocalPart, Host;
    var a, s, h := Alias(publicAlias), ToLower(Secret(secret)), Host(domain);
    var local := a + "." + s;
    BuiltAddressShape(publicAlias, secret, domain);
    LowerKeepsAt(Secret(secret));
    AliasHasNoDot(publicAlias);
    CutAtSign(local, h);
    TrimSpaceIsTrimmed(secret);
    ToLowerKeepsTrimmed(Secret(secret));
    TrimSpaceFixes(s);
    AliasIdempotent(publicAlias);
    ParseBuildLocalPart(a, s);
    hide Index;
  }

  lemma CutAtSign(local: string, h: string)
    requires '@' !in local
    ensures var low := local + "@" + h;
            Index(low, "@") == |local| && low[..|local|] == local && low[|local| + 1..] == h
  {
    IndexOfChar(local, '@', h);
    Assoc(local, "@", h);
    Cut(local, "@" + h);
    Cut(local + "@", h);
  }

  /** With an '@' in the secret the cut falls early and the host that comes out is too long. */
  lemma CutInsideSecret(a: string, s: string, h: string)
    requires '@' in s
    ensures var low := a + "." + s + "@" + h;
            var at := Index(low, "@");
            0 <= at < |low| && |low[at + 1..]| > |h|
  {
    var low := a + "." + s + "@" + h;
    var k :| 0 <= k < |s| && s[k] == '@';
    var i := |a| + 1 + k;
    assert low[i] == '@';
    assert low[i..i + 1] == "@";
    IndexIsFirst(low, "@", i);
  }

  lemma LowerKeepsAt(s: string)
    ensures '@' in ToLower(s) <==> '@' in s
  {
    forall i | 0 <= i < |s|
      ensures ToLower(s)[i] == '@' <==> s[i] == '@'
    {
    }
  }
}
