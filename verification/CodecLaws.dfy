/**
 What the text codecs keep of any input, and how they read texts they did not build
 (internal/webhookid/webhookid.go, internal/transport/http/listener_codec.go).
 */
module CodecLaws {
  import opened Text
  import opened WebhookId
  import opened ListenerCodec

  // ---- Aliases -------------------------------------------------------------

  predicate IsWordChar(c: char) {
    'a' <= c <= 'z' || '0' <= c <= '9' || c == '_'
  }

  /** The maximal runs of word characters. */
  function Words(s: string): seq<string> {
    if s == "" then []
    else if !IsWordChar(s[0]) then Words(s[1..])
    else if |s| > 1 && IsWordChar(s[1]) then
      var rest := Words(s[1..]);
      if rest == [] then [[s[0]]] else [[s[0]] + rest[0]] + rest[1..]
    else [[s[0]]] + Words(s[1..])
  }

  predicate Marks(s: string) {
    forall c | c in s :: c == '-' || c == '_'
  }

  lemma {:induction false} CollapseKeepsWords(s: string, lastDash: bool)
    ensures Words(Collapse(s, lastDash)) == Words(s)
    ensures s != "" && IsWordChar(s[0]) ==> Collapse(s, lastDash) != "" && Collapse(s, lastDash)[0] == s[0]
    ensures (s == "" || !IsWordChar(s[0])) && Collapse(s, lastDash) != "" && !lastDash ==> !IsWordChar(Collapse(s, lastDash)[0])
    ensures lastDash && s != "" && !IsWordChar(s[0]) ==> Collapse(s, lastDash) == Collapse(s[1..], true)
  {
    if s != "" {
      var c, last := s[0], WritesDash(s[0]);
      CollapseKeepsWords(s[1..], last);
      var rest := Collapse(s[1..], last);
      if IsWordChar(c) {
        HeadTail(c, rest);
      } else if !lastDash {
        HeadTail('-', rest);
      } else {
        assert "" + rest == rest;
      }
    }
  }

  lemma {:induction false} TrimMarksSplits(s: string) returns (lead: string, tail: string)
    ensures s == lead + TrimMarks(s) + tail && Marks(lead) && Marks(tail)
  {
    lead := MarksLeft(s);
    tail := MarksRight(TrimMarksLeft(s));
  }

  lemma {:induction false} MarksLeft(s: string) returns (lead: string)
    ensures s == lead + TrimMarksLeft(s) && Marks(lead)
  {
    lead := "";
    if s != "" && IsEdgeMark(s[0]) {
      var rest := MarksLeft(s[1..]);
      lead := [s[0]] + rest;
    }
  }

  lemma {:induction false} MarksRight(s: string) returns (tail: string)
    ensures s == TrimMarksRight(s) + tail && Marks(tail)
  {
    tail := "";
    if s != "" && IsEdgeMark(s[|s| - 1]) {
      var rest := MarksRight(s[..|s| - 1]);
      tail := rest + [s[|s| - 1]];
    }
  }

  lemma {:induction false} DashesSeparate(s: string)
    ensures Words(SpacesToDashes(s)) == Words(s)
  {
    if s != "" {
      assert SpacesToDashes(s)[1..] == SpacesToDashes(s[1..]);
      DashesSeparate(s[1..]);
    }
  }

  /** An alias has the words of its input, in lower case and in order, but for marks at the two ends. */
  lemma AliasKeepsWords(input: string) returns (lead: string, tail: string)
    ensures Marks(lead) && Marks(tail)
    ensures Words(lead + Alias(input) + tail) == Words(ToLower(TrimSpace(input)))
  {
    var text := SpacesToDashes(ToLower(TrimSpace(input)));
    DashesSeparate(ToLower(TrimSpace(input)));
    CollapseKeepsWords(text, false);
    lead, tail := TrimMarksSplits(Collapse(text, false));
    hide TrimSpace, ToLower, SpacesToDashes, Words, Collapse, TrimMarks;
  }

  // ---- Reading names that were not built here ------------------------------

  /** A local part is cut at its first dot, and both sides must be there. */
  lemma LocalPartRead(text: string, front: string, back: string)
    requires TrimSpace(text) == front + "." + back && '.' !in front
    ensures ParseLocalPart(text) ==
            if front != "" && back != "" then Some((Alias(front), TrimSpace(back))) else None
  {
    hide TrimSpace, Alias;
    IndexOfChar(front, '.', back);
    Assoc(front, ".", back);
    Cut(front, "." + back);
    Cut(front + ".", back);
    hide Index;
  }

  lemma NoLocalPart(text: string)
    requires '.' !in TrimSpace(text)
    ensures ParseLocalPart(text) == None
  {
    NoIndexOfChar(TrimSpace(text), '.');
  }

  /** An address is lowered, trimmed and cut at its first at-sign. */
  lemma AddressRead(address: string, local: string, host: string)
    requires TrimSpace(ToLower(address)) == local + "@" + host && '@' !in local
    ensures ParseEmailAddress(address) ==
            match ParseLocalPart(local)
            case None => None
            case Some(pair) => if local != "" && host != "" then Some((pair.0, pair.1, host)) else None
  {
    hide TrimSpace, ToLower, ParseLocalPart;
    CutAtSign(local, host);
    hide Index;
  }

  lemma NoAddress(address: string)
    requires '@' !in TrimSpace(ToLower(address))
    ensures ParseEmailAddress(address) == None
  {
    NoIndexOfChar(TrimSpace(ToLower(address)), '@');
  }

  // ---- Listener keys -------------------------------------------------------

  /** A part is the trimmed input character by character, lowered, with dashes for spaces. */
  lemma PartIs(input: string)
    ensures var trimmed, part := TrimSpace(input), Part(input);
            && |part| == |trimmed|
            && forall i | 0 <= i < |trimmed| :: part[i] == if trimmed[i] == ' ' then '-' else LowerChar(trimmed[i])
  {
    hide TrimSpace;
  }

  /** Two names in any case stand for a single tenant, everything else for many. */
  lemma ModeIs(input: string)
    ensures Mode(input) in {"single_tenant", "multitenant"}
    ensures Mode(input) == "single_tenant" <==> ToLower(TrimSpace(input)) in {"single_tenant", "enterprise"}
  {
    hide TrimSpace, ToLower;
  }

  lemma ColonFree(x: string)
    requires ':' !in x
    ensures Clean(x) && Split(x, "::") == [x]
  {
    forall j: nat
      ensures !OccursAt(x + ":", "::", j) && !OccursAt(x, "::", j)
    {
      if j < |x| {
        assert (x + ":")[j] == x[j] && x[j] in x;
        if j + 2 <= |x| + 1 {
          assert (x + ":")[j..j + 2][0] == x[j];
        }
        if j + 2 <= |x| {
          assert x[j..j + 2][0] == x[j];
        }
      }
    }
    IndexNone(x + ":", "::");
    IndexNone(x, "::");
  }

  /** A text with the prefix and three parts without colons is read part by part; both names must be there. */
  lemma TypeKeyRead(text: string, p: string, l: string, m: string)
    requires TrimSpace(text) == "lis::" + (p + "::" + (l + "::" + m)) && ':' !in p && ':' !in l && ':' !in m
    ensures ParseTypeKey(text) ==
            if Part(p) != "" && Part(l) != "" then Some(ListenerRef(Part(p), Part(l), Mode(m))) else None
  {
    hide TrimSpace, Part, Mode;
    ColonFree(p);
    ColonFree(l);
    ColonFree(m);
    hide Split, Clean;
    Cut("lis::", p + "::" + (l + "::" + m));
    CleanSplits(p, l + "::" + m);
    CleanSplits(l, m);
  }

  lemma NoTypeKey(text: string)
    requires !("lis::" <= TrimSpace(text))
    ensures ParseTypeKey(text) == None
  {
  }
}
