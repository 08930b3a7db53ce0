/**
 What makes a skill a candidate, and how candidates score (internal/service/routing.go:87-142,
 internal/service/actions.go:822-857), counted over the pieces of the skill's match text.
 */
module RoutingLaws {
  import opened Text
  import opened Routing

  /** This piece of a match text, trimmed and in lower case, is in the payload. */
  ghost predicate Hit(piece: string, payload: string) {
    var token := TrimSpace(ToLower(piece));
    token != "" && Occurs(payload, token)
  }

  ghost function Hits(pieces: seq<string>, payload: string): set<nat> {
    set k: nat | k < |pieces| && Hit(pieces[k], payload)
  }

  lemma {:induction false} TokensAppend(a: seq<string>, piece: string, payload: string)
    ensures var token := TrimSpace(ToLower(piece));
            TokensIn(a + [piece], payload) ==
            TokensIn(a, payload) + if token != "" && Contains(payload, token) then [token] else []
  {
    hide TrimSpace, Contains, ToLower;
    if a == [] {
      assert [piece][1..] == [] && [] + [piece] == [piece];
    } else {
      assert (a + [piece])[0] == a[0] && (a + [piece])[1..] == a[1..] + [piece];
      TokensAppend(a[1..], piece, payload);
    }
  }

  lemma HitsGrow(init: seq<string>, last: string, payload: string)
    ensures Hits(init + [last], payload) == Hits(init, payload) + if Hit(last, payload) then {|init|} else {}
    ensures |Hits(init + [last], payload)| == |Hits(init, payload)| + if Hit(last, payload) then 1 else 0
  {
    hide Hit;
    var pieces := init + [last];
    assert forall k: nat | k < |init| :: pieces[k] == init[k];
    assert Hits(pieces, payload) == Hits(init, payload) + if Hit(last, payload) then {|init|} else {};
  }

  /** The tokens are as many as the pieces that hit, a repeated one included. */
  lemma {:induction false} TokensCounted(pieces: seq<string>, payload: string)
    ensures |TokensIn(pieces, payload)| == |Hits(pieces, payload)|
  {
    if pieces == [] {
      assert Hits(pieces, payload) == {};
    } else {
      var init, last := pieces[..|pieces| - 1], pieces[|pieces| - 1];
      assert pieces == init + [last];
      hide TrimSpace, Contains, ToLower, Occurs, Hits, TokensIn;
      TokensCounted(init, payload);
      TokensAppend(init, last, payload);
      OccursContains(payload, TrimSpace(ToLower(last)));
      HitsGrow(init, last, payload);
    }
  }

  /** And they are those pieces, trimmed and in lower case. */
  lemma {:induction false} TokensAre(pieces: seq<string>, payload: string, token: string)
    ensures token in TokensIn(pieces, payload) <==> exists piece :: piece in pieces && Hit(piece, payload) && TrimSpace(ToLower(piece)) == token
  {
    hide TrimSpace, Contains, ToLower, Occurs;
    if pieces != [] {
      assert pieces == [pieces[0]] + pieces[1..];
      TokensAre(pieces[1..], payload, token);
      OccursContains(payload, TrimSpace(ToLower(pieces[0])));
    }
  }

  /** The positions of a skill's match text that hit the payload. */
  ghost function HitsOf(skill: Skill, payload: string): set<nat> {
    Hits(Split(skill.matchContains, ","), payload)
  }

  predicate SpamSkill(skill: Skill) {
    Contains(ToLower(skill.key), "spam")
  }

  /**
   A skill is a candidate unless it is switched off or has a match text of which nothing hits.
   It scores ten for each hit, three for a forced action, two for a prompt and twenty for a spam
   skill on spam; its action is locked if it forces one other than storing.
   */
  lemma CandidateExact(skill: Skill, payload: string, labelOf: string -> string)
    ensures CandidateOf(skill, payload, labelOf).None? <==>
              !skill.enabled || (TrimSpace(skill.matchContains) != "" && HitsOf(skill, payload) == {})
    ensures CandidateOf(skill, payload, labelOf).Some? ==>
              var c := CandidateOf(skill, payload, labelOf).value;
              && c.skill == skill && |c.tokens| == |HitsOf(skill, payload)|
              && c.score == 10 * |HitsOf(skill, payload)|
                            + (if TrimSpace(skill.forcedAction) == "" then 0 else 3)
                            + (if TrimSpace(skill.prompt) == "" then 0 else 2)
                            + (if labelOf(payload) == "spam" && SpamSkill(skill) then 20 else 0)
              && (c.hardLock <==> TrimSpace(skill.forcedAction) != "" && ToLower(TrimSpace(skill.forcedAction)) != "store_mysql")
  {
    TokensCounted(Split(skill.matchContains, ","), payload);
    assert HitsOf(skill, payload) == {} <==> |HitsOf(skill, payload)| == 0;
    assert ToLower("store_mysql") == "store_mysql";
    hide TrimSpace, Contains, ToLower, Split, Hits, TokensIn;
  }

  /** A skill applies if and only if it is switched on and some piece hits. */
  lemma AppliesExact(skill: Skill, payload: string)
    ensures Applies(skill, payload) <==> skill.enabled && HitsOf(skill, ToLower(payload)) != {}
  {
    TokensCounted(Split(skill.matchContains, ","), ToLower(payload));
    assert HitsOf(skill, ToLower(payload)) == {} <==> |HitsOf(skill, ToLower(payload))| == 0;
    hide ToLower, Split, Hits, TokensIn;
  }
}
