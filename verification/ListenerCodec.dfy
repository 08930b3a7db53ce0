/**
 Listener type keys: the build and parse pair of internal/transport/http/listener_codec.go,
 and the second, independently written reader of the deployment mode in
 internal/service/actions.go.
 */
module ListenerCodec {
  import opened Text

  const PREFIX := "lis::"

  datatype ListenerRef = ListenerRef(provider: string, listenerId: string, deploymentMode: string)

  /** normalizeProvider and normalizeListenerID are the same function. */
  function Part(input: string): string {
    SpacesToDashes(ToLower(TrimSpace(input)))
  }

  function Mode(input: string): string {
    var m := ToLower(TrimSpace(input));
    if m == "enterprise" || m == "single_tenant" then "single_tenant" else "multitenant"
  }

  function BuildTypeKey(provider: string, listenerId: string, deploymentMode: string): string {
    PREFIX + Part(provider) + "::" + Part(listenerId) + "::" + Mode(deploymentMode)
  }

  function ParseTypeKey(typeKey: string): Option<ListenerRef> {
    var raw := TrimSpace(typeKey);
    if !HasPrefix(raw, PREFIX) then None
    else
      var parts := Split(TrimPrefix(raw, PREFIX), "::");
      if |parts| != 3 then None
      else
        var ref := ListenerRef(Part(parts[0]), Part(parts[1]), Mode(parts[2]));
        if ref.provider == "" || ref.listenerId == "" then None else Some(ref)
  }

  function DeploymentModeFromTypeKey(typeKey: string): string {
    var parts := Split(TrimSpace(typeKey), "::");
    if |parts| >= 4 && TrimSpace(ToLower(parts[|parts| - 1])) == "single_tenant"
    then "single_tenant" else "multitenant"
  }

  /** The separator cannot start inside x when x is followed by it. */
  predicate Clean(x: string) {
    !Contains(x + ":", "::")
  }

  lemma PartIdempotent(input: string)
    ensures Part(Part(input)) == Part(input)
    ensures |Part(input)| <= |input|
  {
    var x := Part(input);
    TrimSpaceIsTrimmed(input);
    ToLowerKeepsTrimmed(TrimSpace(input));
    TrimSpaceFixes(x);
    assert forall i | 0 <= i < |x| :: x[i] != ' ' && LowerChar(x[i]) == x[i];
    assert ToLower(x) == x;
  }

  lemma CleanSplits(x: string, rest: string)
    requires Clean(x)
    ensures Split(x + "::" + rest, "::") == [x] + Split(rest, "::")
  {
    var s := x + "::" + rest;
    assert s[|x|..|x| + 2] == "::";
    forall j: nat | j < |x|
      ensures !OccursAt(s, "::", j)
    {
      assert s[j..j + 2] == (x + ":")[j..j + 2];
      if OccursAt(x + ":", "::", j) {
        IndexIsFirst(x + ":", "::", j);
      }
    }
    IndexIs(s, "::", |x|);
    assert s[..|x|] == x && s[|x| + 2..] == rest;
  }

  /** Otherwise the first piece is a strictly shorter text than x. */
  lemma UncleanCutsShort(x: string, rest: string)
    requires !Clean(x)
    ensures |Split(x + "::" + rest, "::")[0]| < |x|
  {
    var s := x + "::" + rest;
    var j: nat := Index(x + ":", "::");
    assert s[j..j + 2] == (x + ":")[j..j + 2];
    IndexIsFirst(s, "::", j);
  }

  lemma ModeReadsBack(input: string)
    ensures Mode(input) == "single_tenant" || Mode(input) == "multitenant"
    ensures Mode(Mode(input)) == Mode(input)
    ensures Split(Mode(input), "::") == [Mode(input)]
    ensures TrimSpace(ToLower(Mode(input))) == Mode(input)
  {
    var m := Mode(input);
    assert ToLower(m) == m;
    TrimSpaceFixes(m);
    forall j: nat
      ensures !OccursAt(m, "::", j)
    {
      if j + 2 <= |m| {
        assert m[j..j + 2][0] == m[j] != ':';
      }
    }
    IndexNone(m, "::");
  }

  lemma BuiltKeyPieces(provider: string, listenerId: string, deploymentMode: string)
    ensures var p, l, m := Part(provider), Part(listenerId), Mode(deploymentMode);
            var key := BuildTypeKey(provider, listenerId, deploymentMode);
            TrimSpace(key) == key && HasPrefix(key, PREFIX)
            && TrimPrefix(key, PREFIX) == p + "::" + (l + "::" + m)
            && key == "lis" + "::" + (p + "::" + (l + "::" + m))
  {
    var key := BuildTypeKey(provider, listenerId, deploymentMode);
    var m := Mode(deploymentMode);
    assert key[0] == 'l' && key[|key| - 1] == m[|m| - 1] == 't';
    TrimSpaceFixes(key);
    assert key == PREFIX + (Part(provider) + "::" + (Part(listenerId) + "::" + m));
    assert PREFIX == "lis" + "::";
  }

  /** The key parses back to its normalised triple exactly under the stated condition. */
  lemma ParseBuildTypeKey(provider: string, listenerId: string, deploymentMode: string)
    ensures var p, l, m := Part(provider), Part(listenerId), Mode(deploymentMode);
            ParseTypeKey(BuildTypeKey(provider, listenerId, deploymentMode)) == Some(ListenerRef(p, l, m))
            <==> p != "" && l != "" && Clean(p) && Clean(l)
  {
    var p, l, m := Part(provider), Part(listenerId), Mode(deploymentMode);
    BuiltKeyPieces(provider, listenerId, deploymentMode);
    PartIdempotent(provider);
    PartIdempotent(listenerId);
    ModeReadsBack(deploymentMode);
    var parts := Split(p + "::" + (l + "::" + m), "::");
    PartIdempotent(parts[0]);
    if |parts| > 1 {
      PartIdempotent(parts[1]);
    }
    PiecesReadBack(p, l, m);
    hide Part, Mode, TrimSpace, Split, Contains, Clean, TrimPrefix;
  }

  /** The pieces of a built key are its three parts exactly when the first two are clean. */
  lemma PiecesReadBack(p: string, l: string, m: string)
    requires Split(m, "::") == [m]
    ensures var parts := Split(p + "::" + (l + "::" + m), "::");
            if Clean(p) && Clean(l) then parts == [p, l, m]
            else |parts[0]| < |p| || (|parts| > 1 && |parts[1]| < |l|)
  {
    if !Clean(p) {
      UncleanCutsShort(p, l + "::" + m);
    } else {
      CleanSplits(p, l + "::" + m);
      if !Clean(l) {
        UncleanCutsShort(l, m);
      } else {
        CleanSplits(l, m);
      }
    }
    hide Split, Clean;
  }

  /** Whenever the key round-trips, the second reader finds the same deployment mode. */
  lemma ModeReadersAgree(provider: string, listenerId: string, deploymentMode: string)
    requires var ref := ParseTypeKey(BuildTypeKey(provider, listenerId, deploymentMode));
             ref == Some(ListenerRef(Part(provider), Part(listenerId), Mode(deploymentMode)))
    ensures DeploymentModeFromTypeKey(BuildTypeKey(provider, listenerId, deploymentMode)) == Mode(deploymentMode)
  {
    ParseBuildTypeKey(provider, listenerId, deploymentMode);
    hide Part, Mode, TrimSpace, ToLower, Split, Clean, Contains;
    BuiltKeyPieces(provider, listenerId, deploymentMode);
    ModeReadsBack(deploymentMode);
    SplitBuiltKey(Part(provider), Part(listenerId), Mode(deploymentMode));
  }

  lemma SplitBuiltKey(p: string, l: string, m: string)
    requires Clean(p) && Clean(l) && Split(m, "::") == [m]
    ensures Split("lis" + "::" + (p + "::" + (l + "::" + m)), "::") == ["lis", p, l, m]
  {
    hide Split, Clean, Contains;
    PrefixIsClean();
    CleanSplits(l, m);
    CleanSplits(p, l + "::" + m);
    CleanSplits("lis", p + "::" + (l + "::" + m));
  }

  lemma PrefixIsClean()
    ensures Clean("lis")
  {
    forall j: nat
      ensures !OccursAt("lis:", "::", j)
    {
      if j + 2 <= 4 {
        assert "lis:"[j..j + 2][0] == "lis:"[j];
      }
    }
    assert "lis" + ":" == "lis:";
    IndexNone("lis:", "::");
  }
}
