/**
 What a transform template asks for and what comes out, and how hand-written paths are read
 (internal/service/transform.go:26-149); how field names are written into paths
 (internal/service/fingerprint.go:61-67).
 */
module TransformLaws {
  import opened Text
  import opened Json
  import opened Fingerprint
  import opened JsonPath
  import opened Learning
  import opened Stages

  // ---- Field names in paths ------------------------------------------------

  /** A name is written character by character, with underscores for what paths are made of; a blank one is an underscore. */
  lemma SanitizedIs(k: string)
    ensures k == "" ==> SanitizeKey(k) == "_"
    ensures k != "" ==> |SanitizeKey(k)| == |k|
    ensures forall i | 0 <= i < |k| ::
              SanitizeKey(k)[i] == if k[i] in {' ', '-', '/', '.'} then '_' else k[i]
  {
  }

  /** A shape tells the kind of a value and nothing more. */
  lemma ShapesTellKinds(v: Json, w: Json)
    ensures ShapeName(v) == ShapeName(w) <==>
              && v.JNull? == w.JNull? && v.JBool? == w.JBool? && v.JNumber? == w.JNumber?
              && v.JString? == w.JString? && v.JArray? == w.JArray? && v.JObject? == w.JObject?
    ensures ShapeName(v) == "number" <==> v.JNumber?
  {
  }

  // ---- Hand-written paths --------------------------------------------------

  /** A path is rooted in a dollar sign, which alone stands for the whole payload. */
  lemma RootedPaths(v: Json, path: string)
    ensures TrimSpace(path) == "$" ==> PathGet(v, path) == Some(v)
    ensures !("$" <= TrimSpace(path)) ==> PathGet(v, path) == None
  {
    hide TrimSpace, Split, Follow;
  }

  /** Outer space is of no account. */
  lemma PaddedPath(v: Json, path: string)
    ensures PathGet(v, path) == PathGet(v, TrimSpace(path))
  {
    TrimSpaceIdempotent(path);
    hide TrimSpace, Split, Follow;
  }

  /** Dotted names are followed one by one; an empty one stays where it is. */
  lemma DottedPath(v: Json, path: string, parts: seq<string>)
    requires |parts| > 0 && (forall p | p in parts :: '.' !in p) && TrimSpace(path) == "$." + Join(parts, ".")
    ensures PathGet(v, path) == Follow(v, parts)
  {
    SplitJoin(parts, '.');
    Cut("$.", Join(parts, "."));
    var trimmed := TrimSpace(path);
    assert trimmed[0] == '$' && trimmed != "$" && "$" <= trimmed && "$." <= trimmed;
    hide TrimSpace, Split, Follow, Join;
  }

  lemma FollowNames(v: Json, name: string, parts: seq<string>)
    requires '[' !in name
    ensures Follow(v, [name] + parts) ==
            if name == "" then Follow(v, parts)
            else if v.JObject? && name in v.fields then Follow(v.fields[name], parts) else None
  {
    assert ([name] + parts)[1..] == parts;
    NoIndexOfChar(name, '[');
    hide Index, Atoi;
  }

  /** A numeral is one or more digits, after a sign or not, and nothing else. */
  lemma NumeralRead(s: string)
    ensures var signed := s != "" && s[0] in {'+', '-'};
            var digits := if signed then s[1..] else s;
            && (Atoi(s).Some? <==> digits != "" && forall c | c in digits :: '0' <= c <= '9')
            && (Atoi(s).Some? ==> Atoi(digits).Some? && Atoi(s).value == if s[0] == '-' then -Atoi(digits).value else Atoi(digits).value)
  {
    var signed := s != "" && s[0] in {'+', '-'};
    var digits := if signed then s[1..] else s;
    hide DigitsValue;
    if digits != "" {
      assert digits[0] in digits;
      if forall c | c in digits :: '0' <= c <= '9' {
        assert IsDigit(digits[0]);
        assert Atoi(digits) == Some(DigitsValue(digits));
      } else {
        var c :| c in digits && !('0' <= c <= '9');
        assert !IsDigit(c);
      }
    }
  }

  lemma IndexText(name: string, idx: string)
    requires '[' !in name
    ensures var part := name + "[" + idx + "]";
            && Indexed(part) && Index(part, "[") == |name|
            && part[..|name|] == name && part[|name| + 1..|part| - 1] == idx
  {
    var part := name + "[" + idx + "]";
    Assoc(name + "[", idx, "]");
    Assoc(name, "[", idx + "]");
    IndexOfChar(name, '[', idx + "]");
    hide Index;
    assert part == name + ("[" + (idx + "]"));
    assert part[|part| - 1] == ']' && part[|name| + 1..|part| - 1] == idx;
  }

  /** A name with an index, or an index alone, leads to that item of the named array if it has one. */
  lemma FollowIndex(v: Json, name: string, idx: string)
    requires '[' !in name
    ensures var arr, i := if name == "" then Some(v) else Child(v, Key(name)), Atoi(idx);
            FollowPart(v, name + "[" + idx + "]") ==
            if arr.Some? && arr.value.JArray? && i.Some? && 0 <= i.value < |arr.value.items| then Some(arr.value.items[i.value]) else None
  {
    IndexText(name, idx);
    hide Index, Atoi, Indexed;
  }

  // ---- Templates -----------------------------------------------------------

  /** Every constant comes out; besides, every extracted name that was found, and as null the others unless nulls are dropped. */
  lemma SpecApplied(src: Json, spec: DslSpec)
    ensures var out := ApplySpec(src, spec);
            && (forall k | k in spec.constants :: k in out && out[k] == spec.constants[k])
            && (forall k | k in out :: k in spec.constants || k in spec.extract)
            && (forall k | k in spec.extract && k !in spec.constants ::
                  var found := PathGet(src, spec.extract[k]);
                  && (k in out <==> found.Some? || !spec.dropNull)
                  && (k in out ==> out[k] == if found.Some? then found.value else JNull))
  {
    hide PathGet;
  }

  predicate TextOrNull(v: Json) {
    v.JString? || v.JNull?
  }

  /** The members a template may have, with the types they must have where they are not null. */
  predicate GoodTemplate(template: map<string, Json>) {
    && ("extract" in template && !template["extract"].JNull? ==>
          template["extract"].JObject? && forall k | k in template["extract"].fields :: TextOrNull(template["extract"].fields[k]))
    && ("constants" in template && !template["constants"].JNull? ==> template["constants"].JObject?)
    && ("drop_null" in template && !template["drop_null"].JNull? ==> template["drop_null"].JBool?)
  }

  /** A template is refused for a wrong type and nothing else; a null path counts as an empty one. */
  lemma TemplateRead(template: map<string, Json>)
    ensures SpecOf(template).Some? <==> GoodTemplate(template)
    ensures SpecOf(template).Some? ==>
              var spec := SpecOf(template).value;
              && (spec.dropNull <==> "drop_null" in template && template["drop_null"] == JBool(true))
              && (spec.constants == if "constants" in template && template["constants"].JObject? then template["constants"].fields else map[])
              && (if "extract" in template && template["extract"].JObject? then
                    && spec.extract.Keys == template["extract"].fields.Keys
                    && forall k | k in spec.extract ::
                         JString(spec.extract[k]) == template["extract"].fields[k]
                         || (template["extract"].fields[k] == JNull && spec.extract[k] == "")
                  else spec.extract == map[])
  {
  }

  /** The engine is chosen by its name in any case and spacing; one that is not known fails. */
  lemma EngineChosen(tr: Transform, payload: Json, wasm: (Transform, Json) -> Option<Json>)
    ensures var engine, out := ToLower(TrimSpace(tr.engine)), Transformed(tr, payload, wasm);
            && (engine == "wasm" ==> out == wasm(tr, payload))
            && (engine != "wasm" && engine != "dsl" ==> out == None)
            && (engine == "dsl" && tr.template == map[] ==> out == Some(payload))
            && (engine == "dsl" && tr.template != map[] ==>
                  && (out.Some? <==> GoodTemplate(tr.template))
                  && (out.Some? ==> out == Some(JObject(ApplySpec(payload, SpecOf(tr.template).value)))))
  {
    TemplateRead(tr.template);
    hide TrimSpace, ToLower, SpecOf, GoodTemplate, ApplySpec;
  }
}
