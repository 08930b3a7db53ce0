/**
 Payload fingerprints (internal/service/fingerprint.go): every node of a decoded payload is
 printed as a path, with the name of its shape; the paths of object fields are also listed.
 */
module Fingerprint {
  import opened Text
  import opened Json

  // ---- Printing paths ------------------------------------------------------

  function SanitizeChar(c: char): char {
    if c == ' ' || c == '-' || c == '/' || c == '.' then '_' else c
  }

  function SanitizeKey(k: string): (r: string)
    ensures r != "" && '.' !in r && (k != "" ==> |r| == |k|)
    ensures '[' in r <==> '[' in k
  {
    if k == "" then "_"
    else
      var r := seq(|k|, i requires 0 <= i < |k| => SanitizeChar(k[i]));
      assert '[' in k ==> '[' in r by {
        if '[' in k {
          var i :| 0 <= i < |k| && k[i] == '[';
          assert r[i] == '[';
        }
      }
      r
  }

  function Show(step: Step): string {
    match step
    case Key(k) => "." + SanitizeKey(k)
    case Item(i) => "[" + Itoa(i) + "]"
  }

  function Print(steps: seq<Step>): string {
    if steps == [] then "" else Show(steps[0]) + Print(steps[1..])
  }

  function Path(steps: seq<Step>): string {
    "$" + Print(steps)
  }

  lemma {:induction false} PrintConcat(a: seq<Step>, b: seq<Step>)
    ensures Print(a + b) == Print(a) + Print(b)
  {
    if a == [] {
      assert a + b == b;
    } else {
      assert (a + b)[1..] == a[1..] + b;
      PrintConcat(a[1..], b);
    }
  }

  function ShapeName(v: Json): string {
    match v
    case JNull => "null"
    case JBool(_) => "bool"
    case JNumber(_) => "number"
    case JString(_) => "string"
    case JArray(_) => "array"
    case JObject(_) => "object"
  }

  // ---- Walking a payload ---------------------------------------------------

  datatype PayloadFingerprint = PayloadFingerprint(keyPaths: seq<string>, shapes: map<string, string>)

  /** steps lead from v to a node that a walk started at path prints as p with shape sh. */
  ghost predicate Lands(path: string, v: Json, steps: seq<Step>, p: string, sh: string) {
    At(v, steps).Some? && p == path + Print(steps) && sh == ShapeName(At(v, steps).value)
  }

  predicate EndsAtField(steps: seq<Step>) {
    steps != [] && steps[|steps| - 1].Key?
  }

  /** steps lead from v to an object field that is listed as p. */
  ghost predicate Lists(path: string, v: Json, steps: seq<Step>, p: string) {
    At(v, steps).Some? && p == path + Print(steps) && EndsAtField(steps)
  }

  /** What a walk has written so far. */
  datatype Marks = Marks(keys: seq<string>, shapes: map<string, string>)

  ghost predicate Grew(a: Marks, b: Marks) {
    a.shapes.Keys <= b.shapes.Keys && forall p | p in a.keys :: p in b.keys
  }

  /** Every node below v has its entries. */
  ghost predicate Complete(path: string, v: Json, m: Marks) {
    && (forall steps | At(v, steps).Some? :: path + Print(steps) in m.shapes)
    && (forall steps | At(v, steps).Some? && EndsAtField(steps) :: path + Print(steps) in m.keys)
  }

  /** Nothing was removed, and every new entry belongs to some node below v. */
  ghost predicate Sound(path: string, v: Json, a: Marks, b: Marks) {
    && Grew(a, b)
    && (forall p | p in b.shapes ::
          (p in a.shapes && b.shapes[p] == a.shapes[p]) || exists steps :: Lands(path, v, steps, p, b.shapes[p]))
    && (forall p | p in b.keys :: p in a.keys || exists steps :: Lists(path, v, steps, p))
  }

  lemma EnterSound(path: string, v: Json, m: Marks)
    ensures Sound(path, v, m, m.(shapes := m.shapes[path := ShapeName(v)]))
  {
    assert path + "" == path;
    assert Lands(path, v, [], path, ShapeName(v));
  }

  lemma ListFieldSound(path: string, v: Json, k: string, m: Marks)
    requires Child(v, Key(k)).Some?
    ensures Sound(path, v, m, m.(keys := m.keys + [path + Show(Key(k))]))
  {
    SingleStep(path, v, Key(k));
    assert Lists(path, v, [Key(k)], path + Show(Key(k)));
  }

  /** One round of the object loop. */
  lemma FieldStep(path: string, v: Json, k: string, start: Marks, before: Marks, after: Marks)
    requires Child(v, Key(k)).Some? && Sound(path, v, start, before)
    requires Sound(path + Show(Key(k)), Child(v, Key(k)).value,
                   before.(keys := before.keys + [path + Show(Key(k))]), after)
    ensures Sound(path, v, start, after)
    ensures Grew(before, after) && path + Show(Key(k)) in after.keys
  {
    var listed := before.(keys := before.keys + [path + Show(Key(k))]);
    ListFieldSound(path, v, k, before);
    SoundLifts(path, v, Key(k), listed, after);
    SoundTransitive(path, v, before, listed, after);
    SoundTransitive(path, v, start, before, after);
    assert path + Show(Key(k)) in listed.keys;
  }

  /** One round of the array loop. */
  lemma ItemStep(path: string, v: Json, i: nat, start: Marks, before: Marks, after: Marks)
    requires v.JArray? && i < |v.items| && Sound(path, v, start, before)
    requires Sound(path + Show(Item(i)), v.items[i], before, after)
    requires forall j: nat | j < i :: Complete(path + Show(Item(j)), v.items[j], before)
    ensures Sound(path, v, start, after) && Grew(before, after)
    ensures forall j: nat | j < i :: Complete(path + Show(Item(j)), v.items[j], after)
  {
    SoundLifts(path, v, Item(i), before, after);
    SoundTransitive(path, v, start, before, after);
    forall j: nat | j < i
      ensures Complete(path + Show(Item(j)), v.items[j], after)
    {
      CompleteStays(path + Show(Item(j)), v.items[j], before, after);
    }
  }

  lemma LandsAbove(path: string, v: Json, step: Step, p: string, sh: string, steps: seq<Step>)
    requires Child(v, step).Some? && Lands(path + Show(step), Child(v, step).value, steps, p, sh)
    ensures Lands(path, v, [step] + steps, p, sh)
  {
    StepDown(path, v, step, steps);
    hide Show, Print, Child;
  }

  lemma ListsAbove(path: string, v: Json, step: Step, p: string, steps: seq<Step>)
    requires Child(v, step).Some? && Lists(path + Show(step), Child(v, step).value, steps, p)
    ensures Lists(path, v, [step] + steps, p)
  {
    StepDown(path, v, step, steps);
    hide Show, Print, Child;
  }

  lemma SoundLifts(path: string, v: Json, step: Step, a: Marks, b: Marks)
    requires Child(v, step).Some?
    requires Sound(path + Show(step), Child(v, step).value, a, b)
    ensures Sound(path, v, a, b)
  {
    hide Lands, Lists, Show, Child;
    var down, w := path + Show(step), Child(v, step).value;
    forall p | p in b.shapes && !(p in a.shapes && b.shapes[p] == a.shapes[p])
      ensures exists steps :: Lands(path, v, steps, p, b.shapes[p])
    {
      var steps :| Lands(down, w, steps, p, b.shapes[p]);
      LandsAbove(path, v, step, p, b.shapes[p], steps);
    }
    forall p | p in b.keys && p !in a.keys
      ensures exists steps :: Lists(path, v, steps, p)
    {
      var steps :| Lists(down, w, steps, p);
      ListsAbove(path, v, step, p, steps);
    }
  }

  lemma SoundTransitive(path: string, v: Json, a: Marks, b: Marks, c: Marks)
    requires Sound(path, v, a, b) && Sound(path, v, b, c)
    ensures Sound(path, v, a, c)
  {
  }

  lemma CompleteStays(path: string, v: Json, a: Marks, b: Marks)
    requires Complete(path, v, a) && Grew(a, b)
    ensures Complete(path, v, b)
  {
  }

  lemma SingleStep(path: string, v: Json, step: Step)
    requires Child(v, step).Some?
    ensures At(v, [step]) == Child(v, step) && path + Print([step]) == path + Show(step)
  {
    assert [step][1..] == [];
    assert Print([step]) == Show(step) + "";
  }

  lemma StepDown(path: string, v: Json, step: Step, steps: seq<Step>)
    requires Child(v, step).Some?
    ensures At(v, [step] + steps) == At(Child(v, step).value, steps)
    ensures path + Print([step] + steps) == path + Show(step) + Print(steps)
  {
    assert ([step] + steps)[1..] == steps;
    assert path + (Show(step) + Print(steps)) == path + Show(step) + Print(steps);
  }

  lemma CompleteAbove(path: string, v: Json, m: Marks)
    requires path in m.shapes
    requires v.JObject? ==> forall k | k in v.fields :: path + Show(Key(k)) in m.keys
    requires v.JObject? ==> forall k | k in v.fields :: Complete(path + Show(Key(k)), v.fields[k], m)
    requires v.JArray? ==> forall i: nat | i < |v.items| :: Complete(path + Show(Item(i)), v.items[i], m)
    ensures Complete(path, v, m)
  {
    forall steps | At(v, steps).Some?
      ensures path + Print(steps) in m.shapes
      ensures EndsAtField(steps) ==> path + Print(steps) in m.keys
    {
      if steps == [] {
        assert path + "" == path;
      } else {
        var step, rest := steps[0], steps[1..];
        assert [step] + rest == steps;
        StepDown(path, v, step, rest);
        assert Complete(path + Show(step), Child(v, step).value, m);
        if rest == [] {
          SingleStep(path, v, step);
        }
      }
    }
  }

  /** What a fingerprint of v promises, whatever the iteration orders were. */
  ghost predicate FingerprintOf(v: Json, fp: PayloadFingerprint) {
    && Complete("$", v, Marks(fp.keyPaths, fp.shapes))
    && Sound("$", v, Marks([], map[]), Marks(fp.keyPaths, fp.shapes))
  }

  // ---- When paths are unambiguous ------------------------------------------

  /** Field names hold no '[' and stay distinct from their siblings when sanitised. */
  predicate TidyKeys(ks: set<string>) {
    && (forall k | k in ks :: '[' !in k)
    && (forall k, l | k in ks && l in ks && SanitizeKey(k) == SanitizeKey(l) :: k == l)
  }

  predicate Tidy(v: Json) {
    match v
    case JObject(fields) => TidyKeys(fields.Keys) && forall k | k in fields :: Tidy(fields[k])
    case JArray(items) => forall i | 0 <= i < |items| :: Tidy(items[i])
    case _ => true
  }

  predicate StartsStep(s: string) {
    s != "" ==> s[0] == '.' || s[0] == '['
  }

  lemma PrintStartsStep(steps: seq<Step>)
    ensures StartsStep(Print(steps))
    ensures Print(steps) == "" <==> steps == []
  {
  }

  /** A token without '.' and '[' ends where the next step starts. */
  lemma TokenEnds(a: string, ra: string, b: string, rb: string)
    requires a + ra == b + rb && StartsStep(ra) && StartsStep(rb)
    requires '.' !in a && '[' !in a && '.' !in b && '[' !in b
    ensures a == b && ra == rb
  {
    var s := a + ra;
    forall i | 0 <= i < |a|
      ensures s[i] != '.' && s[i] != '['
    {
      assert s[i] == a[i] && a[i] in a;
    }
    forall i | 0 <= i < |b|
      ensures s[i] != '.' && s[i] != '['
    {
      assert s[i] == b[i] && b[i] in b;
    }
    assert ra != "" ==> s[|a|] == ra[0];
    assert rb != "" ==> s[|b|] == rb[0];
    assert |a| == |b|;
    assert a == s[..|a|] && ra == s[|a|..];
  }

  /** Equal prints show the same kind of step first, and the same rest. */
  lemma ShowCancels(s1: Step, r1: string, s2: Step, r2: string)
    requires Show(s1) + r1 == Show(s2) + r2 && StartsStep(r1) && StartsStep(r2)
    requires (s1.Key? ==> '[' !in s1.k) && (s2.Key? ==> '[' !in s2.k)
    ensures r1 == r2 && s1.Key? == s2.Key?
    ensures if s1.Key? then SanitizeKey(s1.k) == SanitizeKey(s2.k) else s1 == s2
  {
    ShowRest(s1, r1);
    ShowRest(s2, r2);
    if s1.Key? {
      TokenEnds(SanitizeKey(s1.k), r1, SanitizeKey(s2.k), r2);
    } else {
      IndexCancels(s1.i, r1, s2.i, r2);
    }
  }

  lemma ShowRest(step: Step, r: string)
    ensures var t := Show(step) + r;
            if step.Key? then t[0] == '.' && t[1..] == SanitizeKey(step.k) + r
            else t[0] == '[' && t[1..] == Itoa(step.i) + "]" + r
  {
    hide SanitizeKey, Itoa;
    if step.Key? {
      Assoc(".", SanitizeKey(step.k), r);
      HeadTail('.', SanitizeKey(step.k) + r);
    } else {
      Assoc("[", Itoa(step.i), "]");
      Assoc("[", Itoa(step.i) + "]", r);
      HeadTail('[', Itoa(step.i) + "]" + r);
    }
  }

  /** A numeral ends where its bracket closes. */
  lemma NumeralEnds(i: nat, r: string)
    ensures var t := Itoa(i) + "]" + r;
            Index(t, "]") == |Itoa(i)| && t[..|Itoa(i)|] == Itoa(i) && t[|Itoa(i)| + 1..] == r
  {
    ItoaDigits(i);
    hide Itoa;
    IndexOfChar(Itoa(i), ']', r);
    hide Index;
    Cut(Itoa(i) + "]", r);
    Assoc(Itoa(i), "]", r);
    Cut(Itoa(i), "]" + r);
  }

  lemma IndexCancels(i1: nat, r1: string, i2: nat, r2: string)
    requires Itoa(i1) + "]" + r1 == Itoa(i2) + "]" + r2
    ensures i1 == i2 && r1 == r2
  {
    hide Itoa, Index;
    NumeralEnds(i1, r1);
    NumeralEnds(i2, r2);
    ItoaInjective(i1, i2);
  }

  /** In a tidy payload a printed path names one node only. */
  lemma {:induction false} PathsUnambiguous(v: Json, s1: seq<Step>, s2: seq<Step>)
    requires Tidy(v) && At(v, s1).Some? && At(v, s2).Some? && Print(s1) == Print(s2)
    ensures s1 == s2
    decreases |s1|
  {
    PrintStartsStep(s1);
    PrintStartsStep(s2);
    if s1 != [] {
      PrintStartsStep(s1[1..]);
      PrintStartsStep(s2[1..]);
      ShowCancels(s1[0], Print(s1[1..]), s2[0], Print(s2[1..]));
      PathsUnambiguous(Child(v, s1[0]).value, s1[1..], s2[1..]);
    }
  }

  /** The recorded shape of a path is the shape of the node it was printed for. */
  lemma ShapesExact(v: Json, fp: PayloadFingerprint, steps: seq<Step>)
    requires Tidy(v) && FingerprintOf(v, fp) && At(v, steps).Some?
    ensures Path(steps) in fp.shapes && fp.shapes[Path(steps)] == ShapeName(At(v, steps).value)
  {
    var p := Path(steps);
    var other :| Lands("$", v, other, p, fp.shapes[p]);
    assert Print(steps) == p[1..] && Print(other) == p[1..];
    PathsUnambiguous(v, steps, other);
  }

  /** All runs over a tidy payload agree, whatever order Go picks for its maps. */
  lemma FingerprintDeterministic(v: Json, fp1: PayloadFingerprint, fp2: PayloadFingerprint)
    requires Tidy(v) && FingerprintOf(v, fp1) && FingerprintOf(v, fp2)
    ensures fp1.shapes == fp2.shapes
    ensures forall k :: k in fp1.keyPaths <==> k in fp2.keyPaths
  {
    ShapesIncluded(v, fp1, fp2);
    ShapesIncluded(v, fp2, fp1);
    KeysIncluded(v, fp1, fp2);
    KeysIncluded(v, fp2, fp1);
  }

  lemma ShapesIncluded(v: Json, fp1: PayloadFingerprint, fp2: PayloadFingerprint)
    requires Tidy(v) && FingerprintOf(v, fp1) && FingerprintOf(v, fp2)
    ensures forall p | p in fp1.shapes :: p in fp2.shapes && fp2.shapes[p] == fp1.shapes[p]
  {
    forall p | p in fp1.shapes
      ensures p in fp2.shapes && fp2.shapes[p] == fp1.shapes[p]
    {
      var steps :| Lands("$", v, steps, p, fp1.shapes[p]);
      ShapesExact(v, fp2, steps);
    }
  }

  lemma KeysIncluded(v: Json, fp1: PayloadFingerprint, fp2: PayloadFingerprint)
    requires FingerprintOf(v, fp1) && FingerprintOf(v, fp2)
    ensures forall k | k in fp1.keyPaths :: k in fp2.keyPaths
  {
    forall k | k in fp1.keyPaths
      ensures k in fp2.keyPaths
    {
      var steps :| Lists("$", v, steps, k);
    }
  }
}
