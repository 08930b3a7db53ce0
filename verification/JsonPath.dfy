/**
 The path reader and the extraction language of internal/service/transform.go, and how far
 the reader inverts the path printer of the fingerprint.
 */
module JsonPath {
  import opened Text
  import opened Json
  import opened Fingerprint

  // ---- jsonPathGet ---------------------------------------------------------

  predicate Indexed(part: string) {
    part != "" && Contains(part, "[") && part[|part| - 1] == ']'
  }

  /** One dot-separated part: nothing, a field, or a field (or nothing) with one index. */
  function FollowPart(cur: Json, part: string): Option<Json> {
    if part == "" then Some(cur)
    else if Indexed(part) then
      var open := Index(part, "[");
      var left, idxRaw := part[..open], part[open + 1..|part| - 1];
      match (if left == "" then Some(cur) else Child(cur, Key(left)))
      case None => None
      case Some(arr) =>
        match Atoi(idxRaw)
        case None => None
        case Some(i) => if i < 0 then None else Child(arr, Item(i))
    else Child(cur, Key(part))
  }

  function Follow(cur: Json, parts: seq<string>): Option<Json> {
    if parts == [] then Some(cur)
    else match FollowPart(cur, parts[0])
      case None => None
      case Some(next) => Follow(next, parts[1..])
  }

  function PathGet(root: Json, path: string): Option<Json> {
    var trimmed := TrimSpace(path);
    if trimmed == "$" then Some(root)
    else if !HasPrefix(trimmed, "$") then None
    else Follow(root, Split(TrimPrefix(trimmed, "$."), "."))
  }

  /** One iteration of the loop over the parts. */
  method StepInto(start: Json, p: string) returns (r: Option<Json>)
    ensures r == FollowPart(start, p)
  {
    hide Index, Atoi;
    var cur := start;
    if p == "" {
      return Some(cur);
    }
    if Contains(p, "[") && p[|p| - 1] == ']' {
      var open := Index(p, "[");
      var left, idxRaw := p[..open], p[open + 1..|p| - 1];
      if left != "" {
        if !cur.JObject? || left !in cur.fields {
          return None;
        }
        cur := cur.fields[left];
      }
      if !cur.JArray? {
        return None;
      }
      var idx := Atoi(idxRaw);
      if idx.None? || idx.value < 0 || idx.value >= |cur.items| {
        return None;
      }
      return Some(cur.items[idx.value]);
    }
    if !cur.JObject? || p !in cur.fields {
      return None;
    }
    return Some(cur.fields[p]);
  }

  method JsonPathGet(root: Json, rawPath: string) returns (r: Option<Json>)
    ensures r == PathGet(root, rawPath)
  {
    var path := TrimSpace(rawPath);
    if path == "$" {
      return Some(root);
    }
    if !HasPrefix(path, "$") {
      return None;
    }
    var cur := root;
    var parts := Split(TrimPrefix(path, "$."), ".");
    hide TrimSpace, Split, Follow, FollowPart;
    FollowNothing(cur, parts);
    for i := 0 to |parts|
      invariant Follow(cur, parts[i..]) == Follow(root, parts)
    {
      FollowStep(cur, parts, i);
      var next := StepInto(cur, parts[i]);
      if next.None? {
        return None;
      }
      cur := next.value;
    }
    FollowNothing(cur, parts);
    r := Some(cur);
  }

  lemma FollowNothing(cur: Json, parts: seq<string>)
    ensures Follow(cur, parts[0..]) == Follow(cur, parts)
    ensures Follow(cur, parts[|parts|..]) == Some(cur)
  {
    assert parts[0..] == parts;
  }

  lemma FollowStep(cur: Json, parts: seq<string>, i: nat)
    requires i < |parts|
    ensures Follow(cur, parts[i..]) ==
            match FollowPart(cur, parts[i]) case None => None case Some(next) => Follow(next, parts[i + 1..])
  {
    assert parts[i..][0] == parts[i] && parts[i..][1..] == parts[i + 1..];
  }

  // ---- Printed paths as parts ----------------------------------------------

  /** How many index steps come first. */
  function ItemRun(steps: seq<Step>): (n: nat)
    ensures n <= |steps|
    ensures n < |steps| ==> steps[n].Key?
    ensures forall j | 0 <= j < n :: steps[j].Item?
  {
    if steps == [] || steps[0].Key? then 0 else 1 + ItemRun(steps[1..])
  }

  predicate Rooted(steps: seq<Step>) {
    steps != [] ==> steps[0].Key?
  }

  /** The text of a field step and the index steps after it. */
  function PartText(k: string, items: seq<Step>): string {
    SanitizeKey(k) + Print(items)
  }

  function PartsOf(steps: seq<Step>): seq<string>
    requires Rooted(steps)
  {
    if steps == [] then []
    else
      var n := ItemRun(steps[1..]);
      [PartText(steps[0].k, steps[1..n + 1])] + PartsOf(steps[n + 1..])
  }

  lemma {:induction false} PrintParts(steps: seq<Step>)
    requires Rooted(steps) && steps != []
    ensures Print(steps) == "." + Join(PartsOf(steps), ".")
    decreases |steps|
  {
    var k, n := steps[0].k, ItemRun(steps[1..]);
    var items, rest := steps[1..n + 1], steps[n + 1..];
    assert steps == [Key(k)] + (items + rest);
    PrintConcat([Key(k)], items + rest);
    PrintConcat(items, rest);
    assert Print([Key(k)]) == "." + SanitizeKey(k) + "" == "." + SanitizeKey(k) by {
      assert [Key(k)][1..] == [];
    }
    var part := PartText(k, items);
    assert Print(steps) == "." + (part + Print(rest)) by {
      Assoc("." + SanitizeKey(k), Print(items), Print(rest));
      Assoc(".", SanitizeKey(k), Print(items));
      Assoc(".", part, Print(rest));
    }
    if rest == [] {
      assert PartsOf(steps) == [part];
      assert part + "" == part;
    } else {
      PrintParts(rest);
      var parts := PartsOf(steps);
      assert parts[1..] == PartsOf(rest);
      Assoc(part, ".", Join(PartsOf(rest), "."));
    }
  }

  lemma {:induction false} PrintItemsShape(items: seq<Step>)
    requires forall s | s in items :: s.Item?
    ensures '.' !in Print(items)
    ensures items != [] ==> Print(items)[|Print(items)| - 1] == ']' && Print(items)[0] == '['
  {
    if items != [] {
      ItoaDigits(items[0].i);
      assert items[0] in items;
      PrintItemsShape(items[1..]);
    }
  }

  lemma PartTextShape(k: string, items: seq<Step>)
    requires forall s | s in items :: s.Item?
    ensures var part := PartText(k, items);
            part != "" && '.' !in part && (items != [] ==> part[|part| - 1] == ']')
  {
    PrintItemsShape(items);
  }

  /** TrimSpace reaches only the last part of a printed path. */
  function TrimLast(parts: seq<string>): seq<string>
    requires parts != []
  {
    parts[..|parts| - 1] + [TrimRight(parts[|parts| - 1])]
  }

  lemma PartsOfCons(steps: seq<Step>)
    requires Rooted(steps) && steps != []
    ensures var n := ItemRun(steps[1..]);
            && (forall s | s in steps[1..n + 1] :: s.Item?)
            && Rooted(steps[n + 1..])
            && PartsOf(steps) == [PartText(steps[0].k, steps[1..n + 1])] + PartsOf(steps[n + 1..])
  {
    var n := ItemRun(steps[1..]);
    forall s | s in steps[1..n + 1]
      ensures s.Item?
    {
      var j :| 0 <= j < n && steps[1..n + 1][j] == s;
      assert steps[1..][j] == s;
    }
    hide PartText;
  }

  lemma {:induction false} PartsHaveNoDot(steps: seq<Step>)
    requires Rooted(steps)
    ensures forall p | p in PartsOf(steps) :: p != "" && '.' !in p
    ensures steps != [] ==> PartsOf(steps) != []
    decreases |steps|
  {
    if steps != [] {
      PartsOfCons(steps);
      var k, n := steps[0].k, ItemRun(steps[1..]);
      PartTextShape(k, steps[1..n + 1]);
      PartsHaveNoDot(steps[n + 1..]);
      hide *;
      forall p | p in PartsOf(steps)
        ensures p != "" && '.' !in p
      {
        InCons(PartText(k, steps[1..n + 1]), PartsOf(steps[n + 1..]), p);
      }
    }
  }

  lemma {:induction false} TrimRightAppend(x: string, y: string)
    requires x != "" && !IsSpace(x[|x| - 1])
    ensures TrimRight(x + y) == x + TrimRight(y)
  {
    if y == "" {
      assert x + y == x;
    } else if IsSpace(y[|y| - 1]) {
      assert (x + y)[..|x + y| - 1] == x + y[..|y| - 1];
      TrimRightAppend(x, y[..|y| - 1]);
    } else {
      assert (x + y)[|x + y| - 1] == y[|y| - 1];
    }
  }

  lemma {:induction false} TrimJoin(x: string, parts: seq<string>)
    requires parts != [] && x != "" && !IsSpace(x[|x| - 1])
    ensures TrimRight(x + Join(parts, ".")) == x + Join(TrimLast(parts), ".")
    decreases |parts|
  {
    if |parts| == 1 {
      assert TrimLast(parts) == [TrimRight(parts[0])];
      TrimRightAppend(x, parts[0]);
    } else {
      var y := x + parts[0] + ".";
      var rest := parts[1..];
      TrimJoin(y, rest);
      var cut := TrimLast(parts);
      assert cut[0] == parts[0] && cut[1..] == TrimLast(rest);
      assert x + Join(parts, ".") == y + Join(rest, ".") by {
        JoinAssoc(x, parts[0], Join(rest, "."));
      }
      assert x + Join(cut, ".") == y + Join(TrimLast(rest), ".") by {
        JoinAssoc(x, parts[0], Join(TrimLast(rest), "."));
      }
    }
  }

  lemma JoinAssoc(x: string, p: string, r: string)
    ensures x + (p + "." + r) == x + p + "." + r
  {
  }

  lemma SplitTrimmed(parts: seq<string>)
    requires parts != [] && forall p | p in parts :: '.' !in p
    ensures Split(Join(TrimLast(parts), "."), ".") == TrimLast(parts)
  {
    var cut, last := TrimLast(parts), parts[|parts| - 1];
    assert last in parts;
    var tail := TrimRightSplits(last);
    forall p | p in cut
      ensures '.' !in p
    {
      var j :| 0 <= j < |cut| && cut[j] == p;
      if j < |parts| - 1 {
        assert p == parts[j] && parts[j] in parts;
      }
    }
    SplitJoin(cut, '.');
  }

  /** The parts of a printed path as they are read, the last one trimmed. */
  function CutParts(steps: seq<Step>): seq<string>
    requires Rooted(steps) && steps != []
  {
    PartsHaveNoDot(steps);
    TrimLast(PartsOf(steps))
  }

  lemma CutPartsUnfold(steps: seq<Step>, k: string, items: seq<Step>, rest: seq<Step>)
    requires Rooted(steps) && steps != [] && k == steps[0].k
    requires items == steps[1..ItemRun(steps[1..]) + 1] && rest == steps[ItemRun(steps[1..]) + 1..]
    ensures CutParts(steps) ==
            if rest == [] then [TrimRight(PartText(k, items))] else [PartText(k, items)] + CutParts(rest)
  {
    hide PartText, TrimRight;
    var parts := PartsOf(steps);
    assert parts == [PartText(k, items)] + PartsOf(rest);
    PartsHaveNoDot(rest);
  }

  /** Reading a printed path follows its parts, the last one trimmed. */
  lemma PathGetParts(root: Json, steps: seq<Step>)
    requires Rooted(steps) && steps != []
    ensures PathGet(root, Path(steps)) == Follow(root, CutParts(steps))
  {
    var parts := PartsOf(steps);
    PrintParts(steps);
    PartsHaveNoDot(steps);
    var path := Path(steps);
    var cut := Join(TrimLast(parts), ".");
    assert path == "$." + Join(parts, ".") by {
      Assoc("$", ".", Join(parts, "."));
    }
    assert path[0] == '$';
    assert TrimLeft(path) == path;
    TrimJoin("$.", parts);
    assert TrimSpace(path) == "$." + cut;
    Cut("$.", cut);
    assert ("$." + cut)[1] == '.';
    SplitTrimmed(parts);
  }

  // ---- Which printed paths read back ---------------------------------------

  /** A field whose text, followed by its indices, is read as that field and those indices. */
  predicate ReadablePart(k: string, items: seq<Step>, last: bool) {
    && SanitizeKey(k) == k
    && |items| <= 1
    && (items != [] ==> '[' !in k)
    && (items == [] ==> !Indexed(k) && (last ==> !IsSpace(k[|k| - 1])))
  }

  predicate ReadableParts(steps: seq<Step>)
    requires Rooted(steps)
  {
    steps != [] ==>
      var n := ItemRun(steps[1..]);
      && ReadablePart(steps[0].k, steps[1..n + 1], n + 1 == |steps|)
      && ReadableParts(steps[n + 1..])
  }

  /**
   The printed path starts with a field, no index directly follows another, every field is
   its own sanitised form, and no field hides its own brackets or ends the path in a space.
   */
  predicate Readable(steps: seq<Step>) {
    Rooted(steps) && ReadableParts(steps)
  }

  lemma IndexedPart(k: string, i: nat)
    requires '[' !in k
    ensures var part := PartText(k, [Item(i)]);
            Indexed(part) && Index(part, "[") == |SanitizeKey(k)|
            && part[..|SanitizeKey(k)|] == SanitizeKey(k)
            && part[|SanitizeKey(k)| + 1..|part| - 1] == Itoa(i)
  {
    var s, num := SanitizeKey(k), Itoa(i);
    PrintOneItem(i);
    hide SanitizeKey, Itoa;
    IndexOfChar(s, '[', num + "]");
    Bracketed(s, num);
  }

  lemma PrintOneItem(i: nat)
    ensures Print([Item(i)]) == "[" + Itoa(i) + "]"
  {
    assert [Item(i)][1..] == [];
    assert Print([]) == "";
  }

  lemma Bracketed(s: string, num: string)
    ensures var part := s + ("[" + num + "]");
            part == s + "[" + (num + "]") && part[|part| - 1] == ']'
            && part[..|s|] == s && part[|s| + 1..|part| - 1] == num
  {
  }

  lemma FollowReadablePart(cur: Json, k: string, items: seq<Step>)
    requires ReadablePart(k, items, false) && forall s | s in items :: s.Item?
    ensures FollowPart(cur, PartText(k, items)) == At(cur, [Key(k)] + items)
  {
    assert ([Key(k)] + items)[1..] == items;
    if items == [] {
      assert PartText(k, items) == k + "" == k;
    } else {
      assert items == [Item(items[0].i)];
      FollowIndexedPart(cur, k, items[0].i);
      hide *;
    }
  }

  lemma FollowIndexedPart(cur: Json, k: string, i: nat)
    requires ReadablePart(k, [Item(i)], false)
    ensures FollowPart(cur, PartText(k, [Item(i)])) == At(cur, [Key(k)] + [Item(i)])
  {
    TwoSteps(cur, Key(k), Item(i));
    IndexedPart(k, i);
    FollowBrackets(cur, PartText(k, [Item(i)]), k, i);
    hide PartText, Itoa, Indexed, At, Index, FollowPart, Child;
  }

  lemma FollowBrackets(cur: Json, part: string, left: string, i: nat)
    requires left != "" && Indexed(part) && Index(part, "[") == |left|
    requires part[..|left|] == left && part[|left| + 1..|part| - 1] == Itoa(i)
    ensures FollowPart(cur, part) == match Child(cur, Key(left)) case None => None case Some(v) => Child(v, Item(i))
  {
    AtoiItoa(i);
    hide Atoi, Itoa, Indexed, Index, Child;
  }

  lemma TwoSteps(cur: Json, a: Step, b: Step)
    ensures At(cur, [a] + [b]) == match Child(cur, a) case None => None case Some(v) => Child(v, b)
  {
    assert ([a] + [b])[1..] == [b] && [b][1..] == [];
    if Child(cur, a).Some? {
      assert At(cur, [a] + [b]) == At(Child(cur, a).value, [b]);
      var v := Child(cur, a).value;
      assert Child(v, b).Some? ==> At(Child(v, b).value, []) == Child(v, b);
    }
  }

  lemma {:induction false} FollowReadable(cur: Json, steps: seq<Step>)
    requires Readable(steps)
    ensures Follow(cur, PartsOf(steps)) == At(cur, steps)
    decreases |steps|
  {
    if steps != [] {
      var n := ItemRun(steps[1..]);
      var head, rest := [steps[0]] + steps[1..n + 1], steps[n + 1..];
      assert steps == head + rest;
      AtConcat(cur, head, rest);
      FollowReadablePart(cur, steps[0].k, steps[1..n + 1]);
      var parts := PartsOf(steps);
      assert parts[0] == PartText(steps[0].k, steps[1..n + 1]) && parts[1..] == PartsOf(rest);
      if At(cur, head).Some? {
        FollowReadable(At(cur, head).value, rest);
      }
    }
  }

  lemma {:induction false} ReadableLastTrimmed(steps: seq<Step>)
    requires Readable(steps) && steps != []
    ensures CutParts(steps) == PartsOf(steps)
    decreases |steps|
  {
    hide SanitizeKey, Itoa;
    var n := ItemRun(steps[1..]);
    var rest := steps[n + 1..];
    var parts := PartsOf(steps);
    assert parts[1..] == PartsOf(rest);
    if rest == [] {
      PartTextShape(steps[0].k, steps[1..n + 1]);
      if n == 0 {
        assert PartText(steps[0].k, steps[1..n + 1]) == steps[0].k + "";
      }
    } else {
      ReadableLastTrimmed(rest);
      assert parts[|parts| - 1] == PartsOf(rest)[|PartsOf(rest)| - 1];
    }
  }

  lemma ReadablePathReads(v: Json, steps: seq<Step>)
    requires Readable(steps)
    ensures PathGet(v, Path(steps)) == At(v, steps)
  {
    if steps == [] {
      assert Path(steps) == "$";
      TrimSpaceFixes("$");
    } else {
      PathGetParts(v, steps);
      ReadableLastTrimmed(steps);
      FollowReadable(v, steps);
    }
  }

  // ---- The other direction: the smallest payload with these steps ----------

  function Minimal(steps: seq<Step>): Json {
    if steps == [] then JNull
    else match steps[0]
      case Key(k) => JObject(map[k := Minimal(steps[1..])])
      case Item(i) => JArray(seq(i + 1, _ => Minimal(steps[1..])))
  }

  lemma {:induction false} MinimalAt(steps: seq<Step>)
    ensures At(Minimal(steps), steps) == Some(JNull)
  {
    if steps != [] {
      MinimalAt(steps[1..]);
    }
  }

  lemma {:induction false} MinimalPrefix(a: seq<Step>, b: seq<Step>)
    ensures At(Minimal(a + b), a) == Some(Minimal(b))
  {
    if a == [] {
      assert a + b == b;
    } else {
      assert (a + b)[1..] == a[1..] + b;
      MinimalPrefix(a[1..], b);
    }
  }

  /** Below a one-field object the text before the bracket must be that field. */
  lemma MissesByName(k: string, w: Json, part: string)
    requires Indexed(part) && part[..Index(part, "[")] != k
    ensures FollowPart(JObject(map[k := w]), part) == None
  {
    hide Index, Contains, Atoi;
  }

  lemma MissesByIndex(cur: Json, part: string)
    requires Indexed(part) && ']' in part[Index(part, "[") + 1..|part| - 1]
    ensures FollowPart(cur, part) == None
  {
    NotANumber(part[Index(part, "[") + 1..|part| - 1], ']');
    hide Index, Contains, Atoi;
  }

  lemma OpenBefore(part: string, j: nat)
    requires j < |part| && part[j] == '['
    ensures 0 <= Index(part, "[") <= j
  {
    assert part[j..j + 1] == "[";
    IndexIsFirst(part, "[", j);
  }

  lemma NotANumber(s: string, c: char)
    requires c in s && !IsDigit(c) && c != '+' && c != '-'
    ensures Atoi(s) == None
  {
    if s[0] == '+' || s[0] == '-' {
      assert s == [s[0]] + s[1..];
      assert c in s[1..];
    }
  }

  lemma UnreadableIndexed(k: string, items: seq<Step>, w: Json)
    requires items != [] && forall s | s in items :: s.Item?
    requires !ReadablePart(k, items, false)
    ensures FollowPart(JObject(map[k := w]), PartText(k, items)) == None
  {
    var part := PartText(k, items);
    IndexedText(k, items);
    if '[' in k {
      ShortNameMisses(k, w, part);
    } else {
      TwoIndices(k, items);
      hide PartText, Index, Indexed, FollowPart, BracketAfter;
      BracketMisses(k, w, SanitizeKey(k), part, |items| > 1);
    }
  }

  lemma ShortNameMisses(k: string, w: Json, part: string)
    requires Indexed(part) && Index(part, "[") < |k|
    ensures FollowPart(JObject(map[k := w]), part) == None
  {
    MissesByName(k, w, part);
  }

  lemma BracketMisses(k: string, w: Json, s: string, part: string, more: bool)
    requires Indexed(part) && BracketAfter(s, part, more) && (s != k || more)
    ensures FollowPart(JObject(map[k := w]), part) == None
  {
    if s != k {
      MissesByName(k, w, part);
    } else {
      MissesByIndex(JObject(map[k := w]), part);
    }
  }

  lemma IndexedText(k: string, items: seq<Step>)
    requires items != [] && forall s | s in items :: s.Item?
    ensures var part := PartText(k, items);
            Indexed(part) && ('[' in k ==> Index(part, "[") < |k|)
  {
    var s, part := SanitizeKey(k), PartText(k, items);
    PrintItemsShape(items);
    PartTextShape(k, items);
    assert part[|s|] == Print(items)[0];
    OpenBefore(part, |s|);
    if '[' in k {
      var j :| 0 <= j < |s| && s[j] == '[';
      assert part[j] == s[j];
      OpenBefore(part, j);
    }
  }

  /** The first bracket of part ends the name s; with more than one index the bracketed text holds a ']'. */
  predicate BracketAfter(s: string, part: string, more: bool) {
    && Index(part, "[") == |s| && |s| + 1 < |part| && part[..|s|] == s
    && (more ==> ']' in part[|s| + 1..|part| - 1])
  }

  lemma TwoIndices(k: string, items: seq<Step>)
    requires items != [] && '[' !in k && forall s | s in items :: s.Item?
    ensures BracketAfter(SanitizeKey(k), PartText(k, items), |items| > 1)
  {
    var rest := items[1..];
    assert items[0] in items;
    FirstItemText(k, items);
    MoreItems(items);
    hide Itoa, SanitizeKey, Print, PartText, Index, BracketAfter;
    TwoBrackets(SanitizeKey(k), Itoa(items[0].i), Print(rest));
  }

  lemma FirstItemText(k: string, items: seq<Step>)
    requires items != [] && items[0].Item?
    ensures PartText(k, items) == SanitizeKey(k) + ("[" + Itoa(items[0].i) + "]" + Print(items[1..]))
  {
  }

  lemma MoreItems(items: seq<Step>)
    requires items != [] && forall s | s in items :: s.Item?
    ensures |items| > 1 <==> Print(items[1..]) != ""
  {
    PrintStartsStep(items[1..]);
  }

  lemma TwoBrackets(s: string, num: string, tail: string)
    requires '[' !in s
    ensures BracketAfter(s, s + ("[" + num + "]" + tail), tail != "")
  {
    var more := num + "]" + tail;
    var part := s + "[" + more;
    IndexOfChar(s, '[', more);
    BracketRegroup(s, num, tail);
    Assoc(s, "[", more);
    Cut(s, "[" + more);
    if tail != "" {
      var inner := part[|s| + 1..|part| - 1];
      assert inner[|num|] == part[|s| + 1 + |num|] == more[|num|] == ']';
    }
  }

  lemma BracketRegroup(s: string, num: string, tail: string)
    ensures s + ("[" + num + "]" + tail) == s + "[" + (num + "]" + tail)
  {
    Assoc("[" + num, "]", tail);
    Assoc("[", num, "]" + tail);
    Assoc(num, "]", tail);
    Assoc(s, "[", num + "]" + tail);
  }

  lemma UnreadablePlain(k: string, w: Json)
    requires SanitizeKey(k) != k || Indexed(k)
    ensures FollowPart(JObject(map[k := w]), PartText(k, [])) == None
  {
    var s := SanitizeKey(k);
    assert PartText(k, []) == s + "" == s;
    if Indexed(s) {
      MissesByName(k, w, s);
    }
  }

  /** The last field is trimmed with the path, so it must not end in a space either. */
  lemma UnreadableLast(k: string)
    requires !ReadablePart(k, [], true)
    ensures FollowPart(JObject(map[k := JNull]), TrimRight(PartText(k, []))) != Some(JNull)
  {
    var s := SanitizeKey(k);
    assert PartText(k, []) == s + "" == s;
    TrimRightShortens(s);
    if k == "" {
      assert TrimRight("_") == "_";
    }
    hide TrimRight, FollowPart, PartText;
    OtherNameMisses(k, TrimRight(s));
  }

  lemma OtherNameMisses(k: string, part: string)
    requires if part == k then Indexed(part) else |part| <= |k| || part == "_"
    ensures FollowPart(JObject(map[k := JNull]), part) != Some(JNull)
  {
    if Indexed(part) {
      assert |part[..Index(part, "[")]| < |part|;
      MissesByName(k, JNull, part);
    }
  }

  lemma {:induction false} UnreadableFollow(steps: seq<Step>)
    requires Rooted(steps) && steps != [] && !ReadableParts(steps)
    ensures Follow(Minimal(steps), CutParts(steps)) != Some(JNull)
    decreases |steps|
  {
    var k, n := steps[0].k, ItemRun(steps[1..]);
    var items, rest := steps[1..n + 1], steps[n + 1..];
    CutPartsUnfold(steps, k, items, rest);
    ReadablePartsUnfold(steps, k, items, rest);
    UnreadableInner(steps, k, items, rest);
    hide PartText, TrimRight, FollowPart, ReadablePart, CutParts, ReadableParts, Minimal, PartsOf, SanitizeKey;
    if rest != [] {
      HeadTailPart(PartText(k, items), CutParts(rest));
      if ReadablePart(k, items, false) {
        UnreadableFollow(rest);
      }
    } else if items != [] {
      EndsReadable(k, items);
    } else {
      UnreadableLast(k);
      MinimalField(steps, k);
    }
  }

  lemma HeadTailPart(p: string, rest: seq<string>)
    ensures ([p] + rest)[0] == p && ([p] + rest)[1..] == rest
  {
  }

  lemma MinimalField(steps: seq<Step>, k: string)
    requires steps == [Key(k)] + [] + []
    ensures Minimal(steps) == JObject(map[k := JNull])
  {
    assert steps[1..] == [];
  }

  lemma ReadablePartsUnfold(steps: seq<Step>, k: string, items: seq<Step>, rest: seq<Step>)
    requires Rooted(steps) && steps != [] && k == steps[0].k
    requires items == steps[1..ItemRun(steps[1..]) + 1] && rest == steps[ItemRun(steps[1..]) + 1..]
    ensures ReadableParts(steps) <==> ReadablePart(k, items, rest == []) && ReadableParts(rest)
    ensures steps == [Key(k)] + items + rest && Rooted(rest) && forall s | s in items :: s.Item?
  {
  }

  lemma EndsReadable(k: string, items: seq<Step>)
    requires items != [] && forall s | s in items :: s.Item?
    ensures TrimRight(PartText(k, items)) == PartText(k, items)
    ensures ReadablePart(k, items, true) == ReadablePart(k, items, false)
  {
    PartTextShape(k, items);
  }

  /** A readable part leads on to the rest of the payload; any other leads nowhere. */
  lemma UnreadableInner(steps: seq<Step>, k: string, items: seq<Step>, rest: seq<Step>)
    requires steps == [Key(k)] + items + rest && forall s | s in items :: s.Item?
    ensures FollowPart(Minimal(steps), PartText(k, items)) ==
            if ReadablePart(k, items, false) then Some(Minimal(rest)) else None
  {
    var w := Minimal(steps[1..]);
    assert Minimal(steps) == JObject(map[k := w]);
    if ReadablePart(k, items, false) {
      FollowReadablePart(Minimal(steps), k, items);
      MinimalPrefix([Key(k)] + items, rest);
    } else if items != [] {
      UnreadableIndexed(k, items, w);
    } else {
      UnreadablePlain(k, w);
    }
  }

  /** Written as the parts of a field "$" above the root. */
  lemma UnrootedText(steps: seq<Step>)
    ensures Rooted([Key("$")] + steps)
    ensures Path(steps) == Join(PartsOf([Key("$")] + steps), ".")
  {
    var all := [Key("$")] + steps;
    assert all[1..] == steps;
    PrintParts(all);
    assert SanitizeKey("$") == "$";
    assert Print(all) == ("." + "$") + Print(steps);
    Assoc(".", "$", Print(steps));
    HeadTail('.', Path(steps));
    HeadTail('.', Join(PartsOf(all), "."));
  }

  lemma UnrootedTrimmed(steps: seq<Step>)
    ensures TrimRight(Path(steps)) == Join(CutParts([Key("$")] + steps), ".")
  {
    var all := [Key("$")] + steps;
    UnrootedText(steps);
    PartsHaveNoDot(all);
    TrimJoin(".", PartsOf(all));
    TrimRightAppend(".", Path(steps));
    HeadTail('.', TrimRight(Path(steps)));
    HeadTail('.', Join(CutParts(all), "."));
  }

  lemma UnrootedFirst(steps: seq<Step>)
    requires !Rooted(steps)
    ensures FollowPart(Minimal(steps), CutParts([Key("$")] + steps)[0]) == None
  {
    var all := [Key("$")] + steps;
    assert all[1..] == steps;
    var n := ItemRun(steps);
    var items, rest := all[1..n + 1], all[n + 1..];
    assert items[0] == steps[0];
    CutPartsUnfold(all, "$", items, rest);
    DollarPart(steps, items);
  }

  /** A path into a root array is read as a field named "$". */
  lemma UnrootedFollow(steps: seq<Step>)
    requires !Rooted(steps)
    ensures PathGet(Minimal(steps), Path(steps)) == None
  {
    var all := [Key("$")] + steps;
    UnrootedTrimmed(steps);
    UnrootedTrim(steps);
    PartsHaveNoDot(all);
    SplitTrimmed(PartsOf(all));
    UnrootedFirst(steps);
    hide Path, Minimal, TrimRight, TrimSpace, FollowPart, PartsOf, Split, Join;
  }

  lemma DollarPart(steps: seq<Step>, items: seq<Step>)
    requires steps != [] && steps[0].Item? && items != [] && forall s | s in items :: s.Item?
    ensures FollowPart(Minimal(steps), PartText("$", items)) == None
    ensures TrimRight(PartText("$", items)) == PartText("$", items)
  {
    assert SanitizeKey("$") == "$";
    TwoIndices("$", items);
    PartTextShape("$", items);
  }

  lemma UnrootedTrim(steps: seq<Step>)
    requires !Rooted(steps)
    ensures var trimmed := TrimSpace(Path(steps));
            trimmed == TrimRight(Path(steps)) && trimmed != "$"
            && HasPrefix(trimmed, "$") && TrimPrefix(trimmed, "$.") == trimmed
  {
    var path := Path(steps);
    assert path[0] == '$' && path[1] == '[';
    assert TrimLeft(path) == path;
    TrimRightAppend("$[", path[2..]);
    assert path == "$[" + path[2..];
    Cut("$[", TrimRight(path[2..]));
  }

  /**
   For every sequence of steps: its printed path reads back in every payload that has
   these steps exactly when the steps are readable.
   */
  lemma PathReadsBack(steps: seq<Step>)
    ensures (forall v | At(v, steps).Some? :: PathGet(v, Path(steps)) == At(v, steps)) <==> Readable(steps)
  {
    if Readable(steps) {
      forall v | At(v, steps).Some?
        ensures PathGet(v, Path(steps)) == At(v, steps)
      {
        ReadablePathReads(v, steps);
      }
    } else {
      var v := Minimal(steps);
      MinimalAt(steps);
      assert steps != [];
      if Rooted(steps) {
        PathGetParts(v, steps);
        UnreadableFollow(steps);
      } else {
        UnrootedFollow(steps);
      }
      assert PathGet(v, Path(steps)) != At(v, steps);
    }
  }

  // ---- Whole fingerprints and the extraction language ----------------------

  predicate PlainKey(k: string) {
    SanitizeKey(k) == k && '[' !in k && !IsSpace(k[|k| - 1])
  }

  /** Plain field names throughout and no array directly inside an array. */
  predicate Plain(v: Json) {
    match v
    case JObject(fields) => forall k | k in fields :: PlainKey(k) && Plain(fields[k])
    case JArray(items) => forall i | 0 <= i < |items| :: !items[i].JArray? && Plain(items[i])
    case _ => true
  }

  lemma {:induction false} PlainStepsReadable(v: Json, steps: seq<Step>)
    requires Plain(v) && !v.JArray? && At(v, steps).Some?
    ensures Readable(steps)
    decreases |steps|
  {
    if steps != [] {
      var k, n := steps[0].k, ItemRun(steps[1..]);
      var w := Child(v, steps[0]).value;
      NoIndexOfChar(k, '[');
      assert !Indexed(k);
      if n == 0 {
        assert steps[1..0 + 1] == [];
        if steps[1..] != [] {
          assert steps[1..][0].Key?;
        }
        PlainStepsReadable(if w.JArray? then JNull else w, if w.JArray? then [] else steps[1..]);
        assert w.JArray? ==> steps[1..] == [];
      } else {
        var i := steps[1].i;
        assert steps[1..][0] == steps[1] && steps[1..][1..] == steps[2..];
        PlainStepsReadable(w.items[i], steps[2..]);
        assert ItemRun(steps[2..]) == 0;
        assert n == 1;
      }
    }
  }

  lemma {:induction false} PlainTidy(v: Json)
    requires Plain(v)
    ensures Tidy(v)
  {
    match v
    case JObject(fields) =>
      forall k | k in fields
        ensures Tidy(fields[k])
      {
        PlainTidy(fields[k]);
      }
    case JArray(items) =>
      forall i | 0 <= i < |items|
        ensures Tidy(items[i])
      {
        PlainTidy(items[i]);
      }
    case _ =>
  }

  /** Every recorded path of a plain payload reads back to a value of the recorded shape. */
  lemma RecordedPathsReadBack(v: Json, fp: PayloadFingerprint, p: string)
    requires Plain(v) && !v.JArray? && FingerprintOf(v, fp) && p in fp.shapes
    ensures PathGet(v, p).Some? && ShapeName(PathGet(v, p).value) == fp.shapes[p]
    ensures exists steps :: p == Path(steps) && At(v, steps) == PathGet(v, p)
  {
    var steps :| Lands("$", v, steps, p, fp.shapes[p]);
    PlainStepsReadable(v, steps);
    ReadablePathReads(v, steps);
    assert p == Path(steps);
  }

  datatype DslSpec = DslSpec(extract: map<string, string>, constants: map<string, Json>, dropNull: bool)

  /** What one extracted name becomes: a miss is null, unless nulls are dropped. */
  function Extracted(src: Json, path: string, dropNull: bool): Option<Json> {
    match PathGet(src, path)
    case Some(v) => Some(v)
    case None => if dropNull then None else Some(JNull)
  }

  /** The extracted names that were found or nulled, overridden by the constants. */
  function ApplySpec(src: Json, spec: DslSpec): map<string, Json> {
    (map k | k in spec.extract && Extracted(src, spec.extract[k], spec.dropNull).Some?
       :: Extracted(src, spec.extract[k], spec.dropNull).value) + spec.constants
  }

  /** The output has what this name extracts, if anything. */
  predicate Took(src: Json, spec: DslSpec, out: map<string, Json>, k: string)
    requires k in spec.extract
  {
    Extracted(src, spec.extract[k], spec.dropNull) == if k in out then Some(out[k]) else None
  }

  lemma AllTaken(src: Json, spec: DslSpec, out: map<string, Json>)
    requires out.Keys <= spec.extract.Keys && forall k | k in spec.extract :: Took(src, spec, out, k)
    ensures out + spec.constants == ApplySpec(src, spec)
  {
    hide PathGet, Extracted;
    assert out == map k | k in spec.extract && Extracted(src, spec.extract[k], spec.dropNull).Some?
                    :: Extracted(src, spec.extract[k], spec.dropNull).value;
  }

  method ApplyDSL(src: Json, spec: DslSpec) returns (out: map<string, Json>)
    ensures out == ApplySpec(src, spec)
  {
    hide PathGet, ApplySpec;
    out := map[];
    var pending := spec.extract.Keys;
    while pending != {}
      invariant pending <= spec.extract.Keys
      invariant out.Keys <= spec.extract.Keys - pending
      invariant forall k | k in spec.extract && k !in pending :: Took(src, spec, out, k)
    {
      var k :| k in pending;
      pending := pending - {k};
      var got := JsonPathGet(src, spec.extract[k]);
      if got.None? && spec.dropNull {
        continue;
      }
      out := out[k := if got.Some? then got.value else JNull];
    }
    AllTaken(src, spec, out);
    out := out + spec.constants;
  }

  /** Extracting a recorded path of a plain payload yields the value it was recorded for. */
  lemma RecordedPathsExtract(v: Json, fp: PayloadFingerprint, spec: DslSpec, name: string)
    requires Plain(v) && !v.JArray? && FingerprintOf(v, fp)
    requires name in spec.extract && spec.extract[name] in fp.shapes && name !in spec.constants
    ensures var out := ApplySpec(v, spec);
            name in out && ShapeName(out[name]) == fp.shapes[spec.extract[name]]
            && exists steps :: spec.extract[name] == Path(steps) && At(v, steps) == Some(out[name])
  {
    RecordedPathsReadBack(v, fp, spec.extract[name]);
    hide PathGet;
  }
}
