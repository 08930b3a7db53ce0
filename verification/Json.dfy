/**
 Decoded JSON values, positions inside them, and the decimal printing and reading of
 array indices (strconv.Itoa by way of Sprintf, and strconv.Atoi).
 */
module Json {
  import opened Text

  datatype Json =
    | JNull
    | JBool(b: bool)
    | JNumber(x: real)
    | JString(s: string)
    | JArray(items: seq<Json>)
    | JObject(fields: map<string, Json>)

  datatype Step = Key(k: string) | Item(i: nat)

  /** The value one step below v. */
  function Child(v: Json, step: Step): Option<Json> {
    match step
    case Key(k) => if v.JObject? && k in v.fields then Some(v.fields[k]) else None
    case Item(i) => if v.JArray? && i < |v.items| then Some(v.items[i]) else None
  }

  /** The value a sequence of steps leads to, if there is one. */
  function At(v: Json, steps: seq<Step>): Option<Json> {
    if steps == [] then Some(v)
    else match Child(v, steps[0])
      case None => None
      case Some(w) => At(w, steps[1..])
  }

  lemma {:induction false} AtConcat(v: Json, a: seq<Step>, b: seq<Step>)
    ensures At(v, a + b) == match At(v, a) case None => None case Some(w) => At(w, b)
  {
    if a == [] {
      assert a + b == b;
    } else {
      assert (a + b)[1..] == a[1..] + b;
      if Child(v, a[0]).Some? {
        AtConcat(Child(v, a[0]).value, a[1..], b);
      }
    }
  }

  // ---- Decimal numerals ----------------------------------------------------

  predicate IsDigit(c: char) {
    '0' <= c <= '9'
  }

  function Itoa(n: nat): string {
    if n < 10 then ['0' + n as char] else Itoa(n / 10) + ['0' + (n % 10) as char]
  }

  function DigitsValue(s: string): nat
    requires forall c | c in s :: IsDigit(c)
  {
    if s == "" then 0
    else
      assert IsDigit(s[|s| - 1]) by {
        assert s[|s| - 1] in s;
      }
      DigitsValue(s[..|s| - 1]) * 10 + (s[|s| - 1] as int - '0' as int)
  }

  /**
   strconv.Atoi: an optional sign, then one or more digits. A numeral beyond 64 bits is an
   error in Go and a large number here; as an array index both are out of range.
   */
  function Atoi(s: string): Option<int> {
    var digits := if s != "" && (s[0] == '+' || s[0] == '-') then s[1..] else s;
    if digits == "" || exists c | c in digits :: !IsDigit(c) then None
    else
      var value: int := DigitsValue(digits);
      Some(if s[0] == '-' then -value else value)
  }

  lemma {:induction false} ItoaDigits(n: nat)
    ensures Itoa(n) != "" && forall c | c in Itoa(n) :: IsDigit(c)
    ensures DigitsValue(Itoa(n)) == n
  {
    if n >= 10 {
      ItoaDigits(n / 10);
      var s := Itoa(n);
      assert s[..|s| - 1] == Itoa(n / 10);
    } else {
      assert Itoa(n)[..0] == "";
    }
  }

  lemma AtoiItoa(n: nat)
    ensures Atoi(Itoa(n)) == Some(n)
  {
    ItoaDigits(n);
    assert Itoa(n)[0] in Itoa(n);
  }

  lemma ItoaInjective(m: nat, n: nat)
    requires Itoa(m) == Itoa(n)
    ensures m == n
  {
    AtoiItoa(m);
    AtoiItoa(n);
  }
}
