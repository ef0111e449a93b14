/**
 * JSON values as the chat route sees them once parsed, and the descent the
 * route performs along a path of keys: at each step `value && typeof value
 * === 'object' && key in value` must hold, otherwise the result is `null`.
 */
module JsonValues {
  import opened Options

  /** Objects are maps: key order is not modelled. */
  datatype Json =
    | JNull
    | JBool(b: bool)
    | JNum(n: real)
    | JString(s: string)
    | JArray(items: seq<Json>)
    | JObject(fields: map<string, Json>)

  function DigitValue(c: char): nat
    requires '0' <= c <= '9'
  {
    c as int - '0' as int
  }

  /** The number a string of decimal digits denotes, reading from the right. */
  function DecimalValue(s: string): nat
    requires forall i :: 0 <= i < |s| ==> '0' <= s[i] <= '9'
  {
    if s == [] then 0 else 10 * DecimalValue(s[..|s| - 1]) + DigitValue(s[|s| - 1])
  }

  /** A canonical decimal numeral: "0", or digits without a leading zero. */
  predicate Canonical(key: string)
  {
    key != [] && (forall i :: 0 <= i < |key| ==> '0' <= key[i] <= '9') && (key[0] != '0' || |key| == 1)
  }

  /** The array index a property key names, when it is a canonical numeral. */
  function ArrayIndex(key: string): (r: Option<nat>)
    ensures r.Some? <==> Canonical(key)
    ensures r.Some? ==> key == Numeral(r.value)
  {
    if Canonical(key) then
      CanonicalNumeral(key);
      Some(DecimalValue(key))
    else None
  }

  /** The decimal numeral of `n`: the array index key JavaScript writes for position `n`. */
  function Numeral(n: nat): (r: string)
    ensures r != [] && forall i :: 0 <= i < |r| ==> '0' <= r[i] <= '9'
  {
    var d := [('0' as int + n % 10) as char];
    if n < 10 then d else Numeral(n / 10) + d
  }

  /** The numeral of a position has no leading zero. */
  lemma {:induction false} NumeralLead(n: nat)
    ensures Numeral(n)[0] != '0' || n == 0
    decreases n
  {
    if n >= 10 {
      NumeralLead(n / 10);
    }
  }

  lemma {:induction false} NumeralValue(n: nat)
    ensures DecimalValue(Numeral(n)) == n
    decreases n
  {
    if n >= 10 {
      NumeralValue(n / 10);
      var r := Numeral(n);
      assert r[..|r| - 1] == Numeral(n / 10);
    }
  }

  /** A numeral with a non-zero lead denotes a positive number. */
  lemma {:induction false} LeadPositive(s: string)
    requires s != [] && (forall i :: 0 <= i < |s| ==> '0' <= s[i] <= '9') && s[0] != '0'
    ensures DecimalValue(s) >= 1
    decreases |s|
  {
    if |s| > 1 {
      LeadPositive(s[..|s| - 1]);
    }
  }

  /** A canonical numeral is the numeral of the number it denotes. */
  lemma {:induction false} CanonicalNumeral(s: string)
    requires Canonical(s)
    ensures Numeral(DecimalValue(s)) == s
    decreases |s|
  {
    var init := s[..|s| - 1];
    var d := DigitValue(s[|s| - 1]);
    if |s| == 1 {
      assert init == [];
    } else {
      assert init[0] == s[0];
      CanonicalNumeral(init);
      LeadPositive(init);
      var n := DecimalValue(s);
      assert n == 10 * DecimalValue(init) + d;
      assert n / 10 == DecimalValue(init) && n % 10 == d;
      assert s == init + [s[|s| - 1]];
    }
  }

  /** Every position's numeral is read back as that position. */
  lemma ArrayIndexNumeral(n: nat)
    ensures ArrayIndex(Numeral(n)) == Some(n)
  {
    NumeralLead(n);
    NumeralValue(n);
  }

  /** `value && typeof value === 'object' && key in value`, for own properties. */
  predicate Steps(v: Json, key: string)
  {
    match v
    case JObject(fields) => key in fields
    case JArray(items) => key == "length" || (ArrayIndex(key).Some? && ArrayIndex(key).value < |items|)
    case _ => false
  }

  /** `value[key]` where the key is present. */
  function Child(v: Json, key: string): Json
    requires Steps(v, key)
  {
    match v
    case JObject(fields) => fields[key]
    case JArray(items) => if key == "length" then JNum(|items| as real) else items[ArrayIndex(key).value]
  }

  /** The value a walk along `keys` reaches, or `null` as soon as a step is missing. */
  function Walk(v: Json, keys: seq<string>): Json
    decreases |keys|
  {
    if keys == [] then v
    else if Steps(v, keys[0]) then Walk(Child(v, keys[0]), keys[1..])
    else JNull
  }

  /** Every step of the walk finds its key. */
  predicate Defined(v: Json, keys: seq<string>)
    decreases |keys|
  {
    keys == [] || (Steps(v, keys[0]) && Defined(Child(v, keys[0]), keys[1..]))
  }

  /** A walk with a missing step yields `null`. */
  lemma {:induction false} WalkMissing(v: Json, keys: seq<string>)
    requires !Defined(v, keys)
    ensures Walk(v, keys) == JNull
    decreases |keys|
  {
    if Steps(v, keys[0]) {
      WalkMissing(Child(v, keys[0]), keys[1..]);
    }
  }

  /**
   * Walking `a + b` is walking `a` and then `b` from where `a` ended; it is
   * defined exactly when both parts are.
   */
  lemma {:induction false} WalkAppend(v: Json, a: seq<string>, b: seq<string>)
    ensures Defined(v, a + b) <==> Defined(v, a) && Defined(Walk(v, a), b)
    ensures Defined(v, a) ==> Walk(v, a + b) == Walk(Walk(v, a), b)
    decreases |a|
  {
    if a == [] {
      assert a + b == b;
    } else {
      assert (a + b)[0] == a[0];
      assert (a + b)[1..] == a[1..] + b;
      if Steps(v, a[0]) {
        WalkAppend(Child(v, a[0]), a[1..], b);
      }
    }
  }

  /** Along object fields, a defined walk reads one field per key. */
  lemma WalkStep(fields: map<string, Json>, key: string, rest: seq<string>)
    ensures Walk(JObject(fields), [key] + rest)
      == if key in fields then Walk(fields[key], rest) else JNull
  {
    assert ([key] + rest)[1..] == rest;
  }
}
