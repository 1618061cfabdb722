/** JSON values, the way encoding/json moves them in and out of Go types, and the numbers involved. */
module JsonModel {
  import opened Basics

  datatype Json =
    | Null
    | Bool(b: bool)
    | Num(value: real)
    | Str(s: string)
    | Arr(items: seq<Json>)
    | Obj(fields: map<string, Json>)

  /** What a Go interface{} in a message map holds: a decoded JSON value, or an int the program put there itself. */
  datatype Value = Int(n: int) | Js(json: Json)

  // ----- numbers

  const TWO_53: int := 9007199254740992
  const TWO_63: int := 9223372036854775808

  predicate IsInt64(n: int) {
    -TWO_63 <= n < TWO_63
  }

  function Abs(n: int): nat {
    if n < 0 then -n else n
  }

  /** The distance between neighbouring float64 values at magnitude `m`, for integers. */
  function Ulp(m: nat): (u: nat)
    ensures u >= 1
    ensures m < TWO_53 ==> u == 1
  {
    if m < TWO_53 then 1 else 2 * Ulp(m / 2)
  }

  /** Round to a multiple of `u`, ties to the even multiple. */
  function RoundTo(m: nat, u: nat): nat
    requires u >= 1
  {
    var q, r := m / u, m % u;
    if 2 * r < u || (2 * r == u && q % 2 == 0) then q * u else (q + 1) * u
  }

  /** The float64 nearest to an integer. */
  function ToDouble(n: int): int {
    if n < 0 then 0 - RoundTo(-n, Ulp(-n)) else RoundTo(n, Ulp(n))
  }

  /** Go's int(x): truncation toward zero; out of range, the value amd64 gives. */
  function ToInt(x: real): int {
    var t := if x >= 0.0 then x.Floor else -((-x).Floor);
    if IsInt64(t) then t else -TWO_63
  }

  /** An integer survives the conversion to float64 exactly when it is a multiple of the spacing there. */
  lemma ToDoubleExact(n: int)
    ensures ToDouble(n) == n <==> Abs(n) % Ulp(Abs(n)) == 0
  {
    RoundToExact(Abs(n), Ulp(Abs(n)));
  }

  lemma RoundToExact(m: nat, u: nat)
    requires u >= 1
    ensures RoundTo(m, u) == m <==> m % u == 0
  {
  }

  function Pow2(k: nat): nat {
    if k == 0 then 1 else 2 * Pow2(k - 1)
  }

  /** A float64 has 53 significant bits: with `k` binary digits more than that the spacing is 2^k. */
  lemma {:induction false} UlpIsPower(m: nat, k: nat)
    requires k >= 1 && 4503599627370496 * Pow2(k) <= m < 9007199254740992 * Pow2(k)
    ensures Ulp(m) == Pow2(k)
  {
    if k > 1 {
      UlpIsPower(m / 2, k - 1);
    }
  }

  /** The conversion gives the nearest multiple of the spacing, of two equally near ones the even one. */
  lemma NearestDouble(n: int, q: int) returns (best: int)
    ensures var u := Ulp(Abs(n));
            && ToDouble(n) == best * u
            && Abs(ToDouble(n) - n) <= Abs(q * u - n)
            && (Abs(ToDouble(n) - n) == Abs(q * u - n) && q != best ==> best % 2 == 0)
  {
    best := NearestMultiple(Abs(n), Ulp(Abs(n)), if n < 0 then -q else q);
    if n < 0 {
      Negated(q, Ulp(Abs(n)));
      Negated(best, Ulp(Abs(n)));
      best := -best;
    }
  }

  lemma Negated(a: int, u: nat)
    ensures (-a) * u == -(a * u)
  {
  }

  lemma StepUp(low: int, u: nat)
    ensures (low + 1) * u == low * u + u
  {
  }

  lemma AtLeast(a: int, b: int, u: nat)
    requires a <= b
    ensures a * u <= b * u
  {
  }

  lemma Apart(low: int, q: int, u: nat)
    ensures q < low ==> q * u <= low * u - u
    ensures q > low + 1 ==> q * u >= low * u + u + u
  {
    if q < low {
      StepUp(low - 1, u);
      AtLeast(q, low - 1, u);
    } else if q > low + 1 {
      StepUp(low, u);
      StepUp(low + 1, u);
      AtLeast(low + 2, q, u);
    }
  }

  /** The choice between the multiples `at` and `at + u` around `at + rest`; `other` is any multiple. */
  lemma NearerOf(low: int, q: int, u: nat, rest: nat, at: int, other: int, up: bool)
    requires rest < u && (up <==> !(2 * rest < u || (2 * rest == u && low % 2 == 0)))
    requires (q < low ==> other <= at - u) && (q == low ==> other == at) && (q == low + 1 ==> other == at + u)
    requires q > low + 1 ==> other >= at + u + u
    ensures var chosen, best, m := if up then at + u else at, if up then low + 1 else low, at + rest;
            Abs(chosen - m) <= Abs(other - m) && (Abs(chosen - m) == Abs(other - m) && q != best ==> best % 2 == 0)
  {
  }

  lemma NearestFrom(u: nat, low: int, rest: nat, q: int, up: bool)
    requires rest < u && (up <==> !(2 * rest < u || (2 * rest == u && low % 2 == 0)))
    ensures var best, m := if up then low + 1 else low, low * u + rest;
            Abs(best * u - m) <= Abs(q * u - m) && (Abs(best * u - m) == Abs(q * u - m) && q != best ==> best % 2 == 0)
  {
    StepUp(low, u);
    Apart(low, q, u);
    NearerOf(low, q, u, rest, low * u, q * u, up);
  }

  lemma NearestMultiple(m: nat, u: nat, q: int) returns (best: int)
    requires u >= 1
    ensures RoundTo(m, u) == best * u
    ensures Abs(best * u - m) <= Abs(q * u - m)
    ensures Abs(best * u - m) == Abs(q * u - m) && q != best ==> best % 2 == 0
  {
    var low, rest := m / u, m % u;
    var up := !(2 * rest < u || (2 * rest == u && low % 2 == 0));
    best := if up then low + 1 else low;
    NearestFrom(u, low, rest, q, up);
    assert m == low * u + rest;
  }

  /** The first integer that float64 cannot represent rounds down to 2^53. */
  lemma FirstInexact()
    ensures ToDouble(TWO_53 + 1) == TWO_53
  {
  }

  lemma SmallIsExact(n: int)
    requires Abs(n) <= TWO_53
    ensures Abs(n) % Ulp(Abs(n)) == 0
  {
  }

  // ----- strconv.Atoi

  predicate IsDigit(ch: char) {
    '0' <= ch <= '9'
  }

  function Digits(s: string): Option<nat> {
    if s == "" then Some(0)
    else
      var front := Digits(s[..|s| - 1]);
      if front.Some? && IsDigit(s[|s| - 1]) then Some(10 * front.value + (s[|s| - 1] as int - '0' as int)) else None
  }

  function Atoi(s: string): Option<int> {
    var negative := s != "" && s[0] == '-';
    var body := if s != "" && (s[0] == '-' || s[0] == '+') then s[1..] else s;
    if body == "" then None
    else match Digits(body)
      case None => None
      case Some(m) =>
        var n: int := if negative then 0 - m else m;
        if IsInt64(n) then Some(n) else None
  }

  // ----- encoding/json

  /** json.Marshal of an interface{} value. */
  function ToJson(v: Value): Json {
    match v
    case Int(n) => Num(n as real)
    case Js(j) => j
  }

  /** json.Unmarshal into an interface{}: a number becomes a float64. */
  function FromJson(j: Json): Value {
    match j
    case Num(x) => Js(Num(if x.Floor as real == x then ToDouble(x.Floor) as real else x))
    case _ => Js(j)
  }

  /** json.Unmarshal of one struct field; a missing field and null leave the zero value, a wrong type is an error. */
  function StringField(m: map<string, Json>, key: string): Option<string> {
    if key !in m || m[key].Null? then Some("")
    else if m[key].Str? then Some(m[key].s)
    else None
  }

  function IntField(m: map<string, Json>, key: string): Option<int> {
    if key !in m || m[key].Null? then Some(0)
    else if m[key].Num? && m[key].value.Floor as real == m[key].value && IsInt64(m[key].value.Floor) then Some(m[key].value.Floor)
    else None
  }

  function RealField(m: map<string, Json>, key: string): Option<real> {
    if key !in m || m[key].Null? then Some(0.0)
    else if m[key].Num? then Some(m[key].value)
    else None
  }

  /** Some(None) is a nil slice. */
  function SliceField(m: map<string, Json>, key: string): Option<Option<seq<Json>>> {
    if key !in m || m[key].Null? then Some(None)
    else if m[key].Arr? then Some(Some(m[key].items))
    else None
  }

  function MapField(m: map<string, Json>, key: string): Option<Option<map<string, Json>>> {
    if key !in m || m[key].Null? then Some(None)
    else if m[key].Obj? then Some(Some(m[key].fields))
    else None
  }

  function AnyField(m: map<string, Json>, key: string): Json {
    if key in m then m[key] else Null
  }

  function SliceJson(items: Option<seq<Json>>): Json {
    if items.Some? then Arr(items.value) else Null
  }

  function MapJson(fields: Option<map<string, Json>>): Json {
    if fields.Some? then Obj(fields.value) else Null
  }
}
