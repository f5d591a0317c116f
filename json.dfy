/**
 * The JSON values the tools read (configuration files, the payload of new
 * pmtrace events), standing in for the pbnjson library. Only the accessors
 * the code uses are given, with pbnjson's defaults for the wrong kind of
 * value: asString gives "", asBool gives false, an absent member reads as
 * null and a non-array has no elements.
 */
module Json {
  import opened Util

  datatype Json =
    | JNull
    | JBool(b: bool)
    | JNum(n: real)
    | JStr(s: string)
    | JArr(items: seq<Json>)
    | JObj(members: map<string, Json>)

  /** `v.hasKey(k)`. */
  predicate HasKey(v: Json, k: string)
  {
    v.JObj? && k in v.members
  }

  /** `v[k]`: the member, or null when there is none. */
  function Get(v: Json, k: string): (r: Json)
    ensures HasKey(v, k) ==> r == v.members[k]
    ensures !HasKey(v, k) ==> r == JNull
  {
    if HasKey(v, k) then v.members[k] else JNull
  }

  /** `v.asString()`. */
  function AsString(v: Json): string
  {
    if v.JStr? then v.s else ""
  }

  /** `v.asBool()`. */
  function AsBool(v: Json): bool
  {
    v.JBool? && v.b
  }

  /** `v == str`: only a string value equal to `str` compares equal. */
  predicate EqualsString(v: Json, str: string)
  {
    v.JStr? && v.s == str
  }

  /** The elements of an array; `arraySize()` is 0 for anything else. */
  function Items(v: Json): seq<Json>
  {
    if v.JArr? then v.items else []
  }

  /** `isInteger(asNumber<double>())`: the number has no fractional part. */
  predicate IsIntegral(x: real)
  {
    x.Floor as real == x
  }

  /** `std::to_string` of a signed integer. */
  function IntToString(i: int): (s: string)
    ensures |s| > 0
  {
    if i < 0 then "-" + NatToString(-i) else NatToString(i)
  }

  /**
   * `std::to_string` of a double: fixed notation with six decimals. The
   * fraction is rounded half up from the exact value.
   */
  function FixedSix(x: real): (s: string)
    ensures |s| > 0
  {
    var scaled := (if x < 0.0 then -x else x) * 1000000.0;
    var units: nat := (scaled + 0.5).Floor as nat;
    var whole := NatToString(units / 1000000);
    var frac := NatToString(units % 1000000);
    var padded := seq(if |frac| < 6 then 6 - |frac| else 0, _ => '0') + frac;
    (if x < 0.0 && units > 0 then "-" else "") + whole + "." + padded
  }

  /** The text a number member of a payload object is stored as. */
  function NumberText(x: real): (s: string)
    ensures |s| > 0
  {
    if IsIntegral(x) then IntToString(x.Floor) else FixedSix(x)
  }
}
