/**
 * Untyped JavaScript values as the site's content files and validators see them.
 * Property access follows JavaScript's own-property rules for plain objects,
 * arrays and strings.
 */
module JsonValues {
  import opened Wrappers

  datatype Json =
    | JNull
    | JUndefined
    | JBool(b: bool)
    | JNum(n: real)
    | JStr(s: string)
    | JArr(items: seq<Json>)
    | JObj(fields: map<string, Json>)

  /** `v == null` under loose equality: true for both null and undefined. */
  predicate Nullish(v: Json) {
    v.JNull? || v.JUndefined?
  }

  /** JavaScript's `typeof`, including its answer "object" for null. */
  function TypeOf(v: Json): (t: string)
    ensures t == "object" <==> v.JNull? || v.JArr? || v.JObj?
  {
    match v
    case JNull => "object"
    case JUndefined => "undefined"
    case JBool(_) => "boolean"
    case JNum(_) => "number"
    case JStr(_) => "string"
    case JArr(_) => "object"
    case JObj(_) => "object"
  }

  /** JavaScript truthiness: null, undefined, false, 0 and "" are falsy. */
  predicate Truthy(v: Json) {
    match v
    case JNull => false
    case JUndefined => false
    case JBool(b) => b
    case JNum(n) => n != 0.0
    case JStr(s) => s != ""
    case JArr(_) => true
    case JObj(_) => true
  }

  /** The operator `a || b`: the first operand when it is truthy, else the second. */
  function Or(a: Json, b: Json): (r: Json)
    ensures Truthy(b) ==> Truthy(r)
    ensures Truthy(a) ==> r == a
    ensures !Truthy(a) ==> r == b
  {
    if Truthy(a) then a else b
  }

  predicate IsDigit(c: char) {
    '0' <= c <= '9'
  }

  function DigitsValue(k: string): nat
    requires forall i :: 0 <= i < |k| ==> IsDigit(k[i])
  {
    if k == [] then 0
    else
      var d := k[|k| - 1] as int - '0' as int;
      assert IsDigit(k[|k| - 1]);
      10 * DigitsValue(k[..|k| - 1]) + d
  }

  /** The element index a property name denotes: a decimal numeral without leading zeros. */
  function ArrayIndex(k: string): (r: Option<nat>)
    ensures r.Some? ==> |k| > 0 && IsDigit(k[0])
  {
    if |k| > 0 && (forall i :: 0 <= i < |k| ==> IsDigit(k[i])) && (k == "0" || k[0] != '0')
    then Some(DigitsValue(k))
    else None
  }

  /** `v.hasOwnProperty(key) ? v[key] : (absent)` for the value kinds that have own properties. */
  function OwnProperty(v: Json, key: string): (r: Option<Json>)
    ensures v.JObj? ==> (r.Some? <==> key in v.fields)
    ensures r.Some? ==> v.JObj? || v.JArr? || v.JStr?
  {
    match v
    case JObj(m) => if key in m then Some(m[key]) else None
    case JArr(xs) =>
      if key == "length" then Some(JNum(|xs| as real))
      else (match ArrayIndex(key)
            case Some(i) => if i < |xs| then Some(xs[i]) else None
            case None => None)
    case JStr(s) =>
      if key == "length" then Some(JNum(|s| as real))
      else (match ArrayIndex(key)
            case Some(i) => if i < |s| then Some(JStr([s[i]])) else None
            case None => None)
    case _ => None
  }

  /** Property read `v.key`; reading a property of null or undefined throws, so callers guard it. */
  function Get(v: Json, key: string): (r: Json)
    requires !Nullish(v)
    ensures v.JObj? ==> r == (if key in v.fields then v.fields[key] else JUndefined)
  {
    match OwnProperty(v, key)
    case Some(x) => x
    case None => JUndefined
  }

  /** A property name that starts with a letter names no element and no own property of an array. */
  lemma ArrayHasNoNamedProperty(xs: seq<Json>, key: string)
    requires |key| > 0 && !IsDigit(key[0]) && key != "length"
    ensures OwnProperty(JArr(xs), key).None?
  {
  }
}
