/** Parsed JSON values as the Python code sees them, with the pieces of
    Python semantics the module relies on: truth values, `dict.get`,
    subscripting with a string key, `in`, iteration and `str()`. */
module PyJson {
  import opened Outcomes

  /** A decoded JSON document. Numbers are integers. */
  datatype Json =
    | JNull
    | JBool(b: bool)
    | JInt(i: int)
    | JStr(s: string)
    | JArray(items: seq<Json>)
    | JObject(fields: map<string, Json>)

  /** The empty mapping `{}`. */
  const Empty := JObject(map[])

  /** Python's truth value: `None`, `False`, `0` and empty strings, lists and
      dicts are false; everything else, the string "0" included, is true. */
  predicate Truthy(j: Json) {
    match j
    case JNull => false
    case JBool(b) => b
    case JInt(i) => i != 0
    case JStr(s) => s != ""
    case JArray(items) => items != []
    case JObject(fields) => fields != map[]
  }

  /** `m.get(k, d)` on a dict. */
  function Lookup(m: map<string, Json>, k: string, d: Json): Json {
    if k in m then m[k] else d
  }

  /** `j[k]` with a string key: a dict without the key raises `KeyError`,
      anything other than a dict raises `TypeError`. */
  function Index(j: Json, k: string): (r: Result<Json>)
    ensures r.Ok? <==> j.JObject? && k in j.fields
    ensures r.Ok? ==> r.value == j.fields[k]
    ensures r.Err? ==> r.error == (if j.JObject? then KeyMissing(k) else TypeFault)
  {
    if !j.JObject? then Err(TypeFault)
    else if k in j.fields then Ok(j.fields[k])
    else Err(KeyMissing(k))
  }

  /** `sub in s` on strings. */
  predicate Contains(s: string, sub: string) {
    (|sub| <= |s| && s[..|sub|] == sub) || (s != [] && Contains(s[1..], sub))
  }

  /** What a `for entry in j:` loop visits when its body begins with
      `entry.get(...)`, as the three loops of the module do. A list yields its
      items. An empty dict or string yields nothing. A non-empty dict or string
      yields strings, and the first `.get` on one raises `AttributeError`; any
      other value is not iterable. */
  function Entries(j: Json): (r: Result<seq<Json>>)
    ensures r.Ok? ==> (j.JArray? && r.value == j.items) || (!Truthy(j) && r.value == [])
    ensures r.Err? ==> r.error == TypeFault && !j.JArray?
    ensures r.Ok? <==> j.JArray? || j == Empty || j == JStr("")
  {
    match j
    case JArray(items) => Ok(items)
    case JObject(fields) => if fields == map[] then Ok([]) else Err(TypeFault)
    case JStr(s) => if s == "" then Ok([]) else Err(TypeFault)
    case _ => Err(TypeFault)
  }

  /** The character of a decimal digit. */
  function Digit(d: nat): char
    requires d < 10
  {
    (48 + d) as char
  }

  /** `str(n)` for a natural number: decimal digits, no leading zero. */
  function Decimal(n: nat): (s: string)
    ensures |s| >= 1
    ensures |s| == 1 <==> n < 10
    ensures s[|s| - 1] == Digit(n % 10)
  {
    if n < 10 then [Digit(n)] else Decimal(n / 10) + [Digit(n % 10)]
  }

  /** Distinct numbers have distinct decimal strings. */
  lemma {:induction false} DecimalInjective(a: nat, b: nat)
    requires Decimal(a) == Decimal(b)
    ensures a == b
  {
    if a >= 10 && b >= 10 {
      var sa, sb := Decimal(a), Decimal(b);
      assert sa[..|sa| - 1] == Decimal(a / 10);
      assert sb[..|sb| - 1] == Decimal(b / 10);
      DecimalInjective(a / 10, b / 10);
    }
  }

  /** `'{0}'.format(j)`, that is `str(j)`, for the scalar values; a list or
      dict is rendered as a fixed placeholder rather than its `repr`. */
  function Render(j: Json): string {
    match j
    case JNull => "None"
    case JBool(b) => if b then "True" else "False"
    case JInt(i) => if i < 0 then "-" + Decimal(-i) else Decimal(i)
    case JStr(s) => s
    case JArray(_) => "[...]"
    case JObject(_) => "{...}"
  }
}
