/** Decoded JSON as PHP sees it after `json_decode($body, true)`: objects are
    associative arrays, lists are sequential arrays. The functions give the
    PHP semantics the module relies on: `isset` on nested keys, truthiness
    (`!$x`, `empty`, `?:`), string conversion (`strtolower`, `sprintf('%s')`)
    and `intval`. */
module PhpJson {
  import opened Wrappers
  import Text

  datatype Json =
    | JNull
    | JBool(b: bool)
    | JNum(n: int)
    | JStr(s: string)
    | JArr(items: seq<Json>)
    | JObj(fields: map<string, Json>)

  /** `isset($j[k1][k2]...)` together with the value it guards: `Some(v)` when
      every key along the path is present in an array and the value at the end
      is not null. An empty path asks whether `j` itself is set. */
  function Path(j: Json, keys: seq<string>): (r: Option<Json>)
    ensures r.Some? ==> r.value != JNull
    decreases |keys|
  {
    if keys == [] then (if j == JNull then None else Some(j))
    else match j
      case JObj(m) => if keys[0] in m then Path(m[keys[0]], keys[1..]) else None
      case _ => None
  }

  /** A set key of an array, looked up one level down. */
  lemma PathOfField(m: map<string, Json>, k: string)
    requires k in m && m[k] != JNull
    ensures Path(JObj(m), [k]) == Some(m[k])
  {
    assert [k][1..] == [];
  }

  /** A set key of a nested array, looked up two levels down. */
  lemma PathOfNestedField(m: map<string, Json>, k1: string, k2: string)
    requires k1 in m && m[k1].JObj? && k2 in m[k1].fields && m[k1].fields[k2] != JNull
    ensures Path(JObj(m), [k1, k2]) == Some(m[k1].fields[k2])
  {
    assert [k1, k2][1..] == [k2];
    PathOfField(m[k1].fields, k2);
  }

  /** PHP's conversion to boolean yields false. */
  predicate Falsy(j: Json) {
    match j
    case JNull => true
    case JBool(b) => !b
    case JNum(n) => n == 0
    case JStr(s) => s == "" || s == "0"
    case JArr(xs) => xs == []
    case JObj(m) => m == map[]
  }

  /** PHP's conversion to string: `true` is "1", `false` and null are "",
      an integer is its decimal form, an array is "Array". */
  function ToPhpString(j: Json): string {
    match j
    case JNull => ""
    case JBool(b) => if b then "1" else ""
    case JNum(n) => Text.IntToString(n)
    case JStr(s) => s
    case JArr(_) => "Array"
    case JObj(_) => "Array"
  }

  /** `intval`: booleans give 0 or 1, null gives 0, an array gives 0 when empty
      and 1 otherwise, a string is read as by `Text.IntvalString`. */
  function Intval(j: Json): (n: int)
    ensures j.JStr? ==> Text.PhpIntMin <= n <= Text.PhpIntMax
    ensures j.JNull? || j == JBool(false) || j == JStr("") ==> n == 0
  {
    match j
    case JNull => 0
    case JBool(b) => if b then 1 else 0
    case JNum(n) => n
    case JStr(s) => Text.IntvalString(s)
    case JArr(xs) => if xs == [] then 0 else 1
    case JObj(m) => if m == map[] then 0 else 1
  }

  /** The JSON list of the integers `xs`, in order. */
  function IntsToJson(xs: seq<int>): (r: seq<Json>)
    ensures |r| == |xs|
    ensures forall i :: 0 <= i < |xs| ==> r[i] == JNum(xs[i])
  {
    seq(|xs|, i requires 0 <= i < |xs| => JNum(xs[i]))
  }

  lemma InIntsToJson(xs: seq<int>, x: int)
    ensures JNum(x) in IntsToJson(xs) <==> x in xs
  {
    if x in xs {
      var i :| 0 <= i < |xs| && xs[i] == x;
      assert IntsToJson(xs)[i] == JNum(x);
    }
  }
}
