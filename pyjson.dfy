/**
 * Already-decoded JSON values as the apps' loaders see them after
 * `json.loads`, with the few Python operations the loaders apply to them:
 * `str(v)` on scalars, truthiness (`x or default`) and `dict.get`.
 * Numbers with a fraction are not represented.
 */
module PyJson {
  import opened PyText

  datatype Json =
    | JNull
    | JBool(b: bool)
    | JInt(i: int)
    | JStr(s: string)
    | JList(items: seq<Json>)
    | JObject(fields: map<string, Json>)

  predicate IsScalar(j: Json) {
    !j.JList? && !j.JObject?
  }

  /** `str(v)` for a JSON scalar. */
  function Str(j: Json): (s: string)
    requires IsScalar(j)
    ensures j.JStr? ==> s == j.s
  {
    match j
    case JNull => "None"
    case JBool(b) => if b then "True" else "False"
    case JInt(i) => IntToString(i)
    case JStr(s) => s
  }

  /** `str(v)` on a stored value; a nested list or object (whose `repr` Python would give) reads as "". */
  function StrOf(j: Json): (s: string)
    ensures IsScalar(j) ==> s == Str(j)
  {
    if IsScalar(j) then Str(j) else ""
  }

  /** Python truthiness: `bool(v)`. */
  predicate Truthy(j: Json) {
    match j
    case JNull => false
    case JBool(b) => b
    case JInt(i) => i != 0
    case JStr(s) => s != []
    case JList(items) => items != []
    case JObject(fields) => fields != map[]
  }

  /** `d.get(k, default)`. */
  function Get(d: map<string, Json>, k: string, default: Json): (r: Json)
    ensures k in d ==> r == d[k]
    ensures k !in d ==> r == default
  {
    if k in d then d[k] else default
  }
}
