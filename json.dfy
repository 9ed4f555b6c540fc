/** Decoded JSON values as Python's `json.loads` produces them, with the few Python
    operations on them that the coordinator and the adapter use. */
module JsonValue {
  import opened Wrappers
  import Text

  /** A decoded JSON value. Objects are dictionaries from keys to values; numbers are
      integers. */
  datatype Json =
    | Null
    | Bool(b: bool)
    | Num(n: int)
    | Str(s: string)
    | Arr(items: seq<Json>)
    | Obj(fields: map<string, Json>)

  const EmptyObj: Json := Obj(map[])

  /** Python truthiness (`if value:`). */
  predicate Truthy(j: Json) {
    match j
    case Null => false
    case Bool(b) => b
    case Num(n) => n != 0
    case Str(s) => s != ""
    case Arr(xs) => xs != []
    case Obj(m) => m != map[]
  }

  /** `d.get(key, default)` on a dictionary. */
  function Lookup(d: map<string, Json>, key: string, default: Json): Json {
    if key in d then d[key] else default
  }

  /** `value.get(key, default)`. None: `value` is not a dictionary, and Python raises
      AttributeError. */
  function Get(j: Json, key: string, default: Json): (r: Option<Json>)
    ensures r.Some? <==> j.Obj?
    ensures j.Obj? && key in j.fields ==> r == Some(j.fields[key])
    ensures j.Obj? && key !in j.fields ==> r == Some(default)
  {
    match j
    case Obj(d) => Some(Lookup(d, key, default))
    case _ => None
  }

  /** `str(value)` as an f-string renders it. Arrays and objects are not rendered
      element by element. */
  function Display(j: Json): string {
    match j
    case Null => "None"
    case Bool(b) => if b then "True" else "False"
    case Num(n) => Text.IntToString(n)
    case Str(s) => s
    case Arr(_) => "[...]"
    case Obj(_) => "{...}"
  }
}
