/** Decoded JSON as the library sees it: the MediaWiki API answers, scores and
    records are Python dicts and lists built from these values. */
module JsonValues {

  datatype Json =
    | Null
    | Bool(b: bool)
    | Int(i: int)
    | Str(s: string)
    | Arr(items: seq<Json>)
    | Obj(fields: map<string, Json>)

  /** Python truthiness (`if x:`) of a decoded value. */
  predicate Truthy(v: Json) {
    match v
    case Null => false
    case Bool(b) => b
    case Int(i) => i != 0
    case Str(s) => s != ""
    case Arr(xs) => xs != []
    case Obj(m) => m != map[]
  }

  /** `key in v` for a dict `v`. */
  predicate Has(v: Json, key: string) {
    v.Obj? && key in v.fields
  }

  /** `v[key]`; a response without the key is outside the modelled shape and reads as Null. */
  function Field(v: Json, key: string): Json {
    if Has(v, key) then v.fields[key] else Null
  }

  /** `v.get(key, default)`. */
  function GetOr(v: Json, key: string, default: Json): Json {
    if Has(v, key) then v.fields[key] else default
  }

  /** The elements of a list-valued field, `v.get(key, [])`; anything but a list reads as empty. */
  function ListAt(v: Json, key: string): seq<Json> {
    var x := Field(v, key);
    if x.Arr? then x.items else []
  }

  /** The elements of a list value. */
  function Items(v: Json): seq<Json> {
    if v.Arr? then v.items else []
  }
}
