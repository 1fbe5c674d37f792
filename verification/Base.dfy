/** Shared vocabulary: optional values, object identifiers and decoded JSON. */
module Base {

  datatype Option<+T> = None | Some(value: T)

  /** Object identifiers are UUIDv7 text. */
  type Uid = string

  /** A decoded JSON value, as `msgspec.to_builtins` hands it to the projections. */
  datatype Json =
    | Null
    | Bool(b: bool)
    | Num(n: int)
    | Str(s: string)
    | Arr(items: seq<Json>)
    | Obj(fields: map<string, Json>)

  type Dict = map<string, Json>

  /** A string field, absent when it is missing or null. */
  function StrField(d: Dict, k: string): Option<string> {
    if k in d && d[k].Str? then Some(d[k].s) else None
  }

  /** A boolean field; an absent one reads as False. */
  predicate BoolField(d: Dict, k: string) {
    k in d && d[k] == Bool(true)
  }

  /** The strings of a list field; an absent list is empty. */
  function StringsField(d: Dict, k: string): set<string> {
    if k in d && d[k].Arr? then set j | j in d[k].items && j.Str? :: j.s else {}
  }

  predicate NonEmptyList(d: Dict, k: string) {
    k in d && d[k].Arr? && d[k].items != []
  }

  /** Python truthiness of an optional string. */
  predicate Truthy(s: Option<string>) {
    s.Some? && s.value != ""
  }

  /** `deleted_at` is set: the payload is a tombstone for whoever holds the object. */
  predicate IsDeleted(d: Dict) {
    "deleted_at" in d && d["deleted_at"] != Null
  }
}
