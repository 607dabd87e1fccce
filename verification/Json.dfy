/** JSON values.  Object keys are distinct and their order carries no meaning. */
module Json {
  import opened Wrappers

  datatype Json =
    | Null
    | Bool(b: bool)
    | Int(n: int)
    | Float(r: real)
    | Str(s: string)
    | Arr(items: seq<Json>)
    | Obj(fields: map<string, Json>)

  const EMPTY_OBJECT := Obj(map[])

  /** A field of an object; anything else has no fields. */
  function Get(j: Json, key: string): Option<Json> {
    if j.Obj? && key in j.fields then Some(j.fields[key]) else None
  }

  function AsStr(j: Option<Json>): Option<string> {
    if j.Some? && j.value.Str? then Some(j.value.s) else None
  }

  function AsBool(j: Option<Json>): Option<bool> {
    if j.Some? && j.value.Bool? then Some(j.value.b) else None
  }

  /** An integer that fits an unsigned 64-bit word. */
  function AsNat(j: Option<Json>): Option<nat> {
    if j.Some? && j.value.Int? && 0 <= j.value.n < 0x1_0000_0000_0000_0000 then Some(j.value.n) else None
  }

  function AsArr(j: Option<Json>): Option<seq<Json>> {
    if j.Some? && j.value.Arr? then Some(j.value.items) else None
  }

  /** The strings of an array field; empty when there is no such array. */
  function StringSet(j: Json, key: string): set<string> {
    match AsArr(Get(j, key))
    case None => {}
    case Some(items) => set i | 0 <= i < |items| && items[i].Str? :: items[i].s
  }
}
