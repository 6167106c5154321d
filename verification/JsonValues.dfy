/** JSON values as the Python code sees them after json.loads. */
module JsonValues {

  /** Members of an object keep their order; a dict never repeats a key. Two values are equal here
      exactly when json.dumps prints the same text for both, so `true`, `1` and `1.0` are three values. */
  datatype Json =
    | Null
    | Bool(b: bool)
    | Int(i: int)
    | Float(r: real)
    | Str(s: string)
    | Arr(items: seq<Json>)
    | Obj(members: seq<(string, Json)>)
}
