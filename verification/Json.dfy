/** JSON values as the Python code holds them. */
module Json {

  datatype Json =
    | Null | Bool(b: bool) | Num(n: int) | Str(s: string)
    | List(items: seq<Json>)
    | Obj(fields: map<string, Json>)

}
