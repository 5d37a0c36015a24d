// JSON values. A number is an integer or a finite double; the two kinds are written differently.
module Json {
  import opened Common

  datatype Json =
    | Null
    | Bool(truth: bool)
    | Int(number: int)
    | Float(double: Double)
    | Str(text: string)
    | Arr(items: seq<Json>)
    | Obj(fields: map<string, Json>)
}
