// The dynamic values Go programs decode JSON into. Leaves are the values the
// code never looks inside; a nil map and a nil slice are leaves of their own,
// because the type switches of the source tell them apart from null.
module Json {
  datatype Scalar = Null | Bool(b: bool) | Num(n: int) | Str(s: string) | NilMap | NilSlice

  datatype Value =
    | Leaf(scalar: Scalar)
    | Arr(items: seq<Value>)
    | Obj(fields: map<string, Value>)
}
