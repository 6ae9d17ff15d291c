/** The values that travel through keyword-argument bags, and pandas labels. */
module Values {

  /** A pandas label (a column or index name): `None`, a string or an integer. */
  datatype Label = NoName | StrLabel(s: string) | IntLabel(i: int)

  /** Python truthiness of a label: `None`, `""` and `0` are falsy. */
  predicate Truthy(l: Label): (t: bool)
    ensures t <==> l != NoName && l != StrLabel("") && l != IntLabel(0)
  {
    match l
    case NoName => false
    case StrLabel(s) => s != ""
    case IntLabel(i) => i != 0
  }

  /** A keyword-argument value. `Options` is a storage-options mapping,
      `StrList` a list of column names. */
  datatype Value =
    | NoneVal
    | BoolVal(b: bool)
    | IntVal(i: int)
    | StrVal(s: string)
    | StrList(items: seq<string>)
    | Options(entries: map<string, string>)

  /** A `**kwargs` bag: keyword name to value. */
  type Kwargs = map<string, Value>
}
