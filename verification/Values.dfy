/** JSON-shaped attribute values: what `attrs` and `reproducibility_spec` hold. A Python dict is
    its entries in insertion order; a float is the token Python prints for it. */
module Values {
  datatype Value =
    | VNull
    | VBool(b: bool)
    | VInt(n: int)
    | VFloat(token: string)
    | VStr(s: string)
    | VList(items: seq<Value>)
    | VMap(entries: seq<Entry>)

  datatype Entry = Entry(key: string, value: Value)

  /** A dict holds each key once. */
  predicate DistinctKeys(es: seq<Entry>) {
    forall i, j :: 0 <= i < j < |es| ==> es[i].key != es[j].key
  }
}
