/** JavaScript values as the contextual proxy sees them: opaque data stored
    under string keys. Only the distinction between `undefined` and every
    other value matters to the lookup rules; the rest is carried verbatim. */
module Values {

  /** A property value. `Undefined` is both a value that can be stored
      (`{ b: undefined }`) and what a read of a missing key produces. */
  datatype Value = Undefined | Null | Bool(b: bool) | Num(n: int) | Str(s: string)

  /** A plain object, its inherited keys flattened into its own. */
  type Obj = map<string, Value>

  /** The value a JavaScript property read produces: the stored value, or
      `undefined` for a missing key. */
  function Read(o: Obj, key: string): (r: Value)
    ensures key !in o ==> r == Undefined
    ensures r != Undefined ==> key in o && o[key] == r
  {
    if key in o then o[key] else Undefined
  }
}
