/** The loosely typed values that YAML front matter and template files decode to
    (Go's `interface{}`), as a tagged union. */
module Values {

  import opened Wrappers

  datatype Value =
    | VNull
    | VBool(b: bool)
    | VInt(i: int)
    | VFloat(f: real)
    | VString(s: string)
    | VSeq(items: seq<Value>)
    | VMap(entries: map<string, Value>)

  /** Go's "is this a `string` holding a non-empty value" type assertion. */
  predicate IsNonEmptyString(v: Value)
  {
    v.VString? && v.s != ""
  }

  /** Looks up `key` inside a map-valued entry `section` of `m`. */
  function Nested(m: map<string, Value>, section: string, key: string): Option<Value>
  {
    if section in m && m[section].VMap? && key in m[section].entries
    then Some(m[section].entries[key])
    else None
  }
}
