/**
 * Ruby values as they occur in a widget payload or in a decoded response.
 * Symbols are kept apart from strings, because the text widget compares the
 * item type with the symbols `:alert` and `:info`. Hash keys are written as
 * strings (`:item` becomes "item").
 */
module Json {
  datatype Value =
    | Null
    | Bool(b: bool)
    | Num(n: int)
    | Str(s: string)
    | Sym(name: string)
    | Arr(elems: seq<Value>)
    | Obj(fields: map<string, Value>)

  /** A Ruby Hash as handed in by a caller. */
  type Hash = map<string, Value>

  /** Hash#[]: the value stored under `k`, and nil when the key is absent. */
  function Field(h: Hash, k: string): Value
  {
    if k in h then h[k] else Null
  }

  /** Array#[] with a non-negative index: nil past the end. */
  function At(s: seq<Value>, i: nat): Value
  {
    if i < |s| then s[i] else Null
  }

  /** Ruby truthiness: everything except nil and false. */
  predicate Truthy(v: Value)
  {
    !(v.Null? || v == Bool(false))
  }
}
