/** JavaScript value semantics that the middleware relies on: `undefined`,
    truthiness, the `||` operator, property lookup on plain objects, string
    coercion by `+`, and the omission of `undefined` members when an object
    is serialised. */
module JsValues {

  datatype Option<+T> = None | Some(value: T)

  /** A JavaScript function that either returns a value or throws an Error
      carrying a message. */
  datatype Result<+T> = Ok(value: T) | Thrown(message: string)

  /** The values the middleware reads and writes: strings and plain objects.
      Absence (`undefined`) is `None` at the use site. */
  datatype Value = Str(s: string) | Obj(props: map<string, Value>)

  /** `!!v` for a possibly-undefined value: only `undefined` and `""` are falsy. */
  predicate Truthy(v: Option<Value>)
  {
    v.Some? && (v.value.Str? ==> v.value.s != "")
  }

  /** `!!s` for a possibly-undefined string. */
  predicate TruthyStr(s: Option<string>)
  {
    s.Some? && s.value != ""
  }

  function Lift(s: Option<string>): (v: Option<Value>)
    ensures Truthy(v) <==> TruthyStr(s)
  {
    if s.Some? then Some(Str(s.value)) else None
  }

  /** `v.k` on a value: a string has none of the properties read here. */
  function Prop(v: Value, k: string): Option<Value>
  {
    if v.Obj? && k in v.props then Some(v.props[k]) else None
  }

  /** `m && m[k]` on a mapping of strings (cookies, query, body, params). */
  function Lookup(m: map<string, string>, k: string): Option<Value>
  {
    if k in m then Some(Str(m[k])) else None
  }

  /** `o[k]` on the own fields of an object. */
  function Field(m: map<string, Value>, k: string): Option<Value>
  {
    if k in m then Some(m[k]) else None
  }

  /** String coercion by `+`: `undefined` becomes the text "undefined".
      The same coercion turns an `undefined` property key into "undefined". */
  function ToStr(s: Option<string>): (r: string)
    ensures s.Some? ==> r == s.value
    ensures s.None? ==> r == "undefined"
  {
    if s.Some? then s.value else "undefined"
  }

  /** `a || b`: the left operand when it is truthy, else the right one. */
  function Or(a: Option<Value>, b: Option<Value>): (r: Option<Value>)
    ensures Truthy(r) <==> Truthy(a) || Truthy(b)
    ensures Truthy(a) ==> r == a
    ensures !Truthy(a) ==> r == b
  {
    if Truthy(a) then a else b
  }

  /** An object literal after `JSON.stringify`: members whose value is
      `undefined` are dropped. */
  function Record(m: map<string, Option<Value>>): (r: Value)
    ensures r.Obj?
    ensures forall k :: k in r.props <==> k in m && m[k].Some?
    ensures forall k :: k in r.props ==> Some(r.props[k]) == m[k]
  {
    Obj(map k | k in m && m[k].Some? :: m[k].value)
  }
}
