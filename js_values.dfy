/** The few JavaScript value semantics the session code relies on: a value that is
    either `null`, `undefined` or a string; truthiness (`if (x)`, `!x`); the `||`
    operator used for fall-backs; and `String(x)`, the conversion performed by
    `localStorage.setItem`, template literals and `URLSearchParams`. */
module JsValues {

  datatype Option<+T> = None | Some(value: T)

  /** A JavaScript value in a position where the program expects a string. */
  datatype JsString = Null | Undefined | Str(s: string)

  /** JavaScript truthiness: `null`, `undefined` and `''` are falsy. */
  predicate Truthy(v: JsString) {
    v.Str? && v.s != ""
  }

  /** `a || b`: the first operand when it is truthy, otherwise the second. */
  function Or(a: JsString, b: JsString): (r: JsString)
    ensures Truthy(r) <==> Truthy(a) || Truthy(b)
    ensures Truthy(a) ==> r == a
    ensures !Truthy(a) ==> r == b
  {
    if Truthy(a) then a else b
  }

  /** `String(v)`: what a string-only sink (storage, URL parameters, a template
      literal) receives for `v`. */
  function ToText(v: JsString): (t: string)
    ensures t == "" <==> v == Str("")
  {
    match v
    case Null => "null"
    case Undefined => "undefined"
    case Str(s) => s
  }

  /** `localStorage.getItem`: `null` for a missing entry, its text otherwise. */
  function FromStorage(entry: Option<string>): (v: JsString)
    ensures Truthy(v) <==> entry.Some? && entry.value != ""
  {
    match entry
    case None => Null
    case Some(t) => Str(t)
  }

  /** Storing a value and reading it back yields its `String()` conversion:
      a stored `null` comes back as the truthy text "null". */
  lemma StoreThenRead(v: JsString)
    ensures FromStorage(Some(ToText(v))) == Str(ToText(v))
    ensures !v.Str? ==> Truthy(FromStorage(Some(ToText(v))))
  {
  }
}
