/** JavaScript values as the handlers see them: a field or query parameter
    that may be `undefined`, the truthiness test `!x` applied to it, and the
    coercion of such a value to text inside a string concatenation. */
module JsValues {

  /** A value that is either present or JavaScript's `undefined`. */
  datatype Option<+T> = None | Some(value: T) {
    function GetOr(default: T): T {
      match this
      case Some(v) => v
      case None => default
    }
  }

  /** The outcome of a call into the `openid-client` library (discovery, code
      exchange, refresh): the promise either resolves or rejects with a cause. */
  datatype Attempt<+T> = Ok(value: T) | Err(cause: string)

  /** `!!x` for a string-valued field: `undefined` and `""` are falsy. */
  predicate Truthy(x: Option<string>) {
    x.Some? && x.value != ""
  }

  /** `'' + x`: an absent value is rendered as the text "undefined". */
  function Text(x: Option<string>): string {
    match x
    case Some(s) => s
    case None => "undefined"
  }

  /** `a || b` on two string-valued fields. */
  function Or(a: Option<string>, b: Option<string>): Option<string> {
    if Truthy(a) then a else b
  }
}
