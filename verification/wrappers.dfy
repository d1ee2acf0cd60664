/** The Option type shared by every module: JavaScript `null`/`undefined`,
    Python `None` and a missing dictionary key all become `None`. */
module Wrappers {

  datatype Option<+T> = None | Some(value: T) {

    /** The value, or `default` when there is none. */
    function GetOr(default: T): T {
      match this
      case Some(v) => v
      case None => default
    }
  }

  /** JavaScript and Python truthiness of an optional string: absent and empty are falsy. */
  predicate Truthy(s: Option<string>) {
    s.Some? && s.value != ""
  }

  /** `a || b` / `a or b` on optional strings: the first operand when it is truthy. */
  function OrElse(a: Option<string>, b: Option<string>): Option<string> {
    if Truthy(a) then a else b
  }
}
