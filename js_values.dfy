/** Values as the page scripts see them after JSON parsing: a key may be absent,
    and a string may be present but empty, which JavaScript treats as false. */
module JsValues {

  /** An optional value: `None` is an absent key (`undefined`). */
  datatype Option<+T> = None | Some(value: T) {

    /** `x || dflt` for a value that is always truthy when present (an array or an object). */
    function GetOr(dflt: T): T {
      match this
      case Some(v) => v
      case None => dflt
    }
  }

  /** JavaScript truthiness of an optional string: absent and "" are falsy. */
  predicate Truthy(o: Option<string>) {
    o.Some? && o.value != ""
  }

  /** `o || fallback` for an optional string. */
  function OrElse(o: Option<string>, fallback: string): string {
    if Truthy(o) then o.value else fallback
  }
}
