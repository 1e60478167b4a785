/** A value that may be missing. The model uses `Nothing` for a JavaScript
    field that is absent, `undefined` or `null`; `x ?? d` is `x.OrElse(d)`. */
module Options {

  datatype Option<T> = Nothing | Some(value: T) {

    /** `this ?? fallback`: a present value wins, a missing one gives way. */
    function OrElse(fallback: T): T {
      if Some? then value else fallback
    }
  }
}
