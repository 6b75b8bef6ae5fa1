/** The value-or-nothing wrapper used for JavaScript's `undefined`/`null` results. */
module Optional {

  datatype Option<+T> = None | Some(value: T) {

    /** The wrapped value, or `default` when there is none. */
    function GetOr(default: T): T {
      match this
      case Some(v) => v
      case None => default
    }
  }

  /** JavaScript truthiness of an optional string: defined and non-empty. */
  predicate Truthy(o: Option<string>) {
    o.Some? && o.value != ""
  }

  /** `xs[0]` in JavaScript: `undefined` on an empty array. */
  function First<T>(xs: seq<T>): Option<T>
  {
    if xs == [] then None else Some(xs[0])
  }
}
