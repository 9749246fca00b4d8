/** Value-level stand-ins for the JavaScript values the plugin passes around:
    a possibly-undefined string, its truthiness, `||`, and template interpolation. */
module Values {

  datatype Option<+T> = None | Some(value: T)

  /** A check that either passes or throws the given error. */
  datatype Outcome<+E> = Pass | Fail(error: E)

  /** A computation that either produces a value or throws the given error. */
  datatype Result<+T, +E> = Success(value: T) | Failure(error: E)

  /** JavaScript truthiness of a value that is `undefined` or a string:
      `undefined` and the empty string are falsy, every other string is truthy. */
  predicate Truthy(v: Option<string>)
  {
    v.Some? && v.value != ""
  }

  /** `a || b`: the first operand when it is truthy, the second otherwise. */
  function Or(a: Option<string>, b: Option<string>): (r: Option<string>)
    ensures Truthy(r) <==> Truthy(a) || Truthy(b)
    ensures Truthy(a) ==> r == a
    ensures !Truthy(a) ==> r == b
  {
    if Truthy(a) then a else b
  }

  /** The text `${v}` produces inside a template literal. */
  function Template(v: Option<string>): string
  {
    match v
    case Some(x) => x
    case None => "undefined"
  }
}
