/** Optional values and the JavaScript truthiness rules the reducer relies on. */
module Options {

  /** A value that may be `undefined`: `None` stands for `undefined`. */
  datatype Option<+T> = None | Some(value: T)

  /** JavaScript truthiness of a value that is either `undefined` or a string:
      only a non-empty string is truthy. */
  predicate Truthy(o: Option<string>) {
    o.Some? && o.value != ""
  }

  /** The JavaScript expression `a || b` on two such values. */
  function Or(a: Option<string>, b: Option<string>): (r: Option<string>)
    ensures r == a || r == b
    ensures Truthy(r) <==> Truthy(a) || Truthy(b)
    ensures Truthy(a) ==> r == a
    ensures !Truthy(a) ==> r == b
  {
    if Truthy(a) then a else b
  }

  /** How a template literal renders such a value: `undefined` prints as its name. */
  function Interpolate(o: Option<string>): (r: string)
    ensures o.Some? ==> r == o.value
    ensures o.None? ==> r == "undefined"
  {
    match o
    case Some(s) => s
    case None => "undefined"
  }
}
