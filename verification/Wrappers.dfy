/** The optional value and the small functions shared by every component of the model. */
module Wrappers {

  datatype Option<+T> = None | Some(value: T)

  function Or<T>(o: Option<T>, otherwise: T): T {
    if o.Some? then o.value else otherwise
  }

  function Max(a: int, b: int): int {
    if a < b then b else a
  }

  function Min(a: int, b: int): int {
    if a < b then a else b
  }
}
