/** Python's `None`-or-value, used for optional arguments and optional fields of a query result. */
module Wrappers {

  datatype Option<+T> = None | Some(value: T)

  /** Python truthiness of an optional string: `None` and `""` are falsy. */
  predicate IsTruthyText(o: Option<string>)
  {
    o.Some? && o.value != ""
  }

  /** Python truthiness of an optional list: `None` and `[]` are falsy. */
  predicate IsTruthyList<T>(o: Option<seq<T>>)
  {
    o.Some? && o.value != []
  }
}
