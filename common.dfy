/** Small value wrappers shared by the page models. */
module Common {

  /** An optional field of a record (`field?: T` in the source types). */
  datatype Option<+T> = None | Some(value: T)

  /** The value of a filter drop-down: either 'all' or one concrete value. */
  datatype Selection<T(==)> = All | Only(value: T)
  {
    /** True when an item whose attribute is `x` passes this drop-down. */
    predicate Admits(x: T)
    {
      match this
      case All => true
      case Only(v) => v == x
    }
  }
}
