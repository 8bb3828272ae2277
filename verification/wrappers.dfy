/** Optional values, and results that are either a value or the Python exception
    the modelled code raises instead of returning. */
module Wrappers {

  datatype Option<+T> = None | Some(value: T)

  /** The exception classes the layout code can raise. */
  datatype Exception =
    | IndexError          // `layout[0]` of a layout with no rows
    | AttributeError      // an operand without a `.layout` attribute
    | ValueError          // `Plot * x` for an `x` that is not a Plot
    | TypeError           // the left operand's class does not define the operator
    | ZeroDivisionError   // `ncols // len(row)` for an empty row

  datatype Result<+T> = Ok(value: T) | Err(error: Exception)
}
