/** The optional-value datatype used for JavaScript values that may be
    absent: a `Status` property that is `undefined` or `null`, and a numeric
    result that is `NaN` because it came from dividing by an empty count. */
module Wrappers {

  datatype Option<+T> = None | Some(value: T)
}
