/** The numeric constraint that a range expression denotes. */
module Specs {
  import opened Wrappers

  /** The interval part of a range. */
  datatype Bounds =
    | Exact(value: real)
    | Between(from: real, to: real)
    | GreaterThan(value: real)
    | LessThan(value: real)

  /**
   * A range; when percentOf names another measured quantity, the bounds are
   * percentages of that quantity rather than pixels.
   */
  datatype Range = Range(bounds: Bounds, percentOf: Option<string>)
}
