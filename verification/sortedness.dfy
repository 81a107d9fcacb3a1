/** The sortedness metadata flag attached to a column. */
module Sortedness {

  /** Metadata only: a hint consumed by downstream operators, never checked against the values. */
  datatype IsSorted = Ascending | Descending | Not

  /**
   * The rule that merges a source column's flag with the caller's hint about the
   * addresses. Its definition lives outside the gather engine, so every gather that
   * sets a flag takes it as a parameter and treats it as uninterpreted.
   */
  type SortedFlagFn = (IsSorted, IsSorted) -> IsSorted
}
