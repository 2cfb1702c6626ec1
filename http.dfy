/**
 * Facts of the Fetch standard that both tools rely on.
 */
module Http {

  /**
   * The statuses whose response carries no body at all (the null body
   * statuses of the Fetch standard). Such a body reads as the empty text,
   * which does not parse as JSON, and is never consumed by reading it.
   */
  predicate NullBodyStatus(status: int) {
    status == 101 || status == 103 || status == 204 || status == 205 || status == 304
  }
}
