/** The states a dependency check can report. */
module Checks {
  datatype CheckState = Healthy | NeedsLogin | Misconfigured | Unavailable | Unknown

  /** Only what needs a person stops a run; a passing failure does not. */
  predicate Gates(s: CheckState) {
    s.NeedsLogin? || s.Misconfigured?
  }
}
