/**
 * The helper types of the `util` package as the core uses them: the action
 * tag, the request-result tri-state and the search bar state.
 */
module Util {

  /** The persistence action a screen asks for. */
  datatype Action = NO_ACTION | ADD | UPDATE | DELETE | DELETE_ALL

  /**
   * `Action.name`: the constant's identifier, non-empty, upper-case letters
   * and underscores only (so it never contains the ": " that follows it in
   * a snackbar message).
   */
  function ActionName(a: Action): (r: string)
    ensures |r| > 0 && forall i :: 0 <= i < |r| ==> 'A' <= r[i] <= 'Z' || r[i] == '_'
  {
    match a
    case NO_ACTION => "NO_ACTION"
    case ADD => "ADD"
    case UPDATE => "UPDATE"
    case DELETE => "DELETE"
    case DELETE_ALL => "DELETE_ALL"
  }

  /** The status of an asynchronous read: idle, loading, a result, or a failure. */
  datatype RequestState<+T> = Idle | Loading | Success(data: T) | Error(error: string)

  /** Whether a search has been triggered from the list's app bar. */
  datatype SearchAppBarState = CLOSED | TRIGGERED
}
