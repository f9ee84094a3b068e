/**
 * The task screen's app bar (`TaskAppBar.kt`): which bar is shown, the
 * action each button emits, and the confirmation dialog in front of delete.
 */
module TaskAppBar {
  import opened Wrappers
  import opened Tasks
  import opened Util

  /** The two bars. */
  datatype AppBar = NewTaskAppBar | ExistingTaskAppBar(selectedTask: ToDoTask)

  /** No selected task gives the new-task bar; a selected task gives the existing-task bar. */
  function ChooseAppBar(selectedTask: Option<ToDoTask>): (bar: AppBar)
    ensures bar.NewTaskAppBar? <==> selectedTask.None?
    ensures bar.ExistingTaskAppBar? ==> bar.selectedTask == selectedTask.value
  {
    if selectedTask.None? then NewTaskAppBar else ExistingTaskAppBar(selectedTask.value)
  }

  /** The new-task bar's buttons. */
  datatype NewBarClick = BackClicked | AddClicked

  /** The new-task bar emits NO_ACTION for back and ADD for the check mark, nothing else. */
  function NewBarAction(click: NewBarClick): (a: Action)
    ensures a == NO_ACTION || a == ADD
    ensures a == ADD <==> click == AddClicked
  {
    match click
    case BackClicked => NO_ACTION
    case AddClicked => ADD
  }

  /** What can happen on the existing-task bar, its dialog included. */
  datatype ExistingBarClick = CloseClicked | UpdateClicked | DeleteClicked | DialogClosed | YesClicked

  /** The dialog flag after a click, and the action the click emits. */
  datatype BarStep = BarStep(openDialog: bool, emitted: Option<Action>)

  /**
   * The existing-task bar: close emits NO_ACTION and the check mark
   * UPDATE; the delete button only opens the dialog; closing the dialog
   * only clears the flag; the dialog's yes emits DELETE, and can be
   * clicked only while the dialog is open.
   */
  function ExistingBarStep(openDialog: bool, click: ExistingBarClick): (r: BarStep)
    ensures r.emitted == Some(DELETE) <==> click == YesClicked && openDialog
    ensures r.emitted.Some? ==> r.emitted.value in {NO_ACTION, UPDATE, DELETE}
    ensures click == CloseClicked ==> r == BarStep(openDialog, Some(NO_ACTION))
    ensures click == UpdateClicked ==> r == BarStep(openDialog, Some(UPDATE))
    ensures click == DeleteClicked ==> r == BarStep(true, None)
    ensures click == DialogClosed ==> r == BarStep(false, None)
    ensures click == YesClicked ==> r == BarStep(openDialog, if openDialog then Some(DELETE) else None)
  {
    match click
    case CloseClicked => BarStep(openDialog, Some(NO_ACTION))
    case UpdateClicked => BarStep(openDialog, Some(UPDATE))
    case DeleteClicked => BarStep(true, None)
    case DialogClosed => BarStep(false, None)
    case YesClicked => if openDialog then BarStep(openDialog, Some(DELETE)) else BarStep(openDialog, None)
  }

  /** The dialog flag after a sequence of clicks on a freshly shown bar. */
  function DialogOpenAfter(clicks: seq<ExistingBarClick>): bool
    decreases |clicks|
  {
    if clicks == [] then false
    else ExistingBarStep(DialogOpenAfter(clicks[..|clicks| - 1]), clicks[|clicks| - 1]).openDialog
  }

  /**
   * An open dialog was opened by the delete button, and has not been
   * closed since.
   */
  lemma {:induction false} OpenDialogCameFromDelete(clicks: seq<ExistingBarClick>)
    requires DialogOpenAfter(clicks)
    ensures exists j :: 0 <= j < |clicks| && clicks[j] == DeleteClicked &&
                        forall k :: j < k < |clicks| ==> clicks[k] != DialogClosed
    decreases |clicks|
  {
    var n := |clicks|;
    var prefix := clicks[..n - 1];
    if clicks[n - 1] == DeleteClicked {
      assert clicks[n - 1] == DeleteClicked;
    } else {
      assert DialogOpenAfter(prefix);
      OpenDialogCameFromDelete(prefix);
      var j :| 0 <= j < |prefix| && prefix[j] == DeleteClicked &&
        forall k :: j < k < |prefix| ==> prefix[k] != DialogClosed;
      assert clicks[j] == DeleteClicked;
      assert forall k :: j < k < n ==> clicks[k] != DialogClosed by {
        forall k | j < k < n ensures clicks[k] != DialogClosed {
          if k < n - 1 {
            assert clicks[k] == prefix[k];
          }
        }
      }
    }
  }

  /**
   * Delete needs confirmation: a click that emits DELETE is the dialog's
   * yes, and some earlier click pressed delete with no close of the dialog
   * in between.
   */
  lemma DeleteOnlyAfterConfirmation(clicks: seq<ExistingBarClick>, i: nat)
    requires i < |clicks|
    requires ExistingBarStep(DialogOpenAfter(clicks[..i]), clicks[i]).emitted == Some(DELETE)
    ensures clicks[i] == YesClicked
    ensures exists j :: 0 <= j < i && clicks[j] == DeleteClicked &&
                        forall k :: j < k < i ==> clicks[k] != DialogClosed
  {
    var prefix := clicks[..i];
    OpenDialogCameFromDelete(prefix);
    var j :| 0 <= j < |prefix| && prefix[j] == DeleteClicked &&
      forall k :: j < k < |prefix| ==> prefix[k] != DialogClosed;
    assert clicks[j] == DeleteClicked;
    forall k | j < k < i ensures clicks[k] != DialogClosed {
      assert clicks[k] == prefix[k];
    }
  }

  /** The existing-task bar's actions, with its remembered dialog flag. */
  class ExistingTaskAppBarAction {
    var openDialog: bool

    constructor ()
      ensures !openDialog
    {
      openDialog := false;
    }

    /** Handle one click, setting or clearing the flag as the buttons do. */
    method OnClick(click: ExistingBarClick) returns (emitted: Option<Action>)
      modifies this
      ensures BarStep(openDialog, emitted) == ExistingBarStep(old(openDialog), click)
    {
      match click
      case CloseClicked => emitted := Some(NO_ACTION);
      case UpdateClicked => emitted := Some(UPDATE);
      case DeleteClicked =>
        openDialog := true;
        emitted := None;
      case DialogClosed =>
        openDialog := false;
        emitted := None;
      case YesClicked =>
        emitted := if openDialog then Some(DELETE) else None;
    }
  }
}
