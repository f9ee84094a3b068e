/**
 * The list screen (`ListScreen.kt`): the add button's target, the swipe
 * handler, and the snackbar that reports an action and resets the tag.
 */
module ListScreen {
  import opened Wrappers
  import opened Tasks
  import opened Util
  import opened TaskStore
  import opened ViewModel

  /** The task id the add button asks the task screen for. */
  const FabTaskId: int := -1

  /** The add button's id never names a stored task, so the task screen opens empty. */
  lemma FabTaskIdNamesNoTask(t: Table)
    requires WellFormed(t)
    ensures FabTaskId !in t.rows
  {
  }

  /** The text a snackbar shows for an action on the task titled `taskTitle`. */
  function SetMessage(action: Action, taskTitle: string): (m: string)
    ensures action == DELETE_ALL ==> m == "Tasks has been removed"
    ensures action != DELETE_ALL ==> m == ActionName(action) + ": " + taskTitle
  {
    match action
    case DELETE_ALL => "Tasks has been removed"
    case _ => ActionName(action) + ": " + taskTitle
  }

  /**
   * The message identifies its action, and for every action but DELETE_ALL
   * also the task title: two equal messages come from the same action (and
   * the same title).
   */
  lemma MessageIdentifiesAction(a: Action, b: Action, t1: string, t2: string)
    requires SetMessage(a, t1) == SetMessage(b, t2)
    ensures a == b
    ensures a != DELETE_ALL ==> t1 == t2
  {
    var m := SetMessage(a, t1);
    assert m[0] == SetMessage(b, t2)[0];
    if a != DELETE_ALL {
      var prefix := ActionName(a) + ": ";
      assert m == prefix + t1 && m == prefix + t2;
      assert t1 == m[|prefix|..] == t2;
    }
  }

  /**
   * `DisplaySnackBar`'s effect for the tag it was composed with: a message
   * for every action but NO_ACTION (after which it resets the tag), nothing
   * for NO_ACTION.
   */
  function DisplaySnackBar(action: Action, taskTitle: string): (message: Option<string>)
    ensures message.Some? <==> action != NO_ACTION
    ensures message.Some? ==> message.value == SetMessage(action, taskTitle)
  {
    if action != NO_ACTION then Some(SetMessage(action, taskTitle)) else None
  }

  /**
   * The swipe handler: set the tag to the reported action and load the
   * swiped task into the buffer, so that the delete targets its id.
   */
  method OnSwipeToDelete(vm: SharedViewModel, action: Action, task: ToDoTask)
    modifies vm
    ensures vm.action == action && vm.Buffer() == task
    ensures vm.State() == old(vm.State()).(action := action, buffer := task)
  {
    vm.action := action;
    vm.UpdateTaskFields(Some(task));
  }

  /**
   * The delete that follows a swipe of a stored task removes exactly that
   * task's row: no row equals the swiped task afterwards, and the other
   * rows stay.
   */
  lemma SwipeDeleteRemovesSwipedTask(t: Table, task: ToDoTask)
    requires WellFormed(t) && task in t.rows.Values
    ensures Dispatch(t, task, DELETE).rows == t.rows - {task.id}
    ensures task !in Dispatch(t, task, DELETE).rows.Values
    ensures |Dispatch(t, task, DELETE).rows| == |t.rows| - 1
  {
    StoredRowsKeyedById(t);
    var r := Dispatch(t, task, DELETE);
    StoredRowsKeyedById(r);
  }

  /**
   * A repeated DELETE of the same task leaves the table as the first one
   * left it: a second report of a swipe only shows a second snackbar.
   */
  lemma RepeatedDeleteLeavesTable(t: Table, task: ToDoTask)
    requires WellFormed(t)
    ensures Dispatch(Dispatch(t, task, DELETE), task, DELETE) == Dispatch(t, task, DELETE)
  {
    var once := Dispatch(t, task, DELETE);
    assert once.rows - {task.id} == once.rows;
  }
}
