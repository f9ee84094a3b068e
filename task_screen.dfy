/**
 * The task screen (`TaskScreen.kt`): the validation gate in front of
 * navigation back to the list, and the callbacks that edit the buffer.
 */
module TaskScreen {
  import opened Priorities
  import opened Util
  import opened ViewModel

  /** What a request to leave the task screen produces. */
  datatype Navigation = NavigateToList(action: Action) | MissingInputs

  /**
   * The gate: NO_ACTION always navigates; any other action navigates only
   * when the inputs are valid, and otherwise only the "Missing inputs"
   * notice appears.
   */
  function Gate(action: Action, inputsValid: bool): (r: Navigation)
    ensures r.NavigateToList? <==> action == NO_ACTION || inputsValid
    ensures r.NavigateToList? ==> r.action == action
  {
    if action == NO_ACTION then NavigateToList(action)
    else if inputsValid then NavigateToList(action)
    else MissingInputs
  }

  /** The back gesture navigates with NO_ACTION. */
  function OnBackPressed(): (r: Navigation)
    ensures r == NavigateToList(NO_ACTION)
  {
    NavigateToList(NO_ACTION)
  }

  /** The back gesture goes where the gate would send NO_ACTION, valid inputs or not. */
  lemma BackAgreesWithGate(inputsValid: bool)
    ensures OnBackPressed() == Gate(NO_ACTION, inputsValid)
  {
  }

  /**
   * The app bar's callback: consult `validateInputs` only for actions
   * other than NO_ACTION. It changes nothing: on failure the buffer and
   * the tag stay as they were.
   */
  method OnAppBarAction(vm: SharedViewModel, action: Action) returns (r: Navigation)
    ensures r.NavigateToList? <==> action == NO_ACTION || (|vm.title| > 0 && |vm.description| > 0)
    ensures r.NavigateToList? ==> r.action == action
    ensures r == Gate(action, |vm.title| > 0 && |vm.description| > 0)
  {
    if action == NO_ACTION {
      r := NavigateToList(action);
    } else {
      var valid := vm.ValidateInputs();
      if valid {
        r := NavigateToList(action);
      } else {
        r := MissingInputs;
      }
    }
  }

  /** The title field's callback writes the title and nothing else. */
  method OnTitleChanged(vm: SharedViewModel, title: string)
    modifies vm
    ensures vm.State() == old(vm.State()).(buffer := old(vm.Buffer()).(title := title))
  {
    vm.title := title;
  }

  /** The description field's callback writes the description and nothing else. */
  method OnDescriptionChange(vm: SharedViewModel, description: string)
    modifies vm
    ensures vm.State() == old(vm.State()).(buffer := old(vm.Buffer()).(description := description))
  {
    vm.description := description;
  }

  /** The priority menu's callback writes the priority and nothing else. */
  method OnPrioritySelected(vm: SharedViewModel, priority: Priority)
    modifies vm
    ensures vm.State() == old(vm.State()).(buffer := old(vm.Buffer()).(priority := priority))
  {
    vm.priority := priority;
  }
}
