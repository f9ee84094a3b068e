/**
 * The list screen's content (`ListContent.kt`): which task list to show,
 * the empty/non-empty choice, and the swipe-to-delete report.
 */
module ListContent {
  import opened Wrappers
  import opened Priorities
  import opened Tasks
  import opened Util
  import opened TaskStore

  /**
   * `ListContent`'s selection: nothing until the sort state is a Success;
   * then a triggered search shows the searched list (once it is a
   * Success); otherwise sort NONE shows all tasks (once a Success), LOW
   * and HIGH show their projections unconditionally, and MEDIUM matches no
   * branch and shows nothing.
   */
  function SelectTasks(
    allTasks: RequestState<seq<ToDoTask>>,
    searchedTasks: RequestState<seq<ToDoTask>>,
    lowPriorityTasks: seq<ToDoTask>,
    highPriorityTasks: seq<ToDoTask>,
    sortState: RequestState<Priority>,
    searchAppBarState: SearchAppBarState): (r: Option<seq<ToDoTask>>)
    ensures !sortState.Success? ==> r.None?
    ensures r.Some? ==>
      || (searchAppBarState == TRIGGERED && searchedTasks == Success(r.value))
      || (searchAppBarState != TRIGGERED && sortState == Success(NONE) && allTasks == Success(r.value))
      || (searchAppBarState != TRIGGERED && sortState == Success(LOW) && r.value == lowPriorityTasks)
      || (searchAppBarState != TRIGGERED && sortState == Success(HIGH) && r.value == highPriorityTasks)
  {
    if sortState.Success? then
      if searchAppBarState == TRIGGERED then
        if searchedTasks.Success? then Some(searchedTasks.data) else None
      else if sortState.data == NONE then
        if allTasks.Success? then Some(allTasks.data) else None
      else if sortState.data == LOW then Some(lowPriorityTasks)
      else if sortState.data == HIGH then Some(highPriorityTasks)
      else None
    else None
  }

  /**
   * A triggered search overrides the sort: with any resolved sort value the
   * searched list is shown exactly when it is a Success.
   */
  lemma SearchOverridesSort(
    allTasks: RequestState<seq<ToDoTask>>, searchedTasks: RequestState<seq<ToDoTask>>,
    low: seq<ToDoTask>, high: seq<ToDoTask>, sort: Priority)
    ensures SelectTasks(allTasks, searchedTasks, low, high, Success(sort), TRIGGERED) ==
      if searchedTasks.Success? then Some(searchedTasks.data) else None
  {
  }

  /** LOW and HIGH show their projection without looking at any tri-state. */
  lemma PriorityListsIgnoreChannels(
    allTasks: RequestState<seq<ToDoTask>>, searchedTasks: RequestState<seq<ToDoTask>>,
    low: seq<ToDoTask>, high: seq<ToDoTask>)
    ensures SelectTasks(allTasks, searchedTasks, low, high, Success(LOW), CLOSED) == Some(low)
    ensures SelectTasks(allTasks, searchedTasks, low, high, Success(HIGH), CLOSED) == Some(high)
  {
  }

  /** Sort NONE shows all tasks exactly when the all-tasks channel is a Success. */
  lemma NoneShowsAllTasks(
    allTasks: RequestState<seq<ToDoTask>>, searchedTasks: RequestState<seq<ToDoTask>>,
    low: seq<ToDoTask>, high: seq<ToDoTask>)
    ensures SelectTasks(allTasks, searchedTasks, low, high, Success(NONE), CLOSED) ==
      if allTasks.Success? then Some(allTasks.data) else None
  {
  }

  /** The MEDIUM gap: sort MEDIUM without a triggered search shows nothing. */
  lemma MediumShowsNothing(
    allTasks: RequestState<seq<ToDoTask>>, searchedTasks: RequestState<seq<ToDoTask>>,
    low: seq<ToDoTask>, high: seq<ToDoTask>)
    ensures SelectTasks(allTasks, searchedTasks, low, high, Success(MEDIUM), CLOSED).None?
  {
  }

  /**
   * Over the coordinator's live data (the all-tasks channel holding the
   * current rows, the projections recomputed from the table), a closed
   * search shows: for NONE every stored task, for LOW exactly the stored
   * LOW tasks, for HIGH exactly the stored HIGH tasks, for MEDIUM nothing.
   */
  lemma SelectionOverTable(t: Table, searchedTasks: RequestState<seq<ToDoTask>>, sort: Priority)
    requires WellFormed(t)
    ensures var r := SelectTasks(Success(AllTasks(t)), searchedTasks,
                                 LowPriorityTasks(t), HighPriorityTasks(t), Success(sort), CLOSED);
      && (r.Some? <==> sort != MEDIUM)
      && (sort == NONE ==> forall x :: x in r.value <==> x in t.rows.Values)
      && (sort == LOW ==> forall x :: x in r.value <==> x in t.rows.Values && x.priority == LOW)
      && (sort == HIGH ==> forall x :: x in r.value <==> x in t.rows.Values && x.priority == HIGH)
  {
  }

  /** What `HandleListContent` renders. */
  datatype ListView = EmptyContent | DisplayTasks(tasks: seq<ToDoTask>)

  /** `HandleListContent`: the empty view for an empty list, otherwise the list unchanged. */
  function HandleListContent(tasks: seq<ToDoTask>): (v: ListView)
    ensures v.EmptyContent? <==> |tasks| == 0
    ensures v.DisplayTasks? ==> v.tasks == tasks
  {
    if |tasks| == 0 then EmptyContent else DisplayTasks(tasks)
  }

  /** A swipe direction. */
  datatype DismissDirection = StartToEnd | EndToStart

  /**
   * `DisplayTasks`' swipe check for one item: a swipe fully dismissed
   * towards the start reports (DELETE, that item); anything else reports
   * nothing.
   */
  function OnItemDismissed(task: ToDoTask, isDismissedEndToStart: bool, dismissDirection: Option<DismissDirection>)
    : (r: Option<(Action, ToDoTask)>)
    ensures r.Some? <==> isDismissedEndToStart && dismissDirection == Some(EndToStart)
    ensures r.Some? ==> r.value.0 == DELETE && r.value.1 == task
  {
    if isDismissedEndToStart && dismissDirection == Some(EndToStart) then Some((DELETE, task)) else None
  }
}
