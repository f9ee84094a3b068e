/**
 * The view-state coordinator (`SharedViewModel.kt`). Each coroutine it
 * launches is one atomic step: a mutation of the task table happens in the
 * call that launches it, and each emission of a live query is its own
 * `Collect…` step.
 */
module ViewModel {
  import opened Wrappers
  import opened Priorities
  import opened Tasks
  import opened Util
  import opened TaskStore
  import opened DataStore

  /** The edit buffer after a reset: no id, empty texts, priority LOW. */
  const EmptyBuffer: ToDoTask := ToDoTask(0, "", "", LOW)

  /**
   * What `handleDatabaseActions(a)` does to the task table, given the edit
   * buffer: ADD inserts the buffer's texts and priority under a fresh key,
   * UPDATE and DELETE act on the row keyed by the buffer's id, DELETE_ALL
   * empties the table, and anything else leaves it alone.
   */
  function Dispatch(t: Table, buffer: ToDoTask, a: Action): (r: Table)
    requires WellFormed(t)
    ensures WellFormed(r)
    ensures a == ADD ==>
      && t.nextId !in t.rows
      && r.rows.Keys == t.rows.Keys + {t.nextId}
      && r.rows[t.nextId] == buffer.(id := t.nextId)
      && forall k :: k in t.rows ==> r.rows[k] == t.rows[k]
    ensures a == UPDATE ==>
      && r.rows.Keys == t.rows.Keys
      && forall k :: k in t.rows ==> r.rows[k] == if k == buffer.id then buffer else t.rows[k]
    ensures a == DELETE ==> r.rows == t.rows - {buffer.id}
    ensures a == DELETE_ALL ==> r.rows == map[]
    ensures a == NO_ACTION ==> r == t
  {
    match a
    case ADD => Insert(t, NewTask(buffer.title, buffer.description, buffer.priority))
    case UPDATE => Update(t, ToDoTask(buffer.id, buffer.title, buffer.description, buffer.priority))
    case DELETE => Delete(t, ToDoTask(buffer.id, buffer.title, buffer.description, buffer.priority))
    case DELETE_ALL => DeleteAll(t)
    case NO_ACTION => t
  }

  /**
   * UPDATE and DELETE issued with a reset buffer target no row: id 0 is
   * never a stored key, so the table is unchanged.
   */
  lemma ResetBufferTargetsNoRow(t: Table, a: Action)
    requires WellFormed(t) && (a == UPDATE || a == DELETE)
    ensures Dispatch(t, EmptyBuffer, a) == t
  {
    assert 0 !in t.rows;
    if a == DELETE {
      assert t.rows - {0} == t.rows;
    }
  }

  /** ADD ignores the buffer's id: the new row's key comes from the table. */
  lemma AddIgnoresBufferId(t: Table, buffer: ToDoTask, otherId: int)
    requires WellFormed(t)
    ensures Dispatch(t, buffer, ADD) == Dispatch(t, buffer.(id := otherId), ADD)
  {
  }

  /**
   * The worked example: adding ("Buy milk", "2%", LOW) to an empty table
   * stores it under id 1; it is the whole all-tasks list and the whole
   * low-priority list, and the high-priority list stays empty.
   */
  lemma BuyMilkExample()
    ensures var t := Dispatch(Empty, ToDoTask(0, "Buy milk", "2%", LOW), ADD);
      && AllTasks(t) == [ToDoTask(1, "Buy milk", "2%", LOW)]
      && LowPriorityTasks(t) == [ToDoTask(1, "Buy milk", "2%", LOW)]
      && HighPriorityTasks(t) == []
  {
    var row := ToDoTask(1, "Buy milk", "2%", LOW);
    var t := Dispatch(Empty, ToDoTask(0, "Buy milk", "2%", LOW), ADD);
    assert t.rows == map[1 := row] && t.nextId == 2;
    assert RowsBetween(t.rows, 2, 2) == [];
    assert AllTasks(t) == [row];
  }

  /** Why a step of the sort-state subscription ended with an uncaught exception. */
  datatype Uncaught = ReadFailed(fault: ReadFault) | UnknownPriority(name: string)

  /** Everything the coordinator holds, as one value. */
  datatype ViewState = ViewState(
    action: Action,
    buffer: ToDoTask,
    searchAppBarState: SearchAppBarState,
    searchTextState: string,
    searchedTasks: RequestState<seq<ToDoTask>>,
    allTasks: RequestState<seq<ToDoTask>>,
    sortState: RequestState<Priority>,
    sortCollecting: bool,
    store: Table)

  class SharedViewModel {
    /** The action tag. */
    var action: Action
    /** The edit buffer, one field per task field. */
    var id: int
    var title: string
    var description: string
    var priority: Priority
    /** The search bar. */
    var searchAppBarState: SearchAppBarState
    var searchTextState: string
    /** The three request-result channels. */
    var searchedTasks: RequestState<seq<ToDoTask>>
    var allTasks: RequestState<seq<ToDoTask>>
    var sortState: RequestState<Priority>
    /** Whether the sort-state subscription is still collecting. */
    var sortCollecting: bool
    /** The task table behind the task repository. */
    var store: Table
    /** The sort preference repository. */
    const dataStoreRepo: DataStoreRepo

    ghost predicate Valid()
      reads this
    {
      WellFormed(store)
    }

    /** The edit buffer as a task. */
    function Buffer(): ToDoTask
      reads this
    {
      ToDoTask(id, title, description, priority)
    }

    /** The coordinator's whole state. */
    function State(): ViewState
      reads this
    {
      ViewState(action, Buffer(), searchAppBarState, searchTextState,
                searchedTasks, allTasks, sortState, sortCollecting, store)
    }

    /** The low-priority projection, recomputed from the table. */
    function LowPriorityTasks(): (r: seq<ToDoTask>)
      reads this
      requires Valid()
      ensures forall x :: x in r <==> x in store.rows.Values && x.priority == LOW
    {
      TaskStore.LowPriorityTasks(store)
    }

    /** The high-priority projection, recomputed from the table. */
    function HighPriorityTasks(): (r: seq<ToDoTask>)
      reads this
      requires Valid()
      ensures forall x :: x in r <==> x in store.rows.Values && x.priority == HIGH
    {
      TaskStore.HighPriorityTasks(store)
    }

    /**
     * A coordinator over a table and a preference repository: the fields
     * take their initial values (every channel Idle), then `init` starts
     * the all-tasks and sort-state reads, which puts those two in Loading
     * and starts the sort-state subscription.
     */
    constructor (dataStoreRepo: DataStoreRepo, store: Table)
      requires WellFormed(store)
      ensures Valid()
      ensures this.dataStoreRepo == dataStoreRepo
      ensures State() == ViewState(NO_ACTION, EmptyBuffer, CLOSED, "", Idle, Loading, Loading, true, store)
    {
      action := NO_ACTION;
      id := 0;
      title := "";
      description := "";
      priority := LOW;
      searchAppBarState := CLOSED;
      searchTextState := "";
      searchedTasks := Idle;
      allTasks := Idle;
      sortState := Idle;
      sortCollecting := false;
      this.store := store;
      this.dataStoreRepo := dataStoreRepo;
      new;
      GetAllTasks();
      ReadSortState();
    }

    /** `readSortState`: the channel enters Loading and the subscription starts. */
    method ReadSortState()
      modifies this
      ensures State() == old(State()).(sortState := Loading, sortCollecting := true)
    {
      sortState := Loading;
      sortCollecting := true;
    }

    /**
     * One emission of the sort-state subscription: read the slot, parse
     * it with `valueOf`, publish Success. An IOException is replaced by
     * empty preferences, read as "NONE", after which the preference flow
     * completes. A rethrown read failure or a failed parse escapes the
     * collector (the try/catch only surrounds the launch), so the channel
     * keeps its value, the subscription ends and the failure is reported
     * as uncaught in the coordinator's scope.
     */
    method CollectSortState(fault: Option<ReadFault>) returns (uncaught: Option<Uncaught>)
      requires sortCollecting
      modifies this
      ensures var read := DataStore.ReadSortState(dataStoreRepo.slot, fault);
        && (uncaught.None? <==> read.Ok? && ValueOf(read.value).Some?)
        && (uncaught.None? ==> State() == old(State()).(
              sortState := Success(ValueOf(read.value).value),
              sortCollecting := fault != Some(IOException)))
        && (uncaught.Some? ==> State() == old(State()).(sortCollecting := false))
      ensures sortCollecting <==> uncaught.None? && fault != Some(IOException)
      ensures HoldsPriorityName(dataStoreRepo.slot) ==>
        (uncaught.None? <==> !(fault.Some? && fault.value.OtherException?))
      ensures fault == Some(IOException) ==> sortState == Success(NONE)
      ensures fault.None? && dataStoreRepo.slot.Some? && uncaught.None? ==>
        Name(sortState.data) == dataStoreRepo.slot.value
    {
      var read := DataStore.ReadSortState(dataStoreRepo.slot, fault);
      if HoldsPriorityName(dataStoreRepo.slot) {
        ReadYieldsParsableName(dataStoreRepo.slot, fault);
      }
      ValueOfName(NONE);
      if read.Err? {
        uncaught := Some(ReadFailed(read.error));
        sortCollecting := false;
      } else {
        var parsed := ValueOf(read.value);
        if parsed.Some? {
          sortState := Success(parsed.value);
          uncaught := None;
          sortCollecting := fault != Some(IOException);
        } else {
          uncaught := Some(UnknownPriority(read.value));
          sortCollecting := false;
        }
      }
    }

    /**
     * `persistSortState`: write the preference; the sort channel is not
     * touched (it changes only when the subscription reads the write back).
     */
    method PersistSortState(priority: Priority)
      modifies dataStoreRepo
      ensures dataStoreRepo.slot == Some(Name(priority))
      ensures State() == old(State())
    {
      dataStoreRepo.WriteSortState(priority);
    }

    /**
     * `searchDatabase`: the searched channel enters Loading, the query is
     * wrapped in `%` wildcards for the repository, and the search bar ends
     * TRIGGERED.
     */
    method SearchDatabase(searchQuery: string) returns (pattern: string)
      modifies this
      ensures pattern == "%" + searchQuery + "%"
      ensures |pattern| == |searchQuery| + 2 && pattern[1..|pattern| - 1] == searchQuery
      ensures State() == old(State()).(searchedTasks := Loading, searchAppBarState := TRIGGERED)
    {
      searchedTasks := Loading;
      pattern := "%" + searchQuery + "%";
      searchAppBarState := TRIGGERED;
    }

    /** One emission of the search subscription: the repository's result list. */
    method CollectSearchedTasks(result: seq<ToDoTask>)
      modifies this
      ensures State() == old(State()).(searchedTasks := Success(result))
    {
      searchedTasks := Success(result);
    }

    /** `getAllTasks`: the all-tasks channel enters Loading before the subscription starts. */
    method GetAllTasks()
      modifies this
      ensures State() == old(State()).(allTasks := Loading)
    {
      allTasks := Loading;
    }

    /** One emission of the all-tasks subscription: every row, by ascending id. */
    method CollectAllTasks()
      requires Valid()
      modifies this
      ensures Valid()
      ensures State() == old(State()).(allTasks := Success(AllTasks(store)))
      ensures forall x :: x in allTasks.data <==> x in store.rows.Values
      ensures StrictlyAscending(allTasks.data)
    {
      allTasks := Success(AllTasks(store));
    }

    /**
     * `updateTaskFields`: load a selected task into the buffer, or reset
     * the buffer when there is none; nothing else changes.
     */
    method UpdateTaskFields(selectedTask: Option<ToDoTask>)
      modifies this
      ensures Buffer() == selectedTask.GetOr(EmptyBuffer)
      ensures State() == old(State()).(buffer := selectedTask.GetOr(EmptyBuffer))
    {
      if selectedTask.Some? {
        id := selectedTask.value.id;
        title := selectedTask.value.title;
        description := selectedTask.value.description;
        priority := selectedTask.value.priority;
      } else {
        id := 0;
        title := "";
        description := "";
        priority := LOW;
      }
    }

    /** `validateInputs`: both texts are non-empty; id and priority play no part. */
    method ValidateInputs() returns (valid: bool)
      ensures valid <==> |title| > 0 && |description| > 0
    {
      valid := title != "" && description != "";
    }

    /** `handleDatabaseActions`: run the table mutation the action names. */
    method HandleDatabaseActions(action: Action)
      requires Valid()
      modifies this
      ensures Valid()
      ensures State() == old(State()).(
        store := Dispatch(old(store), old(Buffer()), action),
        searchAppBarState := if action == ADD then CLOSED else old(searchAppBarState))
    {
      match action
      case ADD => AddTask();
      case UPDATE => UpdateTask();
      case DELETE => DeleteTask();
      case DELETE_ALL => DeleteAllTasks();
      case NO_ACTION =>
    }

    /** `addTask`: insert the buffer as a new task, and close the search bar. */
    method AddTask()
      requires Valid()
      modifies this
      ensures Valid()
      ensures State() == old(State()).(
        store := Insert(old(store), NewTask(title, description, priority)),
        searchAppBarState := CLOSED)
    {
      store := Insert(store, NewTask(title, description, priority));
      searchAppBarState := CLOSED;
    }

    /** `updateTask`: overwrite the row keyed by the buffer's id with the buffer. */
    method UpdateTask()
      requires Valid()
      modifies this
      ensures Valid()
      ensures State() == old(State()).(store := Update(old(store), Buffer()))
    {
      store := Update(store, ToDoTask(id, title, description, priority));
    }

    /** `deleteTask`: remove the row keyed by the buffer's id. */
    method DeleteTask()
      requires Valid()
      modifies this
      ensures Valid()
      ensures State() == old(State()).(store := Delete(old(store), Buffer()))
    {
      store := Delete(store, ToDoTask(id, title, description, priority));
    }

    /** `deleteAllTasks`: remove every row. */
    method DeleteAllTasks()
      requires Valid()
      modifies this
      ensures Valid()
      ensures State() == old(State()).(store := DeleteAll(old(store)))
    {
      store := DeleteAll(store);
    }
  }
}
