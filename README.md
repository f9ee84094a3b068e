# Notes-App task-list coordinator, modelled in Dafny

This project models the core of a single-user Android notes/task app.
A task has an id, a title, a description and a priority (HIGH, MEDIUM, LOW or NONE).
At the centre is the shared view-state coordinator, `SharedViewModel`. It holds:

- the edit buffer (id, title, description, priority);
- the action tag (NO_ACTION, ADD, UPDATE, DELETE or DELETE_ALL);
- the search bar state and the search text;
- three request-result channels (`Idle | Loading | Success | Error`): all tasks, searched tasks, and the sort state.

It turns actions into mutations of the task table, and it reads the persisted sort preference.
The model also covers the decision rules around it:

- which list the list screen shows, including the MEDIUM gap;
- the navigation handshake that fires each new action's mutation exactly once and then resets the tag;
- the validation gate on the task screen;
- the confirmation dialog in front of delete;
- the sort preference's write/read/parse round trip.

Coroutines are flattened: each launched mutation happens in the call that launches it.
Each emission of a live subscription is its own step (`CollectAllTasks`, `CollectSearchedTasks`, `CollectSortState`).
The Room table behind the task repository is an abstract `Table`: a map from key to task, plus the AUTOINCREMENT counter.
Live queries are functions recomputed from that table.

Modules, one per source file:

- `Priorities` (Priority.kt) and `Tasks` (ToDoTask.kt).
- `Util`: the action, request-state and search-bar types of the `util` package, which is not part of this model; only the cases the core uses are defined.
- `DataStore` (DataStoreRepo.kt).
- `TaskStore`: the task table as the coordinator uses it.
- `ViewModel` (SharedViewModel.kt).
- `ListContent`, `ListScreen`, `ListComposable`, `TaskScreen`, `TaskAppBar`: the UI files of the same names.
- `Wrappers`: `Option` and `Result`.

A stored sort value that is not a priority name does not make the sort channel an `Error`.
`Priority.valueOf` runs inside `collect`, and the `try`/`catch` surrounds only `launch`, so the exception escapes the collector.
The channel keeps its value, the subscription ends, and the failure is uncaught in the coordinator's scope.
With no handler installed, that uncaught exception ends the app's process, and since the malformed value stays stored, every later start fails the same way; the model only reports the failure (see "## Left out").
`CollectSortState` models exactly that, and a non-IO read failure, which is rethrown, goes the same way.
An IOException is replaced by empty preferences, read as "NONE", after which the preference flow completes; later writes are then never read back.

## Model

| member | source | states |
|---|---|---|
| `Priorities.ValueOf` | app/src/main/java/com/notesapp/data/model/Priority.kt:10-15 | a successful parse returns the constant with exactly that name; a failed parse means no constant has that name |
| `Priorities.ValueOfName` | app/src/main/java/com/notesapp/data/model/Priority.kt:10-15 | `valueOf(p.name) == p` for every priority |
| `Priorities.ValueOfExactlyNames` | app/src/main/java/com/notesapp/data/model/Priority.kt:10-15 | `valueOf(s)` succeeds iff `s` is one of the four names |
| `Priorities.NamesDistinct` | app/src/main/java/com/notesapp/data/model/Priority.kt:11-14 | two priorities have the same name iff they are the same priority |
| `Priorities.ValuesEnumerateAll` | app/src/main/java/com/notesapp/data/model/Priority.kt:10-15 | there are exactly four priorities, HIGH, MEDIUM, LOW, NONE in declaration order, each listed once |
| `Tasks.NewTask` | app/src/main/java/com/notesapp/data/model/ToDoTask.kt:8-14 | a task built without an id has id 0 and carries the given title, description and priority |
| `Tasks.TaskEquality` | app/src/main/java/com/notesapp/data/model/ToDoTask.kt:8 | two tasks are equal iff all four fields are equal |
| `Priorities.Name` | app/src/main/java/com/notesapp/data/model/Priority.kt:10-15 | a constant's name is its identifier, a non-empty upper-case word |
| `Util.ActionName` | app/src/main/java/com/notesapp/ui/screen/home/ListScreen.kt:121 | an action's name is non-empty and made of upper-case letters and underscores, so it never contains the ": " that follows it |
| `DataStore.ReadSortState` | app/src/main/java/com/notesapp/data/repository/DataStoreRepo.kt:40-50 | an IOException reads as "NONE"; any other exception is rethrown; an absent key reads as "NONE"; otherwise the stored string is returned |
| `DataStore.ReadYieldsParsableName` | app/src/main/java/com/notesapp/data/repository/DataStoreRepo.kt:40-50 | on a slot only ever written with priority names, every successful read yields a string `valueOf` accepts |
| `DataStore.WriteThenReadRoundTrip` | app/src/main/java/com/notesapp/data/repository/DataStoreRepo.kt:34-50 | writing `p` and then reading yields `p.name`, which parses back to `p` |
| `DataStore.DataStoreRepo.constructor` | app/src/main/java/com/notesapp/data/repository/DataStoreRepo.kt:24-32 | the repository starts over the file's current `sort_state` value |
| `DataStore.DataStoreRepo.WriteSortState` | app/src/main/java/com/notesapp/data/repository/DataStoreRepo.kt:34-38 | the slot holds `p.name` afterwards, whatever it held before (last write wins) |
| `TaskStore.Insert` | app/src/main/java/com/notesapp/data/model/ToDoTask.kt:9-10 | an id-0 task is stored under the counter's key, which was unused; the counter grows; the other rows are unchanged |
| `TaskStore.Update` | app/src/main/java/com/notesapp/ui/viewmodel/SharedViewModel.kt:193-204 | only the row keyed by the task's id changes, to the task; with no such row nothing changes |
| `TaskStore.Delete` | app/src/main/java/com/notesapp/ui/viewmodel/SharedViewModel.kt:207-218 | only the row keyed by the task's id is removed |
| `TaskStore.DeleteAll` | app/src/main/java/com/notesapp/ui/viewmodel/SharedViewModel.kt:221-225 | no rows remain; the key counter is kept |
| `TaskStore.WithPriority` | app/src/main/java/com/notesapp/ui/viewmodel/SharedViewModel.kt:59-71 | the filter keeps exactly the tasks of the given priority |
| `TaskStore.RowsBetweenSpec` | app/src/main/java/com/notesapp/ui/viewmodel/SharedViewModel.kt:120-124 | the listed rows are exactly those keyed in the range, by strictly ascending id |
| `TaskStore.AllTasks` | app/src/main/java/com/notesapp/ui/viewmodel/SharedViewModel.kt:117-128 | the all-tasks query lists every stored task and nothing else, each once, by strictly ascending id |
| `TaskStore.LowPriorityTasks` | app/src/main/java/com/notesapp/ui/viewmodel/SharedViewModel.kt:59-64 | the low-priority query holds exactly the stored tasks of priority LOW |
| `TaskStore.HighPriorityTasks` | app/src/main/java/com/notesapp/ui/viewmodel/SharedViewModel.kt:66-71 | the high-priority query holds exactly the stored tasks of priority HIGH |
| `TaskStore.StoredRowsKeyedById` | app/src/main/java/com/notesapp/data/model/ToDoTask.kt:9-10 | a task is stored iff it sits under its own id |
| `TaskStore.RowsBetweenOfNoRows` | app/src/main/java/com/notesapp/ui/viewmodel/SharedViewModel.kt:221-225 | a table without rows lists nothing |
| `TaskStore.DeleteAllEmptiesQueries` | app/src/main/java/com/notesapp/ui/viewmodel/SharedViewModel.kt:221-225 | after delete-all the all-tasks list and both projections are empty |
| `TaskStore.InsertedShownOnce` | app/src/main/java/com/notesapp/ui/viewmodel/SharedViewModel.kt:179-190 | an inserted task appears in the all-tasks list under a key no earlier task had, and no task appears twice |
| `ViewModel.Dispatch` | app/src/main/java/com/notesapp/ui/viewmodel/SharedViewModel.kt:160-225 | ADD adds one row built from the buffer under a fresh key; UPDATE/DELETE touch only the buffer id's row; DELETE_ALL empties the table; NO_ACTION changes nothing |
| `ViewModel.ResetBufferTargetsNoRow` | app/src/main/java/com/notesapp/ui/viewmodel/SharedViewModel.kt:193-218 | UPDATE or DELETE with a reset buffer (id 0) leaves the table unchanged |
| `ViewModel.AddIgnoresBufferId` | app/src/main/java/com/notesapp/ui/viewmodel/SharedViewModel.kt:179-190 | ADD does not depend on the buffer's id |
| `ViewModel.BuyMilkExample` | app/src/main/java/com/notesapp/ui/viewmodel/SharedViewModel.kt:179-190 | adding ("Buy milk", "2%", LOW) to an empty table stores it under id 1, in the all-tasks and low lists, with the high list empty |
| `ViewModel.SharedViewModel.LowPriorityTasks` | app/src/main/java/com/notesapp/ui/viewmodel/SharedViewModel.kt:59-64 | holds exactly the stored LOW tasks |
| `ViewModel.SharedViewModel.HighPriorityTasks` | app/src/main/java/com/notesapp/ui/viewmodel/SharedViewModel.kt:66-71 | holds exactly the stored HIGH tasks |
| `ViewModel.SharedViewModel.constructor` | app/src/main/java/com/notesapp/ui/viewmodel/SharedViewModel.kt:26-77 | starts with action NO_ACTION, buffer (0, "", "", LOW), search CLOSED with empty text, searched Idle; `init` leaves all-tasks and sort state Loading, with the sort subscription collecting |
| `ViewModel.SharedViewModel.ReadSortState` | app/src/main/java/com/notesapp/ui/viewmodel/SharedViewModel.kt:80-93 | the sort channel enters Loading and its subscription starts; nothing else changes |
| `ViewModel.SharedViewModel.CollectSortState` | app/src/main/java/com/notesapp/ui/viewmodel/SharedViewModel.kt:83-92 | only while the subscription collects: a read that parses sets Success(parsed priority); an IOException gives Success(NONE) and ends the subscription; a rethrown read failure or a failed parse leaves the channel unchanged, ends the subscription and is reported as uncaught |
| `ViewModel.SharedViewModel.PersistSortState` | app/src/main/java/com/notesapp/ui/viewmodel/SharedViewModel.kt:96-100 | writes `p.name` to the preference slot and leaves every coordinator field, the sort channel included, unchanged |
| `ViewModel.SharedViewModel.SearchDatabase` | app/src/main/java/com/notesapp/ui/viewmodel/SharedViewModel.kt:102-114 | the searched channel is Loading, the repository gets `"%" + q + "%"`, the search bar is TRIGGERED; nothing else changes |
| `ViewModel.SharedViewModel.CollectSearchedTasks` | app/src/main/java/com/notesapp/ui/viewmodel/SharedViewModel.kt:106-108 | an emission sets the searched channel to Success(result) and nothing else |
| `ViewModel.SharedViewModel.GetAllTasks` | app/src/main/java/com/notesapp/ui/viewmodel/SharedViewModel.kt:117-118 | the all-tasks channel enters Loading; nothing else changes |
| `ViewModel.SharedViewModel.CollectAllTasks` | app/src/main/java/com/notesapp/ui/viewmodel/SharedViewModel.kt:120-124 | an emission publishes exactly the stored tasks, each once, by ascending id |
| `ViewModel.SharedViewModel.UpdateTaskFields` | app/src/main/java/com/notesapp/ui/viewmodel/SharedViewModel.kt:140-152 | a task is copied field by field into the buffer; null resets it to (0, "", "", LOW); nothing else changes |
| `ViewModel.SharedViewModel.ValidateInputs` | app/src/main/java/com/notesapp/ui/viewmodel/SharedViewModel.kt:155-157 | true iff title and description are both non-empty, whatever the id and priority; it changes nothing |
| `ViewModel.SharedViewModel.HandleDatabaseActions` | app/src/main/java/com/notesapp/ui/viewmodel/SharedViewModel.kt:160-176 | the table becomes `Dispatch` of the old table, buffer and action; ADD also closes the search bar; buffer and tag are unchanged |
| `ViewModel.SharedViewModel.AddTask` | app/src/main/java/com/notesapp/ui/viewmodel/SharedViewModel.kt:179-190 | inserts the buffer's texts and priority with id 0 and sets the search bar to CLOSED |
| `ViewModel.SharedViewModel.UpdateTask` | app/src/main/java/com/notesapp/ui/viewmodel/SharedViewModel.kt:193-204 | updates the table with the buffer as a full record |
| `ViewModel.SharedViewModel.DeleteTask` | app/src/main/java/com/notesapp/ui/viewmodel/SharedViewModel.kt:207-218 | deletes the buffer's id from the table |
| `ViewModel.SharedViewModel.DeleteAllTasks` | app/src/main/java/com/notesapp/ui/viewmodel/SharedViewModel.kt:221-225 | empties the table |
| `ListContent.SelectTasks` | app/src/main/java/com/notesapp/ui/screen/home/ListContent.kt:46-81 | nothing unless the sort state is Success; anything shown is the searched list under a triggered search, else all tasks for NONE, the low list for LOW, the high list for HIGH |
| `ListContent.SearchOverridesSort` | app/src/main/java/com/notesapp/ui/screen/home/ListContent.kt:48-56 | under a triggered search the sort value plays no part; the searched list shows iff it is a Success |
| `ListContent.NoneShowsAllTasks` | app/src/main/java/com/notesapp/ui/screen/home/ListContent.kt:57-65 | sort NONE with no search shows all tasks iff that channel is a Success |
| `ListContent.PriorityListsIgnoreChannels` | app/src/main/java/com/notesapp/ui/screen/home/ListContent.kt:66-79 | sort LOW/HIGH shows the low/high list whatever the two channels hold |
| `ListContent.MediumShowsNothing` | app/src/main/java/com/notesapp/ui/screen/home/ListContent.kt:47-80 | sort MEDIUM without a triggered search shows nothing |
| `ListContent.SelectionOverTable` | app/src/main/java/com/notesapp/ui/screen/home/ListContent.kt:46-80 | over live data with search closed: NONE shows every stored task, LOW and HIGH exactly the stored tasks of that priority, MEDIUM nothing |
| `ListContent.HandleListContent` | app/src/main/java/com/notesapp/ui/screen/home/ListContent.kt:91-99 | the empty view iff the list is empty; otherwise the list is displayed unchanged |
| `ListContent.OnItemDismissed` | app/src/main/java/com/notesapp/ui/screen/home/ListContent.kt:117-123 | a swipe fully dismissed towards the start reports (DELETE, that task); nothing else reports |
| `ListScreen.FabTaskIdNamesNoTask` | app/src/main/java/com/notesapp/ui/screen/home/ListScreen.kt:82-84 | the add button's id -1 is never a stored key |
| `ListScreen.SetMessage` | app/src/main/java/com/notesapp/ui/screen/home/ListScreen.kt:118-123 | DELETE_ALL gives "Tasks has been removed"; any other action gives its name, ": " and the title |
| `ListScreen.MessageIdentifiesAction` | app/src/main/java/com/notesapp/ui/screen/home/ListScreen.kt:118-123 | equal messages come from the same action, and apart from DELETE_ALL from the same title |
| `ListScreen.DisplaySnackBar` | app/src/main/java/com/notesapp/ui/screen/home/ListScreen.kt:104-115 | a message appears iff the action is not NO_ACTION, and it is `setMessage` of the action and title |
| `ListScreen.OnSwipeToDelete` | app/src/main/java/com/notesapp/ui/screen/home/ListScreen.kt:63-67 | the tag becomes the reported action and the buffer becomes the swiped task; nothing else changes |
| `ListScreen.SwipeDeleteRemovesSwipedTask` | app/src/main/java/com/notesapp/ui/screen/home/ListScreen.kt:63-67 | the delete after a swipe removes exactly the swiped task's row |
| `ListScreen.RepeatedDeleteLeavesTable` | app/src/main/java/com/notesapp/ui/viewmodel/SharedViewModel.kt:207-218 | a second DELETE of the same task leaves the table as the first one left it |
| `ListComposable.Fresh` | app/src/main/java/com/notesapp/navigation/destination/ListComposable.kt:34 | `myAction` starts as NO_ACTION, before the screen has composed |
| `ListComposable.Arrive` | app/src/main/java/com/notesapp/navigation/destination/ListComposable.kt:36-41 | afterwards `myAction` equals the navigation action; the tag is written to it only when it differed from `myAction` |
| `ListComposable.Fired` | app/src/main/java/com/notesapp/ui/screen/home/ListScreen.kt:23-25 | a mutation fires, and it is the tag, iff the tag is not NO_ACTION and the screen's effects have not run with it |
| `ListComposable.Compose` | app/src/main/java/com/notesapp/ui/screen/home/ListScreen.kt:104-115 | when the tag changed since the effects last ran, they run and reset the tag to NO_ACTION; otherwise nothing changes |
| `ListComposable.FirstFrame` | app/src/main/java/com/notesapp/navigation/destination/ListComposable.kt:34-48 | a new destination's first frame: the saved copy becomes the argument and the effects' key the tag as composed; the tag ends as the argument when nothing was pending, and NO_ACTION otherwise |
| `ListComposable.Run` | app/src/main/java/com/notesapp/navigation/destination/ListComposable.kt:34-48 | a run of first frames, navigation effects, recompositions and tag writes fires at most one mutation per composition (first frame or recomposition), and never NO_ACTION |
| `ListComposable.ArriveIdempotent` | app/src/main/java/com/notesapp/navigation/destination/ListComposable.kt:36-41 | a second step with the same navigation action changes nothing |
| `ListComposable.TwoCompositionsSettle` | app/src/main/java/com/notesapp/ui/screen/home/ListScreen.kt:104-115 | after two compositions the effects have run with the current tag |
| `ListComposable.RecomposesFireAtMostOnce` | app/src/main/java/com/notesapp/ui/screen/home/ListScreen.kt:23-25 | any number of compositions fire at most one mutation, the one pending at the first |
| `ListComposable.GenuineChangeFiresOnce` | app/src/main/java/com/notesapp/navigation/destination/ListComposable.kt:36-48 | on a destination, a navigation effect with an action other than NO_ACTION and other than the saved copy fires that action exactly once, unless the effects already hold it as their key |
| `ListComposable.EnteringWithActionFiresOnce` | app/src/main/java/com/notesapp/navigation/Screens.kt:16-20 | a new list destination entered, with no action pending, with an action other than NO_ACTION fires it exactly once |
| `ListComposable.StaleTagReplacesNewAction` | app/src/main/java/com/notesapp/ui/screen/home/ListScreen.kt:104-114 | a new list destination entered while an action is pending fires exactly the pending action, and its own argument is lost |
| `ListComposable.RepeatedActionFiresNothing` | app/src/main/java/com/notesapp/navigation/destination/ListComposable.kt:34-41 | the action last copied fires nothing when it comes again, on a settled screen or on one composed anew with the saved copy |
| `ListComposable.NoneThenAddFiresAgain` | app/src/main/java/com/notesapp/navigation/Screens.kt:16-20 | returning to new destinations with NO_ACTION and then ADD fires exactly ADD |
| `ListComposable.SwipeFiresOnce` | app/src/main/java/com/notesapp/ui/screen/home/ListScreen.kt:63-67 | a single swipe report on a settled screen fires its mutation exactly once |
| `ListComposable.RepeatedSwipeReportFiresAgain` | app/src/main/java/com/notesapp/ui/screen/home/ListContent.kt:119-123 | a report that comes again after the tag reset fires DELETE a second time |
| `ListComposable.ListDestination.constructor` | app/src/main/java/com/notesapp/navigation/destination/ListComposable.kt:34 | a new destination has `myAction` NO_ACTION and no composition yet |
| `ListComposable.ListDestination.OnNavigate` | app/src/main/java/com/notesapp/navigation/destination/ListComposable.kt:36-41 | follows `Arrive`; of the coordinator only the tag may change |
| `ListComposable.ListDestination.ComposeFirstFrame` | app/src/main/java/com/notesapp/navigation/destination/ListComposable.kt:34-48 | follows `FirstFrame`; the tag as composed is dispatched on the coordinator's table and reported by the snackbar |
| `ListComposable.ListDestination.ComposeScreen` | app/src/main/java/com/notesapp/navigation/destination/ListComposable.kt:43-48 | follows `Compose`; a fired action is dispatched on the coordinator's table, and the snackbar shows `setMessage` of the tag and the buffer's title |
| `TaskScreen.Gate` | app/src/main/java/com/notesapp/ui/screen/task/TaskScreen.kt:32-46 | NO_ACTION always navigates; any other action navigates iff the inputs are valid; otherwise "Missing inputs" |
| `TaskScreen.OnBackPressed` | app/src/main/java/com/notesapp/ui/screen/task/TaskScreen.kt:26 | the back gesture navigates with NO_ACTION |
| `TaskScreen.BackAgreesWithGate` | app/src/main/java/com/notesapp/ui/screen/task/TaskScreen.kt:26 | the back gesture's result is the gate's result for NO_ACTION |
| `TaskScreen.OnAppBarAction` | app/src/main/java/com/notesapp/ui/screen/task/TaskScreen.kt:32-46 | navigates iff the action is NO_ACTION or title and description are non-empty; it changes nothing |
| `TaskScreen.OnTitleChanged` | app/src/main/java/com/notesapp/ui/screen/task/TaskScreen.kt:52-54 | writes the buffer's title and nothing else |
| `TaskScreen.OnDescriptionChange` | app/src/main/java/com/notesapp/ui/screen/task/TaskScreen.kt:56-58 | writes the buffer's description and nothing else |
| `TaskScreen.OnPrioritySelected` | app/src/main/java/com/notesapp/ui/screen/task/TaskScreen.kt:60-62 | writes the buffer's priority and nothing else |
| `TaskAppBar.ChooseAppBar` | app/src/main/java/com/notesapp/ui/screen/task/TaskAppBar.kt:26-33 | a null task gives the new-task bar; a non-null one gives the existing-task bar for that task |
| `TaskAppBar.NewBarAction` | app/src/main/java/com/notesapp/ui/screen/task/TaskAppBar.kt:131-144 | the new-task bar emits only NO_ACTION (back) or ADD (check) |
| `TaskAppBar.ExistingBarStep` | app/src/main/java/com/notesapp/ui/screen/task/TaskAppBar.kt:86-110 | close emits NO_ACTION, check emits UPDATE, delete only opens the dialog, closing only clears it; yes keeps the flag and emits DELETE on an open dialog and nothing on a closed one |
| `TaskAppBar.OpenDialogCameFromDelete` | app/src/main/java/com/notesapp/ui/screen/task/TaskAppBar.kt:102-108 | an open dialog was opened by the delete button and not closed since |
| `TaskAppBar.DeleteOnlyAfterConfirmation` | app/src/main/java/com/notesapp/ui/screen/task/TaskAppBar.kt:102-108 | a click that emits DELETE is the dialog's yes, after a delete press with no dialog close in between |
| `TaskAppBar.ExistingTaskAppBarAction.constructor` | app/src/main/java/com/notesapp/ui/screen/task/TaskAppBar.kt:90 | `openDialog` starts false |
| `TaskAppBar.ExistingTaskAppBarAction.OnClick` | app/src/main/java/com/notesapp/ui/screen/task/TaskAppBar.kt:86-110 | flag and emitted action follow `ExistingBarStep` |

## Left out

- Coroutines, dispatchers and `stateIn(WhileSubscribed)` are left out.
  Every launched mutation is atomic.
  Each emission of a live subscription is an explicit `Collect…` step.
- Cancellation of the subscriptions is not modelled.
  Each `searchDatabase` call starts a new collector without cancelling the previous one.
  An earlier query's emissions could therefore overwrite a later query's result; that interleaving is not modelled.
- The `catch` around `launch` is not modelled.
  It catches only synchronous launch failures, so no step ever sets a channel to `Error`.
- `ToDoRepo` and `ToDoDao` are not part of this model, so the task table is abstract:
  - insert assigns a fresh key and never fails;
  - update and delete act by key;
  - the search's `LIKE` match is not modelled: `CollectSearchedTasks` takes its result as a parameter;
  - the ordering of the search result is not claimed either.
- `TaskStore.Insert`: requires the task's id to be 0. That is the only insert the coordinator issues. Inserting with an explicit id is not modelled.
- Conflict failures of the task table are not modelled.
- Kotlin's 32-bit `Int` is not modelled: ids and the key counter are unbounded integers.
- `getSelectedTask` / `selectedTask` are left out. They only pass the repository's row through.
- The task screen's handling of the id -1 is not part of this model. The `TaskComposable` that loads or resets the buffer for a given id is not part of this model either.
- The preference file itself is reduced to one slot. A write is never lost and never fails.
- `DisplayAlertDialog` is not part of this model:
  - its yes button is modelled as emitting DELETE and leaving the flag unchanged;
  - when it also calls `closeDialog`, that is a separate `DialogClosed` click.
- The search-bar state type is not part of this model. Only its two values the core uses are defined: CLOSED and TRIGGERED.
- `toAction` parsing of the navigation argument is left out.
- Route strings, the splash screen and the argument keys (`SplashComposable.kt`, `Constants.kt`) are left out; of `Screens.kt` only the popping of the old list destination is modelled.
- The back stack is left out. Each return to the list pops the old list destination (`popUpTo` inclusive); the model starts a fresh `ListDestination` and runs its first frame, the `Enter` event of `ListComposable.Run` and `ListDestination.ComposeFirstFrame`.
- Compose layout, theming, `Priority.color`, snackbar and toast display, and the swipe animation thresholds are left out.
- Room and Hilt wiring are left out.
- `TaskContent.kt` is left out. It only forwards the field callbacks.
- `ListComposable.GenuineChangeFiresOnce`: excludes a screen whose effects already hold the new action as their key, since Compose does not re-run a keyed effect whose key is unchanged. It also excludes a destination not yet composed that holds a pending tag, a state the first frame never leaves.
- `ListComposable.EnteringWithActionFiresOnce` and `ListComposable.GenuineChangeFiresOnce`: the new action fires only when no action is pending on entry. A pending tag can be left behind, for example by a swipe report written before the screen re-keys its effects. In that case the new destination replays the pending action on the current buffer and loses its own argument, as `ListComposable.StaleTagReplacesNewAction` states. How often that timing occurs is not modelled.
- `ListComposable.SwipeFiresOnce`: covers a single report of the swipe. The report comes from the item's composition, not from an effect, so it can come again while the item stays dismissed and listed. `RepeatedSwipeReportFiresAgain` shows that such a repeat after the tag reset fires DELETE again, and `RepeatedDeleteLeavesTable` shows that the repeat changes the table no further. When and how often Compose recomposes the item is not modelled.
- `TaskStore.AllTasks`: the DAO query behind `getAllTasks` is not part of this model. The ascending-id order, like the absence of duplicates that it implies, is an assumption about that query.
- `ViewModel.SharedViewModel.CollectSortState`: the termination of the process after an uncaught failure is not modelled. The model reports the failure, ends the subscription and keeps the coordinator running.
- `TaskStore.LowPriorityTasks` and `TaskStore.HighPriorityTasks`: the DAO queries behind `sortByLowPriority` and `sortByHighPriority` are not part of this model. They are modelled as filters by priority over the stored tasks, in id order.
