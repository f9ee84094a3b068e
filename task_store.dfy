/**
 * The task table behind the task repository: rows keyed by an
 * auto-generated identifier, the four mutations the coordinator issues, and
 * the live queries it subscribes to, recomputed from the rows.
 */
module TaskStore {
  import opened Priorities
  import opened Tasks

  /** The rows of `todo_table`, and the next key AUTOINCREMENT hands out. */
  datatype Table = Table(rows: map<int, ToDoTask>, nextId: int)

  /** Every key is positive, below the counter, and equal to its row's `id`. */
  predicate WellFormed(t: Table) {
    && t.nextId >= 1
    && forall k :: k in t.rows ==> 1 <= k < t.nextId && t.rows[k].id == k
  }

  /** A table that has never held a row. */
  const Empty: Table := Table(map[], 1)

  /**
   * Insert a task whose `id` is still the default: the store gives it a
   * fresh key, larger than every key it has handed out before.
   */
  function Insert(t: Table, task: ToDoTask): (r: Table)
    requires WellFormed(t) && task.id == DefaultId
    ensures WellFormed(r)
    ensures t.nextId !in t.rows
    ensures r.rows.Keys == t.rows.Keys + {t.nextId}
    ensures r.rows[t.nextId] == ToDoTask(t.nextId, task.title, task.description, task.priority)
    ensures forall k :: k in t.rows ==> r.rows[k] == t.rows[k]
    ensures r.nextId > t.nextId
  {
    Table(t.rows[t.nextId := task.(id := t.nextId)], t.nextId + 1)
  }

  /**
   * Full-record update keyed by `task.id`: the row with that key becomes
   * `task`; when there is no such row nothing changes.
   */
  function Update(t: Table, task: ToDoTask): (r: Table)
    requires WellFormed(t)
    ensures WellFormed(r)
    ensures r.rows.Keys == t.rows.Keys && r.nextId == t.nextId
    ensures forall k :: k in t.rows ==> r.rows[k] == if k == task.id then task else t.rows[k]
  {
    if task.id in t.rows then Table(t.rows[task.id := task], t.nextId) else t
  }

  /** Delete keyed by `task.id`: only the row with that key goes. */
  function Delete(t: Table, task: ToDoTask): (r: Table)
    requires WellFormed(t)
    ensures WellFormed(r)
    ensures r.rows.Keys == t.rows.Keys - {task.id} && r.nextId == t.nextId
    ensures forall k :: k in r.rows ==> r.rows[k] == t.rows[k]
  {
    Table(t.rows - {task.id}, t.nextId)
  }

  /** Delete every row; the key counter is kept, so keys are never reused. */
  function DeleteAll(t: Table): (r: Table)
    requires WellFormed(t)
    ensures WellFormed(r)
    ensures r.rows == map[] && r.nextId == t.nextId
  {
    Table(map[], t.nextId)
  }

  /** The rows whose keys lie in [lo, hi), in ascending key order. */
  function RowsBetween(m: map<int, ToDoTask>, lo: int, hi: int): seq<ToDoTask>
    decreases hi - lo
  {
    if lo >= hi then []
    else (if lo in m then [m[lo]] else []) + RowsBetween(m, lo + 1, hi)
  }

  /** The tasks among `s` with priority `p`, in the order of `s`. */
  function WithPriority(s: seq<ToDoTask>, p: Priority): (r: seq<ToDoTask>)
    ensures forall x :: x in r <==> x in s && x.priority == p
    ensures |r| <= |s|
  {
    if s == [] then []
    else (if s[0].priority == p then [s[0]] else []) + WithPriority(s[1..], p)
  }

  /**
   * The all-tasks live query: exactly the stored rows, each once, by
   * ascending id.
   */
  function AllTasks(t: Table): (r: seq<ToDoTask>)
    requires WellFormed(t)
    ensures forall x :: x in r <==> x in t.rows.Values
    ensures StrictlyAscending(r)
  {
    RowsBetweenSpec(t.rows, 1, t.nextId);
    StoredRowsKeyedById(t);
    RowsBetween(t.rows, 1, t.nextId)
  }

  /** The low-priority projection: exactly the stored LOW rows. */
  function LowPriorityTasks(t: Table): (r: seq<ToDoTask>)
    requires WellFormed(t)
    ensures forall x :: x in r <==> x in t.rows.Values && x.priority == LOW
  {
    WithPriority(AllTasks(t), LOW)
  }

  /** The high-priority projection: exactly the stored HIGH rows. */
  function HighPriorityTasks(t: Table): (r: seq<ToDoTask>)
    requires WellFormed(t)
    ensures forall x :: x in r <==> x in t.rows.Values && x.priority == HIGH
  {
    WithPriority(AllTasks(t), HIGH)
  }

  /** The ids of `s` strictly increase, so no row appears twice. */
  predicate StrictlyAscending(s: seq<ToDoTask>) {
    forall i, j :: 0 <= i < j < |s| ==> s[i].id < s[j].id
  }

  /**
   * `RowsBetween` lists exactly the rows keyed in [lo, hi), and, when every
   * row carries its own key as id, lists them by strictly ascending id.
   */
  lemma {:induction false} RowsBetweenSpec(m: map<int, ToDoTask>, lo: int, hi: int)
    requires forall k :: k in m ==> m[k].id == k
    ensures forall x :: x in RowsBetween(m, lo, hi) <==> x.id in m && m[x.id] == x && lo <= x.id < hi
    ensures StrictlyAscending(RowsBetween(m, lo, hi))
    decreases hi - lo
  {
    if lo < hi {
      RowsBetweenSpec(m, lo + 1, hi);
      var head := if lo in m then [m[lo]] else [];
      var tail := RowsBetween(m, lo + 1, hi);
      assert RowsBetween(m, lo, hi) == head + tail;
      forall x ensures x in RowsBetween(m, lo, hi) <==> x.id in m && m[x.id] == x && lo <= x.id < hi {
        assert x in head + tail <==> x in head || x in tail;
      }
      assert forall j :: 0 <= j < |tail| ==> tail[j] in tail;
    }
  }

  /** A task is stored exactly when it sits under its own id. */
  lemma StoredRowsKeyedById(t: Table)
    requires WellFormed(t)
    ensures forall x :: x in t.rows.Values <==> x.id in t.rows && t.rows[x.id] == x
  {
    RowsBetweenSpec(t.rows, 1, t.nextId);
    forall x ensures x in t.rows.Values <==> x.id in t.rows && t.rows[x.id] == x {
      if x in t.rows.Values {
        var k :| k in t.rows && t.rows[k] == x;
        assert x.id == k;
      }
    }
  }

  /** A table without rows lists nothing, whatever the key range. */
  lemma {:induction false} RowsBetweenOfNoRows(lo: int, hi: int)
    ensures RowsBetween(map[], lo, hi) == []
    decreases hi - lo
  {
    if lo < hi {
      RowsBetweenOfNoRows(lo + 1, hi);
    }
  }

  /** After delete-all, the all-tasks query and both projections are empty. */
  lemma DeleteAllEmptiesQueries(t: Table)
    requires WellFormed(t)
    ensures AllTasks(DeleteAll(t)) == []
    ensures LowPriorityTasks(DeleteAll(t)) == [] && HighPriorityTasks(DeleteAll(t)) == []
  {
    RowsBetweenOfNoRows(1, t.nextId);
  }

  /**
   * An inserted task shows up in the all-tasks query exactly once, under a
   * key no earlier row had.
   */
  lemma InsertedShownOnce(t: Table, task: ToDoTask)
    requires WellFormed(t) && task.id == DefaultId
    ensures ToDoTask(t.nextId, task.title, task.description, task.priority) in AllTasks(Insert(t, task))
    ensures forall x :: x in AllTasks(t) ==> x.id != t.nextId
    ensures forall i, j :: 0 <= i < j < |AllTasks(Insert(t, task))| ==>
      AllTasks(Insert(t, task))[i] != AllTasks(Insert(t, task))[j]
  {
    var r := Insert(t, task);
    StoredRowsKeyedById(t);
    assert r.rows[t.nextId] in r.rows.Values;
    var s := AllTasks(r);
    forall i, j | 0 <= i < j < |s| ensures s[i] != s[j] {
      assert s[i].id < s[j].id;
    }
  }
}
