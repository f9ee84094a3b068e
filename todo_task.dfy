/** The task record (`ToDoTask.kt`), a row of the task table. */
module Tasks {
  import opened Priorities

  /** A task: the auto-generated key `id` and three user-entered fields. */
  datatype ToDoTask = ToDoTask(id: int, title: string, description: string, priority: Priority)

  /** The default value of `id`, meaning "not yet stored". */
  const DefaultId: int := 0

  /** The constructor call that leaves `id` at its default. */
  function NewTask(title: string, description: string, priority: Priority): (t: ToDoTask)
    ensures t.id == DefaultId
    ensures t.title == title && t.description == description && t.priority == priority
  {
    ToDoTask(DefaultId, title, description, priority)
  }

  /** Data-class equality: two tasks are equal iff all four fields are. */
  lemma TaskEquality(a: ToDoTask, b: ToDoTask)
    ensures a == b <==>
      a.id == b.id && a.title == b.title && a.description == b.description && a.priority == b.priority
  {
  }
}
