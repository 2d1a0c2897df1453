/** The storage contract of the engine (`trait Store`), stated on the content a
    store holds: its tasks and todos keyed by id, and the two counters that
    hand out fresh ids. Every operation is a function from one content to the
    next; `MemStore` is the class that performs them in place.

    Where the in-memory store enumerates a hash map, this model enumerates in
    increasing id order. */
module Store {
  import opened Wrappers
  import opened Data

  datatype StoreView = StoreView(
    tasks: map<TaskId, Task>, lastTaskId: nat,
    todos: map<TodoId, Todo>, lastTodoId: nat)
  {
    /** Every record sits under its own id, and no id is above its counter. */
    ghost predicate Valid()
    {
      (forall id :: id in tasks ==> 1 <= id.value <= lastTaskId && tasks[id].id == id) &&
      (forall id :: id in todos ==> 1 <= id.value <= lastTodoId && todos[id].id == id)
    }

    /** The todo is the open (not completed) todo of `task`. */
    static predicate IsOpenFor(todo: Todo, task: TaskId)
    {
      todo.task == task && todo.completed.None?
    }

    /** Some todo of `task` is open. */
    ghost predicate HasOpenTodo(task: TaskId)
    {
      exists id :: id in todos && IsOpenFor(todos[id], task)
    }

    /** The filters of `get_todos`: an absent filter lets everything through. */
    static predicate Matches(todo: Todo, taskFilter: Option<TaskId>, completedFilter: Option<bool>)
    {
      (taskFilter.None? || taskFilter.value == todo.task) &&
      (completedFilter.None? || completedFilter.value == todo.completed.Some?)
    }

    lemma TodoValues(t: Todo)
      requires Valid()
      ensures t in todos.Values <==> t.id in todos && todos[t.id] == t
    {
    }

    lemma TaskValues(t: Task)
      requires Valid()
      ensures t in tasks.Values <==> t.id in tasks && tasks[t.id] == t
    {
    }

    // ------------------------------------------------------------- queries

    /** `get_task`: the task stored under `id`, if any. */
    function GetTask(id: TaskId): (r: Option<Task>)
      requires Valid()
      ensures r.Some? <==> id in tasks
      ensures r.Some? ==> r.value in tasks.Values && r.value.id == id
    {
      if id in tasks then Some(tasks[id]) else None
    }

    /** `get_todo`: the todo stored under `id`, if any. */
    function GetTodo(id: TodoId): (r: Option<Todo>)
      requires Valid()
      ensures r.Some? <==> id in todos
      ensures r.Some? ==> r.value in todos.Values && r.value.id == id
    {
      if id in todos then Some(todos[id]) else None
    }

    /** The tasks with an id of at most `n`, in increasing id order. */
    function TasksUpTo(n: nat): (r: seq<Task>)
      requires Valid()
      ensures forall t :: t in r <==> t in tasks.Values && t.id.value <= n
      ensures forall i, j :: 0 <= i < j < |r| ==> r[i].id.value < r[j].id.value
      ensures forall i :: 0 <= i < |r| ==> r[i].id.value <= n
    {
      if n == 0 then []
      else
        var prev := TasksUpTo(n - 1);
        var id := TaskId(n);
        if id in tasks then
          forall t ensures t in tasks.Values && t.id.value <= n <==> t in prev || t == tasks[id] {
            TaskValues(t);
          }
          prev + [tasks[id]]
        else
          forall t ensures t in tasks.Values && t.id.value <= n <==> t in prev {
            TaskValues(t);
          }
          prev
    }

    /** `get_tasks`: every stored task once, in increasing id order. */
    function GetTasks(): (r: seq<Task>)
      requires Valid()
      ensures forall t :: t in r <==> t in tasks.Values
      ensures forall i, j :: 0 <= i < j < |r| ==> r[i].id.value < r[j].id.value
    {
      var r := TasksUpTo(lastTaskId);
      forall t | t in tasks.Values ensures t.id.value <= lastTaskId {
        TaskValues(t);
      }
      r
    }

    /** The todos with an id of at most `n` that pass the filters, in
        increasing id order. */
    function TodosUpTo(n: nat, taskFilter: Option<TaskId>, completedFilter: Option<bool>): (r: seq<Todo>)
      requires Valid()
      ensures forall t :: t in r <==>
                t in todos.Values && t.id.value <= n && Matches(t, taskFilter, completedFilter)
      ensures forall i, j :: 0 <= i < j < |r| ==> r[i].id.value < r[j].id.value
      ensures forall i :: 0 <= i < |r| ==> r[i].id.value <= n
    {
      if n == 0 then []
      else
        var prev := TodosUpTo(n - 1, taskFilter, completedFilter);
        var id := TodoId(n);
        if id in todos && Matches(todos[id], taskFilter, completedFilter) then
          forall t ensures (t in todos.Values && t.id.value <= n && Matches(t, taskFilter, completedFilter))
                           <==> (t in prev || t == todos[id]) {
            TodoValues(t);
          }
          prev + [todos[id]]
        else
          forall t ensures (t in todos.Values && t.id.value <= n && Matches(t, taskFilter, completedFilter))
                           <==> t in prev {
            TodoValues(t);
          }
          prev
    }

    /** `get_todos`: exactly the stored todos that pass both filters, each once,
        in increasing id order. */
    function GetTodos(taskFilter: Option<TaskId>, completedFilter: Option<bool>): (r: seq<Todo>)
      requires Valid()
      ensures forall t :: t in r <==> t in todos.Values && Matches(t, taskFilter, completedFilter)
      ensures forall i, j :: 0 <= i < j < |r| ==> r[i].id.value < r[j].id.value
    {
      var r := TodosUpTo(lastTodoId, taskFilter, completedFilter);
      forall t | t in todos.Values ensures t.id.value <= lastTodoId {
        TodoValues(t);
      }
      r
    }

    /** `find_open_todo`: an open todo of `task` exactly when there is one;
        with several, the one with the lowest id. */
    function FindOpenTodo(task: TaskId): (r: Option<Todo>)
      requires Valid()
      ensures r.None? <==> !HasOpenTodo(task)
      ensures r.Some? ==> r.value.id in todos && todos[r.value.id] == r.value && IsOpenFor(r.value, task)
      ensures r.Some? ==> forall id :: id in todos && IsOpenFor(todos[id], task) ==> r.value.id.value <= id.value
    {
      var open := GetTodos(Some(task), Some(false));
      if |open| == 0 then
        assert !HasOpenTodo(task) by {
          forall id | id in todos ensures !IsOpenFor(todos[id], task) {
            assert todos[id] in todos.Values;
          }
        }
        None
      else
        TodoValues(open[0]);
        assert forall id :: id in todos && IsOpenFor(todos[id], task) ==> open[0].id.value <= id.value by {
          forall id | id in todos && IsOpenFor(todos[id], task) ensures open[0].id.value <= id.value {
            assert todos[id] in todos.Values;
            var k :| 0 <= k < |open| && open[k] == todos[id];
          }
        }
        Some(open[0])
    }

    // ----------------------------------------------------------- mutations

    /** `create_task`: a task with the next id, which no stored task has; the
        todos are untouched. */
    function CreateTask(title: string): (r: (StoreView, TaskId))
      requires Valid()
      ensures r.1 == TaskId(lastTaskId + 1) && r.1 !in tasks
      ensures r.0.tasks.Keys == tasks.Keys + {r.1} && r.0.tasks[r.1] == Task(r.1, title)
      ensures forall id :: id in tasks ==> r.0.tasks[id] == tasks[id]
      ensures r.0.lastTaskId == lastTaskId + 1
      ensures r.0.todos == todos && r.0.lastTodoId == lastTodoId
      ensures r.0.Valid()
    {
      var id := TaskId(lastTaskId + 1);
      (this.(tasks := tasks[id := Task(id, title)], lastTaskId := lastTaskId + 1), id)
    }

    /** `create_todo`: an open todo of `task` with the next id; it panics when
        `task` already has an open todo, so that is excluded here. The task
        need not exist. */
    function CreateTodo(task: TaskId, due: Timestamp): (r: (StoreView, TodoId))
      requires Valid() && !HasOpenTodo(task)
      ensures r.1 == TodoId(lastTodoId + 1) && r.1 !in todos
      ensures r.0.todos.Keys == todos.Keys + {r.1} && r.0.todos[r.1] == Todo(r.1, task, None, due)
      ensures forall id :: id in todos ==> r.0.todos[id] == todos[id]
      ensures r.0.lastTodoId == lastTodoId + 1
      ensures r.0.tasks == tasks && r.0.lastTaskId == lastTaskId
      ensures r.0.Valid()
    {
      var id := TodoId(lastTodoId + 1);
      (this.(todos := todos[id := Todo(id, task, None, due)], lastTodoId := lastTodoId + 1), id)
    }

    /** The todo `create_todo` adds is the one `find_open_todo` then finds. */
    lemma CreatedTodoIsOpen(task: TaskId, due: Timestamp)
      requires Valid() && !HasOpenTodo(task)
      ensures CreateTodo(task, due).0.FindOpenTodo(task) == Some(Todo(TodoId(lastTodoId + 1), task, None, due))
    {
      var s := CreateTodo(task, due).0;
      assert forall k :: k in s.todos && IsOpenFor(s.todos[k], task) ==> k == TodoId(lastTodoId + 1);
    }

    /** `delete_todo`: removes the todo, or fails when there is none. */
    function DeleteTodo(id: TodoId): (r: (StoreView, Outcome<()>))
      requires Valid()
      ensures !r.1.Abort?
      ensures r.1.Ok? <==> id in todos
      ensures r.1.Err? ==> r.0 == this && r.1.msg == "Todo not found"
      ensures r.1.Ok? ==> r.0.todos == todos - {id} && r.0.tasks == tasks &&
                          r.0.lastTaskId == lastTaskId && r.0.lastTodoId == lastTodoId
      ensures r.0.Valid()
    {
      if id in todos then (this.(todos := todos - {id}), Ok(())) else (this, Err("Todo not found"))
    }

    /** `set_todo_completed`: replaces the completion of the todo and nothing
        else, or fails when there is no such todo. */
    function SetTodoCompleted(id: TodoId, completed: Option<TodoCompleted>): (r: (StoreView, Outcome<()>))
      requires Valid()
      ensures !r.1.Abort?
      ensures r.1.Ok? <==> id in todos
      ensures r.1.Err? ==> r.0 == this && r.1.msg == "Todo not found"
      ensures r.1.Ok? ==> r.0.todos.Keys == todos.Keys &&
                          r.0.todos[id] == todos[id].(completed := completed) &&
                          (forall k :: k in todos && k != id ==> r.0.todos[k] == todos[k]) &&
                          r.0.tasks == tasks && r.0.lastTaskId == lastTaskId && r.0.lastTodoId == lastTodoId
      ensures r.0.Valid()
    {
      if id in todos then (this.(todos := todos[id := todos[id].(completed := completed)]), Ok(()))
      else (this, Err("Todo not found"))
    }

    /** `set_todo_due`: replaces the due date of the todo and nothing else, or
        fails when there is no such todo. */
    function SetTodoDue(id: TodoId, due: Timestamp): (r: (StoreView, Outcome<()>))
      requires Valid()
      ensures !r.1.Abort?
      ensures r.1.Ok? <==> id in todos
      ensures r.1.Err? ==> r.0 == this && r.1.msg == "Todo not found"
      ensures r.1.Ok? ==> r.0.todos.Keys == todos.Keys &&
                          r.0.todos[id] == todos[id].(due := due) &&
                          (forall k :: k in todos && k != id ==> r.0.todos[k] == todos[k]) &&
                          r.0.tasks == tasks && r.0.lastTaskId == lastTaskId && r.0.lastTodoId == lastTodoId
      ensures r.0.Valid()
    {
      if id in todos then (this.(todos := todos[id := todos[id].(due := due)]), Ok(()))
      else (this, Err("Todo not found"))
    }
  }

  /** The content of a new store: nothing stored, both counters at zero. */
  function Empty(): (s: StoreView)
    ensures s.Valid() && s.GetTasks() == [] && s.GetTodos(None, None) == []
  {
    StoreView(map[], 0, map[], 0)
  }

  /** The todo queries look only at the todos and their counter. */
  lemma {:induction false} TodosUpToOnlyReadsTodos(s: StoreView, t: StoreView, n: nat,
                                                  taskFilter: Option<TaskId>, completedFilter: Option<bool>)
    requires s.Valid() && t.Valid() && s.todos == t.todos
    ensures s.TodosUpTo(n, taskFilter, completedFilter) == t.TodosUpTo(n, taskFilter, completedFilter)
  {
    if n > 0 {
      TodosUpToOnlyReadsTodos(s, t, n - 1, taskFilter, completedFilter);
    }
  }

  lemma GetTodosOnlyReadsTodos(s: StoreView, t: StoreView, taskFilter: Option<TaskId>, completedFilter: Option<bool>)
    requires s.Valid() && t.Valid() && s.todos == t.todos && s.lastTodoId == t.lastTodoId
    ensures s.GetTodos(taskFilter, completedFilter) == t.GetTodos(taskFilter, completedFilter)
  {
    TodosUpToOnlyReadsTodos(s, t, s.lastTodoId, taskFilter, completedFilter);
  }

  /** Ids are never handed out twice: after deleting a todo, the next todo
      still gets a fresh id, different from the deleted one. */
  lemma DeletedIdNotReused(s: StoreView, id: TodoId, task: TaskId, due: Timestamp)
    requires s.Valid() && id in s.todos
    requires !s.DeleteTodo(id).0.HasOpenTodo(task)
    ensures s.DeleteTodo(id).0.CreateTodo(task, due).1 != id
  {
  }

  /** Deleting a todo of one task leaves the open todo of every other task
      where it was. */
  lemma DeleteKeepsOtherOpenTodos(s: StoreView, id: TodoId, task: TaskId)
    requires s.Valid() && id in s.todos && s.todos[id].task != task
    ensures s.DeleteTodo(id).0.HasOpenTodo(task) <==> s.HasOpenTodo(task)
  {
    var s1 := s.DeleteTodo(id).0;
    if s.HasOpenTodo(task) {
      var k :| k in s.todos && StoreView.IsOpenFor(s.todos[k], task);
      assert k in s1.todos;
    }
  }
}
