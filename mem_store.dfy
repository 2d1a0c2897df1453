/** `MemStore`: the in-memory store. Its four fields are updated in place; each
    method performs the matching operation of the storage contract on the
    store's content. */
module MemStore {
  import opened Wrappers
  import opened Data
  import opened Store

  class MemStore {
    var tasks: map<TaskId, Task>
    var lastTaskId: nat
    var todos: map<TodoId, Todo>
    var lastTodoId: nat

    /** The content of the store. */
    function View(): StoreView
      reads this
    {
      StoreView(tasks, lastTaskId, todos, lastTodoId)
    }

    ghost predicate Valid()
      reads this
    {
      View().Valid()
    }

    /** `MemStore::new` / `Default`: nothing stored, both counters at zero. */
    constructor ()
      ensures View() == Empty() && Valid()
    {
      tasks := map[];
      lastTaskId := 0;
      todos := map[];
      lastTodoId := 0;
    }

    method CreateTask(title: string) returns (id: TaskId)
      requires Valid()
      modifies this
      ensures View() == old(View()).CreateTask(title).0 && id == old(View()).CreateTask(title).1
      ensures Valid()
    {
      lastTaskId := lastTaskId + 1;
      id := TaskId(lastTaskId);
      tasks := tasks[id := Task(id, title)];
    }

    /** Panics when `task` already has an open todo; that is excluded here. */
    method CreateTodo(task: TaskId, due: Timestamp) returns (id: TodoId)
      requires Valid() && !View().HasOpenTodo(task)
      modifies this
      ensures View() == old(View()).CreateTodo(task, due).0 && id == old(View()).CreateTodo(task, due).1
      ensures Valid()
    {
      lastTodoId := lastTodoId + 1;
      id := TodoId(lastTodoId);
      todos := todos[id := Todo(id, task, None, due)];
    }

    method DeleteTodo(id: TodoId) returns (r: Outcome<()>)
      requires Valid()
      modifies this
      ensures View() == old(View()).DeleteTodo(id).0 && r == old(View()).DeleteTodo(id).1
      ensures Valid()
    {
      if id !in todos {
        return Err("Todo not found");
      }
      todos := todos - {id};
      r := Ok(());
    }

    method SetTodoCompleted(id: TodoId, completed: Option<TodoCompleted>) returns (r: Outcome<()>)
      requires Valid()
      modifies this
      ensures View() == old(View()).SetTodoCompleted(id, completed).0 && r == old(View()).SetTodoCompleted(id, completed).1
      ensures Valid()
    {
      if id !in todos {
        return Err("Todo not found");
      }
      todos := todos[id := todos[id].(completed := completed)];
      r := Ok(());
    }

    method SetTodoDue(id: TodoId, due: Timestamp) returns (r: Outcome<()>)
      requires Valid()
      modifies this
      ensures View() == old(View()).SetTodoDue(id, due).0 && r == old(View()).SetTodoDue(id, due).1
      ensures Valid()
    {
      if id !in todos {
        return Err("Todo not found");
      }
      todos := todos[id := todos[id].(due := due)];
      r := Ok(());
    }

    function GetTask(id: TaskId): (r: Option<Task>)
      requires Valid()
      reads this
      ensures r == View().GetTask(id)
      ensures r.Some? ==> r.value.id == id
    {
      View().GetTask(id)
    }

    function GetTodo(id: TodoId): (r: Option<Todo>)
      requires Valid()
      reads this
      ensures r == View().GetTodo(id)
      ensures r.Some? ==> r.value.id == id
    {
      View().GetTodo(id)
    }

    function GetTasks(): (r: seq<Task>)
      requires Valid()
      reads this
      ensures forall t :: t in r <==> t in tasks.Values
    {
      View().GetTasks()
    }

    function GetTodos(taskFilter: Option<TaskId>, completedFilter: Option<bool>): (r: seq<Todo>)
      requires Valid()
      reads this
      ensures forall t :: t in r <==> t in todos.Values && StoreView.Matches(t, taskFilter, completedFilter)
    {
      View().GetTodos(taskFilter, completedFilter)
    }

    function FindOpenTodo(task: TaskId): (r: Option<Todo>)
      requires Valid()
      reads this
      ensures r.None? <==> !View().HasOpenTodo(task)
      ensures r.Some? ==> r.value.id in todos && todos[r.value.id] == r.value && StoreView.IsOpenFor(r.value, task)
    {
      View().FindOpenTodo(task)
    }
  }
}
