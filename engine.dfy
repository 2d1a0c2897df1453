/** The task engine without a log (`AllesattInner`): the lifecycle of tasks and
    their todos over a store and a due-date predictor.

    Each operation is first a function from one engine state to the next
    (together with its result), and then a method of `AllesattInner` that
    performs it in place on the store and the predictor. A panic of the
    source is a precondition: the function's callers must exclude it. The
    clock reading an operation takes is its `now` parameter. */
module Engine {
  import opened Wrappers
  import opened Data
  import opened Store
  import opened MemStore
  import opened DueEstimate
  import opened DueGuesser

  datatype EngineState = EngineState(store: StoreView, info: InfoMap)

  /** No task ever has two open todos. */
  ghost predicate AtMostOneOpen(s: StoreView)
  {
    forall a, b ::
      (a in s.todos && b in s.todos &&
       s.todos[a].completed.None? && s.todos[b].completed.None? &&
       s.todos[a].task == s.todos[b].task) ==> a == b
  }

  /** What every engine state satisfies: a well-formed store with at most one
      open todo per task, and predictor knowledge only about stored tasks. */
  ghost predicate Inv(e: EngineState)
  {
    e.store.Valid() && AtMostOneOpen(e.store) && InfoValid(e.info) && e.info.Keys <= e.store.tasks.Keys
  }

  /** A new engine over a store: the predictor knows nothing yet. */
  function Initial(store: StoreView): (e: EngineState)
    requires store.Valid() && AtMostOneOpen(store)
    ensures Inv(e) && e.store == store && e.info == map[]
  {
    EngineState(store, map[])
  }

  // ----------------------------------------------------- store-level facts

  lemma CreateTodoKeepsAtMostOneOpen(s: StoreView, task: TaskId, due: Timestamp)
    requires s.Valid() && AtMostOneOpen(s) && !s.HasOpenTodo(task)
    ensures AtMostOneOpen(s.CreateTodo(task, due).0)
  {
    assert forall k :: k in s.todos ==> !StoreView.IsOpenFor(s.todos[k], task);
  }

  /** Setting a completion opens nothing. */
  lemma CompletingKeepsAtMostOneOpen(s: StoreView, id: TodoId, c: TodoCompleted)
    requires s.Valid() && AtMostOneOpen(s)
    ensures AtMostOneOpen(s.SetTodoCompleted(id, Some(c)).0)
  {
  }

  /** The todos of `done` all carry a completion. */
  ghost predicate AllCompleted(done: seq<Todo>)
  {
    forall i :: 0 <= i < |done| ==> done[i].completed.Some?
  }

  /** The todos `clone_task` adds for `task`: one per todo of `done`, in
      order, under the ids following `first`, each with the due date and
      completion of its original. */
  function Copies(first: nat, task: TaskId, done: seq<Todo>): map<TodoId, Todo>
    decreases |done|
  {
    if done == [] then map[]
    else
      var id := TodoId(first + |done|);
      Copies(first, task, done[..|done| - 1])[id := Todo(id, task, done[|done| - 1].completed, done[|done| - 1].due)]
  }

  lemma {:induction false} CopiesShape(first: nat, task: TaskId, done: seq<Todo>)
    ensures forall id :: id in Copies(first, task, done) <==> first < id.value <= first + |done|
    ensures forall i :: 0 <= i < |done| ==>
              TodoId(first + 1 + i) in Copies(first, task, done) &&
              Copies(first, task, done)[TodoId(first + 1 + i)] ==
                Todo(TodoId(first + 1 + i), task, done[i].completed, done[i].due)
    ensures forall id :: id in Copies(first, task, done) ==>
              Copies(first, task, done)[id].id == id && Copies(first, task, done)[id].task == task
    ensures AllCompleted(done) ==>
              forall id :: id in Copies(first, task, done) ==> Copies(first, task, done)[id].completed.Some?
    decreases |done|
  {
    if done != [] {
      var init := done[..|done| - 1];
      CopiesShape(first, task, init);
      forall i | 0 <= i < |init| ensures init[i] == done[i] { }
    }
  }

  /** The loop of `clone_task` over the source's completed todos: for each,
      a todo for `task` with the same due date, then marked with the same
      completion. */
  function CopyCompleted(s: StoreView, task: TaskId, done: seq<Todo>): (r: StoreView)
    requires s.Valid() && AllCompleted(done) && (|done| > 0 ==> !s.HasOpenTodo(task))
    ensures r.Valid()
    ensures r.tasks == s.tasks && r.lastTaskId == s.lastTaskId
    ensures r.lastTodoId == s.lastTodoId + |done|
    ensures r.todos == s.todos + Copies(s.lastTodoId, task, done)
    decreases |done|
  {
    if done == [] then
      assert s.todos + map[] == s.todos;
      s
    else
      var init := done[..|done| - 1];
      assert AllCompleted(init) by {
        forall i | 0 <= i < |init| ensures init[i].completed.Some? {
          assert init[i] == done[i];
        }
      }
      var prev := CopyCompleted(s, task, init);
      var x := done[|done| - 1];
      assert !prev.HasOpenTodo(task) by {
        CopiesShape(s.lastTodoId, task, init);
        forall k | k in prev.todos ensures !StoreView.IsOpenFor(prev.todos[k], task) {
          if k !in s.todos {
            assert k in Copies(s.lastTodoId, task, init);
          }
        }
      }
      var r := prev.CreateTodo(task, x.due).0.SetTodoCompleted(TodoId(prev.lastTodoId + 1), x.completed).0;
      CopyStep(s, prev, task, done);
      r
  }

  /** Copying one more todo of `done` is one round of the loop. */
  lemma CopyCompletedSnoc(s: StoreView, task: TaskId, done: seq<Todo>, i: nat)
    requires s.Valid() && AtMostOneOpen(s) && AllCompleted(done) && i < |done| && !s.HasOpenTodo(task)
    ensures var prev := CopyCompleted(s, task, done[..i]);
            !prev.HasOpenTodo(task) &&
            CopyCompleted(s, task, done[..i + 1]) ==
              prev.CreateTodo(task, done[i].due).0.SetTodoCompleted(TodoId(prev.lastTodoId + 1), done[i].completed).0
  {
    var pre := done[..i + 1];
    assert pre[..|pre| - 1] == done[..i] && pre[|pre| - 1] == done[i];
    assert AllCompleted(pre) by {
      forall k | 0 <= k < |pre| ensures pre[k].completed.Some? {
        assert pre[k] == done[k];
      }
    }
    assert AllCompleted(done[..i]) by {
      forall k | 0 <= k < i ensures done[..i][k].completed.Some? {
        assert done[..i][k] == done[k];
      }
    }
    CopyCompletedKeepsOpenTodos(s, task, done[..i]);
  }

  /** One round of the copy loop extends the copies by the last todo. */
  lemma CopyStep(s: StoreView, prev: StoreView, task: TaskId, done: seq<Todo>)
    requires |done| > 0 && prev.Valid() && !prev.HasOpenTodo(task)
    requires prev.todos == s.todos + Copies(s.lastTodoId, task, done[..|done| - 1])
    requires prev.lastTodoId == s.lastTodoId + |done| - 1
    ensures var x := done[|done| - 1];
            prev.CreateTodo(task, x.due).0.SetTodoCompleted(TodoId(prev.lastTodoId + 1), x.completed).0.todos ==
              s.todos + Copies(s.lastTodoId, task, done)
  {
    CopyOneTodo(prev, task, done[|done| - 1]);
    CopiesExtend(s.todos, prev.todos, s.lastTodoId, task, done, TodoId(prev.lastTodoId + 1));
  }

  /** The union with the copies grows by the copy of the last todo. */
  lemma CopiesExtend(a: map<TodoId, Todo>, m: map<TodoId, Todo>, first: nat, task: TaskId, done: seq<Todo>, id: TodoId)
    requires |done| > 0 && m == a + Copies(first, task, done[..|done| - 1]) && id == TodoId(first + |done|)
    ensures var x := done[|done| - 1];
            m[id := Todo(id, task, x.completed, x.due)] == a + Copies(first, task, done)
  {
    var x := done[|done| - 1];
    UnionUpdate(a, Copies(first, task, done[..|done| - 1]), id, Todo(id, task, x.completed, x.due));
    UnionCopiesSnoc(a, first, task, done);
  }

  /** Creating a todo and then marking it completed stores the completed todo. */
  lemma CopyOneTodo(prev: StoreView, task: TaskId, x: Todo)
    requires prev.Valid() && !prev.HasOpenTodo(task)
    ensures var id := TodoId(prev.lastTodoId + 1);
            prev.CreateTodo(task, x.due).0.SetTodoCompleted(id, x.completed).0.todos ==
              prev.todos[id := Todo(id, task, x.completed, x.due)]
  {
    var id := TodoId(prev.lastTodoId + 1);
    var s1 := prev.CreateTodo(task, x.due).0;
    calc {
      s1.SetTodoCompleted(id, x.completed).0.todos;
      s1.todos[id := s1.todos[id].(completed := x.completed)];
      { assert s1.todos == prev.todos[id := Todo(id, task, None, x.due)]; }
      prev.todos[id := Todo(id, task, None, x.due)][id := Todo(id, task, x.completed, x.due)];
      { CompleteAfterCreate(prev.todos, id, task, x.due, x.completed); }
      prev.todos[id := Todo(id, task, x.completed, x.due)];
    }
  }

  lemma UnionCopiesSnoc(a: map<TodoId, Todo>, first: nat, task: TaskId, done: seq<Todo>)
    requires |done| > 0
    ensures var x := done[|done| - 1];
            var id := TodoId(first + |done|);
            a + Copies(first, task, done[..|done| - 1])[id := Todo(id, task, x.completed, x.due)] ==
              a + Copies(first, task, done)
  {
    CopiesSnoc(first, task, done);
  }

  lemma CopiesSnoc(first: nat, task: TaskId, done: seq<Todo>)
    requires |done| > 0
    ensures Copies(first, task, done) ==
              Copies(first, task, done[..|done| - 1])[TodoId(first + |done|) :=
                Todo(TodoId(first + |done|), task, done[|done| - 1].completed, done[|done| - 1].due)]
  {
  }

  lemma CompleteAfterCreate(todos: map<TodoId, Todo>, id: TodoId, task: TaskId, due: Timestamp,
                            completed: Option<TodoCompleted>)
    ensures var created := todos[id := Todo(id, task, None, due)];
            created[id := created[id].(completed := completed)] == todos[id := Todo(id, task, completed, due)]
  {
  }

  lemma UnionUpdate<K, V>(a: map<K, V>, b: map<K, V>, k: K, v: V)
    ensures (a + b)[k := v] == a + b[k := v]
  {
  }

  /** A store that only gains completed todos keeps the open todo of every
      task. */
  lemma FindOpenTodoOfExtension(s: StoreView, r: StoreView, task: TaskId)
    requires s.Valid() && r.Valid() && AtMostOneOpen(s)
    requires forall id :: id in s.todos ==> id in r.todos && r.todos[id] == s.todos[id]
    requires forall id :: id in r.todos && id !in s.todos ==> r.todos[id].completed.Some?
    ensures r.HasOpenTodo(task) <==> s.HasOpenTodo(task)
    ensures r.FindOpenTodo(task) == s.FindOpenTodo(task)
  {
    if s.HasOpenTodo(task) {
      var k :| k in s.todos && StoreView.IsOpenFor(s.todos[k], task);
      assert k in r.todos && StoreView.IsOpenFor(r.todos[k], task);
      var k1 := r.FindOpenTodo(task).value.id;
      var k2 := s.FindOpenTodo(task).value.id;
      assert k1 in s.todos;
    } else {
      forall k | k in r.todos ensures !StoreView.IsOpenFor(r.todos[k], task) {
        if k in s.todos {
          assert r.todos[k] == s.todos[k];
        }
      }
    }
  }

  /** Copying completed todos opens nothing, so the open todo of every task
      stays what it was. */
  lemma CopyCompletedKeepsOpenTodos(s: StoreView, task: TaskId, done: seq<Todo>)
    requires s.Valid() && AtMostOneOpen(s) && AllCompleted(done) && (|done| > 0 ==> !s.HasOpenTodo(task))
    ensures AtMostOneOpen(CopyCompleted(s, task, done))
    ensures forall t :: CopyCompleted(s, task, done).HasOpenTodo(t) <==> s.HasOpenTodo(t)
    ensures forall t :: CopyCompleted(s, task, done).FindOpenTodo(t) == s.FindOpenTodo(t)
  {
    var r := CopyCompleted(s, task, done);
    CopiesShape(s.lastTodoId, task, done);
    assert forall id :: id in s.todos ==> id !in Copies(s.lastTodoId, task, done);
    assert forall id :: id in r.todos && id !in s.todos ==> r.todos[id].completed.Some?;
    forall a, b | a in r.todos && b in r.todos &&
        r.todos[a].completed.None? && r.todos[b].completed.None? &&
        r.todos[a].task == r.todos[b].task
      ensures a == b
    {
      assert a in s.todos && b in s.todos;
    }
    forall t ensures r.HasOpenTodo(t) <==> s.HasOpenTodo(t)
      ensures r.FindOpenTodo(t) == s.FindOpenTodo(t)
    {
      FindOpenTodoOfExtension(s, r, t);
    }
  }

  // ------------------------------------------------------------ operations

  /** `create_task` panics when the new task's id already has an open todo,
      which only an earlier `unpause_task` of an unknown task can leave. */
  ghost predicate CreateTaskPanics(e: EngineState)
    requires e.store.Valid()
  {
    e.store.HasOpenTodo(TaskId(e.store.lastTaskId + 1))
  }

  /** `create_task`: one new task, known to the predictor with its fixed
      interval (or none), and one new open todo due now; both ids are fresh. */
  function CreateTask(e: EngineState, title: string, dueEvery: Option<Duration>, now: Timestamp)
    : (r: (EngineState, (TaskId, TodoId)))
    requires Inv(e) && !CreateTaskPanics(e)
    ensures Inv(r.0)
    ensures r.1.0 == TaskId(e.store.lastTaskId + 1) && r.1.0 !in e.store.tasks
    ensures r.1.1 == TodoId(e.store.lastTodoId + 1) && r.1.1 !in e.store.todos
    ensures r.0.store.tasks == e.store.tasks[r.1.0 := Task(r.1.0, title)]
    ensures r.0.store.todos == e.store.todos[r.1.1 := Todo(r.1.1, r.1.0, None, now)]
    ensures r.0.store.FindOpenTodo(r.1.0) == Some(Todo(r.1.1, r.1.0, None, now))
    ensures r.0.info == InitTask(e.info, r.1.0, dueEvery)
  {
    var (s1, task) := e.store.CreateTask(title);
    var info1 := InitTask(e.info, task, dueEvery);
    CreateTodoKeepsAtMostOneOpen(s1, task, now);
    s1.CreatedTodoIsOpen(task, now);
    var (s2, todo) := s1.CreateTodo(task, now);
    (EngineState(s2, info1), (task, todo))
  }

  /** The id the next task gets. */
  function NextTaskId(e: EngineState): TaskId
  {
    TaskId(e.store.lastTaskId + 1)
  }

  /** The completed todos of a task, in id order. */
  function CompletedTodos(s: StoreView, task: TaskId): (r: seq<Todo>)
    requires s.Valid()
    ensures AllCompleted(r)
    ensures forall t :: t in r <==> t in s.todos.Values && t.task == task && t.completed.Some?
  {
    var r := s.GetTodos(Some(task), Some(true));
    assert forall i :: 0 <= i < |r| ==> r[i] in r;
    r
  }

  /** `clone_task` panics when the source is not known to the predictor
      (`copy_task`'s `unwrap`), or when the new task's id already has an open
      todo and a todo is then created for it. */
  ghost predicate ClonePanics(e: EngineState, src: TaskId)
    requires e.store.Valid()
  {
    src in e.store.tasks &&
    (src !in e.info ||
     (e.store.HasOpenTodo(NextTaskId(e)) &&
      (|CompletedTodos(e.store, src)| > 0 || e.store.HasOpenTodo(src))))
  }

  /** The store after the first part of `clone_task` on a known source: the
      new task exists and has a completed copy of each completed todo of the
      source. The open todos are those of before. */
  function CopyPhase(e: EngineState, src: TaskId, title: string): (r: StoreView)
    requires Inv(e) && src in e.store.tasks && !ClonePanics(e, src)
    ensures r.Valid() && AtMostOneOpen(r)
    ensures r.tasks == e.store.tasks[NextTaskId(e) := Task(NextTaskId(e), title)]
    ensures r.lastTaskId == e.store.lastTaskId + 1
    ensures r.todos == e.store.todos + Copies(e.store.lastTodoId, NextTaskId(e), CompletedTodos(e.store, src))
    ensures r.lastTodoId == e.store.lastTodoId + |CompletedTodos(e.store, src)|
    ensures r.FindOpenTodo(src) == e.store.FindOpenTodo(src)
    ensures r.FindOpenTodo(src).Some? ==> !r.HasOpenTodo(NextTaskId(e))
  {
    var (s1, t) := e.store.CreateTask(title);
    GetTodosOnlyReadsTodos(s1, e.store, Some(src), Some(true));
    GetTodosOnlyReadsTodos(s1, e.store, Some(src), Some(false));
    var done := CompletedTodos(s1, src);
    assert done == CompletedTodos(e.store, src) && t == NextTaskId(e);
    assert s1.todos == e.store.todos && s1.lastTodoId == e.store.lastTodoId;
    CopyCompletedKeepsOpenTodos(s1, t, done);
    CopyCompleted(s1, t, done)
  }

  /** `clone_task`: an unknown source fails before anything changes. Otherwise
      a new task with the source's predictor knowledge is created, gets a
      completed copy of each completed todo of the source, and then an open
      todo due when the source's open todo is due. The source is unchanged.
      A paused source fails after the new task and the copies exist: nothing
      is undone. */
  function CloneTask(e: EngineState, src: TaskId, title: string): (r: (EngineState, Outcome<(TaskId, TodoId)>))
    requires Inv(e) && !ClonePanics(e, src)
    ensures Inv(r.0) && !r.1.Abort?
    ensures src !in e.store.tasks ==> r.0 == e && r.1 == Err("task not found")
    ensures src in e.store.tasks ==>
              r.0.info == CopyTask(e.info, NextTaskId(e), src) &&
              (r.1.Ok? <==> e.store.HasOpenTodo(src)) &&
              (r.1.Err? ==>
                 r.1.msg == "Cloning paused tasks is not implemented" &&
                 r.0.store == CopyPhase(e, src, title)) &&
              (r.1.Ok? ==>
                 var phase := CopyPhase(e, src, title);
                 r.1.value.0 == NextTaskId(e) && r.1.value.1 == TodoId(phase.lastTodoId + 1) &&
                 r.0.store == phase.CreateTodo(NextTaskId(e), e.store.FindOpenTodo(src).value.due).0)
  {
    if src !in e.store.tasks then (e, Err("task not found"))
    else
      var info1 := CopyTask(e.info, NextTaskId(e), src);
      var c := CloneKnown(e, src, title);
      assert InfoValid(info1) && info1.Keys <= c.0.tasks.Keys;
      (EngineState(c.0, info1), c.1)
  }

  /** The store side of `clone_task` once the source is known to exist. */
  function CloneKnown(e: EngineState, src: TaskId, title: string): (r: (StoreView, Outcome<(TaskId, TodoId)>))
    requires Inv(e) && src in e.store.tasks && !ClonePanics(e, src)
    ensures r.0.Valid() && AtMostOneOpen(r.0) && !r.1.Abort?
    ensures r.0.tasks.Keys == e.store.tasks.Keys + {NextTaskId(e)}
    ensures r.1.Ok? <==> e.store.HasOpenTodo(src)
    ensures r.1.Err? ==> r.1.msg == "Cloning paused tasks is not implemented" && r.0 == CopyPhase(e, src, title)
    ensures r.1.Ok? ==>
              r.1.value.0 == NextTaskId(e) && r.1.value.1 == TodoId(CopyPhase(e, src, title).lastTodoId + 1) &&
              r.0 == CopyPhase(e, src, title).CreateTodo(NextTaskId(e), e.store.FindOpenTodo(src).value.due).0
  {
    var t := NextTaskId(e);
    var s2 := CopyPhase(e, src, title);
    assert s2.tasks.Keys == e.store.tasks.Keys + {t};
    var open := s2.FindOpenTodo(src);
    if open.None? then
      assert !e.store.HasOpenTodo(src);
      (s2, Err("Cloning paused tasks is not implemented"))
    else
      var due := open.value.due;
      assert due == e.store.FindOpenTodo(src).value.due && e.store.HasOpenTodo(src);
      CreateTodoKeepsAtMostOneOpen(s2, t, due);
      var c := s2.CreateTodo(t, due);
      (c.0, Ok((t, c.1)))
  }

  /** The copies leave every existing todo as it was. */
  lemma CopiesKeepTodos(s: StoreView, t: TaskId, done: seq<Todo>)
    requires s.Valid()
    ensures var copies := s.todos + Copies(s.lastTodoId, t, done);
            forall id :: id in s.todos ==> id in copies && copies[id] == s.todos[id]
  {
    CopiesShape(s.lastTodoId, t, done);
  }

  /** The `i`-th copy comes after every existing todo. */
  lemma CopyAt(s: StoreView, t: TaskId, done: seq<Todo>, i: nat)
    requires s.Valid() && i < |done|
    ensures var id := TodoId(s.lastTodoId + 1 + i);
            var copies := s.todos + Copies(s.lastTodoId, t, done);
            id !in s.todos && id in copies && copies[id] == Todo(id, t, done[i].completed, done[i].due)
  {
    CopiesShape(s.lastTodoId, t, done);
  }

  /** `complete_todo` panics in the predictor (unknown todo, completion before
      the last one) or when the task still has an open todo once this one is
      marked completed. */
  ghost predicate CompletePanics(e: EngineState, todo: TodoId, c: TodoCompleted)
    requires e.store.Valid()
  {
    CompletionPanics(e.info, e.store, todo, c) ||
    e.store.SetTodoCompleted(todo, Some(c)).0.HasOpenTodo(e.store.todos[todo].task)
  }

  /** `complete_todo`: the completion enters the predictor, the todo is marked
      completed, and exactly one new open todo of the same task is created,
      due at the predictor's guess made after the completion was recorded. */
  function CompleteTodo(e: EngineState, todo: TodoId, c: TodoCompleted, now: Timestamp): (r: (EngineState, Outcome<()>))
    requires Inv(e) && !CompletePanics(e, todo, c)
    ensures Inv(r.0) && r.1 == Ok(())
    ensures r.0.info == HandleCompletion(e.info, e.store, todo, c)
    ensures r.0.store.tasks == e.store.tasks
    ensures r.0.store == CompleteAndReopen(e.store, todo, c, GuessDue(r.0.info, e.store.todos[todo].task, now))
  {
    var info1 := HandleCompletion(e.info, e.store, todo, c);
    var s2 := CompleteAndReopen(e.store, todo, c, GuessDue(info1, e.store.todos[todo].task, now));
    (EngineState(s2, info1), Ok(()))
  }

  /** The store side of `complete_todo`: the todo is marked completed, then
      its task gets a new open todo due at `due`. */
  function CompleteAndReopen(s: StoreView, todo: TodoId, c: TodoCompleted, due: Timestamp): (r: StoreView)
    requires s.Valid() && AtMostOneOpen(s) && todo in s.todos
    requires !s.SetTodoCompleted(todo, Some(c)).0.HasOpenTodo(s.todos[todo].task)
    ensures r.Valid() && AtMostOneOpen(r) && r.tasks == s.tasks
    ensures var next := TodoId(s.lastTodoId + 1);
            r.todos == s.todos[todo := s.todos[todo].(completed := Some(c))]
                              [next := Todo(next, s.todos[todo].task, None, due)]
  {
    var s1 := s.SetTodoCompleted(todo, Some(c)).0;
    assert s1.todos == s.todos[todo := s.todos[todo].(completed := Some(c))];
    assert s1.lastTodoId == s.lastTodoId && s1.todos[todo].task == s.todos[todo].task;
    CompletingKeepsAtMostOneOpen(s, todo, c);
    var task := s.todos[todo].task;
    CreateTodoKeepsAtMostOneOpen(s1, task, due);
    var next := TodoId(s.lastTodoId + 1);
    assert s1.CreateTodo(task, due).0.todos == s1.todos[next := Todo(next, task, None, due)];
    s1.CreateTodo(task, due).0
  }

  /** After `complete_todo` the task's open todo is the one just created. */
  lemma ReopenedTodoIsOpen(s: StoreView, todo: TodoId, c: TodoCompleted, due: Timestamp)
    requires s.Valid() && AtMostOneOpen(s) && todo in s.todos
    requires !s.SetTodoCompleted(todo, Some(c)).0.HasOpenTodo(s.todos[todo].task)
    ensures var r := CompleteAndReopen(s, todo, c, due);
            var next := TodoId(s.lastTodoId + 1);
            next in r.todos && r.FindOpenTodo(s.todos[todo].task) == Some(r.todos[next])
  {
    var s1 := s.SetTodoCompleted(todo, Some(c)).0;
    assert s1.lastTodoId == s.lastTodoId && s1.todos[todo].task == s.todos[todo].task;
    s1.CreatedTodoIsOpen(s.todos[todo].task, due);
  }

  /** `todo_later`: only the due date of the todo changes, to the predictor's
      later guess, which is after both now and the old due date. The
      predictor panics on an unknown todo, so that is excluded here. */
  function TodoLater(e: EngineState, todo: TodoId, now: Timestamp): (r: (EngineState, Outcome<()>))
    requires Inv(e) && todo in e.store.todos
    ensures Inv(r.0) && r.1 == Ok(())
    ensures r.0.info == e.info && r.0.store.tasks == e.store.tasks
    ensures r.0.store.lastTodoId == e.store.lastTodoId
    ensures r.0.store.todos == e.store.todos[todo := e.store.todos[todo].(due := GuessLater(e.info, e.store, todo, now))]
    ensures r.0.store.todos[todo].due > now && r.0.store.todos[todo].due > e.store.todos[todo].due
  {
    var due := GuessLater(e.info, e.store, todo, now);
    (EngineState(e.store.SetTodoDue(todo, due).0, e.info), Ok(()))
  }

  /** `pause_task`: fails without a change when the task has no open todo;
      otherwise deletes that todo, so the task has none, and the predictor
      forgets the last completion. */
  function PauseTask(e: EngineState, task: TaskId): (r: (EngineState, Outcome<()>))
    requires Inv(e)
    ensures Inv(r.0) && !r.1.Abort?
    ensures r.1.Ok? <==> e.store.HasOpenTodo(task)
    ensures r.1.Err? ==> r.0 == e && r.1 == Err("Task not found or already paused")
    ensures r.1.Ok? ==>
              r.0.store.todos == e.store.todos - {e.store.FindOpenTodo(task).value.id} &&
              r.0.store.tasks == e.store.tasks &&
              r.0.store.lastTodoId == e.store.lastTodoId &&
              !r.0.store.HasOpenTodo(task) &&
              r.0.info == HandlePause(e.info, task)
  {
    match e.store.FindOpenTodo(task)
    case None => (e, Err("Task not found or already paused"))
    case Some(open) =>
      var s1 := e.store.DeleteTodo(open.id).0;
      assert !s1.HasOpenTodo(task) by {
        forall k | k in s1.todos ensures !StoreView.IsOpenFor(s1.todos[k], task) {
          assert k in e.store.todos && k != open.id;
        }
      }
      (EngineState(s1, HandlePause(e.info, task)), Ok(()))
  }

  /** `unpause_task`: one new open todo of the task, due now. The store panics
      when the task already has an open todo, so that is excluded here; the
      task need not exist. */
  function UnpauseTask(e: EngineState, task: TaskId, now: Timestamp): (r: (EngineState, Outcome<TodoId>))
    requires Inv(e) && !e.store.HasOpenTodo(task)
    ensures Inv(r.0)
    ensures r.1 == Ok(TodoId(e.store.lastTodoId + 1)) && r.1.value !in e.store.todos
    ensures r.0.info == e.info && r.0.store.tasks == e.store.tasks
    ensures r.0.store.todos == e.store.todos[r.1.value := Todo(r.1.value, task, None, now)]
    ensures r.0.store.FindOpenTodo(task) == Some(Todo(r.1.value, task, None, now))
  {
    CreateTodoKeepsAtMostOneOpen(e.store, task, now);
    e.store.CreatedTodoIsOpen(task, now);
    var (s1, id) := e.store.CreateTodo(task, now);
    (EngineState(s1, e.info), Ok(id))
  }

  // ---------------------------------------------------------- properties

  /** `complete_todo` panics in `create_todo` exactly when the todo was
      already completed and its task has an open todo. */
  lemma CompletePanicsExactly(e: EngineState, todo: TodoId, c: TodoCompleted)
    requires Inv(e) && !CompletionPanics(e.info, e.store, todo, c)
    ensures CompletePanics(e, todo, c) <==>
              e.store.todos[todo].completed.Some? && e.store.HasOpenTodo(e.store.todos[todo].task)
  {
    var task := e.store.todos[todo].task;
    var s1 := e.store.SetTodoCompleted(todo, Some(c)).0;
    if e.store.todos[todo].completed.None? {
      forall k | k in s1.todos ensures !StoreView.IsOpenFor(s1.todos[k], task) {
        if k != todo {
          assert s1.todos[k] == e.store.todos[k];
        }
      }
    }
    if e.store.todos[todo].completed.Some? && e.store.HasOpenTodo(task) {
      var k :| k in e.store.todos && StoreView.IsOpenFor(e.store.todos[k], task);
      assert k in s1.todos && s1.todos[k] == e.store.todos[k];
    }
  }

  /** Completing the open todo of a task that is not paused never panics in
      `create_todo`. */
  lemma CompletingOpenTodoIsSafe(e: EngineState, todo: TodoId, c: TodoCompleted)
    requires Inv(e) && !CompletionPanics(e.info, e.store, todo, c)
    requires e.store.todos[todo].completed.None?
    ensures !CompletePanics(e, todo, c)
  {
    CompletePanicsExactly(e, todo, c);
  }

  /** The interval across a pause is not observed: after pausing a known
      task, unpausing it and completing the new todo, the interval estimate
      is what it was before the pause, and the next todo is due one interval
      after the completion. */
  lemma PauseForgetsLastCompletion(e: EngineState, task: TaskId, c: TodoCompleted, now1: Timestamp, now2: Timestamp)
    requires Inv(e) && task in e.info && e.store.HasOpenTodo(task)
    ensures var e1 := PauseTask(e, task).0;
            var (e2, r2) := UnpauseTask(e1, task, now1);
            !CompletePanics(e2, r2.value, c) &&
            var e3 := CompleteTodo(e2, r2.value, c, now2).0;
            e3.info[task] == DueInfo(e.info[task].dueIn, Some(c.date)) &&
            e3.store.FindOpenTodo(task).value.due == c.date + e.info[task].dueIn.Get()
  {
    var e1 := PauseTask(e, task).0;
    var (e2, r2) := UnpauseTask(e1, task, now1);
    assert e2.info[task].lastCompleted.None?;
    CompletingOpenTodoIsSafe(e2, r2.value, c);
    var info3 := HandleCompletion(e2.info, e2.store, r2.value, c);
    ReopenedTodoIsOpen(e2.store, r2.value, c, GuessDue(info3, e2.store.todos[r2.value].task, now2));
  }

  /** The scenario of `default_duration_after_pausing`: a task created with a
      seven-day interval and completed 28 days ago, then paused and unpaused,
      gets an open todo due now; completing it as of seven days ago gives an
      open todo due now again. */
  lemma DefaultDurationAfterPausing(now: Timestamp)
    ensures var e0 := Initial(Empty());
            !CreateTaskPanics(e0) &&
            var (e1, ids) := CreateTask(e0, "x", Some(7 * DAY), now);
            !CompletePanics(e1, ids.1, TodoCompleted(now - 28 * DAY)) &&
            var e2 := CompleteTodo(e1, ids.1, TodoCompleted(now - 28 * DAY), now).0;
            var (e3, p) := PauseTask(e2, ids.0);
            p.Ok? &&
            var (e4, u) := UnpauseTask(e3, ids.0, now);
            e4.store.todos[u.value].due == now &&
            !CompletePanics(e4, u.value, TodoCompleted(now - 7 * DAY)) &&
            CompleteTodo(e4, u.value, TodoCompleted(now - 7 * DAY), now).0.store.FindOpenTodo(ids.0).value.due == now
  {
    var e0 := Initial(Empty());
    var (e1, ids) := CreateTask(e0, "x", Some(7 * DAY), now);
    CompletingOpenTodoIsSafe(e1, ids.1, TodoCompleted(now - 28 * DAY));
    var e2 := CompleteTodo(e1, ids.1, TodoCompleted(now - 28 * DAY), now).0;
    PauseForgetsLastCompletion(e2, ids.0, TodoCompleted(now - 7 * DAY), now, now);
  }
}

/** The engine as an object: `AllesattInner` over a `MemStore`. */
module EngineInner {
  import opened Wrappers
  import opened Data
  import opened Store
  import opened MemStore
  import opened DueGuesser
  import opened Engine

  /** `AllesattInner`: the engine over an in-memory store and a predictor,
      both updated in place. */
  class AllesattInner {
    const store: MemStore
    const dueGuesser: DueGuesser

    function State(): EngineState
      reads store, dueGuesser
    {
      EngineState(store.View(), dueGuesser.info)
    }

    ghost predicate Valid()
      reads this, store, dueGuesser
    {
      Inv(State())
    }

    /** `AllesattInner::new`: the given store and a predictor that knows
        nothing. */
    constructor (store: MemStore)
      requires store.Valid() && AtMostOneOpen(store.View())
      ensures this.store == store && fresh(dueGuesser)
      ensures State() == Initial(store.View()) && Valid()
    {
      this.store := store;
      dueGuesser := new DueGuesser();
    }

    method CreateTask(title: string, dueEvery: Option<Duration>, now: Timestamp) returns (task: TaskId, todo: TodoId)
      requires Valid() && !CreateTaskPanics(State())
      modifies store, dueGuesser
      ensures State() == Engine.CreateTask(old(State()), title, dueEvery, now).0
      ensures task == Engine.CreateTask(old(State()), title, dueEvery, now).1.0
      ensures todo == Engine.CreateTask(old(State()), title, dueEvery, now).1.1
      ensures Valid()
    {
      task := store.CreateTask(title);
      dueGuesser.InitTask(task, dueEvery);
      CreateTodoKeepsAtMostOneOpen(store.View(), task, now);
      todo := store.CreateTodo(task, now);
    }

    method CloneTask(src: TaskId, title: string) returns (r: Outcome<(TaskId, TodoId)>)
      requires Valid() && !ClonePanics(State(), src)
      modifies store, dueGuesser
      ensures State() == Engine.CloneTask(old(State()), src, title).0
      ensures r == Engine.CloneTask(old(State()), src, title).1
      ensures Valid()
    {
      if store.GetTask(src).None? {
        return Err("task not found");
      }
      ghost var e := State();
      var task := store.CreateTask(title);
      dueGuesser.CopyTask(task, src);
      CopyCompletedTodos(e, src, title, task);
      var open := store.FindOpenTodo(src);
      if open.None? {
        return Err("Cloning paused tasks is not implemented");
      }
      CreateTodoKeepsAtMostOneOpen(store.View(), task, open.value.due);
      var todo := store.CreateTodo(task, open.value.due);
      r := Ok((task, todo));
    }

    /** The first part of `clone_task` after the new task exists: the source's
        completed todos, read from the store, are copied to `task`. */
    method CopyCompletedTodos(ghost e: EngineState, src: TaskId, title: string, task: TaskId)
      requires Inv(e) && src in e.store.tasks && !ClonePanics(e, src)
      requires store.Valid() && store.View() == e.store.CreateTask(title).0 && task == NextTaskId(e)
      modifies store
      ensures store.View() == CopyPhase(e, src, title)
      ensures store.Valid()
    {
      var done := store.GetTodos(Some(src), Some(true));
      ghost var s1 := store.View();
      assert done == CompletedTodos(s1, src);
      GetTodosOnlyReadsTodos(s1, e.store, Some(src), Some(true));
      assert s1.HasOpenTodo(task) == e.store.HasOpenTodo(task);
      CopyTodos(task, done);
    }

    /** The loop of `clone_task`: for each todo of `done`, in order, a todo
        for `task` with the same due date, then marked with the same
        completion. */
    method CopyTodos(task: TaskId, done: seq<Todo>)
      requires store.Valid() && AtMostOneOpen(store.View()) && AllCompleted(done)
      requires |done| > 0 ==> !store.View().HasOpenTodo(task)
      modifies store
      ensures store.View() == CopyCompleted(old(store.View()), task, done)
      ensures store.Valid()
    {
      ghost var s0 := store.View();
      for i := 0 to |done|
        invariant store.Valid()
        invariant store.View() == CopyCompleted(s0, task, done[..i])
      {
        CopyOne(s0, task, done, i);
      }
      assert done[..|done|] == done;
    }

    /** One round of the loop of `clone_task`: the `i`-th todo of `done` is
        copied to `task`. */
    method CopyOne(ghost s0: StoreView, task: TaskId, done: seq<Todo>, i: nat)
      requires s0.Valid() && AtMostOneOpen(s0) && AllCompleted(done) && i < |done| && !s0.HasOpenTodo(task)
      requires store.Valid() && store.View() == CopyCompleted(s0, task, done[..i])
      modifies store
      ensures store.Valid() && store.View() == CopyCompleted(s0, task, done[..i + 1])
    {
      CopyCompletedSnoc(s0, task, done, i);
      var id := store.CreateTodo(task, done[i].due);
      var _ := store.SetTodoCompleted(id, done[i].completed);
    }

    method CompleteTodo(todo: TodoId, c: TodoCompleted, now: Timestamp) returns (r: Outcome<()>)
      requires Valid() && !CompletePanics(State(), todo, c)
      modifies store, dueGuesser
      ensures State() == Engine.CompleteTodo(old(State()), todo, c, now).0
      ensures r == Engine.CompleteTodo(old(State()), todo, c, now).1
      ensures Valid()
    {
      dueGuesser.HandleCompletion(store, todo, c);
      CompletingKeepsAtMostOneOpen(store.View(), todo, c);
      var _ := store.SetTodoCompleted(todo, Some(c));
      var task := store.todos[todo].task;
      var due := dueGuesser.GuessDue(task, now);
      CreateTodoKeepsAtMostOneOpen(store.View(), task, due);
      var _ := store.CreateTodo(task, due);
      r := Ok(());
    }

    method TodoLater(todo: TodoId, now: Timestamp) returns (r: Outcome<()>)
      requires Valid() && todo in store.todos
      modifies store
      ensures State() == Engine.TodoLater(old(State()), todo, now).0
      ensures r == Engine.TodoLater(old(State()), todo, now).1
      ensures Valid()
    {
      var due := dueGuesser.GuessLater(store, todo, now);
      var _ := store.SetTodoDue(todo, due);
      r := Ok(());
    }

    method PauseTask(task: TaskId) returns (r: Outcome<()>)
      requires Valid()
      modifies store, dueGuesser
      ensures State() == Engine.PauseTask(old(State()), task).0
      ensures r == Engine.PauseTask(old(State()), task).1
      ensures Valid()
    {
      var open := store.FindOpenTodo(task);
      if open.None? {
        return Err("Task not found or already paused");
      }
      var _ := store.DeleteTodo(open.value.id);
      dueGuesser.HandlePause(task);
      r := Ok(());
    }

    method UnpauseTask(task: TaskId, now: Timestamp) returns (r: Outcome<TodoId>)
      requires Valid() && !store.View().HasOpenTodo(task)
      modifies store
      ensures State() == Engine.UnpauseTask(old(State()), task, now).0
      ensures r == Engine.UnpauseTask(old(State()), task, now).1
      ensures Valid()
    {
      CreateTodoKeepsAtMostOneOpen(store.View(), task, now);
      var todo := store.CreateTodo(task, now);
      r := Ok(todo);
    }
  }
}
