# allesatt engine, modelled in Dafny

allesatt keeps recurring tasks. A task has a title. Each task has at most one
open todo, which has a due date. Completing the open todo records the completion
and opens the next todo. Its due date is guessed from the intervals observed
between earlier completions.

The engine has these parts:

- **Store.** The store keeps the tasks and todos and hands out ids in
  increasing order.
- **Predictor.** The due-date predictor (`DueGuesser`) keeps an interval
  estimate per task.
- **`AllesattInner`.** It combines the store and the predictor into the six
  operations: create, clone, complete, later, pause and unpause.
- **`ReadWriteLogger`.** It appends one line per successful operation. On
  start-up it plays the log back into a fresh engine.

This project models that engine and proves properties of the model.

## Modules

- **`Data`.** Ids, tasks, todos and completion records; the decimal text of a
  task id; the serialised form of the logged fields.
- **`Decimal`.** Rust's `u64` parser and the decimal display of a number.
- **`Codec`.** The part of JSON the log lines use: one array of `null`,
  integers and strings.
- **`Store`.**
  - The storage contract, as the value `StoreView` (tasks, last task id, todos,
    last todo id).
  - Its operations, as functions on that value.
- **`MemStore`.** The class `MemStore`. Its fields are updated in place, and
  each method is proved to perform the matching `StoreView` operation.
- **Predictor.** `DueEstimate` holds the predictor as functions on its
  per-task map. `DueGuesser` holds the class that updates that map.
- **Engine.** `Engine` holds the operations of `AllesattInner` as functions on
  `EngineState` (store plus predictor map). `EngineInner` holds the class
  `AllesattInner`, whose methods drive a `MemStore` and a `DueGuesser` and are
  proved equal to those functions. `clone_task`'s copy loop stays a loop.
- **`Logger`.**
  - Line format, line decoding and `parse_line`.
  - Play back as a function over the lines (`Replay`).
  - The class `ReadWriteLogger`: a line source it consumes and a target it
    appends to.
- **`Allesatt`.**
  - `AllesattImpl`: the engine plus its logger.
  - A session, as a sequence of operations (`Run`).
  - The replay theorem `ReplayReproducesRun`: playing back a session's log
    reproduces the session's final state. It holds for every session in which
    nothing panics, every logged id fits in a `u64`, and every failing
    operation leaves the engine unchanged.
  - `PausedCloneBreaksReplay`: a session that breaks the last of those
    conditions, and the log it writes, which cannot be played back.

### How the source is represented

**Time.**
- Dates are integers counting nanoseconds. Durations are natural numbers
  counting nanoseconds.
- The clock (`OffsetDateTime::now_utc`, `Local::now`) is a parameter `now`: one
  reading per operation, and one per played-back line.

**Panics.**
- A panic is a precondition (`…Panics` predicates) on the methods and on the
  engine functions.
- The session and play back functions (`Perform`, `ApplyEntry`, `Replay`) turn
  a panic into an `Abort` outcome that ends the run.

**Iteration order.** `HashMap` iteration order is unspecified. The model uses
ascending id order:
- `get_todos` and `get_tasks` list in id order;
- `find_open_todo` returns the open todo with the smallest id.

The order decides which copy gets which id when `clone_task` copies completed
todos; the model copies them in id order. `find_open_todo` has at most one
candidate, because the engine keeps at most one open todo per task (proved as
`AtMostOneOpen`, part of `Inv`).

## Model

| member | source | states |
|---|---|---|
| Store.StoreView.GetTask | src/engine/mem_store.rs:62-64 | a task is returned exactly when its id is stored, and it carries that id |
| Store.StoreView.GetTodo | src/engine/mem_store.rs:66-68 | a todo is returned exactly when its id is stored, and it carries that id |
| Store.StoreView.GetTasks | src/engine/mem_store.rs:106-108 | lists exactly the stored tasks, each once, in increasing id order |
| Store.StoreView.GetTodos | src/engine/mem_store.rs:84-97 | lists exactly the stored todos that match both filters (task, completed or not), in increasing id order |
| Store.StoreView.FindOpenTodo | src/engine/mem_store.rs:99-104 | None exactly when the task has no open todo; otherwise a stored open todo of that task (the lowest-numbered one) |
| Store.StoreView.CreateTask | src/engine/mem_store.rs:33-41 | the new id is last id + 1 and was not in use; exactly that task is added, nothing else changes |
| Store.StoreView.CreateTodo | src/engine/mem_store.rs:43-56 | refused (panic) when the task already has an open todo; otherwise a fresh id last + 1 holding an open todo with the given due date, all other todos and all tasks unchanged |
| Store.StoreView.CreatedTodoIsOpen | src/engine/mem_store.rs:43-56 | after create_todo, find_open_todo of that task returns the created todo |
| Store.StoreView.DeleteTodo | src/engine/mem_store.rs:57-60 | Ok exactly when the id is stored, and then only that todo is removed; otherwise "Todo not found" and nothing changes |
| Store.StoreView.SetTodoCompleted | src/engine/mem_store.rs:70-77 | Ok exactly when the id is stored, and then only that todo's completion changes; otherwise "Todo not found" and nothing changes |
| Store.StoreView.SetTodoDue | src/engine/mem_store.rs:79-82 | Ok exactly when the id is stored, and then only that todo's due date changes; otherwise "Todo not found" and nothing changes |
| Store.Empty | src/engine/mem_store.rs:14-23 | the default store is valid and lists no tasks and no todos |
| Store.GetTodosOnlyReadsTodos | src/engine/mem_store.rs:84-97 | get_todos depends only on the todos (not on the tasks) |
| Store.DeletedIdNotReused | src/engine/mem_store.rs:47-60 | a deleted todo's id is never handed out again by create_todo |
| Store.DeleteKeepsOtherOpenTodos | src/engine/mem_store.rs:57-60 | deleting a todo of one task does not change whether another task has an open todo |
| MemStore.MemStore.constructor | src/engine/mem_store.rs:14-29 | a new store is the empty store, counters at zero |
| MemStore.MemStore.CreateTask | src/engine/mem_store.rs:33-41 | the fields after the call are StoreView.CreateTask of the fields before; the id returned is its id |
| MemStore.MemStore.CreateTodo | src/engine/mem_store.rs:43-56 | the fields after the call are StoreView.CreateTodo of the fields before; the id returned is its id |
| MemStore.MemStore.DeleteTodo | src/engine/mem_store.rs:57-60 | the fields and result are StoreView.DeleteTodo's |
| MemStore.MemStore.SetTodoCompleted | src/engine/mem_store.rs:70-77 | the fields and result are StoreView.SetTodoCompleted's |
| MemStore.MemStore.SetTodoDue | src/engine/mem_store.rs:79-82 | the fields and result are StoreView.SetTodoDue's |
| MemStore.MemStore.GetTask | src/engine/mem_store.rs:62-64 | the stored task of that id, if any |
| MemStore.MemStore.GetTodo | src/engine/mem_store.rs:66-68 | the stored todo of that id, if any |
| MemStore.MemStore.GetTasks | src/engine/mem_store.rs:106-108 | exactly the stored tasks |
| MemStore.MemStore.GetTodos | src/engine/mem_store.rs:84-97 | exactly the stored todos matching both filters |
| MemStore.MemStore.FindOpenTodo | src/engine/mem_store.rs:99-104 | None exactly when the task has no open todo, otherwise a stored open todo of that task |
| Data.ShowTaskId | src/engine/data.rs:19-23 | the text is nonempty decimal digits without a leading zero whose value is the id |
| Data.ParseTaskId | src/engine/data.rs:25-30 | Ok exactly when the text (after an optional '+') is nonempty digits with value at most u64::MAX, and then the id has that value; otherwise an error |
| Data.ParseShowTaskId | src/engine/data.rs:19-30 | parsing the displayed text of a u64 task id gives the id back |
| Data.DecodeU64 | src/engine/data.rs:10-11 | an id field reads back exactly when it is an integer in 0..u64::MAX, as that integer |
| Data.EncodeCompleted | src/engine/data.rs:47-54 | a completion record is written as its bare date |
| Data.DecodeCompleted | src/engine/data.rs:56-63 | a completion record reads back exactly when a date does, wrapping it |
| Data.CompletedRoundTrip | src/engine/data.rs:47-63 | reading back a written completion record gives the record |
| Decimal.ShowNat | src/engine/data.rs:19-23 | decimal display: nonempty digits, no leading zero, value equal to the number |
| Decimal.ShowNatInjective | src/engine/data.rs:19-23 | different numbers display differently |
| Decimal.AccumulateValue | src/engine/data.rs:25-30 | digit accumulation succeeds exactly when all characters are digits and the value stays within u64, and then yields the value |
| Decimal.ParseU64Spec | src/engine/data.rs:25-30 | the u64 parser succeeds exactly on an optional '+' and nonempty digits of value at most u64::MAX, with that value |
| Decimal.ParseShowNat | src/engine/data.rs:19-30 | parsing the display of a u64 gives it back |
| Codec.ParseEncoded | src/engine/logger.rs:111-118 | a written scalar (null, integer, escaped string) reads back as itself, leaving the rest of the text |
| Codec.ParseEscaped | src/engine/logger.rs:129-136 | an escaped title reads back as the title |
| Codec.ParseJoined | src/engine/logger.rs:111-118 | a comma-separated list of written values reads back as the list |
| Codec.DecodeEncodedArray | src/engine/logger.rs:53-56 | an array written by the log_* methods reads back as the same values |
| Codec.EncodeArrayNoLineBreak | src/engine/logger.rs:129-136 | a written array contains no line break |
| DueEstimate.DueIn.Get | src/engine/due_guesser.rs:18-24 | the average rounded down (sum/count, bracketed from both sides), the fixed interval, or the default 30 days |
| DueEstimate.DueIn.AddDuration | src/engine/due_guesser.rs:26-33 | an average over at most 10 samples; from a non-average the new sample alone; from an average, the sample plus the old average times (new count - 1) |
| DueEstimate.AddDurationBetween | src/engine/due_guesser.rs:26-33 | the new estimate lies between the new sample and the old estimate |
| DueEstimate.AddEstimateIsStable | src/engine/due_guesser.rs:26-33 | adding a sample equal to the current estimate leaves the estimate unchanged |
| DueEstimate.InitTask | src/engine/due_guesser.rs:52-63 | the task gets a fixed interval (or none), no last completion; other tasks unchanged |
| DueEstimate.CopyTask | src/engine/due_guesser.rs:65-70 | the new task gets exactly the source task's info; other tasks unchanged |
| DueEstimate.HandleCompletion | src/engine/due_guesser.rs:72-86 | for a known task: the interval since the last completion (if any) enters the estimate and the completion becomes the last one; unknown tasks and other tasks unchanged |
| DueEstimate.HandlePause | src/engine/engine.rs:116 | the task's last completion is forgotten, its estimate kept; other tasks unchanged |
| DueEstimate.GuessDue | src/engine/due_guesser.rs:88-97 | last completion (or now) plus the estimate; now plus 30 days for an unknown task |
| DueEstimate.GuessLater | src/engine/due_guesser.rs:99-108 | the later of now and the due date, plus max(one day, estimate/5), or one day for an unknown task; so always at least a day past both |
| DueEstimate.IgnoresFixedAfterTwoCompletions | src/engine/due_guesser.rs:121-152 | with a fixed 5 days, the first guess is 5 days on; after a 2-day interval it is 4 days on (the test's values) |
| DueEstimate.MakesAGoodGuess | src/engine/due_guesser.rs:154-188 | intervals of 2 and 4 days give a guess 3 days after the last completion (the test's values) |
| DueGuesser.DueGuesser.constructor | src/engine/due_guesser.rs:47-50 | a new predictor knows no task |
| DueGuesser.DueGuesser.InitTask | src/engine/due_guesser.rs:52-63 | the map after the call is DueEstimate.InitTask of the map before |
| DueGuesser.DueGuesser.CopyTask | src/engine/due_guesser.rs:65-70 | the map after the call is DueEstimate.CopyTask of the map before (a missing source is excluded: it panics) |
| DueGuesser.DueGuesser.HandleCompletion | src/engine/due_guesser.rs:72-86 | the map after the call is DueEstimate.HandleCompletion of the map before |
| DueGuesser.DueGuesser.HandlePause | src/engine/engine.rs:116 | the map after the call is DueEstimate.HandlePause of the map before |
| DueGuesser.DueGuesser.GuessDue | src/engine/due_guesser.rs:88-97 | DueEstimate.GuessDue of the current map |
| DueGuesser.DueGuesser.GuessLater | src/engine/due_guesser.rs:99-108 | DueEstimate.GuessLater of the current map and store |
| Engine.Initial | src/engine/engine.rs:33-40 | a new engine has the given store and an empty predictor, and satisfies the engine invariant |
| Engine.CreateTodoKeepsAtMostOneOpen | src/engine/mem_store.rs:43-56 | creating a todo for a task without an open one keeps at most one open todo per task |
| Engine.CompletingKeepsAtMostOneOpen | src/engine/mem_store.rs:70-77 | marking a todo completed keeps at most one open todo per task |
| Engine.CompletedTodos | src/engine/engine.rs:62-67 | exactly the completed todos of the source task |
| Engine.CopiesShape | src/engine/engine.rs:69-72 | the copies get ids last+1 … last+n, the i-th copying the i-th completed todo's completion and due date, all for the new task |
| Engine.CopyCompleted | src/engine/engine.rs:69-72 | the copy loop adds exactly those copies and advances the todo counter by their number, tasks unchanged |
| Engine.CopyCompletedSnoc | src/engine/engine.rs:69-72 | one more pass of the loop is create_todo then set_todo_completed on the state so far |
| Engine.CopyCompletedKeepsOpenTodos | src/engine/engine.rs:69-77 | the copies are all completed, so which tasks have an open todo, and find_open_todo for every task, are unchanged |
| Engine.FindOpenTodoOfExtension | src/engine/mem_store.rs:99-104 | adding only completed todos does not change find_open_todo |
| Engine.CopiesKeepTodos | src/engine/engine.rs:69-72 | cloning keeps every existing todo as it was |
| Engine.CopyAt | src/engine/engine.rs:69-72 | the i-th copy is a fresh id holding the i-th completed todo's completion and due date for the new task |
| Engine.CreateTask | src/engine/engine.rs:45-50 | fresh task id and todo id (each last + 1); exactly the task and one open todo due now are added; the predictor gets the task's fixed interval; the new todo is the task's open todo |
| Engine.CopyPhase | src/engine/engine.rs:57-72 | after the first part of clone_task the new task exists with a completed copy of every completed todo of the source; every other todo and the source's open todo are unchanged |
| Engine.CloneTask | src/engine/engine.rs:52-80 | unknown source: "task not found", nothing changes; known source: predictor info copied, Ok exactly when the source has an open todo (then a new open todo due when the source's is); otherwise "Cloning paused tasks is not implemented" with the new task and copies kept |
| Engine.CloneKnown | src/engine/engine.rs:58-79 | the store part of clone_task on a known source, with the same cases |
| Engine.CompleteTodo | src/engine/engine.rs:82-100 | the predictor records the completion, the todo is marked completed, and one new open todo of the task is created, due at the guess made after the completion; Ok |
| Engine.CompleteAndReopen | src/engine/engine.rs:90-98 | the todos afterwards are the completed todo plus one fresh open todo of the same task; tasks unchanged |
| Engine.ReopenedTodoIsOpen | src/engine/engine.rs:97-98 | after completion the fresh todo is the task's open todo |
| Engine.TodoLater | src/engine/engine.rs:102-106 | only the todo's due date changes, to guess_later, which is after both now and the old due date |
| Engine.PauseTask | src/engine/engine.rs:108-118 | Ok exactly when the task has an open todo; then that todo is deleted, the task has no open todo and the predictor forgets the last completion; otherwise "Task not found or already paused" and nothing changes |
| Engine.UnpauseTask | src/engine/engine.rs:120-123 | a fresh open todo due now is created and returned; it is the task's open todo |
| Engine.CompletePanicsExactly | src/engine/engine.rs:82-100 | beyond the predictor's panics, complete_todo panics exactly when the todo was already completed while its task has an open todo |
| Engine.CompletingOpenTodoIsSafe | src/engine/engine.rs:82-100 | completing an open todo never panics in the store |
| Engine.PauseForgetsLastCompletion | src/engine/engine.rs:108-123 | after pause and unpause, completing gives a next due date of completion + the old estimate, ignoring the time across the pause |
| Engine.DefaultDurationAfterPausing | src/engine/engine.rs:216-236 | the test's scenario: the unpaused todo is due now, and after the next completion the new todo is again due now |
| EngineInner.AllesattInner.constructor | src/engine/engine.rs:33-40 | the engine over a store with a fresh predictor is Engine.Initial of the store |
| EngineInner.AllesattInner.CreateTask | src/engine/engine.rs:45-50 | the state and ids are Engine.CreateTask's |
| EngineInner.AllesattInner.CloneTask | src/engine/engine.rs:52-80 | the state and result are Engine.CloneTask's |
| EngineInner.AllesattInner.CopyCompletedTodos | src/engine/engine.rs:57-72 | the store after the copy part is Engine.CopyPhase |
| EngineInner.AllesattInner.CopyTodos | src/engine/engine.rs:69-72 | the loop leaves the store as Engine.CopyCompleted of the store before |
| EngineInner.AllesattInner.CopyOne | src/engine/engine.rs:70-71 | one pass of the loop extends CopyCompleted by one todo |
| EngineInner.AllesattInner.CompleteTodo | src/engine/engine.rs:82-100 | the state and result are Engine.CompleteTodo's |
| EngineInner.AllesattInner.TodoLater | src/engine/engine.rs:102-106 | the state and result are Engine.TodoLater's |
| EngineInner.AllesattInner.PauseTask | src/engine/engine.rs:108-118 | the state and result are Engine.PauseTask's |
| EngineInner.AllesattInner.UnpauseTask | src/engine/engine.rs:120-123 | the state and result are Engine.UnpauseTask's |
| Logger.FormatEntryIsOneLine | src/engine/logger.rs:104-179 | every formatted entry fits on one line |
| Logger.FirstColon | src/engine/logger.rs:54 | the position of the first ':' exactly when there is one |
| Logger.DecodeArgs | src/engine/logger.rs:55-87 | a decoded entry has the tag and the arguments it was decoded from, with ids within u64 |
| Logger.DecodeLine | src/engine/logger.rs:53-93 | "Invalid line" exactly when there is no ':'; an unknown tag gives "Unexpected tag:rest"; a decoded entry starts the line with its tag |
| Logger.DecodeTagged | src/engine/logger.rs:55-90 | a decoded entry has the given tag; an unknown tag gives "Unexpected …" |
| Logger.DecodeEncodedArgs | src/engine/logger.rs:55-87 | the arguments of an entry decode back to the entry |
| Logger.DecodeFormatted | src/engine/logger.rs:53-179 | every line the log_* methods write decodes to the entry it was written from |
| Logger.DecodeTaggedFormatted | src/engine/logger.rs:55-87 | the argument text of a written entry decodes to the entry under its tag |
| Logger.ApplyEntry | src/engine/logger.rs:55-87 | the operation a decoded line names, applied to the engine, keeps the engine invariant |
| Logger.CreateTaskStep | src/engine/logger.rs:55-60 | replaying create_task1 runs the engine's create_task (a panic aborts with the engine unchanged); Ok exactly when the logged ids are the ones it hands out, otherwise "Mismatch in task or todo ids" with the task still created |
| Logger.CloneTaskStep | src/engine/logger.rs:61-71 | replaying clone_task1 runs the engine's clone_task (a panic aborts with the engine unchanged); the engine's error is passed on; on success Ok exactly when the logged (new task, todo) ids are the ones handed out, otherwise "Mismatch in task or todo ids: expected …, found …" with both pairs |
| Logger.CompleteTodoStep | src/engine/logger.rs:72-75 | replaying complete_todo1 keeps the engine invariant; that it repeats complete_todo is Allesatt.CompleteEntryRepeats |
| Logger.TodoLaterStep | src/engine/logger.rs:76-79 | replaying todo_later1 keeps the engine invariant; that it repeats todo_later is Allesatt.LaterEntryRepeats |
| Logger.PauseTaskStep | src/engine/logger.rs:80-83 | replaying pause_task1 keeps the engine invariant; that it repeats pause_task is Allesatt.PauseEntryRepeats |
| Logger.UnpauseTaskStep | src/engine/logger.rs:84-87 | replaying unpause_task1 keeps the engine invariant; that it repeats unpause_task is Allesatt.UnpauseEntryRepeats |
| Logger.LineStep | src/engine/logger.rs:53-93 | parse_line: a line that does not decode leaves the engine as it was and reports the decoding error |
| Logger.Replay | src/engine/logger.rs:96-102 | play_back keeps the engine invariant |
| Logger.ReplayAfter | src/engine/logger.rs:97-100 | the rest of play back keeps the engine invariant; how it stops at a failing line is Logger.ReplayStopsAtFailure |
| Logger.ReplayAt | src/engine/logger.rs:96-102 | play back from the i-th line is that line's step followed by the rest |
| Logger.ReplayPrefix | src/engine/logger.rs:96-102 | when the first i lines play back without error, play back of all lines is play back of the rest from the state they leave |
| Logger.ReplayStopsAtFailure | src/engine/logger.rs:96-102 | play back stops at the first failing line: the result is that line's error with "\nLine content: " and the line appended, and the engine keeps what that line and the lines before it did |
| Logger.ParseLine | src/engine/logger.rs:53-93 | the engine's state and the result after parse_line are LineStep's |
| Logger.ApplyTo | src/engine/logger.rs:55-87 | the engine's state and the result are ApplyEntry's |
| Logger.ApplyCreateTask | src/engine/logger.rs:55-60 | the engine's state and the result are CreateTaskStep's |
| Logger.ApplyCloneTask | src/engine/logger.rs:61-71 | the engine's state and the result are CloneTaskStep's |
| Logger.ReadWriteLogger.constructor | src/engine/logger.rs:43-51 | the logger reads the given lines and writes to the given target |
| Logger.ReadWriteLogger.PlayBack | src/engine/logger.rs:96-102 | the engine ends as Replay of the lines; the result is Replay's; lines are consumed from the front, all of them on success; nothing is written |
| Logger.ReadWriteLogger.LogCreateTask | src/engine/logger.rs:122-138 | exactly one line "create_task1: [title, due_every, task, todo]" is appended |
| Logger.ReadWriteLogger.LogCloneTask | src/engine/logger.rs:104-120 | exactly one line "clone_task1: [task, title, new task, todo]" is appended |
| Logger.ReadWriteLogger.LogCompleteTodo | src/engine/logger.rs:140-152 | exactly one line "complete_todo1: [todo, completed]" is appended |
| Logger.ReadWriteLogger.LogTodoLater | src/engine/logger.rs:154-161 | exactly one line "todo_later1: [todo]" is appended |
| Logger.ReadWriteLogger.LogPauseTask | src/engine/logger.rs:163-170 | exactly one line "pause_task1: [task]" is appended |
| Logger.ReadWriteLogger.LogUnpauseTask | src/engine/logger.rs:172-179 | exactly one line "unpause_task1: [task]" is appended |
| Allesatt.Perform | src/engine/engine.rs:145-195 | one operation of AllesattImpl keeps the engine invariant |
| Allesatt.PerformCreateTask | src/engine/engine.rs:147-154 | create_task on AllesattImpl keeps the engine invariant; its logged entry replays it (Allesatt.CreateEntryRepeats) |
| Allesatt.PerformCloneTask | src/engine/engine.rs:156-167 | clone_task on AllesattImpl keeps the engine invariant; its logged entry replays it (Allesatt.CloneEntryRepeats) |
| Allesatt.PerformCompleteTodo | src/engine/engine.rs:169-177 | complete_todo on AllesattImpl keeps the engine invariant; its logged entry replays it (Allesatt.CompleteEntryRepeats) |
| Allesatt.PerformTodoLater | src/engine/engine.rs:179-183 | todo_later on AllesattImpl keeps the engine invariant; its logged entry replays it (Allesatt.LaterEntryRepeats) |
| Allesatt.PerformPauseTask | src/engine/engine.rs:185-189 | pause_task on AllesattImpl keeps the engine invariant; its logged entry replays it (Allesatt.PauseEntryRepeats) |
| Allesatt.PerformUnpauseTask | src/engine/engine.rs:191-195 | unpause_task on AllesattImpl keeps the engine invariant; its logged entry replays it (Allesatt.UnpauseEntryRepeats) |
| Allesatt.Logged | src/engine/engine.rs:145-195 | a successful operation writes exactly its formatted entry; a failing one writes nothing |
| Allesatt.EntryRepeatsOperation | src/engine/logger.rs:53-93 | applying the logged entry of a successful operation to the state before it gives the same state, with Ok |
| Allesatt.CreateEntryRepeats | src/engine/logger.rs:55-60 | replaying create_task1 repeats create_task |
| Allesatt.CloneEntryRepeats | src/engine/logger.rs:61-71 | replaying clone_task1 repeats clone_task |
| Allesatt.CloneStepRepeats | src/engine/logger.rs:61-71 | the logged ids of a clone are the ones the engine hands out again |
| Allesatt.CompleteEntryRepeats | src/engine/logger.rs:72-75 | replaying complete_todo1 repeats complete_todo |
| Allesatt.LaterEntryRepeats | src/engine/logger.rs:76-79 | replaying todo_later1 repeats todo_later |
| Allesatt.PauseEntryRepeats | src/engine/logger.rs:80-83 | replaying pause_task1 repeats pause_task, whatever the clock |
| Allesatt.UnpauseEntryRepeats | src/engine/logger.rs:84-87 | replaying unpause_task1 repeats unpause_task |
| Allesatt.ReplayRepeatsOperation | src/engine/logger.rs:53-179 | parsing the line an operation wrote repeats the operation |
| Allesatt.Run | src/engine/engine.rs:145-195 | a session keeps the engine invariant and pairs each written line with the clock reading of its operation |
| Allesatt.Continue | src/engine/engine.rs:145-195 | the rest of a session keeps the invariant and pairs lines with readings |
| Allesatt.ContinueStep | src/engine/logger.rs:96-102 | if an operation's line replays it and the rest of the log replays the rest, the whole log replays the session |
| Allesatt.ReplayFirst | src/engine/logger.rs:96-102 | play back of a log that starts with a good line continues from that line's state |
| Allesatt.ReplayReproducesRun | src/engine/logger.rs:96-102 | for a session without panics, ids within u64, and failing operations that change nothing, play back of its log with the same clock readings ends in the session's state, Ok |
| Allesatt.PausedCloneBreaksReplay | src/engine/engine.rs:52-80 | create a task, pause it, clone it (fails, yet uses up task id 2), create another: play back of the three lines written fails with "Mismatch in task or todo ids" on the last |
| Allesatt.SampleSession | src/engine/engine.rs:145-167 | that session writes the create, pause and create lines, the last with task id 3 |
| Allesatt.SamplePlayBack | src/engine/logger.rs:53-102 | played back, the last of those lines hands out task id 2, a mismatch |
| Allesatt.MismatchReported | src/engine/logger.rs:99 | a mismatch is reported with the line appended |
| Allesatt.AllesattImpl.constructor | src/engine/engine.rs:131-135 | the engine and the logger given |
| Allesatt.AllesattImpl.TryNew | src/engine/engine.rs:137-142 | plays the log into a fresh engine over the store; fails with play back's error exactly when play back fails; writes nothing |
| Allesatt.AllesattImpl.CreateTask | src/engine/engine.rs:147-154 | the engine's step and the returned ids are Perform's; its entry is appended to the log |
| Allesatt.AllesattImpl.CloneTask | src/engine/engine.rs:156-167 | the engine's step is Perform's; Ok exactly when it succeeds, then its entry carries the returned ids and is appended; on error nothing is logged |
| Allesatt.AllesattImpl.CompleteTodo | src/engine/engine.rs:169-177 | the engine's step is Perform's; Ok, with its entry appended |
| Allesatt.AllesattImpl.TodoLater | src/engine/engine.rs:179-183 | the engine's step is Perform's; Ok, with its entry appended |
| Allesatt.AllesattImpl.PauseTask | src/engine/engine.rs:185-189 | the engine's step is Perform's; Ok exactly when it succeeds, and only then is its entry appended |
| Allesatt.AllesattImpl.UnpauseTask | src/engine/engine.rs:191-195 | the engine's step is Perform's; returns the fresh todo id and appends its entry |

## Left out

- **JSON codec.** `serde_json` is replaced by a small codec: one array of
  `null`, integers and strings.
  - Dates (`TodoDate`, `TodoCompleted`) are written as integers, and durations
    as integers or `null`. The original writes them in serde's date and
    `Duration` formats.
  - Parser error texts are replaced by generic messages.
  - Only the form the logger writes is proved to read back.
- **Clock.** `OffsetDateTime::now_utc` and `Local::now` are parameters. The
  difference between UTC and local time is not modelled.
- **Integer widths.**
  - Id counters (`u64`) and date arithmetic (`Duration`, `chrono`) are
    unbounded. Overflow and the panics it causes in the original are not
    modelled.
  - The log's ids are checked against `u64::MAX` when read back.
- **Other panics.**
  - A negative completion interval (`to_std().unwrap()`) is a precondition
    (`CompletionPanics`), not a panic.
  - The exact panic texts of `Abort` outcomes are approximate.
- **I/O.**
  - Read and write errors of the log are not modelled.
  - The `.expect` on a failed log write in `create_task` and `clone_task` is
    not modelled.
  - The log source is a sequence of lines and the target a sequence of
    written lines.
- **Traits and generics.**
  - The traits `Store`, `Allesatt` and `Logger` are represented by the value
    `StoreView` and by the concrete classes `MemStore`, `AllesattInner`,
    `AllesattImpl` and `ReadWriteLogger`.
  - Generic parameters are fixed to these.
- **`get_store`.** It only exposes the store; the model reads `State()`
  instead.
- **`handle_pause`.** `DueGuesser::handle_pause` is called at
  src/engine/engine.rs:116 but not defined in src/engine/due_guesser.rs. It is
  modelled as forgetting the last completion and keeping the estimate. That is
  what the test at src/engine/engine.rs:216-236 needs.
- **`new` vs `try_new`.** src/engine/mod.rs re-exports `engine::new`, which
  src/engine/engine.rs does not define; the model follows `try_new`.
- **HashMap order.** Order is replaced by ascending id order (see above).
- **Allesatt.ReplayReproducesRun.** It is stated for sessions in which failing
  operations leave the engine unchanged. The replay theorem does not hold in
  general:
  - A `clone_task` of a paused task fails after creating the new task and its
    copies, and logs nothing. The log then no longer reproduces the task ids.
  - Allesatt.PausedCloneBreaksReplay exhibits a concrete session where this
    happens.
  - Play back also depends on the clock, since neither a todo's due date "now"
    nor the guess made from it is logged. The theorem therefore replays with
    the same clock readings.
- **Engine.CreateTask and Engine.UnpauseTask.** Both require that `create_todo`
  does not panic, that is, that the task has no open todo yet.
  - For `CreateTask` the panic is reachable only after `unpause_task` was called
    on a task id not yet handed out.
  - For `UnpauseTask` it is the ordinary case of unpausing a task that is not
    paused, for instance one just created: the source panics there
    (src/engine/mem_store.rs:44-46, reached from src/engine/engine.rs:121). The
    play back model turns it into an `Abort` (Logger.UnpauseTaskStep).
