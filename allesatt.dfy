/** `AllesattImpl`: the engine together with its log. Each operation runs on
    the engine and, when it succeeds, writes one log line; on start-up the log
    is played back into a fresh engine. */
module Allesatt {
  import opened Wrappers
  import opened Decimal
  import opened Data
  import opened Store
  import opened MemStore
  import opened DueEstimate
  import opened Engine
  import opened EngineInner
  import opened Logger

  /** An operation of the `Allesatt` interface, with its arguments. */
  datatype Op =
    | CreateTaskOp(title: string, dueEvery: Option<Duration>)
    | CloneTaskOp(src: TaskId, title: string)
    | CompleteTodoOp(todo: TodoId, completed: TodoCompleted)
    | TodoLaterOp(todo: TodoId)
    | PauseTaskOp(task: TaskId)
    | UnpauseTaskOp(task: TaskId)

  /** One operation of `AllesattImpl`: the engine's step and, on success, the
      entry it logs. A panic of the engine is an abort. */
  ghost function Perform(e: EngineState, op: Op, now: Timestamp): (r: (EngineState, Outcome<Entry>))
    requires Inv(e)
    ensures Inv(r.0)
  {
    match op
    case CreateTaskOp(title, dueEvery) => PerformCreateTask(e, title, dueEvery, now)
    case CloneTaskOp(src, title) => PerformCloneTask(e, src, title)
    case CompleteTodoOp(todo, completed) => PerformCompleteTodo(e, todo, completed, now)
    case TodoLaterOp(todo) => PerformTodoLater(e, todo, now)
    case PauseTaskOp(task) => PerformPauseTask(e, task)
    case UnpauseTaskOp(task) => PerformUnpauseTask(e, task, now)
  }

  ghost function PerformCreateTask(e: EngineState, title: string, dueEvery: Option<Duration>, now: Timestamp)
    : (r: (EngineState, Outcome<Entry>))
    requires Inv(e)
    ensures Inv(r.0)
  {
    if CreateTaskPanics(e) then (e, Abort("Already has an open todo"))
    else
      var c := CreateTask(e, title, dueEvery, now);
      (c.0, Ok(CreateTaskEntry(title, dueEvery, c.1.0, c.1.1)))
  }

  /** A clone that fails is not logged. */
  ghost function PerformCloneTask(e: EngineState, src: TaskId, title: string): (r: (EngineState, Outcome<Entry>))
    requires Inv(e)
    ensures Inv(r.0)
  {
    if ClonePanics(e, src) then (e, Abort("called `Option::unwrap()` on a `None` value"))
    else
      var c := CloneTask(e, src, title);
      if c.1.Ok? then (c.0, Ok(CloneTaskEntry(src, title, c.1.value.0, c.1.value.1)))
      else (c.0, Err(c.1.msg))
  }

  ghost function PerformCompleteTodo(e: EngineState, todo: TodoId, completed: TodoCompleted, now: Timestamp)
    : (r: (EngineState, Outcome<Entry>))
    requires Inv(e)
    ensures Inv(r.0)
  {
    if CompletePanics(e, todo, completed) then (e, Abort("complete_todo panicked"))
    else (CompleteTodo(e, todo, completed, now).0, Ok(CompleteTodoEntry(todo, completed)))
  }

  ghost function PerformTodoLater(e: EngineState, todo: TodoId, now: Timestamp): (r: (EngineState, Outcome<Entry>))
    requires Inv(e)
    ensures Inv(r.0)
  {
    if todo !in e.store.todos then (e, Abort("Todo not found"))
    else (TodoLater(e, todo, now).0, Ok(TodoLaterEntry(todo)))
  }

  /** A pause that fails is not logged. */
  ghost function PerformPauseTask(e: EngineState, task: TaskId): (r: (EngineState, Outcome<Entry>))
    requires Inv(e)
    ensures Inv(r.0)
  {
    var c := PauseTask(e, task);
    if c.1.Ok? then (c.0, Ok(PauseTaskEntry(task))) else (c.0, Err(c.1.msg))
  }

  ghost function PerformUnpauseTask(e: EngineState, task: TaskId, now: Timestamp): (r: (EngineState, Outcome<Entry>))
    requires Inv(e)
    ensures Inv(r.0)
  {
    if e.store.HasOpenTodo(task) then (e, Abort("Already has an open todo"))
    else (UnpauseTask(e, task, now).0, Ok(UnpauseTaskEntry(task)))
  }

  /** The lines an outcome writes: one for a success, none otherwise. */
  function Logged(o: Outcome<Entry>): (lines: seq<string>)
    ensures |lines| == if o.Ok? then 1 else 0
    ensures o.Ok? ==> lines[0] == FormatEntry(o.value)
  {
    if o.Ok? then [FormatEntry(o.value)] else []
  }

  /** The entry an operation logged, applied by play back with the same clock
      reading, repeats the operation. */
  lemma EntryRepeatsOperation(e: EngineState, op: Op, now: Timestamp)
    requires Inv(e) && Perform(e, op, now).1.Ok?
    ensures ApplyEntry(e, Perform(e, op, now).1.value, now).0 == Perform(e, op, now).0
    ensures ApplyEntry(e, Perform(e, op, now).1.value, now).1 == Ok(())
  {
    match op
    case CreateTaskOp(title, dueEvery) => CreateEntryRepeats(e, title, dueEvery, now);
    case CloneTaskOp(src, title) => CloneEntryRepeats(e, src, title, now);
    case CompleteTodoOp(todo, completed) => CompleteEntryRepeats(e, todo, completed, now);
    case TodoLaterOp(todo) => LaterEntryRepeats(e, todo, now);
    case PauseTaskOp(task) => PauseEntryRepeats(e, task);
    case UnpauseTaskOp(task) => UnpauseEntryRepeats(e, task, now);
  }

  lemma CreateEntryRepeats(e: EngineState, title: string, dueEvery: Option<Duration>, now: Timestamp)
    requires Inv(e) && PerformCreateTask(e, title, dueEvery, now).1.Ok?
    ensures var x := PerformCreateTask(e, title, dueEvery, now).1.value;
            ApplyEntry(e, x, now).0 == PerformCreateTask(e, title, dueEvery, now).0 &&
            ApplyEntry(e, x, now).1 == Ok(())
  {
  }

  lemma CloneEntryRepeats(e: EngineState, src: TaskId, title: string, now: Timestamp)
    requires Inv(e) && PerformCloneTask(e, src, title).1.Ok?
    ensures var x := PerformCloneTask(e, src, title).1.value;
            ApplyEntry(e, x, now).0 == PerformCloneTask(e, src, title).0 &&
            ApplyEntry(e, x, now).1 == Ok(())
  {
    var c := CloneTask(e, src, title);
    assert !ClonePanics(e, src) && c.1.Ok?;
    assert PerformCloneTask(e, src, title).1.value == CloneTaskEntry(src, title, c.1.value.0, c.1.value.1);
    CloneStepRepeats(e, src, title);
  }

  lemma CloneStepRepeats(e: EngineState, src: TaskId, title: string)
    requires Inv(e) && !ClonePanics(e, src) && CloneTask(e, src, title).1.Ok?
    ensures var c := CloneTask(e, src, title);
            CloneTaskStep(e, src, title, c.1.value.0, c.1.value.1).0 == c.0 &&
            CloneTaskStep(e, src, title, c.1.value.0, c.1.value.1).1 == Ok(())
  {
  }

  lemma CompleteEntryRepeats(e: EngineState, todo: TodoId, completed: TodoCompleted, now: Timestamp)
    requires Inv(e) && PerformCompleteTodo(e, todo, completed, now).1.Ok?
    ensures var x := PerformCompleteTodo(e, todo, completed, now).1.value;
            ApplyEntry(e, x, now).0 == PerformCompleteTodo(e, todo, completed, now).0 &&
            ApplyEntry(e, x, now).1 == Ok(())
  {
  }

  lemma LaterEntryRepeats(e: EngineState, todo: TodoId, now: Timestamp)
    requires Inv(e) && PerformTodoLater(e, todo, now).1.Ok?
    ensures var x := PerformTodoLater(e, todo, now).1.value;
            ApplyEntry(e, x, now).0 == PerformTodoLater(e, todo, now).0 &&
            ApplyEntry(e, x, now).1 == Ok(())
  {
  }

  lemma PauseEntryRepeats(e: EngineState, task: TaskId)
    requires Inv(e) && PerformPauseTask(e, task).1.Ok?
    ensures forall now :: var x := PerformPauseTask(e, task).1.value;
            ApplyEntry(e, x, now).0 == PerformPauseTask(e, task).0 &&
            ApplyEntry(e, x, now).1 == Ok(())
  {
  }

  lemma UnpauseEntryRepeats(e: EngineState, task: TaskId, now: Timestamp)
    requires Inv(e) && PerformUnpauseTask(e, task, now).1.Ok?
    ensures var x := PerformUnpauseTask(e, task, now).1.value;
            ApplyEntry(e, x, now).0 == PerformUnpauseTask(e, task, now).0 &&
            ApplyEntry(e, x, now).1 == Ok(())
  {
  }

  /** Playing back the line an operation wrote repeats the operation, when it
      is given the same clock reading. */
  lemma ReplayRepeatsOperation(e: EngineState, op: Op, now: Timestamp)
    requires Inv(e) && Perform(e, op, now).1.Ok? && Encodable(Perform(e, op, now).1.value)
    ensures LineStep(e, FormatEntry(Perform(e, op, now).1.value), now).0 == Perform(e, op, now).0
    ensures LineStep(e, FormatEntry(Perform(e, op, now).1.value), now).1 == Ok(())
  {
    DecodeFormatted(Perform(e, op, now).1.value);
    EntryRepeatsOperation(e, op, now);
  }

  // ---------------------------------------------------------------- sessions

  /** A session: the state after `ops`, the `i`-th with clock reading
      `clock[i]`, the lines written and the clock readings of the operations
      that wrote them. A panic ends the session. */
  datatype Trace = Trace(state: EngineState, log: seq<string>, readings: seq<Timestamp>)

  ghost function Run(e: EngineState, ops: seq<Op>, clock: seq<Timestamp>): (r: Trace)
    requires Inv(e) && |clock| == |ops|
    ensures Inv(r.state) && |r.readings| == |r.log|
    decreases |ops|, 0
  {
    if ops == [] then Trace(e, [], [])
    else Continue(Perform(e, ops[0], clock[0]), clock[0], ops[1..], clock[1..])
  }

  /** The rest of a session once an operation taken at `now` has had outcome
      `p`. */
  ghost function Continue(p: (EngineState, Outcome<Entry>), now: Timestamp, ops: seq<Op>, clock: seq<Timestamp>)
    : (r: Trace)
    requires Inv(p.0) && |clock| == |ops|
    ensures Inv(r.state) && |r.readings| == |r.log|
    decreases |ops|, 1
  {
    if p.1.Abort? then Trace(p.0, [], [])
    else
      var t := Run(p.0, ops, clock);
      Trace(t.state, Logged(p.1) + t.log, (if p.1.Ok? then [now] else []) + t.readings)
  }

  /** The sessions the log describes faithfully: nothing panics, every logged
      id fits in a `u64`, and every operation that fails leaves the engine as
      it was. */
  ghost predicate Replayable(e: EngineState, ops: seq<Op>, clock: seq<Timestamp>)
    requires Inv(e) && |clock| == |ops|
    decreases |ops|, 0
  {
    ops == [] || ReplayableAfter(e, Perform(e, ops[0], clock[0]), ops[1..], clock[1..])
  }

  ghost predicate ReplayableAfter(e: EngineState, p: (EngineState, Outcome<Entry>), ops: seq<Op>, clock: seq<Timestamp>)
    requires Inv(p.0) && |clock| == |ops|
    decreases |ops|, 1
  {
    !p.1.Abort? && (p.1.Ok? ==> Encodable(p.1.value)) && (p.1.Err? ==> p.0 == e) &&
    Replayable(p.0, ops, clock)
  }

  /** One step of a session, and of its play back, past an operation that
      does not panic. */
  lemma ContinueStep(e: EngineState, p: (EngineState, Outcome<Entry>), now: Timestamp, ops: seq<Op>, clock: seq<Timestamp>)
    requires Inv(e) && Inv(p.0) && |clock| == |ops| && ReplayableAfter(e, p, ops, clock)
    requires p.1.Ok? ==> LineStep(e, FormatEntry(p.1.value), now).0 == p.0 &&
                         LineStep(e, FormatEntry(p.1.value), now).1 == Ok(())
    requires Replay(p.0, Run(p.0, ops, clock).log, Run(p.0, ops, clock).readings).0 == Run(p.0, ops, clock).state
    requires Replay(p.0, Run(p.0, ops, clock).log, Run(p.0, ops, clock).readings).1 == Ok(())
    ensures Replay(e, Continue(p, now, ops, clock).log, Continue(p, now, ops, clock).readings).0 ==
              Continue(p, now, ops, clock).state
    ensures Replay(e, Continue(p, now, ops, clock).log, Continue(p, now, ops, clock).readings).1 == Ok(())
  {
    var t := Run(p.0, ops, clock);
    var c := Continue(p, now, ops, clock);
    if p.1.Ok? {
      var line := FormatEntry(p.1.value);
      assert c.log == [line] + t.log && c.readings == [now] + t.readings;
      ReplayFirst(e, line, t.log, now, t.readings);
    } else {
      assert c.log == t.log && c.readings == t.readings;
    }
  }

  /** Play back past a line that succeeds. */
  lemma ReplayFirst(e: EngineState, line: string, lines: seq<string>, now: Timestamp, clock: seq<Timestamp>)
    requires Inv(e) && |clock| >= |lines| && LineStep(e, line, now).1 == Ok(())
    ensures Replay(e, [line] + lines, [now] + clock).0 == Replay(LineStep(e, line, now).0, lines, clock).0
    ensures Replay(e, [line] + lines, [now] + clock).1 == Replay(LineStep(e, line, now).0, lines, clock).1
  {
    assert ([line] + lines)[1..] == lines;
    assert ([now] + clock)[1..] == clock;
  }

  /** Playing back the log of a replayable session, with the clock readings
      the logged operations took, rebuilds the state the session ended in. */
  lemma {:induction false} ReplayReproducesRun(e: EngineState, ops: seq<Op>, clock: seq<Timestamp>)
    requires Inv(e) && |clock| == |ops| && Replayable(e, ops, clock)
    ensures Replay(e, Run(e, ops, clock).log, Run(e, ops, clock).readings).0 == Run(e, ops, clock).state
    ensures Replay(e, Run(e, ops, clock).log, Run(e, ops, clock).readings).1 == Ok(())
    decreases |ops|
  {
    if ops != [] {
      var p := Perform(e, ops[0], clock[0]);
      assert Run(e, ops, clock) == Continue(p, clock[0], ops[1..], clock[1..]);
      assert ReplayableAfter(e, p, ops[1..], clock[1..]);
      ReplayReproducesRun(p.0, ops[1..], clock[1..]);
      if p.1.Ok? {
        ReplayRepeatsOperation(e, ops[0], clock[0]);
      }
      ContinueStep(e, p, clock[0], ops[1..], clock[1..]);
    }
  }

  /** A session written as its first operation and the rest. */
  lemma RunCons(e: EngineState, op: Op, ops: seq<Op>, now: Timestamp, clock: seq<Timestamp>)
    requires Inv(e) && |clock| == |ops|
    ensures Run(e, [op] + ops, [now] + clock) == Continue(Perform(e, op, now), now, ops, clock)
  {
    assert ([op] + ops)[0] == op && ([op] + ops)[1..] == ops;
    assert ([now] + clock)[0] == now && ([now] + clock)[1..] == clock;
  }

  lemma ContinueLog(p: (EngineState, Outcome<Entry>), now: Timestamp, ops: seq<Op>, clock: seq<Timestamp>)
    requires Inv(p.0) && |clock| == |ops| && !p.1.Abort?
    ensures Continue(p, now, ops, clock).log == Logged(p.1) + Run(p.0, ops, clock).log
    ensures Continue(p, now, ops, clock).readings == (if p.1.Ok? then [now] else []) + Run(p.0, ops, clock).readings
  {
  }

  /** Play back written as its first line and the rest. */
  lemma ReplayCons(e: EngineState, line: string, lines: seq<string>, now: Timestamp, clock: seq<Timestamp>)
    requires Inv(e) && |clock| >= |lines|
    ensures Replay(e, [line] + lines, [now] + clock).0 == ReplayAfter(LineStep(e, line, now), line, lines, clock).0
    ensures Replay(e, [line] + lines, [now] + clock).1 == ReplayAfter(LineStep(e, line, now), line, lines, clock).1
  {
    assert ([line] + lines)[0] == line && ([line] + lines)[1..] == lines;
    assert ([now] + clock)[0] == now && ([now] + clock)[1..] == clock;
  }

  /** A session that fails to clone a paused task. */
  function SampleOps(a: string, b: string, c: string): seq<Op>
  {
    [CreateTaskOp(a, None), PauseTaskOp(TaskId(1)), CloneTaskOp(TaskId(1), b), CreateTaskOp(c, None)]
  }

  /** What it logs. */
  function SampleLog(a: string, c: string): seq<string>
  {
    [FormatEntry(CreateTaskEntry(a, None, TaskId(1), TodoId(1))),
     FormatEntry(PauseTaskEntry(TaskId(1))),
     FormatEntry(CreateTaskEntry(c, None, TaskId(3), TodoId(2)))]
  }

  /** A failed clone of a paused task is not logged, yet it has created the
      new task: a session that creates a task, pauses it, fails to clone it and
      creates another task logs ids that play back does not reproduce. */
  lemma PausedCloneBreaksReplay(a: string, b: string, c: string, now: Timestamp)
    ensures var e0 := Initial(Store.Empty());
            var run := Run(e0, SampleOps(a, b, c), [now, now, now, now]);
            run.log == SampleLog(a, c) && run.readings == [now, now, now] &&
            Replay(e0, run.log, run.readings).1 ==
              Err("Mismatch in task or todo ids\nLine content: " + SampleLog(a, c)[2])
  {
    SampleSession(a, b, c, now);
    SamplePlayBack(a, c, now);
  }

  lemma SampleSession(a: string, b: string, c: string, now: Timestamp)
    ensures var run := Run(Initial(Store.Empty()), SampleOps(a, b, c), [now, now, now, now]);
            run.log == SampleLog(a, c) && run.readings == [now, now, now]
  {
    var ops := SampleOps(a, b, c);
    assert ops == [ops[0]] + ops[1..] && [now, now, now, now] == [now] + [now, now, now];
    RunCons(Initial(Store.Empty()), ops[0], ops[1..], now, [now, now, now]);
    SampleCreate(a, now);
    SessionFromCreate(Perform(Initial(Store.Empty()), ops[0], now), ops[1..], a, b, c, now);
  }

  /** The session once `create_task` has handed out task 1 and todo 1. */
  lemma SessionFromCreate(p: (EngineState, Outcome<Entry>), ops: seq<Op>, a: string, b: string, c: string, now: Timestamp)
    requires ops == [PauseTaskOp(TaskId(1)), CloneTaskOp(TaskId(1), b), CreateTaskOp(c, None)]
    requires Inv(p.0) && p.1 == Ok(CreateTaskEntry(a, None, TaskId(1), TodoId(1)))
    requires p.0.store.lastTaskId == 1 && p.0.store.lastTodoId == 1
    requires p.0.store.todos == map[TodoId(1) := Todo(TodoId(1), TaskId(1), None, now)]
    requires TaskId(1) in p.0.store.tasks && TaskId(1) in p.0.info
    ensures Continue(p, now, ops, [now, now, now]).log == SampleLog(a, c)
    ensures Continue(p, now, ops, [now, now, now]).readings == [now, now, now]
  {
    SessionAfterCreate(p.0, ops, b, c, now);
    ContinueLog(p, now, ops, [now, now, now]);
  }

  /** The session from `pause_task 1` on. */
  lemma SessionAfterCreate(e: EngineState, ops: seq<Op>, b: string, c: string, now: Timestamp)
    requires ops == [PauseTaskOp(TaskId(1)), CloneTaskOp(TaskId(1), b), CreateTaskOp(c, None)]
    requires Inv(e) && e.store.lastTaskId == 1 && e.store.lastTodoId == 1
    requires e.store.todos == map[TodoId(1) := Todo(TodoId(1), TaskId(1), None, now)]
    requires TaskId(1) in e.store.tasks && TaskId(1) in e.info
    ensures Run(e, ops, [now, now, now]).log ==
              [FormatEntry(PauseTaskEntry(TaskId(1))), FormatEntry(CreateTaskEntry(c, None, TaskId(3), TodoId(2)))]
    ensures Run(e, ops, [now, now, now]).readings == [now, now]
  {
    assert ops == [ops[0]] + ops[1..] && [now, now, now] == [now] + [now, now];
    RunCons(e, ops[0], ops[1..], now, [now, now]);
    SamplePause(e, now);
    SessionFromPause(Perform(e, ops[0], now), ops[1..], b, c, now);
  }

  /** The session once `pause_task 1` has deleted the open todo. */
  lemma SessionFromPause(p: (EngineState, Outcome<Entry>), ops: seq<Op>, b: string, c: string, now: Timestamp)
    requires ops == [CloneTaskOp(TaskId(1), b), CreateTaskOp(c, None)]
    requires Inv(p.0) && p.1 == Ok(PauseTaskEntry(TaskId(1)))
    requires p.0.store.lastTaskId == 1 && p.0.store.lastTodoId == 1 && p.0.store.todos == map[]
    requires TaskId(1) in p.0.store.tasks && TaskId(1) in p.0.info
    ensures Continue(p, now, ops, [now, now]).log ==
              [FormatEntry(PauseTaskEntry(TaskId(1))), FormatEntry(CreateTaskEntry(c, None, TaskId(3), TodoId(2)))]
    ensures Continue(p, now, ops, [now, now]).readings == [now, now]
  {
    SessionAfterPause(p.0, ops, b, c, now);
    ContinueLog(p, now, ops, [now, now]);
  }

  /** The session from `clone_task 1` on. */
  lemma SessionAfterPause(e: EngineState, ops: seq<Op>, b: string, c: string, now: Timestamp)
    requires ops == [CloneTaskOp(TaskId(1), b), CreateTaskOp(c, None)]
    requires Inv(e) && e.store.lastTaskId == 1 && e.store.lastTodoId == 1 && e.store.todos == map[]
    requires TaskId(1) in e.store.tasks && TaskId(1) in e.info
    ensures Run(e, ops, [now, now]).log == [FormatEntry(CreateTaskEntry(c, None, TaskId(3), TodoId(2)))]
    ensures Run(e, ops, [now, now]).readings == [now]
  {
    assert ops == [ops[0]] + ops[1..] && [now, now] == [now] + [now];
    RunCons(e, ops[0], ops[1..], now, [now]);
    SampleClone(e, b);
    SessionFromClone(Perform(e, ops[0], now), ops[1..], c, now);
  }

  /** The session once the clone has failed. */
  lemma SessionFromClone(p: (EngineState, Outcome<Entry>), ops: seq<Op>, c: string, now: Timestamp)
    requires ops == [CreateTaskOp(c, None)]
    requires Inv(p.0) && p.1 == Err("Cloning paused tasks is not implemented")
    requires p.0.store.lastTaskId == 2 && p.0.store.lastTodoId == 1 && p.0.store.todos == map[]
    ensures Continue(p, now, ops, [now]).log == [FormatEntry(CreateTaskEntry(c, None, TaskId(3), TodoId(2)))]
    ensures Continue(p, now, ops, [now]).readings == [now]
  {
    SessionAfterClone(p.0, ops, c, now);
    ContinueLog(p, now, ops, [now]);
  }

  /** The session's last operation, `create_task` after the failed clone. */
  lemma SessionAfterClone(e: EngineState, ops: seq<Op>, c: string, now: Timestamp)
    requires ops == [CreateTaskOp(c, None)]
    requires Inv(e) && e.store.lastTaskId == 2 && e.store.lastTodoId == 1 && e.store.todos == map[]
    ensures Run(e, ops, [now]).log == [FormatEntry(CreateTaskEntry(c, None, TaskId(3), TodoId(2)))]
    ensures Run(e, ops, [now]).readings == [now]
  {
    assert ops == [ops[0]] + [] && [now] == [now] + [];
    RunCons(e, ops[0], [], now, []);
    SampleCreateAfterClone(e, c, now);
    ContinueLog(Perform(e, ops[0], now), now, [], []);
  }

  lemma SamplePlayBack(a: string, c: string, now: Timestamp)
    ensures Replay(Initial(Store.Empty()), SampleLog(a, c), [now, now, now]).1 ==
              Err("Mismatch in task or todo ids\nLine content: " + SampleLog(a, c)[2])
  {
    var e0 := Initial(Store.Empty());
    var lines := SampleLog(a, c);
    assert lines == [lines[0]] + lines[1..] && [now, now, now] == [now] + [now, now];
    ReplayCons(e0, lines[0], lines[1..], now, [now, now]);
    SampleCreate(a, now);
    ReplayRepeatsOperation(e0, CreateTaskOp(a, None), now);
    PlayBackFromCreate(LineStep(e0, lines[0], now), lines[0], lines[1..], c, now);
  }

  /** Play back once the first line has created task 1 and todo 1. */
  lemma PlayBackFromCreate(s: (EngineState, Outcome<()>), line: string, lines: seq<string>, c: string, now: Timestamp)
    requires lines == [FormatEntry(PauseTaskEntry(TaskId(1))), FormatEntry(CreateTaskEntry(c, None, TaskId(3), TodoId(2)))]
    requires Inv(s.0) && s.1 == Ok(())
    requires s.0.store.lastTaskId == 1 && s.0.store.lastTodoId == 1
    requires s.0.store.todos == map[TodoId(1) := Todo(TodoId(1), TaskId(1), None, now)]
    requires TaskId(1) in s.0.store.tasks && TaskId(1) in s.0.info
    ensures ReplayAfter(s, line, lines, [now, now]).1 == Err("Mismatch in task or todo ids\nLine content: " + lines[1])
  {
    PlayBackAfterCreate(s.0, lines, c, now);
  }

  /** Play back of the `pause_task 1` line and the line after it. */
  lemma PlayBackAfterCreate(e: EngineState, lines: seq<string>, c: string, now: Timestamp)
    requires lines == [FormatEntry(PauseTaskEntry(TaskId(1))), FormatEntry(CreateTaskEntry(c, None, TaskId(3), TodoId(2)))]
    requires Inv(e) && e.store.lastTaskId == 1 && e.store.lastTodoId == 1
    requires e.store.todos == map[TodoId(1) := Todo(TodoId(1), TaskId(1), None, now)]
    requires TaskId(1) in e.store.tasks && TaskId(1) in e.info
    ensures Replay(e, lines, [now, now]).1 == Err("Mismatch in task or todo ids\nLine content: " + lines[1])
  {
    assert lines == [lines[0]] + lines[1..] && [now, now] == [now] + [now];
    ReplayCons(e, lines[0], lines[1..], now, [now]);
    PauseLineReplays(e, now);
    PlayBackFromPause(LineStep(e, lines[0], now), lines[0], lines[1..], c, now);
  }

  /** The `pause_task 1` line deletes the open todo. */
  lemma PauseLineReplays(e: EngineState, now: Timestamp)
    requires Inv(e) && e.store.lastTaskId == 1 && e.store.lastTodoId == 1
    requires e.store.todos == map[TodoId(1) := Todo(TodoId(1), TaskId(1), None, now)]
    requires TaskId(1) in e.store.tasks && TaskId(1) in e.info
    ensures var s := LineStep(e, FormatEntry(PauseTaskEntry(TaskId(1))), now);
            s.1 == Ok(()) && s.0.store.lastTaskId == 1 && s.0.store.lastTodoId == 1 && s.0.store.todos == map[]
  {
    SamplePause(e, now);
    ReplayRepeatsOperation(e, PauseTaskOp(TaskId(1)), now);
  }

  /** Play back once the second line has deleted the open todo. */
  lemma PlayBackFromPause(s: (EngineState, Outcome<()>), line: string, lines: seq<string>, c: string, now: Timestamp)
    requires lines == [FormatEntry(CreateTaskEntry(c, None, TaskId(3), TodoId(2)))]
    requires Inv(s.0) && s.1 == Ok(())
    requires s.0.store.lastTaskId == 1 && s.0.store.lastTodoId == 1 && s.0.store.todos == map[]
    ensures ReplayAfter(s, line, lines, [now]).1 == Err("Mismatch in task or todo ids\nLine content: " + lines[0])
  {
    PlayBackAfterPause(s.0, lines, c, now);
  }

  /** Play back of the last line, which names task 3 where the engine hands out task 2. */
  lemma PlayBackAfterPause(e: EngineState, lines: seq<string>, c: string, now: Timestamp)
    requires lines == [FormatEntry(CreateTaskEntry(c, None, TaskId(3), TodoId(2)))]
    requires Inv(e) && e.store.lastTaskId == 1 && e.store.lastTodoId == 1 && e.store.todos == map[]
    ensures Replay(e, lines, [now]).1 == Err("Mismatch in task or todo ids\nLine content: " + lines[0])
  {
    assert lines == [lines[0]] + [] && [now] == [now] + [];
    ReplayCons(e, lines[0], [], now, []);
    MismatchLine(e, c, now);
    MismatchReported(LineStep(e, lines[0], now), lines[0]);
  }

  /** The last line fails to apply. */
  lemma MismatchLine(e: EngineState, c: string, now: Timestamp)
    requires Inv(e) && e.store.lastTaskId == 1 && e.store.lastTodoId == 1 && e.store.todos == map[]
    ensures LineStep(e, FormatEntry(CreateTaskEntry(c, None, TaskId(3), TodoId(2))), now).1 ==
              Err("Mismatch in task or todo ids")
  {
    DecodeFormatted(CreateTaskEntry(c, None, TaskId(3), TodoId(2)));
    SampleMismatch(e, c, now);
  }

  /** A failed last line ends play back with the line appended to the message. */
  lemma MismatchReported(s: (EngineState, Outcome<()>), line: string)
    requires Inv(s.0) && s.1 == Err("Mismatch in task or todo ids")
    ensures ReplayAfter(s, line, [], []).1 == Err("Mismatch in task or todo ids\nLine content: " + line)
  {
  }

  /** `create_task` on the empty store. */
  lemma SampleCreate(a: string, now: Timestamp)
    ensures var p := PerformCreateTask(Initial(Store.Empty()), a, None, now);
            p.1 == Ok(CreateTaskEntry(a, None, TaskId(1), TodoId(1))) && Encodable(p.1.value) &&
            p.0.store.lastTaskId == 1 && p.0.store.lastTodoId == 1 &&
            p.0.store.todos == map[TodoId(1) := Todo(TodoId(1), TaskId(1), None, now)] &&
            TaskId(1) in p.0.store.tasks && TaskId(1) in p.0.info
  {
    var e0 := Initial(Store.Empty());
    assert !CreateTaskPanics(e0);
  }

  /** `pause_task 1` deletes its only todo. */
  lemma SamplePause(e: EngineState, now: Timestamp)
    requires Inv(e) && e.store.lastTaskId == 1 && e.store.lastTodoId == 1
    requires e.store.todos == map[TodoId(1) := Todo(TodoId(1), TaskId(1), None, now)]
    requires TaskId(1) in e.store.tasks && TaskId(1) in e.info
    ensures var p := PerformPauseTask(e, TaskId(1));
            p.1 == Ok(PauseTaskEntry(TaskId(1))) && Encodable(p.1.value) &&
            p.0.store.lastTaskId == 1 && p.0.store.lastTodoId == 1 && p.0.store.todos == map[] &&
            TaskId(1) in p.0.store.tasks && TaskId(1) in p.0.info
  {
    assert StoreView.IsOpenFor(e.store.todos[TodoId(1)], TaskId(1));
  }

  /** `clone_task 1` of the paused task fails after creating task 2. */
  lemma SampleClone(e: EngineState, b: string)
    requires Inv(e) && e.store.lastTaskId == 1 && e.store.lastTodoId == 1 && e.store.todos == map[]
    requires TaskId(1) in e.store.tasks && TaskId(1) in e.info
    ensures var p := PerformCloneTask(e, TaskId(1), b);
            p.1 == Err("Cloning paused tasks is not implemented") &&
            p.0.store.lastTaskId == 2 && p.0.store.lastTodoId == 1 && p.0.store.todos == map[]
  {
    assert !e.store.HasOpenTodo(TaskId(2)) && !e.store.HasOpenTodo(TaskId(1));
    var done := CompletedTodos(e.store, TaskId(1));
    assert e.store.todos.Values == {};
    assert forall i :: 0 <= i < |done| ==> done[i] in done;
    assert Copies(e.store.lastTodoId, TaskId(2), []) == map[];
  }

  /** `create_task` after the failed clone hands out task 3. */
  lemma SampleCreateAfterClone(e: EngineState, c: string, now: Timestamp)
    requires Inv(e) && e.store.lastTaskId == 2 && e.store.lastTodoId == 1 && e.store.todos == map[]
    ensures var p := PerformCreateTask(e, c, None, now);
            p.1 == Ok(CreateTaskEntry(c, None, TaskId(3), TodoId(2))) && Encodable(p.1.value)
  {
    assert !CreateTaskPanics(e);
  }

  /** Play back of that line, where the engine hands out task 2. */
  lemma SampleMismatch(e: EngineState, c: string, now: Timestamp)
    requires Inv(e) && e.store.lastTaskId == 1 && e.store.lastTodoId == 1 && e.store.todos == map[]
    ensures ApplyEntry(e, CreateTaskEntry(c, None, TaskId(3), TodoId(2)), now).1 ==
              Err("Mismatch in task or todo ids")
  {
    assert !CreateTaskPanics(e);
  }

  // ---------------------------------------------------------------- the engine with its log

  class AllesattImpl {
    const inner: AllesattInner
    const logger: ReadWriteLogger

    ghost predicate Valid()
      reads this, inner, inner.store, inner.dueGuesser
    {
      inner.Valid()
    }

    constructor (inner: AllesattInner, logger: ReadWriteLogger)
      ensures this.inner == inner && this.logger == logger
    {
      this.inner := inner;
      this.logger := logger;
    }

    /** `AllesattImpl::try_new`: plays the log back into an engine over
        `store`; fails with play back's error. Nothing is written. */
    static method TryNew(store: MemStore, logger: ReadWriteLogger, clock: seq<Timestamp>)
      returns (r: Outcome<AllesattImpl>)
      requires store.Valid() && AtMostOneOpen(store.View()) && |clock| >= |logger.source|
      requires !Replay(Initial(store.View()), logger.source, clock).1.Abort?
      modifies store, logger
      ensures !r.Abort?
      ensures r.Err? <==> Replay(Initial(old(store.View())), old(logger.source), clock).1.Err?
      ensures r.Err? ==> r.msg == Replay(Initial(old(store.View())), old(logger.source), clock).1.msg
      ensures r.Ok? ==>
                r.value.Valid() && r.value.inner.store == store && r.value.logger == logger &&
                r.value.inner.State() == Replay(Initial(old(store.View())), old(logger.source), clock).0
      ensures logger.target == old(logger.target)
    {
      var inner := new AllesattInner(store);
      var played := logger.PlayBack(inner, clock);
      if !played.Ok? {
        return Err(played.msg);
      }
      var app := new AllesattImpl(inner, logger);
      r := Ok(app);
    }

    /** `create_task`: a logging failure panics in the source and is not
        modelled. */
    method CreateTask(title: string, dueEvery: Option<Duration>, now: Timestamp) returns (task: TaskId, todo: TodoId)
      requires Valid() && !Perform(inner.State(), CreateTaskOp(title, dueEvery), now).1.Abort?
      modifies inner.store, inner.dueGuesser, logger
      ensures Valid()
      ensures inner.State() == Perform(old(inner.State()), CreateTaskOp(title, dueEvery), now).0
      ensures Perform(old(inner.State()), CreateTaskOp(title, dueEvery), now).1 ==
                Ok(CreateTaskEntry(title, dueEvery, task, todo))
      ensures logger.target == old(logger.target) + Logged(Perform(old(inner.State()), CreateTaskOp(title, dueEvery), now).1)
      ensures logger.source == old(logger.source)
    {
      task, todo := inner.CreateTask(title, dueEvery, now);
      logger.LogCreateTask(title, dueEvery, task, todo);
    }

    /** `clone_task`: only a clone that succeeds is logged. */
    method CloneTask(src: TaskId, title: string) returns (r: Outcome<(TaskId, TodoId)>)
      requires Valid() && !PerformCloneTask(inner.State(), src, title).1.Abort?
      modifies inner.store, inner.dueGuesser, logger
      ensures Valid()
      ensures inner.State() == PerformCloneTask(old(inner.State()), src, title).0
      ensures !r.Abort? && (r.Ok? <==> PerformCloneTask(old(inner.State()), src, title).1.Ok?)
      ensures r.Ok? ==>
                PerformCloneTask(old(inner.State()), src, title).1.value == CloneTaskEntry(src, title, r.value.0, r.value.1)
      ensures r.Err? ==> r.msg == PerformCloneTask(old(inner.State()), src, title).1.msg
      ensures logger.target == old(logger.target) + Logged(PerformCloneTask(old(inner.State()), src, title).1)
      ensures logger.source == old(logger.source)
    {
      ghost var e := inner.State();
      assert !ClonePanics(e, src);
      r := inner.CloneTask(src, title);
      ghost var p := PerformCloneTask(e, src, title);
      assert p.0 == inner.State();
      if r.Ok? {
        assert p.1 == Ok(CloneTaskEntry(src, title, r.value.0, r.value.1));
        logger.LogCloneTask(src, title, r.value.0, r.value.1);
      } else {
        assert p.1 == Err(r.msg);
      }
    }

    method CompleteTodo(todo: TodoId, completed: TodoCompleted, now: Timestamp) returns (r: Outcome<()>)
      requires Valid() && !Perform(inner.State(), CompleteTodoOp(todo, completed), now).1.Abort?
      modifies inner.store, inner.dueGuesser, logger
      ensures Valid()
      ensures inner.State() == Perform(old(inner.State()), CompleteTodoOp(todo, completed), now).0
      ensures r == Ok(()) && Perform(old(inner.State()), CompleteTodoOp(todo, completed), now).1.Ok?
      ensures logger.target == old(logger.target) + Logged(Perform(old(inner.State()), CompleteTodoOp(todo, completed), now).1)
      ensures logger.source == old(logger.source)
    {
      r := inner.CompleteTodo(todo, completed, now);
      logger.LogCompleteTodo(todo, completed);
    }

    method TodoLater(todo: TodoId, now: Timestamp) returns (r: Outcome<()>)
      requires Valid() && !Perform(inner.State(), TodoLaterOp(todo), now).1.Abort?
      modifies inner.store, inner.dueGuesser, logger
      ensures Valid()
      ensures inner.State() == Perform(old(inner.State()), TodoLaterOp(todo), now).0
      ensures r == Ok(()) && Perform(old(inner.State()), TodoLaterOp(todo), now).1.Ok?
      ensures logger.target == old(logger.target) + Logged(Perform(old(inner.State()), TodoLaterOp(todo), now).1)
      ensures logger.source == old(logger.source)
    {
      r := inner.TodoLater(todo, now);
      logger.LogTodoLater(todo);
    }

    /** `pause_task`: only a pause that succeeds is logged. */
    method PauseTask(task: TaskId) returns (r: Outcome<()>)
      requires Valid()
      modifies inner.store, inner.dueGuesser, logger
      ensures Valid()
      ensures inner.State() == PerformPauseTask(old(inner.State()), task).0
      ensures !r.Abort? && (r.Ok? <==> PerformPauseTask(old(inner.State()), task).1.Ok?)
      ensures r.Err? ==> r.msg == PerformPauseTask(old(inner.State()), task).1.msg
      ensures logger.target == old(logger.target) + Logged(PerformPauseTask(old(inner.State()), task).1)
      ensures logger.source == old(logger.source)
    {
      r := inner.PauseTask(task);
      if r.Ok? {
        logger.LogPauseTask(task);
      }
    }

    method UnpauseTask(task: TaskId, now: Timestamp) returns (r: Outcome<TodoId>)
      requires Valid() && !Perform(inner.State(), UnpauseTaskOp(task), now).1.Abort?
      modifies inner.store, inner.dueGuesser, logger
      ensures Valid()
      ensures inner.State() == Perform(old(inner.State()), UnpauseTaskOp(task), now).0
      ensures r == Ok(TodoId(old(inner.State()).store.lastTodoId + 1))
      ensures logger.target == old(logger.target) + Logged(Perform(old(inner.State()), UnpauseTaskOp(task), now).1)
      ensures logger.source == old(logger.source)
    {
      r := inner.UnpauseTask(task, now);
      logger.LogUnpauseTask(task);
    }
  }
}
