/** The operation log: one line per operation that changed the engine, written
    by `ReadWriteLogger` and read back line by line into a fresh engine by
    `play_back`. A line is a tag, a space and a JSON array of the operation's
    arguments and results. */
module Logger {
  import opened Wrappers
  import opened Decimal
  import opened Data
  import Codec
  import opened Store
  import opened Engine
  import opened EngineInner

  /** One log line, decoded. */
  datatype Entry =
    | CreateTaskEntry(title: string, dueEvery: Option<Duration>, taskId: TaskId, todoId: TodoId)
    | CloneTaskEntry(taskId: TaskId, title: string, newTaskId: TaskId, todoId: TodoId)
    | CompleteTodoEntry(todoId: TodoId, completed: TodoCompleted)
    | TodoLaterEntry(todoId: TodoId)
    | PauseTaskEntry(taskId: TaskId)
    | UnpauseTaskEntry(taskId: TaskId)

  // ---------------------------------------------------------------- writing

  function Tag(x: Entry): string
  {
    match x
    case CreateTaskEntry(_, _, _, _) => "create_task1:"
    case CloneTaskEntry(_, _, _, _) => "clone_task1:"
    case CompleteTodoEntry(_, _) => "complete_todo1:"
    case TodoLaterEntry(_) => "todo_later1:"
    case PauseTaskEntry(_) => "pause_task1:"
    case UnpauseTaskEntry(_) => "unpause_task1:"
  }

  /** The arguments of a line, in the order the `log_*` methods write them. */
  function Args(x: Entry): seq<Codec.Value>
  {
    match x
    case CreateTaskEntry(title, dueEvery, taskId, todoId) =>
      [EncodeTitle(title), EncodeDueEvery(dueEvery), EncodeTaskId(taskId), EncodeTodoId(todoId)]
    case CloneTaskEntry(taskId, title, newTaskId, todoId) =>
      [EncodeTaskId(taskId), EncodeTitle(title), EncodeTaskId(newTaskId), EncodeTodoId(todoId)]
    case CompleteTodoEntry(todoId, completed) => [EncodeTodoId(todoId), EncodeCompleted(completed)]
    case TodoLaterEntry(todoId) => [EncodeTodoId(todoId)]
    case PauseTaskEntry(taskId) => [EncodeTaskId(taskId)]
    case UnpauseTaskEntry(taskId) => [EncodeTaskId(taskId)]
  }

  /** The text `writeln!` puts before the line break. */
  function FormatEntry(x: Entry): string
  {
    Tag(x) + " " + Codec.EncodeArray(Args(x))
  }

  /** Every id of the entry fits in a `u64`, the type it is read back as. */
  predicate Encodable(x: Entry)
  {
    match x
    case CreateTaskEntry(_, _, taskId, todoId) => taskId.value <= U64_MAX && todoId.value <= U64_MAX
    case CloneTaskEntry(taskId, _, newTaskId, todoId) =>
      taskId.value <= U64_MAX && newTaskId.value <= U64_MAX && todoId.value <= U64_MAX
    case CompleteTodoEntry(todoId, _) => todoId.value <= U64_MAX
    case TodoLaterEntry(todoId) => todoId.value <= U64_MAX
    case PauseTaskEntry(taskId) => taskId.value <= U64_MAX
    case UnpauseTaskEntry(taskId) => taskId.value <= U64_MAX
  }

  /** A written entry is one line: it holds no line break, so `lines()` reads
      it back whole. */
  lemma FormatEntryIsOneLine(x: Entry)
    ensures Codec.NoLineBreak(FormatEntry(x))
  {
    Codec.EncodeArrayNoLineBreak(Args(x));
    TagIsOneLine(x);
    Codec.NoLineBreakConcat(Tag(x), " ");
    Codec.NoLineBreakConcat(Tag(x) + " ", Codec.EncodeArray(Args(x)));
  }

  lemma TagIsOneLine(x: Entry)
    ensures Codec.NoLineBreak(Tag(x)) && Codec.NoLineBreak(" ")
  {
  }

  // ---------------------------------------------------------------- reading

  /** `str::find(':')`: the position of the first colon. */
  function FirstColon(s: string): (r: Option<nat>)
    ensures r.None? <==> forall i :: 0 <= i < |s| ==> s[i] != ':'
    ensures r.Some? ==> r.value < |s| && s[r.value] == ':' && forall i :: 0 <= i < r.value ==> s[i] != ':'
  {
    if s == [] then None
    else if s[0] == ':' then Some(0)
    else match FirstColon(s[1..])
      case None => None
      case Some(k) => Some(k + 1)
  }

  predicate KnownTag(tag: string)
  {
    tag == "create_task1:" || tag == "clone_task1:" || tag == "complete_todo1:" ||
    tag == "todo_later1:" || tag == "pause_task1:" || tag == "unpause_task1:"
  }

  /** The message of a line whose arguments do not deserialise into the
      tuple its tag expects. */
  const ArgumentsError := "invalid arguments"

  /** `from_json` into the tuple type of a known tag. */
  function DecodeArgs(tag: string, vs: seq<Codec.Value>): (r: Option<Entry>)
    ensures r.Some? ==> Tag(r.value) == tag && Args(r.value) == vs && Encodable(r.value)
  {
    if tag == "create_task1:" then
      if |vs| != 4 then None
      else match (DecodeTitle(vs[0]), DecodeDueEvery(vs[1]), DecodeTaskId(vs[2]), DecodeTodoId(vs[3]))
        case (Some(title), Some(dueEvery), Some(taskId), Some(todoId)) =>
          Some(CreateTaskEntry(title, dueEvery, taskId, todoId))
        case _ => None
    else if tag == "clone_task1:" then
      if |vs| != 4 then None
      else match (DecodeTaskId(vs[0]), DecodeTitle(vs[1]), DecodeTaskId(vs[2]), DecodeTodoId(vs[3]))
        case (Some(taskId), Some(title), Some(newTaskId), Some(todoId)) =>
          Some(CloneTaskEntry(taskId, title, newTaskId, todoId))
        case _ => None
    else if tag == "complete_todo1:" then
      if |vs| != 2 then None
      else match (DecodeTodoId(vs[0]), DecodeCompleted(vs[1]))
        case (Some(todoId), Some(completed)) => Some(CompleteTodoEntry(todoId, completed))
        case _ => None
    else if |vs| != 1 then None
    else if tag == "todo_later1:" then
      match DecodeTodoId(vs[0])
      case Some(todoId) => Some(TodoLaterEntry(todoId))
      case None => None
    else if tag == "pause_task1:" then
      match DecodeTaskId(vs[0])
      case Some(taskId) => Some(PauseTaskEntry(taskId))
      case None => None
    else if tag == "unpause_task1:" then
      match DecodeTaskId(vs[0])
      case Some(taskId) => Some(UnpauseTaskEntry(taskId))
      case None => None
    else None
  }

  /** The decoding half of `parse_line`: split after the first colon, then
      the tag chooses the tuple the rest is read as. */
  function DecodeLine(line: string): (r: Outcome<Entry>)
    ensures !r.Abort?
    ensures FirstColon(line).None? <==> r == Err("Invalid line")
    ensures r.Ok? ==> Encodable(r.value) && |Tag(r.value)| <= |line| && line[..|Tag(r.value)|] == Tag(r.value)
    ensures FirstColon(line).Some? && !KnownTag(line[..FirstColon(line).value + 1]) ==>
              var k := FirstColon(line).value;
              r == Err("Unexpected " + line[..k + 1] + ":" + line[k + 1..])
  {
    match FirstColon(line)
    case None => Err("Invalid line")
    case Some(k) => DecodeTagged(line[..k + 1], line[k + 1..])
  }

  /** The match of `parse_line` on the tag, with `rest` the text after it. */
  function DecodeTagged(tag: string, rest: string): (r: Outcome<Entry>)
    ensures !r.Abort? && r != Err("Invalid line")
    ensures r.Ok? ==> Encodable(r.value) && Tag(r.value) == tag
    ensures !KnownTag(tag) ==> r == Err("Unexpected " + tag + ":" + rest)
  {
    if !KnownTag(tag) then
      var m := "Unexpected " + tag + ":" + rest;
      assert m[0] == 'U';
      Err(m)
    else match Codec.DecodeArray(rest)
      case None => Err(ArgumentsError)
      case Some(vs) =>
        match DecodeArgs(tag, vs)
        case None => Err(ArgumentsError)
        case Some(x) => Ok(x)
  }

  lemma DecodeEncodedArgs(x: Entry)
    requires Encodable(x)
    ensures DecodeArgs(Tag(x), Args(x)) == Some(x)
  {
  }

  /** A tag ends in its only colon. */
  lemma TagColon(x: Entry)
    ensures |Tag(x)| > 0 && Tag(x)[|Tag(x)| - 1] == ':' && ':' !in Tag(x)[..|Tag(x)| - 1]
  {
  }

  /** The first colon of a written line is the one that ends its tag. */
  lemma FirstColonOfFormatted(x: Entry)
    ensures FirstColon(FormatEntry(x)) == Some(|Tag(x)| - 1)
  {
    var s := FormatEntry(x);
    var t := Tag(x);
    TagColon(x);
    assert s[..|t|] == t;
    forall i | 0 <= i < |t| - 1 ensures s[i] != ':' {
      assert s[i] == t[i] == t[..|t| - 1][i];
    }
  }

  /** A line the log writes reads back as the entry it was written from. */
  lemma DecodeFormatted(x: Entry)
    requires Encodable(x)
    ensures DecodeLine(FormatEntry(x)) == Ok(x)
  {
    FirstColonOfFormatted(x);
    SplitFormatted(x);
    DecodeTaggedFormatted(x);
  }

  lemma SplitFormatted(x: Entry)
    ensures var s := FormatEntry(x);
            |Tag(x)| <= |s| && s[..|Tag(x)|] == Tag(x) && s[|Tag(x)|..] == " " + Codec.EncodeArray(Args(x))
  {
    SplitConcat(Tag(x), " ", Codec.EncodeArray(Args(x)));
  }

  lemma SplitConcat(a: string, b: string, c: string)
    ensures var s := a + b + c; |a| <= |s| && s[..|a|] == a && s[|a|..] == b + c
  {
  }

  lemma DecodeTaggedFormatted(x: Entry)
    requires Encodable(x)
    ensures DecodeTagged(Tag(x), " " + Codec.EncodeArray(Args(x))) == Ok(x)
  {
    Codec.DecodeEncodedArray(Args(x));
    DecodeEncodedArgs(x);
    assert KnownTag(Tag(x));
  }

  // ---------------------------------------------------------------- applying

  /** `Debug` of a `(TaskId, TodoId)` pair. */
  function ShowIds(task: TaskId, todo: TodoId): string
  {
    "(TaskId(" + ShowNat(task.value) + "), TodoId(" + ShowNat(todo.value) + "))"
  }

  /** The engine half of `parse_line`: the operation the entry names, on the
      engine, with `now` as the clock reading it takes. An entry whose ids the
      engine does not reproduce is an error; a panic of the engine is an
      abort. */
  ghost function ApplyEntry(e: EngineState, x: Entry, now: Timestamp): (r: (EngineState, Outcome<()>))
    requires Inv(e)
    ensures Inv(r.0)
  {
    match x
    case CreateTaskEntry(title, dueEvery, taskId, todoId) => CreateTaskStep(e, title, dueEvery, taskId, todoId, now)
    case CloneTaskEntry(taskId, title, newTaskId, todoId) => CloneTaskStep(e, taskId, title, newTaskId, todoId)
    case CompleteTodoEntry(todoId, completed) => CompleteTodoStep(e, todoId, completed, now)
    case TodoLaterEntry(todoId) => TodoLaterStep(e, todoId, now)
    case PauseTaskEntry(taskId) => PauseTaskStep(e, taskId)
    case UnpauseTaskEntry(taskId) => UnpauseTaskStep(e, taskId, now)
  }

  /** `create_task1:`: the ids the engine hands out must be the logged ones;
      the task is created either way. */
  ghost function CreateTaskStep(e: EngineState, title: string, dueEvery: Option<Duration>,
                                taskId: TaskId, todoId: TodoId, now: Timestamp): (r: (EngineState, Outcome<()>))
    requires Inv(e)
    ensures Inv(r.0)
    ensures CreateTaskPanics(e) ==> r.0 == e && r.1.Abort?
    ensures !CreateTaskPanics(e) ==> r.0 == CreateTask(e, title, dueEvery, now).0
    ensures !CreateTaskPanics(e) ==>
              (r.1 == Ok(()) <==> taskId == NextTaskId(e) && todoId == TodoId(e.store.lastTodoId + 1))
    ensures !CreateTaskPanics(e) && r.1 != Ok(()) ==> r.1 == Err("Mismatch in task or todo ids")
  {
    if CreateTaskPanics(e) then (e, Abort("Already has an open todo"))
    else
      var c := CreateTask(e, title, dueEvery, now);
      if c.1.0 != taskId || c.1.1 != todoId then (c.0, Err("Mismatch in task or todo ids"))
      else (c.0, Ok(()))
  }

  /** `clone_task1:`: an error of the engine is passed on; the ids it hands
      out must be the logged ones. The engine keeps what the clone did either
      way. */
  ghost function CloneTaskStep(e: EngineState, taskId: TaskId, title: string,
                               newTaskId: TaskId, todoId: TodoId): (r: (EngineState, Outcome<()>))
    requires Inv(e)
    ensures Inv(r.0)
    ensures ClonePanics(e, taskId) ==> r.0 == e && r.1.Abort?
    ensures !ClonePanics(e, taskId) ==> r.0 == CloneTask(e, taskId, title).0
    ensures !ClonePanics(e, taskId) && !CloneTask(e, taskId, title).1.Ok? ==>
              r.1 == Err(CloneTask(e, taskId, title).1.msg)
    ensures !ClonePanics(e, taskId) && CloneTask(e, taskId, title).1.Ok? ==>
              (r.1 == Ok(()) <==>
                 CloneTask(e, taskId, title).1.value.0 == newTaskId && CloneTask(e, taskId, title).1.value.1 == todoId)
    ensures !ClonePanics(e, taskId) && CloneTask(e, taskId, title).1.Ok? && r.1 != Ok(()) ==>
              r.1 == Err("Mismatch in task or todo ids: expected " + ShowIds(newTaskId, todoId) + ", found " +
                         ShowIds(CloneTask(e, taskId, title).1.value.0, CloneTask(e, taskId, title).1.value.1))
  {
    if ClonePanics(e, taskId) then (e, Abort("called `Option::unwrap()` on a `None` value"))
    else
      var c := CloneTask(e, taskId, title);
      if !c.1.Ok? then (c.0, Err(c.1.msg))
      else if c.1.value.0 != newTaskId || c.1.value.1 != todoId then
        (c.0, Err("Mismatch in task or todo ids: expected " + ShowIds(newTaskId, todoId) +
                  ", found " + ShowIds(c.1.value.0, c.1.value.1)))
      else (c.0, Ok(()))
  }

  ghost function CompleteTodoStep(e: EngineState, todoId: TodoId, completed: TodoCompleted, now: Timestamp)
    : (r: (EngineState, Outcome<()>))
    requires Inv(e)
    ensures Inv(r.0)
  {
    if CompletePanics(e, todoId, completed) then (e, Abort("complete_todo panicked"))
    else (CompleteTodo(e, todoId, completed, now).0, Ok(()))
  }

  ghost function TodoLaterStep(e: EngineState, todoId: TodoId, now: Timestamp): (r: (EngineState, Outcome<()>))
    requires Inv(e)
    ensures Inv(r.0)
  {
    if todoId !in e.store.todos then (e, Abort("Todo not found"))
    else (TodoLater(e, todoId, now).0, Ok(()))
  }

  ghost function PauseTaskStep(e: EngineState, taskId: TaskId): (r: (EngineState, Outcome<()>))
    requires Inv(e)
    ensures Inv(r.0)
  {
    var c := PauseTask(e, taskId);
    if c.1.Ok? then (c.0, Ok(())) else (c.0, Err(c.1.msg))
  }

  ghost function UnpauseTaskStep(e: EngineState, taskId: TaskId, now: Timestamp): (r: (EngineState, Outcome<()>))
    requires Inv(e)
    ensures Inv(r.0)
  {
    if e.store.HasOpenTodo(taskId) then (e, Abort("Already has an open todo"))
    else (UnpauseTask(e, taskId, now).0, Ok(()))
  }

  /** `parse_line` on one line: a line that does not decode changes nothing. */
  ghost function LineStep(e: EngineState, line: string, now: Timestamp): (r: (EngineState, Outcome<()>))
    requires Inv(e)
    ensures Inv(r.0)
    ensures DecodeLine(line).Err? ==> r.0 == e && r.1 == Err(DecodeLine(line).msg)
  {
    match DecodeLine(line)
    case Ok(x) => ApplyEntry(e, x, now)
    case Err(m) => (e, Err(m))
    case Abort(m) => (e, Abort(m))
  }

  /** `play_back`: the lines in order, the `i`-th with clock reading
      `clock[i]`, up to the first that fails; its message gets the line
      appended. */
  ghost function Replay(e: EngineState, lines: seq<string>, clock: seq<Timestamp>): (r: (EngineState, Outcome<()>))
    requires Inv(e) && |clock| >= |lines|
    ensures Inv(r.0)
    decreases |lines|, 0
  {
    if lines == [] then (e, Ok(()))
    else ReplayAfter(LineStep(e, lines[0], clock[0]), lines[0], lines[1..], clock[1..])
  }

  /** The rest of play back once `line` has had outcome `s`. */
  ghost function ReplayAfter(s: (EngineState, Outcome<()>), line: string, lines: seq<string>, clock: seq<Timestamp>)
    : (r: (EngineState, Outcome<()>))
    requires Inv(s.0) && |clock| >= |lines|
    ensures Inv(r.0)
    decreases |lines|, 1
  {
    match s.1
    case Ok(_) => Replay(s.0, lines, clock)
    case Err(m) => (s.0, Err(m + "\nLine content: " + line))
    case Abort(m) => (s.0, Abort(m))
  }

  /** Play back from the `i`-th line on is that line's step, then the rest. */
  lemma ReplayAt(e: EngineState, lines: seq<string>, clock: seq<Timestamp>, i: nat)
    requires Inv(e) && i < |lines| && |clock| >= |lines|
    ensures Replay(e, lines[i..], clock[i..]).0 ==
              ReplayAfter(LineStep(e, lines[i], clock[i]), lines[i], lines[i + 1..], clock[i + 1..]).0
    ensures Replay(e, lines[i..], clock[i..]).1 ==
              ReplayAfter(LineStep(e, lines[i], clock[i]), lines[i], lines[i + 1..], clock[i + 1..]).1
  {
    assert lines[i..][1..] == lines[i + 1..] && clock[i..][1..] == clock[i + 1..];
    assert lines[i..][0] == lines[i] && clock[i..][0] == clock[i];
  }

  /** Once the first `i` lines have played back without error, play back goes
      on from the state they left with the remaining lines. */
  lemma {:induction false} ReplayPrefix(e: EngineState, lines: seq<string>, clock: seq<Timestamp>, i: nat)
    requires Inv(e) && i <= |lines| && |clock| >= |lines|
    ensures Replay(e, lines[..i], clock[..i]).1 == Ok(()) ==>
              Replay(e, lines, clock).0 == Replay(Replay(e, lines[..i], clock[..i]).0, lines[i..], clock[i..]).0
    ensures Replay(e, lines[..i], clock[..i]).1 == Ok(()) ==>
              Replay(e, lines, clock).1 == Replay(Replay(e, lines[..i], clock[..i]).0, lines[i..], clock[i..]).1
    decreases i
  {
    if Replay(e, lines[..i], clock[..i]).1 == Ok(()) {
      if i == 0 {
        assert lines[..0] == [] && lines[0..] == lines && clock[0..] == clock;
      } else {
        var s1 := LineStep(e, lines[0], clock[0]);
        assert lines[..i][0] == lines[0] && clock[..i][0] == clock[0];
        assert lines[..i][1..] == lines[1..][..i - 1] && clock[..i][1..] == clock[1..][..i - 1];
        assert Replay(e, lines[..i], clock[..i]) ==
               ReplayAfter(s1, lines[0], lines[1..][..i - 1], clock[1..][..i - 1]);
        assert s1.1.Ok?;
        ReplayPrefix(s1.0, lines[1..], clock[1..], i - 1);
        assert lines[1..][i - 1..] == lines[i..] && clock[1..][i - 1..] == clock[i..];
      }
    }
  }

  /** `play_back` stops at the first line that fails: the error is that line's,
      with the line appended, and the engine keeps what the lines before it and
      the failing line itself did. */
  lemma ReplayStopsAtFailure(e: EngineState, lines: seq<string>, clock: seq<Timestamp>, i: nat)
    requires Inv(e) && i < |lines| && |clock| >= |lines|
    ensures Replay(e, lines[..i], clock[..i]).1 == Ok(()) &&
            LineStep(Replay(e, lines[..i], clock[..i]).0, lines[i], clock[i]).1.Err? ==>
              Replay(e, lines, clock).1 ==
                Err(LineStep(Replay(e, lines[..i], clock[..i]).0, lines[i], clock[i]).1.msg + "\nLine content: " + lines[i])
    ensures Replay(e, lines[..i], clock[..i]).1 == Ok(()) &&
            LineStep(Replay(e, lines[..i], clock[..i]).0, lines[i], clock[i]).1.Err? ==>
              Replay(e, lines, clock).0 == LineStep(Replay(e, lines[..i], clock[..i]).0, lines[i], clock[i]).0
  {
    ReplayPrefix(e, lines, clock, i);
    ReplayAt(Replay(e, lines[..i], clock[..i]).0, lines, clock, i);
  }

  /** `parse_line`. */
  method ParseLine(line: string, app: AllesattInner, now: Timestamp) returns (r: Outcome<()>)
    requires app.Valid() && !LineStep(app.State(), line, now).1.Abort?
    modifies app.store, app.dueGuesser
    ensures app.Valid()
    ensures app.State() == LineStep(old(app.State()), line, now).0
    ensures r == LineStep(old(app.State()), line, now).1
  {
    var d := DecodeLine(line);
    if !d.Ok? {
      return Err(d.msg);
    }
    r := ApplyTo(d.value, app, now);
  }

  /** The branches of `parse_line` after the arguments are decoded. */
  method ApplyTo(x: Entry, app: AllesattInner, now: Timestamp) returns (r: Outcome<()>)
    requires app.Valid() && !ApplyEntry(app.State(), x, now).1.Abort?
    modifies app.store, app.dueGuesser
    ensures app.Valid()
    ensures app.State() == ApplyEntry(old(app.State()), x, now).0
    ensures r == ApplyEntry(old(app.State()), x, now).1
  {
    match x
    case CreateTaskEntry(title, dueEvery, taskId, todoId) =>
      r := ApplyCreateTask(title, dueEvery, taskId, todoId, app, now);
    case CloneTaskEntry(taskId, title, newTaskId, todoId) =>
      r := ApplyCloneTask(taskId, title, newTaskId, todoId, app);
    case CompleteTodoEntry(todoId, completed) =>
      var _ := app.CompleteTodo(todoId, completed, now);
      r := Ok(());
    case TodoLaterEntry(todoId) =>
      var _ := app.TodoLater(todoId, now);
      r := Ok(());
    case PauseTaskEntry(taskId) =>
      var p := app.PauseTask(taskId);
      r := if p.Ok? then Ok(()) else Err(p.msg);
    case UnpauseTaskEntry(taskId) =>
      var _ := app.UnpauseTask(taskId, now);
      r := Ok(());
  }

  method ApplyCreateTask(title: string, dueEvery: Option<Duration>, taskId: TaskId, todoId: TodoId,
                         app: AllesattInner, now: Timestamp) returns (r: Outcome<()>)
    requires app.Valid() && !CreateTaskStep(app.State(), title, dueEvery, taskId, todoId, now).1.Abort?
    modifies app.store, app.dueGuesser
    ensures app.Valid()
    ensures app.State() == CreateTaskStep(old(app.State()), title, dueEvery, taskId, todoId, now).0
    ensures r == CreateTaskStep(old(app.State()), title, dueEvery, taskId, todoId, now).1
  {
    var task, todo := app.CreateTask(title, dueEvery, now);
    if task != taskId || todo != todoId {
      return Err("Mismatch in task or todo ids");
    }
    r := Ok(());
  }

  method ApplyCloneTask(taskId: TaskId, title: string, newTaskId: TaskId, todoId: TodoId,
                        app: AllesattInner) returns (r: Outcome<()>)
    requires app.Valid() && !CloneTaskStep(app.State(), taskId, title, newTaskId, todoId).1.Abort?
    modifies app.store, app.dueGuesser
    ensures app.Valid()
    ensures app.State() == CloneTaskStep(old(app.State()), taskId, title, newTaskId, todoId).0
    ensures r == CloneTaskStep(old(app.State()), taskId, title, newTaskId, todoId).1
  {
    var c := app.CloneTask(taskId, title);
    if !c.Ok? {
      return Err(c.msg);
    }
    if c.value.0 != newTaskId || c.value.1 != todoId {
      return Err("Mismatch in task or todo ids: expected " + ShowIds(newTaskId, todoId) +
                 ", found " + ShowIds(c.value.0, c.value.1));
    }
    r := Ok(());
  }

  /** `ReadWriteLogger`: the lines still to be read from the source and the
      lines written to the target so far. */
  class ReadWriteLogger {
    var source: seq<string>
    var target: seq<string>

    constructor (source: seq<string>, target: seq<string>)
      ensures this.source == source && this.target == target
    {
      this.source := source;
      this.target := target;
    }

    /** `play_back`: reads the source line by line into `app`; stops at the
        first line that fails, with that line consumed. Writes nothing. */
    method PlayBack(app: AllesattInner, clock: seq<Timestamp>) returns (r: Outcome<()>)
      requires app.Valid() && |clock| >= |source|
      requires !Replay(app.State(), source, clock).1.Abort?
      modifies this, app.store, app.dueGuesser
      ensures app.Valid()
      ensures app.State() == Replay(old(app.State()), old(source), clock).0
      ensures r == Replay(old(app.State()), old(source), clock).1
      ensures target == old(target)
      ensures r.Ok? ==> source == []
      ensures |source| <= |old(source)| && source == old(source)[|old(source)| - |source|..]
    {
      ghost var lines := source;
      var i := 0;
      while source != []
        invariant 0 <= i <= |lines| && source == lines[i..]
        invariant app.Valid() && target == old(target)
        invariant Replay(app.State(), lines[i..], clock[i..]).0 == Replay(old(app.State()), lines, clock).0
        invariant Replay(app.State(), lines[i..], clock[i..]).1 == Replay(old(app.State()), lines, clock).1
        decreases |source|
      {
        var line := source[0];
        ReplayAt(app.State(), lines, clock, i);
        source := source[1..];
        var res := ParseLine(line, app, clock[i]);
        i := i + 1;
        if !res.Ok? {
          assert |lines| - |source| == i;
          return Err(res.msg + "\nLine content: " + line);
        }
      }
      assert |lines| - |source| == i;
      r := Ok(());
    }

    /** `log_create_task`. */
    method LogCreateTask(title: string, dueEvery: Option<Duration>, taskId: TaskId, todoId: TodoId)
      modifies this
      ensures target == old(target) + [FormatEntry(CreateTaskEntry(title, dueEvery, taskId, todoId))]
      ensures source == old(source)
    {
      target := target + [FormatEntry(CreateTaskEntry(title, dueEvery, taskId, todoId))];
    }

    /** `log_clone_task`. */
    method LogCloneTask(taskId: TaskId, title: string, newTaskId: TaskId, todoId: TodoId)
      modifies this
      ensures target == old(target) + [FormatEntry(CloneTaskEntry(taskId, title, newTaskId, todoId))]
      ensures source == old(source)
    {
      target := target + [FormatEntry(CloneTaskEntry(taskId, title, newTaskId, todoId))];
    }

    /** `log_complete_todo`. */
    method LogCompleteTodo(todoId: TodoId, completed: TodoCompleted)
      modifies this
      ensures target == old(target) + [FormatEntry(CompleteTodoEntry(todoId, completed))]
      ensures source == old(source)
    {
      target := target + [FormatEntry(CompleteTodoEntry(todoId, completed))];
    }

    /** `log_todo_later`. */
    method LogTodoLater(todoId: TodoId)
      modifies this
      ensures target == old(target) + [FormatEntry(TodoLaterEntry(todoId))]
      ensures source == old(source)
    {
      target := target + [FormatEntry(TodoLaterEntry(todoId))];
    }

    /** `log_pause_task`. */
    method LogPauseTask(taskId: TaskId)
      modifies this
      ensures target == old(target) + [FormatEntry(PauseTaskEntry(taskId))]
      ensures source == old(source)
    {
      target := target + [FormatEntry(PauseTaskEntry(taskId))];
    }

    /** `log_unpause_task`. */
    method LogUnpauseTask(taskId: TaskId)
      modifies this
      ensures target == old(target) + [FormatEntry(UnpauseTaskEntry(taskId))]
      ensures source == old(source)
    {
      target := target + [FormatEntry(UnpauseTaskEntry(taskId))];
    }
  }
}
