/** The records of the engine: task and todo ids, tasks, todos and completion
    records, with the decimal text of a task id and the serialised form of the
    fields the log carries. */
module Data {
  import opened Wrappers
  import opened Decimal
  import Codec

  /** A point in time (`TodoDate`), in nanoseconds from the epoch. */
  type Timestamp = int

  /** A length of time (`std::time::Duration`), in nanoseconds; never negative. */
  type Duration = nat

  const SECOND: nat := 1_000_000_000
  const DAY: nat := 24 * 60 * 60 * SECOND

  /** Ids are `u64` newtypes; two ids are equal exactly when their numbers are. */
  datatype TaskId = TaskId(value: nat)
  datatype TodoId = TodoId(value: nat)

  datatype Task = Task(id: TaskId, title: string)

  /** The completion record of a todo; `TodoCompleted::new(date)` is `TodoCompleted(date)`. */
  datatype TodoCompleted = TodoCompleted(date: Timestamp)

  datatype Todo = Todo(id: TodoId, task: TaskId, completed: Option<TodoCompleted>, due: Timestamp)

  // ------------------------------------------------------ Display and FromStr

  /** `Display for TaskId`: the decimal digits of its number. */
  function ShowTaskId(id: TaskId): (s: string)
    ensures |s| >= 1 && AllDigits(s)
    ensures s[0] == '0' ==> s == "0"
    ensures DigitsValue(s) == id.value
  {
    ShowNat(id.value)
  }

  /** The text of a `ParseIntError`. */
  function ParseErrorMessage(kind: IntErrorKind): string
  {
    match kind
    case Empty => "cannot parse integer from empty string"
    case InvalidDigit => "invalid digit found in string"
    case PosOverflow => "number too large to fit in target type"
  }

  /** `FromStr for TaskId`: the `u64` parser wrapped in `TaskId`. */
  function ParseTaskId(s: string): (r: Outcome<TaskId>)
    ensures !r.Abort?
    ensures r.Ok? <==>
              |Unsigned(s)| > 0 && AllDigits(Unsigned(s)) && DigitsValue(Unsigned(s)) <= U64_MAX
    ensures r.Ok? ==> r.value.value == DigitsValue(Unsigned(s))
  {
    ParseU64Spec(s);
    match ParseU64(s)
    case Parsed(n) => Ok(TaskId(n))
    case Failed(kind) => Err(ParseErrorMessage(kind))
  }

  /** Displaying a task id and parsing the text gives the id back. */
  lemma ParseShowTaskId(id: TaskId)
    requires id.value <= U64_MAX
    ensures ParseTaskId(ShowTaskId(id)) == Ok(id)
  {
    ParseShowNat(id.value);
  }

  // ------------------------------------------------------ serialised fields

  function EncodeTaskId(id: TaskId): Codec.Value { Codec.Num(id.value) }

  function EncodeTodoId(id: TodoId): Codec.Value { Codec.Num(id.value) }

  function DecodeU64(v: Codec.Value): (r: Option<nat>)
    ensures r.Some? <==> v.Num? && 0 <= v.n <= U64_MAX
    ensures r.Some? ==> r.value == v.n
  {
    if v.Num? && 0 <= v.n <= U64_MAX then Some(v.n) else None
  }

  function DecodeTaskId(v: Codec.Value): Option<TaskId>
  {
    match DecodeU64(v)
    case Some(n) => Some(TaskId(n))
    case None => None
  }

  function DecodeTodoId(v: Codec.Value): Option<TodoId>
  {
    match DecodeU64(v)
    case Some(n) => Some(TodoId(n))
    case None => None
  }

  function EncodeDate(t: Timestamp): Codec.Value { Codec.Num(t) }

  function DecodeDate(v: Codec.Value): Option<Timestamp>
  {
    if v.Num? then Some(v.n) else None
  }

  /** `Serialize for TodoCompleted`: the bare date, which reads back as a date. */
  function EncodeCompleted(c: TodoCompleted): (v: Codec.Value)
    ensures DecodeDate(v) == Some(c.date)
  {
    EncodeDate(c.date)
  }

  /** `Deserialize for TodoCompleted`: a date, wrapped. */
  function DecodeCompleted(v: Codec.Value): (r: Option<TodoCompleted>)
    ensures r.Some? <==> DecodeDate(v).Some?
    ensures r.Some? ==> r.value.date == DecodeDate(v).value
  {
    match DecodeDate(v)
    case Some(t) => Some(TodoCompleted(t))
    case None => None
  }

  /** A completion record reads back from what it is written as. */
  lemma CompletedRoundTrip(c: TodoCompleted)
    ensures DecodeCompleted(EncodeCompleted(c)) == Some(c)
  {
  }

  function EncodeDueEvery(d: Option<Duration>): Codec.Value
  {
    match d
    case None => Codec.Null
    case Some(n) => Codec.Num(n)
  }

  function DecodeDueEvery(v: Codec.Value): Option<Option<Duration>>
  {
    match v
    case Null => Some(None)
    case Num(n) => if n >= 0 then Some(Some(n)) else None
    case Str(_) => None
  }

  function EncodeTitle(title: string): Codec.Value { Codec.Str(title) }

  function DecodeTitle(v: Codec.Value): Option<string>
  {
    if v.Str? then Some(v.s) else None
  }
}
