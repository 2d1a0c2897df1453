/** The due-date predictor. Per task it keeps an estimate of the interval
    between completions (`DueIn`) and the date of the last completion; the
    interval is an integer running average over at most ten observed
    intervals, which replaces a fixed interval as soon as one is observed. */
module DueEstimate {
  import opened Wrappers
  import opened Data
  import opened Store
  import opened MemStore

  /** The estimate used when nothing is known: thirty days. */
  const DEFAULT_PERIOD: Duration := 30 * DAY

  /** The running average counts at most this many samples. */
  const MAX_SAMPLES: nat := 10

  function Min(a: int, b: int): int { if a <= b then a else b }
  function Max(a: int, b: int): int { if a >= b then a else b }

  /** `DueIn::None` is `NoData` here. */
  datatype DueIn = Calculated(sum: Duration, count: nat) | Fixed(interval: Duration) | NoData
  {
    /** A running average has between one and ten samples. */
    predicate Valid()
    {
      Calculated? ==> 1 <= count <= MAX_SAMPLES
    }

    /** `DueIn::get`: the average (rounded down), the fixed interval, or the
        default period. */
    function Get(): (d: Duration)
      requires Valid()
      ensures Calculated? ==> d * count <= sum < d * count + count
      ensures Fixed? ==> d == interval
      ensures NoData? ==> d == DEFAULT_PERIOD
    {
      match this
      case Calculated(sum, count) => sum / count
      case Fixed(v) => v
      case NoData => DEFAULT_PERIOD
    }

    /** `DueIn::add_duration`: the first observation replaces whatever was
        there; later ones enter the average, which weighs the current
        estimate as `n - 1` samples with `n` capped at ten. */
    function AddDuration(d: Duration): (r: DueIn)
      requires Valid()
      ensures r.Valid() && r.Calculated?
      ensures !Calculated? ==> r.Get() == d && r.count == 1
      ensures Calculated? ==> r.count == Min(MAX_SAMPLES, count + 1) && r.count >= 2
      ensures Calculated? ==> r.sum == d + Get() * (r.count - 1)
    {
      if Calculated? then
        var n := Min(MAX_SAMPLES, count + 1);
        Calculated(d + (sum / count) * (n - 1), n)
      else
        Calculated(d, 1)
    }
  }

  lemma MulLeq(a: int, b: int, n: nat)
    requires a <= b
    ensures a * n <= b * n
  {
    assert b * n - a * n == (b - a) * n;
  }

  /** Integer division keeps a value between bounds it lies between. */
  lemma DivBetween(x: nat, n: nat, lo: nat, hi: nat)
    requires n > 0 && lo * n <= x <= hi * n
    ensures lo <= x / n <= hi
  {
    var q := x / n;
    assert q * n <= x < q * n + n;
    if q < lo {
      assert (q + 1) * n == q * n + n;
      MulLeq(q + 1, lo, n);
    }
    if q > hi {
      assert (hi + 1) * n == hi * n + n;
      MulLeq(hi + 1, q, n);
    }
  }

  /** A new observation moves the estimate towards it and never past it: the
      new estimate lies between the old one and the observed interval. */
  lemma AddDurationBetween(di: DueIn, d: Duration)
    requires di.Valid()
    ensures Min(d, di.Get()) <= di.AddDuration(d).Get() <= Max(d, di.Get())
  {
    if di.Calculated? {
      var a := di.Get();
      var r := di.AddDuration(d);
      var n := r.count;
      assert r.sum == d + a * (n - 1);
      assert a * n == a + a * (n - 1);
      assert d * n == d + d * (n - 1);
      if a <= d {
        MulLeq(a, d, n - 1);
        DivBetween(r.sum, n, a, d);
      } else {
        MulLeq(d, a, n - 1);
        DivBetween(r.sum, n, d, a);
      }
    }
  }

  /** Observing exactly the current estimate leaves it unchanged. */
  lemma AddEstimateIsStable(di: DueIn)
    requires di.Valid()
    ensures di.AddDuration(di.Get()).Get() == di.Get()
  {
    AddDurationBetween(di, di.Get());
  }

  /** What the predictor knows about one task. */
  datatype DueInfo = DueInfo(dueIn: DueIn, lastCompleted: Option<Timestamp>)

  type InfoMap = map<TaskId, DueInfo>

  ghost predicate InfoValid(info: InfoMap)
  {
    forall t :: t in info ==> info[t].dueIn.Valid()
  }

  /** `init_task`: a task with a given interval starts from that fixed
      interval, otherwise from nothing; no completion is known yet. */
  function InitTask(info: InfoMap, task: TaskId, dueAfter: Option<Duration>): (r: InfoMap)
    ensures r.Keys == info.Keys + {task}
    ensures r[task].lastCompleted.None?
    ensures r[task].dueIn.Valid() && !r[task].dueIn.Calculated?
    ensures r[task].dueIn.Get() == if dueAfter.Some? then dueAfter.value else DEFAULT_PERIOD
    ensures forall t :: t in info && t != task ==> r[t] == info[t]
    ensures InfoValid(info) ==> InfoValid(r)
  {
    info[task := DueInfo(if dueAfter.Some? then Fixed(dueAfter.value) else NoData, None)]
  }

  /** `copy_task`: the new task gets the source's knowledge; the `unwrap`
      panics when the source has none, so that is excluded here. */
  function CopyTask(info: InfoMap, task: TaskId, other: TaskId): (r: InfoMap)
    requires other in info
    ensures r.Keys == info.Keys + {task}
    ensures r[task] == info[other]
    ensures forall t :: t in info && t != task ==> r[t] == info[t]
    ensures InfoValid(info) ==> InfoValid(r)
  {
    info[task := info[other]]
  }

  /** `handle_completion` panics when the todo is unknown (`expect`) or when
      the completion lies before the last one (the negative interval's
      `unwrap`). */
  ghost predicate CompletionPanics(info: InfoMap, store: StoreView, todo: TodoId, completed: TodoCompleted)
  {
    todo !in store.todos ||
    (store.todos[todo].task in info &&
     info[store.todos[todo].task].lastCompleted.Some? &&
     completed.date < info[store.todos[todo].task].lastCompleted.value)
  }

  /** `handle_completion`: for a task it knows, the interval since the last
      completion (if any) enters the estimate, and the completion becomes the
      last one. A task it does not know is left unknown. */
  function HandleCompletion(info: InfoMap, store: StoreView, todo: TodoId, completed: TodoCompleted): (r: InfoMap)
    requires InfoValid(info) && !CompletionPanics(info, store, todo, completed)
    ensures r.Keys == info.Keys
    ensures forall t :: t in info && t != store.todos[todo].task ==> r[t] == info[t]
    ensures var task := store.todos[todo].task;
            task in info ==>
              r[task].lastCompleted == Some(completed.date) &&
              (info[task].lastCompleted.None? ==> r[task].dueIn == info[task].dueIn) &&
              (info[task].lastCompleted.Some? ==>
                 r[task].dueIn == info[task].dueIn.AddDuration(completed.date - info[task].lastCompleted.value))
    ensures InfoValid(r)
  {
    var task := store.todos[todo].task;
    if task in info then
      var i := info[task];
      var dueIn := if i.lastCompleted.Some?
                   then i.dueIn.AddDuration(completed.date - i.lastCompleted.value)
                   else i.dueIn;
      info[task := DueInfo(dueIn, Some(completed.date))]
    else
      info
  }

  /** `handle_pause` (called by the engine but not part of this file): the
      last completion is forgotten and the interval estimate kept, so the
      interval across a pause is never observed. */
  function HandlePause(info: InfoMap, task: TaskId): (r: InfoMap)
    ensures r.Keys == info.Keys
    ensures task in info ==> r[task] == DueInfo(info[task].dueIn, None)
    ensures forall t :: t in info && t != task ==> r[t] == info[t]
    ensures InfoValid(info) ==> InfoValid(r)
  {
    if task in info then info[task := info[task].(lastCompleted := None)] else info
  }

  /** `guess_due`: the last completion (or now) plus the estimated interval;
      for a task it does not know, now plus the default period. */
  function GuessDue(info: InfoMap, task: TaskId, now: Timestamp): (r: Timestamp)
    requires InfoValid(info)
    ensures task !in info ==> r == now + DEFAULT_PERIOD
    ensures task in info && info[task].lastCompleted.Some? ==>
              r - info[task].lastCompleted.value == info[task].dueIn.Get()
    ensures task in info && info[task].lastCompleted.None? ==> r - now == info[task].dueIn.Get()
  {
    if task in info then
      (if info[task].lastCompleted.Some? then info[task].lastCompleted.value else now) + info[task].dueIn.Get()
    else
      now + DEFAULT_PERIOD
  }

  /** `guess_later`: postpones from now or from the current due date,
      whichever is later, by a fifth of the interval but at least a day. The
      `expect` panics on an unknown todo, so that is excluded here. */
  function GuessLater(info: InfoMap, store: StoreView, todo: TodoId, now: Timestamp): (r: Timestamp)
    requires InfoValid(info) && todo in store.todos
    ensures r >= now + DAY && r >= store.todos[todo].due + DAY
    ensures r > now && r > store.todos[todo].due
    ensures var base := Max(now, store.todos[todo].due);
            var task := store.todos[todo].task;
            (task in info ==> r - base == Max(DAY, info[task].dueIn.Get() / 5)) &&
            (task !in info ==> r - base == DAY)
  {
    var t := store.todos[todo];
    Max(now, t.due) + if t.task in info then Max(DAY, info[t.task].dueIn.Get() / 5) else DAY
  }

  /** A fixed interval of five days is used for the first guess and dropped
      once an interval of two days has been observed (the guess after the
      second completion is four days out). */
  lemma IgnoresFixedAfterTwoCompletions(now: Timestamp, task: TaskId, todo1: TodoId, todo2: TodoId,
                                        s1: StoreView, s2: StoreView)
    requires s1.Valid() && todo1 in s1.todos && s1.todos[todo1].task == task
    requires s2.Valid() && todo2 in s2.todos && s2.todos[todo2].task == task
    ensures var i1 := InitTask(map[], task, Some(5 * DAY));
            var i2 := HandleCompletion(i1, s1, todo1, TodoCompleted(now));
            var i3 := HandleCompletion(i2, s2, todo2, TodoCompleted(now + 2 * DAY));
            GuessDue(i2, task, now) == now + 5 * DAY && GuessDue(i3, task, now) == now + 4 * DAY
  {
  }

  /** With no interval given, completions two and then four days apart give
      an estimate of three days. */
  lemma MakesAGoodGuess(now: Timestamp, task: TaskId, todo1: TodoId, todo2: TodoId, todo3: TodoId,
                        s1: StoreView, s2: StoreView, s3: StoreView)
    requires s1.Valid() && todo1 in s1.todos && s1.todos[todo1].task == task
    requires s2.Valid() && todo2 in s2.todos && s2.todos[todo2].task == task
    requires s3.Valid() && todo3 in s3.todos && s3.todos[todo3].task == task
    ensures var i1 := InitTask(map[], task, None);
            var i2 := HandleCompletion(i1, s1, todo1, TodoCompleted(now));
            var i3 := HandleCompletion(i2, s2, todo2, TodoCompleted(now + 2 * DAY));
            var i4 := HandleCompletion(i3, s3, todo3, TodoCompleted(now + 6 * DAY));
            GuessDue(i4, task, now) == now + 9 * DAY
  {
    var i3 := HandleCompletion(HandleCompletion(InitTask(map[], task, None), s1, todo1, TodoCompleted(now)),
                               s2, todo2, TodoCompleted(now + 2 * DAY));
    assert i3[task].dueIn == Calculated(2 * DAY, 1);
    assert (4 * DAY + 2 * DAY) / 2 == 3 * DAY;
  }
}

/** `DueGuesser`: the per-task knowledge of the predictor, updated in place. */
module DueGuesser {
  import opened Wrappers
  import opened Data
  import opened MemStore
  import opened DueEstimate

  class DueGuesser {
    var info: InfoMap

    ghost predicate Valid()
      reads this
    {
      InfoValid(info)
    }

    constructor ()
      ensures info == map[] && Valid()
    {
      info := map[];
    }

    method InitTask(task: TaskId, dueAfter: Option<Duration>)
      requires Valid()
      modifies this
      ensures info == DueEstimate.InitTask(old(info), task, dueAfter) && Valid()
    {
      info := info[task := DueInfo(if dueAfter.Some? then Fixed(dueAfter.value) else NoData, None)];
    }

    method CopyTask(task: TaskId, other: TaskId)
      requires Valid() && other in info
      modifies this
      ensures info == DueEstimate.CopyTask(old(info), task, other) && Valid()
    {
      info := info[task := info[other]];
    }

    method HandleCompletion(store: MemStore, todo: TodoId, completed: TodoCompleted)
      requires Valid() && !CompletionPanics(info, store.View(), todo, completed)
      modifies this
      ensures info == DueEstimate.HandleCompletion(old(info), store.View(), todo, completed) && Valid()
    {
      var task := store.todos[todo].task;
      if task in info {
        var i := info[task];
        var dueIn := i.dueIn;
        if i.lastCompleted.Some? {
          dueIn := dueIn.AddDuration(completed.date - i.lastCompleted.value);
        }
        info := info[task := DueInfo(dueIn, Some(completed.date))];
      }
    }

    method HandlePause(task: TaskId)
      requires Valid()
      modifies this
      ensures info == DueEstimate.HandlePause(old(info), task) && Valid()
    {
      if task in info {
        info := info[task := info[task].(lastCompleted := None)];
      }
    }

    function GuessDue(task: TaskId, now: Timestamp): (r: Timestamp)
      requires Valid()
      reads this
      ensures r == DueEstimate.GuessDue(info, task, now)
    {
      DueEstimate.GuessDue(info, task, now)
    }

    function GuessLater(store: MemStore, todo: TodoId, now: Timestamp): (r: Timestamp)
      requires Valid() && todo in store.todos
      reads this, store
      ensures r == DueEstimate.GuessLater(info, store.View(), todo, now)
    {
      DueEstimate.GuessLater(info, store.View(), todo, now)
    }
  }
}
