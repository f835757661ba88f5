/** The shared queue pool: any number of tasks in `_get_pool` and `close_pool`, interleaved at their
    awaits, under one lock. */
module Pool {
  import opened Prelude

  type TaskId = nat
  type PoolId = nat

  /** Where a task is. A getter remembers the pool it was given and how many closes had happened. */
  datatype Task =
    | Getting | Creating | Got(pool: PoolId, epoch: nat) | GetFailed
    | ToClose | Closing | Closed | CloseFailed

  /** `pools[e]` is the pool the global named between the e-th close and the next; `halfClosed` is
      set by a close that raised after the connection was already gone. */
  datatype State = State(holder: Option<TaskId>, global: Option<PoolId>, open: set<PoolId>, next: PoolId,
                         tasks: map<TaskId, Task>, pools: seq<Option<PoolId>>, halfClosed: bool)

  const INITIAL := State(None, None, {}, 0, map[], [None], false)

  datatype Event =
    | StartGet(t: TaskId)
    | StartClose(t: TaskId)
    | Acquire(t: TaskId)
    | CreateDone(t: TaskId, ok: bool)
    | CloseDone(t: TaskId, ok: bool, gone: bool)

  predicate Enabled(s: State, e: Event) {
    match e
    case StartGet(t) => t !in s.tasks
    case StartClose(t) => t !in s.tasks
    case Acquire(t) => s.holder == None && t in s.tasks && (s.tasks[t] == Getting || s.tasks[t] == ToClose)
    case CreateDone(t, _) => t in s.tasks && s.tasks[t] == Creating
    case CloseDone(t, _, _) => t in s.tasks && s.tasks[t] == Closing
  }

  function Epoch(s: State): nat
    requires s.pools != []
  {
    |s.pools| - 1
  }

  /** Entering the lock: a getter that finds a pool returns it, and a closer that finds none leaves,
      without an await in between; the others keep the lock while they wait. */
  function Entered(s: State, t: TaskId): State
    requires t in s.tasks && s.pools != []
  {
    if s.tasks[t] == Getting then
      if s.global.Some? then s.(tasks := s.tasks[t := Got(s.global.value, Epoch(s))])
      else s.(holder := Some(t), tasks := s.tasks[t := Creating])
    else
      if s.global.Some? then s.(holder := Some(t), tasks := s.tasks[t := Closing])
      else s.(tasks := s.tasks[t := Closed])
  }

  function Created(s: State, t: TaskId, ok: bool): State
    requires s.pools != []
  {
    if ok then
      s.(holder := None, global := Some(s.next), open := s.open + {s.next}, next := s.next + 1,
         tasks := s.tasks[t := Got(s.next, Epoch(s))], pools := s.pools[Epoch(s) := Some(s.next)])
    else s.(holder := None, tasks := s.tasks[t := GetFailed])
  }

  /** A close that raises leaves the global in place, whether or not the connection survived. */
  function CloseEnded(s: State, t: TaskId, ok: bool, gone: bool): State {
    var shut := if s.global.Some? then s.open - {s.global.value} else s.open;
    if ok then
      s.(holder := None, global := None, open := shut, tasks := s.tasks[t := Closed], pools := s.pools + [None],
         halfClosed := false)
    else
      s.(holder := None, open := if gone then shut else s.open, tasks := s.tasks[t := CloseFailed],
         halfClosed := s.halfClosed || gone)
  }

  function Step(s: State, e: Event): State
    requires Enabled(s, e) && s.pools != []
  {
    match e
    case StartGet(t) => s.(tasks := s.tasks[t := Getting])
    case StartClose(t) => s.(tasks := s.tasks[t := ToClose])
    case Acquire(t) => Entered(s, t)
    case CreateDone(t, ok) => Created(s, t, ok)
    case CloseDone(t, ok, gone) => CloseEnded(s, t, ok, gone)
  }

  ghost predicate Inv(s: State) {
    && s.pools != [] && s.pools[Epoch(s)] == s.global
    && s.open == (if s.global.Some? && !s.halfClosed then {s.global.value} else {})
    && (s.halfClosed ==> s.global.Some?)
    && (forall t :: t in s.tasks && (s.tasks[t] == Creating || s.tasks[t] == Closing) ==> s.holder == Some(t))
    && (s.holder.Some? ==> s.holder.value in s.tasks
                           && (s.tasks[s.holder.value] == Creating || s.tasks[s.holder.value] == Closing))
    && (forall t :: t in s.tasks && s.tasks[t] == Creating ==> s.global == None)
    && (forall t :: t in s.tasks && s.tasks[t] == Closing ==> s.global.Some?)
    && (forall t :: t in s.tasks && s.tasks[t].Got? ==>
          s.tasks[t].epoch < |s.pools| && s.pools[s.tasks[t].epoch] == Some(s.tasks[t].pool))
  }

  lemma StepKeeps(s: State, e: Event)
    requires Inv(s) && Enabled(s, e)
    ensures Inv(Step(s, e))
  {
  }

  predicate TaskIs(s: State, t: TaskId, task: Task) {
    t in s.tasks && s.tasks[t] == task
  }

  /** What a call that ends leaves behind. A `close_pool` that returns has emptied the global, and the pool
      that was there is shut; one that raises leaves the global as it is. A `_get_pool` that returns hands out
      the pool the global then names, an open one unless a close failed halfway, and it makes a new one only
      if there was none; one that raises leaves no pool. No other task changes. */
  lemma AnswersMean(s: State, e: Event, t: TaskId)
    requires Inv(s) && Enabled(s, e)
    ensures var s' := Step(s, e);
            && (TaskIs(s', t, Closed) && !TaskIs(s, t, Closed) ==>
                  s'.global == None && s'.open == {} && (s.global.Some? ==> TaskIs(s, t, Closing)))
            && (TaskIs(s', t, CloseFailed) && !TaskIs(s, t, CloseFailed) ==> s'.global == s.global)
            && (t in s'.tasks && s'.tasks[t].Got? && !TaskIs(s, t, s'.tasks[t]) ==>
                  && s'.global == Some(s'.tasks[t].pool) && (s'.tasks[t].pool in s'.open <==> !s.halfClosed)
                  && (s.global.Some? ==> s'.global == s.global)
                  && (s.global == None ==> s'.tasks[t].pool == s.next && s'.next == s.next + 1))
            && (TaskIs(s', t, GetFailed) && !TaskIs(s, t, GetFailed) ==> s.global == None && s'.global == None)
            && (t in s.tasks && (e.StartGet? || e.StartClose? || e.t != t) ==> TaskIs(s', t, s.tasks[t]))
  {
  }

  /** What happens at the lock: a getter that finds a pool is served, one that finds none goes on to make it;
      a closer that finds a pool goes on to close it, one that finds none is done. Going on holds the lock. */
  lemma LockMeans(s: State, t: TaskId)
    requires Inv(s) && Enabled(s, Acquire(t))
    ensures var s' := Step(s, Acquire(t));
            && s'.global == s.global && s'.open == s.open
            && (s.tasks[t] == Getting && s.global.Some? ==> s'.tasks[t].Got? && s'.holder == None)
            && (s.tasks[t] == Getting && s.global.None? ==> s'.tasks[t] == Creating && s'.holder == Some(t))
            && (s.tasks[t] == ToClose && s.global.Some? ==> s'.tasks[t] == Closing && s'.holder == Some(t))
            && (s.tasks[t] == ToClose && s.global.None? ==> s'.tasks[t] == Closed && s'.holder == None)
            && (s'.holder.Some? ==> forall u :: u in s'.tasks ==> !Enabled(s', Acquire(u)))
  {
  }

  ghost predicate Possible(s: State, es: seq<Event>)
    decreases |es|
  {
    es == [] || (s.pools != [] && Enabled(s, es[0]) && Possible(Step(s, es[0]), es[1..]))
  }

  ghost function RunAll(s: State, es: seq<Event>): State
    requires Possible(s, es)
    decreases |es|
  {
    if es == [] then s else RunAll(Step(s, es[0]), es[1..])
  }

  lemma {:induction false} RunKeeps(s: State, es: seq<Event>)
    requires Inv(s) && Possible(s, es)
    ensures Inv(RunAll(s, es))
    decreases |es|
  {
    if es != [] {
      StepKeeps(s, es[0]);
      RunKeeps(Step(s, es[0]), es[1..]);
    }
  }

  /** In every interleaving at most one pool is open; unless a close raised after losing the
      connection, the open pool is exactly the global one; and two callers served between the same
      two closes hold the same pool. */
  lemma SinglePool(es: seq<Event>)
    requires Possible(INITIAL, es)
    ensures var s := RunAll(INITIAL, es);
            && |s.open| <= 1
            && (!s.halfClosed ==> s.open == if s.global.Some? then {s.global.value} else {})
            && forall t, u | t in s.tasks && u in s.tasks && s.tasks[t].Got? && s.tasks[u].Got? ::
                 s.tasks[t].epoch == s.tasks[u].epoch ==> s.tasks[t].pool == s.tasks[u].pool
  {
    RunKeeps(INITIAL, es);
  }

  /** A close that loses the connection and then raises leaves a dead pool in the global, and exactly
      then do later callers get a pool that is not open. */
  lemma DeadPoolIff(s: State, t: TaskId)
    requires Inv(s) && Enabled(s, Acquire(t)) && s.tasks[t] == Getting && s.global.Some?
    ensures var s' := Step(s, Acquire(t));
            s'.tasks[t].Got? && (s'.tasks[t].pool !in s'.open <==> s.halfClosed)
  {
  }
}
