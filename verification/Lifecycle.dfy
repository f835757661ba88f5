/** The life of audit rows: dispatcher, queue worker, runner and stale-row sweeper over one clock. */
module Lifecycle {
  import opened Prelude
  import opened GraphDb

  type RunId = nat

  const STALE_MESSAGE := "Timed out — marked stale by sweeper"

  /** Default threshold of the sweeper, in minutes; timeout of a queued job, in seconds. */
  const DEFAULT_THRESHOLD := 10
  const JOB_TIMEOUT := 300

  datatype Row = Row(status: Status, startedAt: Time, finishedAt: Option<Time>, error: Option<string>)

  predicate Open(r: Row) {
    r.status == Queued || r.status == Running
  }

  // ---------- What each component does to the table ----------

  predicate Stale(r: Row, cutoff: Time) {
    Open(r) && r.startedAt < cutoff
  }

  function Cutoff(now: Time, minutes: int): Time {
    now - minutes * 60
  }

  function Swept(r: Row, now: Time, minutes: int): Row {
    if Stale(r, Cutoff(now, minutes)) then
      r.(status := Failed, finishedAt := Some(now), error := Some(STALE_MESSAGE))
    else r
  }

  datatype Claim = NotFound | Skipped | MissingInput | Claimed

  function ClaimOf(r: Row, inputPresent: bool): Claim {
    if r.status != Queued then Skipped else if inputPresent then Claimed else MissingInput
  }

  function AfterClaim(r: Row, inputPresent: bool): Row {
    match ClaimOf(r, inputPresent)
    case Claimed => r.(status := Running)
    case MissingInput => r.(status := Failed, error := Some("missing_input_entity"))
    case _ => r
  }

  function EnqueueFailed(r: Row): Row {
    r.(status := Failed, error := Some("enqueue_failed"))
  }

  class RunTable {
    var rows: map<RunId, Row>

    constructor ()
      ensures rows == map[]
    {
      rows := map[];
    }

    /** `sweep_stuck_runs`: one guarded bulk update and its row count. */
    method SweepStuckRuns(now: Time, minutes: int) returns (count: nat)
      modifies this
      ensures rows.Keys == old(rows).Keys
      ensures forall r :: r in rows ==>
                var before := old(rows)[r];
                rows[r] == if (before.status == Queued || before.status == Running)
                              && before.startedAt < now - minutes * 60
                           then Row(Failed, before.startedAt, Some(now), Some("Timed out — marked stale by sweeper"))
                           else before
      ensures count == |set r | r in rows && rows[r] != old(rows)[r]|
      ensures forall r :: r in rows && Open(rows[r]) ==> rows[r].startedAt >= Cutoff(now, minutes)
    {
      var cutoff := Cutoff(now, minutes);
      var stale := set r | r in rows && Stale(rows[r], cutoff);
      ghost var before := rows;
      rows := map r | r in rows :: Swept(rows[r], now, minutes);
      count := |stale|;
      assert forall r :: r in before ==> (Stale(before[r], cutoff) <==> rows[r] != before[r]);
      assert stale == set r | r in rows && rows[r] != old(rows)[r];
    }

    /** The load, check and flip of `run_plugin_task`. */
    method ClaimRun(r: RunId, inputPresent: bool) returns (claim: Claim)
      modifies this
      ensures claim == NotFound <==> r !in old(rows)
      ensures claim == Claimed <==> r in old(rows) && old(rows)[r].status == Queued && inputPresent
      ensures claim == MissingInput <==> r in old(rows) && old(rows)[r].status == Queued && !inputPresent
      ensures rows == match claim
                      case NotFound => old(rows)
                      case Skipped => old(rows)
                      case Claimed => old(rows)[r := old(rows)[r].(status := Running)]
                      case MissingInput =>
                        old(rows)[r := old(rows)[r].(status := Failed, error := Some("missing_input_entity"))]
    {
      if r !in rows {
        return NotFound;
      }
      var row := rows[r];
      if row.status != Queued {
        return Skipped;
      }
      if !inputPresent {
        rows := rows[r := row.(status := Failed, error := Some("missing_input_entity"))];
        return MissingInput;
      }
      rows := rows[r := row.(status := Running)];
      claim := Claimed;
    }

    /** The async branch of the router: insert a queued row, enqueue, record an enqueue failure. */
    method DispatchAsync(r: RunId, now: Time, enqueued: bool) returns (accepted: bool)
      requires r !in rows
      modifies this
      ensures accepted == enqueued
      ensures rows == old(rows)[r := if enqueued then Row(Queued, now, None, None)
                                     else Row(Failed, now, None, Some("enqueue_failed"))]
    {
      rows := rows[r := Row(Queued, now, None, None)];
      if !enqueued {
        rows := rows[r := rows[r].(status := Failed, error := Some("enqueue_failed"))];
      }
      accepted := enqueued;
    }
  }

  // ---------- The system ----------

  /** A worker holds the row in memory from `since`, for at most `limit` seconds if all is well. */
  datatype Worker = Absent | Live(since: Time, limit: Time, queried: bool)

  /** One row with the components acting on it, and two counters that only observe. */
  datatype Cell = Cell(row: Row, dispatching: bool, job: bool, worker: Worker, queries: nat, terminalWrites: nat)

  datatype Sys = Sys(now: Time, lastSweep: Time, cells: map<RunId, Cell>)

  datatype Event =
    | Tick(seconds: nat)
    | Insert(r: RunId)
    | InsertSync(r: RunId, limit: Time)
    | Enqueue(r: RunId, ok: bool)
    | DispatcherDies(r: RunId)
    | Deliver(r: RunId, inputPresent: bool)
    | StartQuery(r: RunId)
    | Finish(r: RunId, failure: Option<string>, recorded: bool)
    | Abandon(r: RunId)
    | Sweep(minutes: int)

  const INITIAL := Sys(0, 0, map[])

  predicate Enabled(s: Sys, e: Event) {
    match e
    case Tick(_) => true
    case Sweep(_) => true
    case Insert(r) => r !in s.cells
    case InsertSync(r, _) => r !in s.cells
    case Enqueue(r, _) => r in s.cells && s.cells[r].dispatching
    case DispatcherDies(r) => r in s.cells && s.cells[r].dispatching
    case Deliver(r, _) => r in s.cells && s.cells[r].job
    case StartQuery(r) => r in s.cells && s.cells[r].worker.Live? && !s.cells[r].worker.queried
    case Finish(r, failure, _) =>
      r in s.cells && s.cells[r].worker.Live? && (failure == None ==> s.cells[r].worker.queried)
    case Abandon(r) => r in s.cells && s.cells[r].worker.Live?
  }

  /** The runner writes its result whatever the row says by then, a failure with its label; a success leaves
      the message column alone, and a lost commit writes nothing. */
  function Finished(c: Cell, now: Time, failure: Option<string>, recorded: bool): Cell {
    if recorded then
      c.(row := Row(if failure == None then Succeeded else Failed, c.row.startedAt, Some(now),
                    if failure == None then c.row.error else failure),
         worker := Absent, terminalWrites := c.terminalWrites + 1)
    else c.(worker := Absent)
  }

  function Delivered(c: Cell, now: Time, inputPresent: bool): Cell {
    var c' := c.(row := AfterClaim(c.row, inputPresent));
    match ClaimOf(c.row, inputPresent)
    case Claimed => c'.(worker := Live(now, JOB_TIMEOUT, false))
    case MissingInput => c'.(terminalWrites := c.terminalWrites + 1)
    case _ => c'
  }

  function SweptCell(c: Cell, now: Time, minutes: int): Cell {
    if Stale(c.row, Cutoff(now, minutes)) then
      c.(row := Swept(c.row, now, minutes), terminalWrites := c.terminalWrites + 1)
    else c
  }

  function Step(s: Sys, e: Event): Sys
    requires Enabled(s, e)
  {
    match e
    case Tick(d) => s.(now := s.now + d)
    case Insert(r) => s.(cells := s.cells[r := Cell(Row(Queued, s.now, None, None), true, false, Absent, 0, 0)])
    case InsertSync(r, limit) =>
      s.(cells := s.cells[r := Cell(Row(Running, s.now, None, None), false, false, Live(s.now, limit, false), 0, 0)])
    case Enqueue(r, ok) =>
      var c := s.cells[r].(dispatching := false);
      s.(cells := s.cells[r := if ok then c.(job := true)
                               else c.(row := EnqueueFailed(c.row), terminalWrites := c.terminalWrites + 1)])
    case DispatcherDies(r) => s.(cells := s.cells[r := s.cells[r].(dispatching := false)])
    case Deliver(r, present) => s.(cells := s.cells[r := Delivered(s.cells[r], s.now, present)])
    case StartQuery(r) =>
      var c := s.cells[r];
      s.(cells := s.cells[r := c.(worker := c.worker.(queried := true), queries := c.queries + 1)])
    case Finish(r, failure, recorded) => s.(cells := s.cells[r := Finished(s.cells[r], s.now, failure, recorded)])
    case Abandon(r) => s.(cells := s.cells[r := s.cells[r].(worker := Absent)])
    case Sweep(m) => s.(lastSweep := s.now, cells := map r | r in s.cells :: SweptCell(s.cells[r], s.now, m))
  }

  ghost predicate Possible(s: Sys, es: seq<Event>)
    decreases |es|
  {
    es == [] || (Enabled(s, es[0]) && Possible(Step(s, es[0]), es[1..]))
  }

  ghost function RunAll(s: Sys, es: seq<Event>): Sys
    requires Possible(s, es)
    decreases |es|
  {
    if es == [] then s else RunAll(Step(s, es[0]), es[1..])
  }

  // ---------- Safety over every run ----------

  predicate CellOk(now: Time, c: Cell) {
    && c.queries <= 1 && c.row.startedAt <= now
    && (c.row.status == Queued ==> c.queries == 0 && c.worker.Absent?)
    && (c.worker.Live? ==> c.queries == if c.worker.queried then 1 else 0)
    && (c.dispatching ==> !c.job && c.worker.Absent? && c.queries == 0)
    && (c.row.status == Succeeded ==> c.worker.Absent? && !c.dispatching && c.queries == 1)
    && (Open(c.row) ==> c.row.finishedAt == None && c.terminalWrites == 0)
    && ((c.worker.Live? || c.dispatching) && !Open(c.row) ==> c.terminalWrites == 1)
    && (!Open(c.row) ==> 1 <= c.terminalWrites <= 2)
  }

  predicate SysOk(s: Sys) {
    forall r :: r in s.cells ==> CellOk(s.now, s.cells[r])
  }

  lemma StepOk(s: Sys, e: Event)
    requires SysOk(s) && Enabled(s, e)
    ensures SysOk(Step(s, e))
  {
  }

  /** A plugin query starts at most once per row, in every run of the system. */
  lemma {:induction false} QueryStartsOnce(s: Sys, es: seq<Event>)
    requires SysOk(s) && Possible(s, es)
    ensures SysOk(RunAll(s, es))
    ensures forall r :: r in RunAll(s, es).cells ==> RunAll(s, es).cells[r].queries <= 1
    decreases |es|
  {
    if es != [] {
      StepOk(s, es[0]);
      QueryStartsOnce(Step(s, es[0]), es[1..]);
    }
  }

  lemma StepOrder(s: Sys, e: Event, r: RunId)
    requires SysOk(s) && Enabled(s, e) && r in s.cells
    ensures var s' := Step(s, e);
            && r in s'.cells
            && s'.cells[r].row.startedAt == s.cells[r].row.startedAt
            && (s.cells[r].row.status != Queued ==> s'.cells[r].row.status != Queued)
            && (s.cells[r].row.status == Succeeded ==> s'.cells[r].row == s.cells[r].row)
  {
  }

  /** Rows are never removed, their insertion time never changes, `queued` is never re-entered, and a
      succeeded row is never written again. */
  lemma {:induction false} StatusOrder(s: Sys, es: seq<Event>, r: RunId)
    requires SysOk(s) && Possible(s, es) && r in s.cells
    ensures var s' := RunAll(s, es);
            && r in s'.cells
            && s'.cells[r].row.startedAt == s.cells[r].row.startedAt
            && (s.cells[r].row.status != Queued ==> s'.cells[r].row.status != Queued)
            && (s.cells[r].row.status == Succeeded ==> s'.cells[r].row == s.cells[r].row)
    decreases |es|
  {
    if es != [] {
      StepOk(s, es[0]);
      StepOrder(s, es[0], r);
      hide Step;
      hide SysOk;
      StatusOrder(Step(s, es[0]), es[1..], r);
    }
  }

  // ---------- What each event does to a row ----------

  /** A delivery claims the row exactly when it is queued and its input is there: it then runs, under a
      worker of its own. A queued row without its input is failed; any other row is left as it is. */
  lemma DeliverySays(s: Sys, r: RunId, inputPresent: bool)
    requires SysOk(s) && Enabled(s, Deliver(r, inputPresent))
    ensures var c, c' := s.cells[r], Step(s, Deliver(r, inputPresent)).cells[r];
            if c.row.status != Queued then c' == c
            else if inputPresent then
              && c'.row == Row(Running, c.row.startedAt, c.row.finishedAt, c.row.error)
              && c'.worker == Live(s.now, 300, false) && c'.terminalWrites == c.terminalWrites
            else
              && c'.row == Row(Failed, c.row.startedAt, c.row.finishedAt, Some("missing_input_entity"))
              && c'.worker.Absent? && c'.terminalWrites == c.terminalWrites + 1
  {
  }

  /** A worker takes over a row that is there exactly by a delivery of it, queued, with its input present. */
  lemma WorkerAppearsIff(s: Sys, e: Event, r: RunId)
    requires SysOk(s) && Enabled(s, e) && r in s.cells && s.cells[r].worker.Absent?
    ensures r in Step(s, e).cells
    ensures Step(s, e).cells[r].worker.Live? <==> e == Deliver(r, true) && s.cells[r].row.status == Queued
  {
  }

  /** A delivery that claims the row, somewhere in the run. */
  ghost predicate EverClaimed(s: Sys, es: seq<Event>, r: RunId)
    requires Possible(s, es)
    decreases |es|
  {
    es != [] &&
    ((es[0] == Deliver(r, true) && r in s.cells && s.cells[r].row.status == Queued)
     || EverClaimed(Step(s, es[0]), es[1..], r))
  }

  /** Over whole runs: a row that no worker held is held, or queried, later on only after such a delivery. */
  lemma {:induction false} WorkedOnlyIfClaimed(s: Sys, es: seq<Event>, r: RunId)
    requires SysOk(s) && Possible(s, es) && r in s.cells && s.cells[r].worker.Absent?
    ensures var s' := RunAll(s, es);
            && r in s'.cells
            && (s'.cells[r].worker.Live? || s'.cells[r].queries > s.cells[r].queries ==> EverClaimed(s, es, r))
    decreases |es|
  {
    if es != [] {
      StepOk(s, es[0]);
      WorkerAppearsIff(s, es[0], r);
      QueryNeedsWorker(s, es[0], r);
      StatusOrder(Step(s, es[0]), es[1..], r);
      hide Step;
      hide SysOk;
      if Step(s, es[0]).cells[r].worker.Absent? {
        WorkedOnlyIfClaimed(Step(s, es[0]), es[1..], r);
      }
    }
  }

  lemma QueryNeedsWorker(s: Sys, e: Event, r: RunId)
    requires Enabled(s, e) && r in s.cells && s.cells[r].worker.Absent?
    ensures r in Step(s, e).cells && Step(s, e).cells[r].queries == s.cells[r].queries
  {
  }

  /** What the other writers leave in the row: its insertion by either route, a failed enqueue, a result, and
      a sweep with the time and message it puts into a stale open row. */
  lemma OtherWritesSay(s: Sys, e: Event, r: RunId)
    requires Enabled(s, e)
    ensures var s' := Step(s, e);
            match e
            case Insert(i) => i == r ==> s'.cells[r].row == Row(Queued, s.now, None, None)
            case InsertSync(i, _) => i == r ==> s'.cells[r].row == Row(Running, s.now, None, None)
            case Enqueue(i, ok) =>
              i == r ==> var row := s.cells[r].row;
                         s'.cells[r].row == if ok then row
                                            else Row(Failed, row.startedAt, row.finishedAt, Some("enqueue_failed"))
            case Finish(i, failure, recorded) =>
              i == r ==> var row := s.cells[r].row;
                         s'.cells[r].row ==
                         if !recorded then row
                         else if failure.Some? then Row(Failed, row.startedAt, Some(s.now), failure)
                         else Row(Succeeded, row.startedAt, Some(s.now), row.error)
            case Sweep(minutes) =>
              r in s.cells ==>
                var row := s.cells[r].row;
                r in s'.cells &&
                s'.cells[r].row ==
                if (row.status == Queued || row.status == Running) && row.startedAt < s.now - minutes * 60 then
                  Row(Failed, row.startedAt, Some(s.now), Some("Timed out — marked stale by sweeper"))
                else row
            case _ => true
  {
  }

  // ---------- Safety under timing ----------

  /** Claims come at most 300 s after insertion, workers and dispatchers respect their limits, and the
      sweeper uses its default threshold. */
  predicate Timely(s: Sys, e: Event) {
    match e
    case Tick(d) =>
      forall r :: r in s.cells ==>
                    && (s.cells[r].worker.Live? ==> s.now + d <= s.cells[r].worker.since + s.cells[r].worker.limit)
                    && (s.cells[r].dispatching ==> s.now + d <= s.cells[r].row.startedAt + DEFAULT_THRESHOLD * 60)
    case InsertSync(_, limit) => 0 <= limit <= DEFAULT_THRESHOLD * 60
    case Deliver(r, _) => r in s.cells && s.cells[r].row.status == Queued ==> s.now <= s.cells[r].row.startedAt + 300
    case Sweep(m) => m == DEFAULT_THRESHOLD
    case _ => true
  }

  ghost predicate TimelyRun(s: Sys, es: seq<Event>)
    requires Possible(s, es)
    decreases |es|
  {
    es == [] || (Timely(s, es[0]) && TimelyRun(Step(s, es[0]), es[1..]))
  }

  predicate CellTimely(now: Time, c: Cell) {
    && (c.worker.Live? ==>
          && now <= c.worker.since + c.worker.limit <= c.row.startedAt + DEFAULT_THRESHOLD * 60
          && c.row.status == Running)
    && (c.dispatching ==> now <= c.row.startedAt + DEFAULT_THRESHOLD * 60 && c.row.status == Queued)
    && c.terminalWrites == (if Open(c.row) then 0 else 1)
  }

  predicate SysTimely(s: Sys) {
    SysOk(s) && forall r :: r in s.cells ==> CellTimely(s.now, s.cells[r])
  }

  lemma StepTimely(s: Sys, e: Event)
    requires SysTimely(s) && Enabled(s, e) && Timely(s, e)
    ensures SysTimely(Step(s, e))
    ensures e.Sweep? ==> forall r :: r in s.cells && s.cells[r].worker.Live? ==> Step(s, e).cells[r] == s.cells[r]
  {
    StepOk(s, e);
  }

  /** In every timely run a sweep leaves the rows of live workers alone, so each row is written
      terminally at most once. */
  lemma {:induction false} OneTerminalWrite(s: Sys, es: seq<Event>)
    requires SysTimely(s) && Possible(s, es) && TimelyRun(s, es)
    ensures SysTimely(RunAll(s, es))
    ensures forall r :: r in RunAll(s, es).cells ==> RunAll(s, es).cells[r].terminalWrites <= 1
    decreases |es|
  {
    if es != [] {
      StepTimely(s, es[0]);
      OneTerminalWrite(Step(s, es[0]), es[1..]);
    }
  }

  /** The event writes a result, or an enqueue failure, over a row that is closed already. */
  predicate Overwrites(s: Sys, e: Event, r: RunId) {
    r in s.cells && !Open(s.cells[r].row) &&
    match e
    case Finish(r', _, recorded) => r' == r && recorded
    case Enqueue(r', ok) => r' == r && !ok
    case _ => false
  }

  function TerminalWrites(s: Sys, r: RunId): nat {
    if r in s.cells then s.cells[r].terminalWrites else 0
  }

  /** Over all events: a row is written terminally a second time exactly when a worker's recorded result
      or a failed enqueue meets it closed, and never a third time. */
  lemma SecondWriteIff(s: Sys, e: Event, r: RunId)
    requires SysOk(s) && Enabled(s, e)
    ensures TerminalWrites(s, r) <= 2 && TerminalWrites(Step(s, e), r) <= 2
    ensures TerminalWrites(Step(s, e), r) == 2 <==> TerminalWrites(s, r) == 2 || Overwrites(s, e, r)
    ensures Overwrites(s, e, r) ==> TerminalWrites(s, r) == 1 && s.cells[r].row.status == Failed
  {
  }

  /** Somewhere in the run the row is overwritten. */
  ghost predicate EverOverwritten(s: Sys, es: seq<Event>, r: RunId)
    requires Possible(s, es)
    decreases |es|
  {
    es != [] && (Overwrites(s, es[0], r) || EverOverwritten(Step(s, es[0]), es[1..], r))
  }

  /** Over whole runs: two terminal writes in the end exactly when the row was overwritten on the way, at
      most two in any run. */
  lemma {:induction false} TwoWritesIff(s: Sys, es: seq<Event>, r: RunId)
    requires SysOk(s) && Possible(s, es)
    ensures TerminalWrites(RunAll(s, es), r) <= 2
    ensures TerminalWrites(RunAll(s, es), r) == 2 <==> TerminalWrites(s, r) == 2 || EverOverwritten(s, es, r)
    decreases |es|
  {
    if es == [] {
      assert r in s.cells ==> CellOk(s.now, s.cells[r]);
    } else {
      SecondWriteIff(s, es[0], r);
      StepOk(s, es[0]);
      hide Step;
      hide SysOk;
      hide Overwrites;
      TwoWritesIff(Step(s, es[0]), es[1..], r);
    }
  }

  /** The row of a live worker is closed under it by a sweep exactly when the row is older than the
      threshold, however recently the worker started. */
  lemma SweepHitsLiveWorkerIff(s: Sys, r: RunId, minutes: int)
    requires SysOk(s) && r in s.cells && s.cells[r].worker.Live? && Open(s.cells[r].row)
    ensures Step(s, Sweep(minutes)).cells[r].row.status == Failed <==> s.now - s.cells[r].row.startedAt > minutes * 60
  {
  }

  lemma Before(s: Sys, e: Event, es: seq<Event>)
    requires Enabled(s, e) && Possible(Step(s, e), es)
    ensures Possible(s, [e] + es) && RunAll(s, [e] + es) == RunAll(Step(s, e), es)
  {
    assert ([e] + es)[1..] == es;
  }

  /** A late claim shows it: claimed 400 s after insertion and 250 s into its job, the row is swept,
      and the worker's result then overwrites the sweeper's. */
  lemma LateClaimIsOverwritten() returns (es: seq<Event>)
    ensures Possible(INITIAL, es) && 0 in RunAll(INITIAL, es).cells
    ensures RunAll(INITIAL, es).cells[0].terminalWrites == 2
    ensures RunAll(INITIAL, es).cells[0].row.status == Succeeded
  {
    var s1 := Step(INITIAL, Insert(0));
    var s2 := Step(s1, Enqueue(0, true));
    var s3 := Step(s2, Tick(400));
    var s4 := Step(s3, Deliver(0, true));
    var s5 := Step(s4, StartQuery(0));
    var s6 := Step(s5, Tick(250));
    var s7 := Step(s6, Sweep(DEFAULT_THRESHOLD));
    es := [];
    Before(s7, Finish(0, None, true), es);
    es := [Finish(0, None, true)] + es;
    Before(s6, Sweep(DEFAULT_THRESHOLD), es);
    es := [Sweep(DEFAULT_THRESHOLD)] + es;
    Before(s5, Tick(250), es);
    es := [Tick(250)] + es;
    Before(s4, StartQuery(0), es);
    es := [StartQuery(0)] + es;
    Before(s3, Deliver(0, true), es);
    es := [Deliver(0, true)] + es;
    Before(s2, Tick(400), es);
    es := [Tick(400)] + es;
    Before(s1, Enqueue(0, true), es);
    es := [Enqueue(0, true)] + es;
    Before(INITIAL, Insert(0), es);
    es := [Insert(0)] + es;
  }

  /** So does a late dispatcher: the row is swept before the enqueue call fails, and the failure write
      comes on top. */
  lemma LateDispatcherIsOverwritten() returns (es: seq<Event>)
    ensures Possible(INITIAL, es) && 0 in RunAll(INITIAL, es).cells
    ensures RunAll(INITIAL, es).cells[0].terminalWrites == 2
    ensures RunAll(INITIAL, es).cells[0].worker.Absent? && forall i :: 0 <= i < |es| ==> !es[i].Finish?
  {
    var s1 := Step(INITIAL, Insert(0));
    var s2 := Step(s1, Tick(700));
    var s3 := Step(s2, Sweep(DEFAULT_THRESHOLD));
    es := [];
    Before(s3, Enqueue(0, false), es);
    es := [Enqueue(0, false)] + es;
    Before(s2, Sweep(DEFAULT_THRESHOLD), es);
    es := [Sweep(DEFAULT_THRESHOLD)] + es;
    Before(s1, Tick(700), es);
    es := [Tick(700)] + es;
    Before(INITIAL, Insert(0), es);
    es := [Insert(0)] + es;
  }

  // ---------- Recovery ----------

  /** Default sweeps, at most `period` seconds apart. */
  predicate Regular(s: Sys, e: Event, period: nat) {
    (e.Tick? ==> s.now + e.seconds <= s.lastSweep + period) && (e.Sweep? ==> e.minutes == DEFAULT_THRESHOLD)
  }

  ghost predicate RegularRun(s: Sys, es: seq<Event>, period: nat)
    requires Possible(s, es)
    decreases |es|
  {
    es == [] || (Regular(s, es[0], period) && RegularRun(Step(s, es[0]), es[1..], period))
  }

  predicate Recovering(s: Sys, period: nat) {
    && s.lastSweep <= s.now <= s.lastSweep + period
    && forall r :: r in s.cells && Open(s.cells[r].row) ==>
                     s.cells[r].row.startedAt >= s.lastSweep - DEFAULT_THRESHOLD * 60
  }

  lemma StepRecovers(s: Sys, e: Event, period: nat)
    requires SysOk(s) && Recovering(s, period) && Enabled(s, e) && Regular(s, e, period)
    ensures Recovering(Step(s, e), period)
  {
  }

  /** Whatever crashes, no row stays open longer than the threshold plus one sweep period. */
  lemma {:induction false} BoundedRecovery(s: Sys, es: seq<Event>, period: nat)
    requires SysOk(s) && Recovering(s, period) && Possible(s, es) && RegularRun(s, es, period)
    ensures var s' := RunAll(s, es);
            && Recovering(s', period)
            && forall r :: r in s'.cells && Open(s'.cells[r].row) ==>
                             s'.now - s'.cells[r].row.startedAt <= 600 + period
    decreases |es|
  {
    if es != [] {
      StepOk(s, es[0]);
      StepRecovers(s, es[0], period);
      hide Step;
      hide SysOk;
      BoundedRecovery(Step(s, es[0]), es[1..], period);
    }
  }
}
