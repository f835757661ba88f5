/** Any sequence of requests and jobs over one database, with any call failing anywhere. */
module Reachable {
  import opened Prelude
  import opened GraphDb
  import opened EvidenceKeys
  import opened Batches
  import opened Lookups
  import opened Sessions
  import opened Repositories
  import opened Runner
  import opened RunnerTheorems

  /** A request that is one transaction; each gets its own session. */
  datatype Request =
    | CreateEntityOp(c: CaseId, entity: EntityCreate)
    | GetOrCreateEntityOp(c: CaseId, entity: EntityCreate)
    | UpdateEntityOp(i: Id, c: CaseId, update: EntityUpdate)
    | DeleteEntityOp(i: Id, c: CaseId)
    | CreateRelOp(c: CaseId, rel: RelationshipCreate)
    | CreateRelIfNotExistsOp(c: CaseId, rel: RelationshipCreate)
    | DeleteRelOp(j: Id, c: CaseId)
    | CreateEvidenceOp(c: CaseId, ev: EvidenceCreate, payload: Bytes, contentType: Option<string>, now: Time)
    | QueueRunOp(run: RunArgs)
    | FailRunsOp(ids: set<Id>, finishedAt: Option<Time>, message: string)

  /** A request, or the next transaction of a plugin run, or the end of its process between two. */
  datatype Op =
    | RequestOp(request: Request)
    | OpenOp(job: nat, run: RunArgs)
    | BatchOp(job: nat)
    | CloseOp(job: nat)
    | CrashOp(job: nat)

  datatype Counts = Counts(ents: nat, rels: nat, evs: nat)

  /** A plugin run in progress, by its audit row: its batch is committed once it has counts. */
  datatype Job = Job(row: Id, run: RunArgs, counts: Option<Counts>)

  /** The database and object store, and the runs in progress. Between the transactions of a run any
      other operation may come, a write to its own audit row included. */
  datatype World = World(s: Store, live: map<nat, Job>)

  /** The dispatcher's queued audit row. */
  function QueuedRow(a: RunArgs): RunRow {
    NewRunRow(a).(status := Queued)
  }

  /** The failure writes outside the runner: enqueue failure, missing input entity, sweeper. */
  function FailedRow(row: RunRow, finishedAt: Option<Time>, message: string): RunRow {
    row.(status := Failed, finishedAt := finishedAt, error := Some(message))
  }

  function FailRuns(runs: map<Id, RunRow>, ids: set<Id>, finishedAt: Option<Time>, message: string): map<Id, RunRow> {
    map r | r in runs :: if r in ids then FailedRow(runs[r], finishedAt, message) else runs[r]
  }

  // ---------- The transactions of a run ----------

  /** The worker passes the queued row's own case and input. */
  predicate OwnRow(s: Store, a: RunArgs) {
    a.existing.Some? ==>
      a.existing.value in s.work.runs
      && s.work.runs[a.existing.value].caseId == a.caseId && s.work.runs[a.existing.value].input == a.input
  }

  predicate Startable(s: Store, a: RunArgs) {
    a.accepted && Runnable(s, a) && OwnRow(s, a)
  }

  /** The query, then the batch and its commit, or the failure handler. Only changed columns are written,
      so a row that was swept meanwhile keeps the rest of what the sweep wrote. */
  ghost function RunBatch(env: Env, s: Store, a: RunArgs, r: Id): (Store, Option<Counts>)
    requires r in s.work.runs
  {
    var (x, err) := Attempt(env, s, a);
    if err.Some? then (Handle(env, x.s, a, r, s.work.runs[r], err.value), None)
    else (x.s, Some(Counts(|x.ents|, |x.rels|, |x.evs|)))
  }

  /** The success row and its commit, or the failure handler. */
  function CloseRun(env: Env, s: Store, a: RunArgs, r: Id, n: Counts): Store
    requires r in s.work.runs
  {
    var row := s.work.runs[r];
    var (s', ok) := Commit(env, WriteRun(s, r, SuccessRow(row, a.finished, n.ents, n.rels, n.evs)));
    if ok then s' else Handle(env, s', a, r, row, CommitFailed)
  }

  // ---------- Operations ----------

  ghost function Perform(env: Env, s: Store, request: Request): Store {
    match request
    case CreateEntityOp(c, d) => CreateEntity(env, s, c, d, true).0
    case GetOrCreateEntityOp(c, d) => GetOrCreateEntity(env, s, c, d, true).0
    case UpdateEntityOp(i, c, u) => UpdateEntity(env, s, i, c, u).0
    case DeleteEntityOp(i, c) => SoftDeleteEntity(env, s, i, c).0
    case CreateRelOp(c, d) => CreateRel(env, s, c, d, true).0
    case CreateRelIfNotExistsOp(c, d) => CreateRelIfNotExists(env, s, c, d, true).0
    case DeleteRelOp(j, c) => SoftDeleteRel(env, s, j, c).0
    case CreateEvidenceOp(c, d, payload, ct, now) => CreateEvidence(env, s, c, d, payload, ct, now, true).0
    case QueueRunOp(a) => Commit(env, WriteRun(s.(next := s.next + 1), s.next, QueuedRow(a))).0
    case FailRunsOp(ids, at, message) =>
      Commit(env, s.(work := s.work.(runs := FailRuns(s.work.runs, ids, at, message)))).0
  }

  predicate BatchDue(w: World, t: nat) {
    t in w.live && w.live[t].counts.None? && w.live[t].row in w.s.work.runs
  }

  predicate CloseDue(w: World, t: nat) {
    t in w.live && w.live[t].counts.Some? && w.live[t].row in w.s.work.runs
  }

  /** One operation, before its session is closed. */
  ghost function Acted(env: Env, w: World, op: Op): World {
    match op
    case RequestOp(request) => w.(s := Perform(env, w.s, request))
    case OpenOp(t, a) =>
      if !Startable(w.s, a) then w
      else
        var (s', ok) := Opened(env, w.s, a);
        World(s', if ok then w.live[t := Job(RunIdOf(w.s, a), a, None)] else w.live - {t})
    case BatchOp(t) =>
      if !BatchDue(w, t) then w
      else
        var (s', n) := RunBatch(env, w.s, w.live[t].run, w.live[t].row);
        World(s', if n.Some? then w.live[t := w.live[t].(counts := n)] else w.live - {t})
    case CloseOp(t) =>
      if !CloseDue(w, t) then w
      else World(CloseRun(env, w.s, w.live[t].run, w.live[t].row, w.live[t].counts.value), w.live - {t})
    case CrashOp(t) => w.(live := w.live - {t})
  }

  /** Afterwards whatever was not committed is gone. */
  ghost function Step(env: Env, w: World, op: Op): World {
    var w' := Acted(env, w, op);
    w'.(s := Rollback(w'.s))
  }

  ghost function Steps(env: Env, w: World, ops: seq<Op>): World
    decreases |ops|
  {
    if ops == [] then w else Steps(env, Step(env, w, ops[0]), ops[1..])
  }

  const INITIAL := World(Store(EMPTY_DB, EMPTY_DB, [EMPTY_DB], map[], false, 0, 0), map[])

  // ---------- The invariant ----------

  lemma FailRunsKeeps(env: Env, s: Store, ids: set<Id>, at: Option<Time>, message: string)
    requires Inv(env, s) && Fresh(s)
    ensures Inv(env, s.(work := s.work.(runs := FailRuns(s.work.runs, ids, at, message))))
  {
    hide Inv;
    hide Consistent;
    InvWork(env, s);
    IdsAreBelow(s.work, s.next);
    RunsKeep(env, s, FailRuns(s.work.runs, ids, at, message));
  }

  lemma QueueRunKeeps(env: Env, s: Store, a: RunArgs)
    requires Inv(env, s) && Fresh(s)
    ensures Inv(env, Commit(env, WriteRun(s.(next := s.next + 1), s.next, QueuedRow(a))).0)
  {
    hide Inv;
    hide Commit;
    OpenRowKeeps(env, s, s.next + 1, s.next, QueuedRow(a));
  }

  lemma PerformKeepsInv(env: Env, s: Store, request: Request)
    requires Inv(env, s) && Fresh(s)
    ensures Inv(env, Perform(env, s, request))
  {
    hide Inv;
    hide CreateEntity;
    hide GetOrCreateEntity;
    hide UpdateEntity;
    hide SoftDeleteEntity;
    hide CreateRel;
    hide CreateRelIfNotExists;
    hide SoftDeleteRel;
    hide CreateEvidence;
    hide Commit;
    match request
    case CreateEntityOp(c, d) => CreateEntityKeeps(env, s, c, d, true);
    case GetOrCreateEntityOp(c, d) => GetOrCreateEntityKeeps(env, s, c, d, true);
    case UpdateEntityOp(i, c, u) => UpdateEntityInv(env, s, i, c, u);
    case DeleteEntityOp(i, c) => SoftDeleteEntityKeeps(env, s, i, c);
    case CreateRelOp(c, d) => CreateRelKeeps(env, s, c, d, true);
    case CreateRelIfNotExistsOp(c, d) => CreateRelIfNotExistsKeeps(env, s, c, d, true);
    case DeleteRelOp(j, c) => SoftDeleteRelKeeps(env, s, j, c);
    case CreateEvidenceOp(c, d, payload, ct, now) => CreateEvidenceKeeps(env, s, c, d, payload, ct, now, true);
    case QueueRunOp(a) => QueueRunKeeps(env, s, a);
    case FailRunsOp(ids, at, message) =>
      FailRunsKeeps(env, s, ids, at, message);
      CommitKeeps(env, s.(work := s.work.(runs := FailRuns(s.work.runs, ids, at, message))));
  }

  lemma RowIdBelow(env: Env, s: Store, r: Id)
    requires Inv(env, s) && r in s.work.runs
    ensures r < s.next
  {
    hide Consistent;
    InvWork(env, s);
    IdsAreBelow(s.work, s.next);
  }

  lemma RunBatchKeepsInv(env: Env, s: Store, a: RunArgs, r: Id)
    requires Inv(env, s) && Fresh(s) && r in s.work.runs
    ensures Inv(env, RunBatch(env, s, a, r).0)
  {
    hide Inv;
    hide Attempt;
    hide Handle;
    RowIdBelow(env, s, r);
    AttemptKeeps(env, s, a, r);
    var (x, err) := Attempt(env, s, a);
    if err.Some? {
      HandleKeeps(env, x.s, a, r, s.work.runs[r], err.value);
    }
  }

  lemma CloseRunKeepsInv(env: Env, s: Store, a: RunArgs, r: Id, n: Counts)
    requires Inv(env, s) && Fresh(s) && r in s.work.runs
    ensures Inv(env, CloseRun(env, s, a, r, n))
  {
    hide Inv;
    hide Commit;
    hide Handle;
    RowIdBelow(env, s, r);
    var done := SuccessRow(s.work.runs[r], a.finished, n.ents, n.rels, n.evs);
    WriteRunKeeps(env, s, r, done);
    CommitKeeps(env, WriteRun(s, r, done));
    CommitNext(env, WriteRun(s, r, done));
    HandleKeeps(env, Commit(env, WriteRun(s, r, done)).0, a, r, s.work.runs[r], CommitFailed);
  }

  lemma CommitNext(env: Env, s: Store)
    ensures Commit(env, s).0.next == s.next
  {
  }

  lemma StepKeepsInv(env: Env, w: World, op: Op)
    requires Inv(env, w.s) && Fresh(w.s)
    ensures Inv(env, Acted(env, w, op).s)
    ensures Inv(env, Step(env, w, op).s) && Fresh(Step(env, w, op).s)
  {
    hide Inv;
    hide Perform;
    hide Opened;
    hide RunBatch;
    hide CloseRun;
    match op {
      case RequestOp(request) => PerformKeepsInv(env, w.s, request);
      case OpenOp(t, a) =>
        if Startable(w.s, a) {
          OpenedKeeps(env, w.s, a);
        }
      case BatchOp(t) =>
        if BatchDue(w, t) {
          RunBatchKeepsInv(env, w.s, w.live[t].run, w.live[t].row);
        }
      case CloseOp(t) =>
        if CloseDue(w, t) {
          CloseRunKeepsInv(env, w.s, w.live[t].run, w.live[t].row, w.live[t].counts.value);
        }
      case CrashOp(t) =>
    }
    var s' := Acted(env, w, op).s;
    RollbackKeeps(env, s', s'.tick);
  }

  lemma {:induction false} StepsKeepInv(env: Env, w: World, ops: seq<Op>)
    requires Inv(env, w.s) && Fresh(w.s)
    ensures Inv(env, Steps(env, w, ops).s) && Fresh(Steps(env, w, ops).s)
    decreases |ops|
  {
    hide Inv;
    hide Step;
    if ops != [] {
      StepKeepsInv(env, w, ops[0]);
      StepsKeepInv(env, Step(env, w, ops[0]), ops[1..]);
    }
  }

  lemma InitialInv(env: Env)
    ensures Inv(env, INITIAL.s) && Fresh(INITIAL.s)
  {
    assert VerticesMirror(EMPTY_DB) && EdgesMirror(EMPTY_DB);
  }

  /** The mirror invariant and evidence integrity, in every state ever committed by any sequence of
      requests and jobs with any call failing: the graph shows the tables column by column and is the one
      rebuilt from them, every edge joins two live entities of its own case, and every evidence row has a blob under its
      content key whose hash is the recorded one. */
  lemma EveryCommittedStateMirrors(env: Env, ops: seq<Op>, k: nat)
    requires k < |Steps(env, INITIAL, ops).s.log|
    ensures var s := Steps(env, INITIAL, ops).s;
            var db := s.log[k];
            && VerticesShowRows(db) && EdgesShowRows(db)
            && db.graph == Graph(RebuiltVertices(db.entities), RebuiltEdges(db.entities, db.rels))
            && (forall e :: e in db.graph.edges ==>
                  && EntityInCase(db, e.src, db.graph.edges[e].caseId)
                  && EntityInCase(db, e.dst, db.graph.edges[e].caseId))
            && EvidenceIntact(env.hash, s.blobs, db.evidence)
            && RunsSane(db)
  {
    InitialInv(env);
    StepsKeepInv(env, INITIAL, ops);
    var s := Steps(env, INITIAL, ops).s;
    var db := s.log[k];
    assert DbOk(env.hash, s.blobs, db, s.next);
    MirrorIsRebuilt(db);
    MirrorByColumn(db);
    hide VerticesShowRows;
    hide EdgesShowRows;
    forall e | e in db.graph.edges
      ensures EntityInCase(db, e.src, db.graph.edges[e].caseId) && EntityInCase(db, e.dst, db.graph.edges[e].caseId)
    {
      NoCrossCaseEdge(db, s.next, e);
    }
  }

  // ---------- What no sequence of operations undoes ----------

  /** Evidence is append-only. Relationship rows are immutable but for their deletion. Entity rows keep
      their case and type. Deleted rows stay deleted. No row disappears. */
  ghost predicate Preserves(db: DB, db': DB) {
    && db.evidence <= db'.evidence
    && (forall j :: j in db.rels ==>
          && j in db'.rels && db'.rels[j] == db.rels[j].(live := db'.rels[j].live)
          && (db'.rels[j].live ==> db.rels[j].live))
    && (forall i :: i in db.entities ==>
          && i in db'.entities && db'.entities[i].caseId == db.entities[i].caseId
          && db'.entities[i].etype == db.entities[i].etype
          && (db'.entities[i].live ==> db.entities[i].live))
    && (forall r :: r in db.runs ==> r in db'.runs && SameOrigin(db.runs[r], db'.runs[r]))
  }

  predicate SameOrigin(row: RunRow, row': RunRow) {
    row'.startedAt == row.startedAt && row'.caseId == row.caseId && row'.input == row.input
  }

  function CountsOf(row: RunRow): Counts {
    Counts(row.entities, row.rels, row.evidence)
  }

  /** A row that reads succeeded did so before, with the same counts. */
  ghost predicate NoNewSuccess(db: DB, db': DB) {
    forall r :: r in db'.runs && db'.runs[r].status == Succeeded ==>
      r in db.runs && db.runs[r].status == Succeeded && CountsOf(db.runs[r]) == CountsOf(db'.runs[r])
  }

  /** What any operation but the close of a run may commit next. */
  ghost predicate Follows(db: DB, db': DB) {
    Preserves(db, db') && NoNewSuccess(db, db')
  }

  /** At most one commit, of `db`. */
  ghost predicate MayCommit(s: Store, s': Store, db: DB) {
    (s'.base == s.base && s'.log == s.log) || (s'.base == db && s'.log == s.log + [db])
  }

  lemma PreservesTransitive(a: DB, b: DB, c: DB)
    requires Preserves(a, b) && Preserves(b, c)
    ensures Preserves(a, c)
  {
  }

  lemma WriteThroughBase(env: Env, s: Store, db: DB, next: Id, io: Io, commit: bool)
    ensures MayCommit(s, WriteThrough(env, s, db, next, io, commit).0, db)
  {
  }

  lemma CommitBase(env: Env, s: Store)
    ensures MayCommit(s, Commit(env, s).0, s.work)
  {
  }

  lemma GrowsPreserves(db: DB, db': DB)
    requires Grows(db, db') && forall r :: r in db.runs ==> r in db'.runs && SameOrigin(db.runs[r], db'.runs[r])
    ensures Preserves(db, db')
  {
  }

  /** Rows grown by a batch, with one audit row rewritten. */
  lemma GrowsFollows(db: DB, db': DB, r: Id, row: RunRow)
    requires Grows(db, db') && db'.runs == db.runs
    requires r in db.runs ==> SameOrigin(db.runs[r], row)
    ensures Follows(db, db') && Preserves(db, PutRun(db', r, row))
    ensures row.status != Succeeded ==> Follows(db, PutRun(db', r, row))
  {
    hide Preserves;
    GrowsPreserves(db, db');
    GrowsSame(db, db', PutRun(db', r, row));
    GrowsPreserves(db, PutRun(db', r, row));
  }

  lemma GrowsSame(db: DB, db': DB, db'': DB)
    requires Grows(db, db') && db'' == db'.(runs := db''.runs)
    ensures Grows(db, db'')
  {
  }

  lemma SelfGrows(db: DB)
    ensures Grows(db, db) && Follows(db, db)
  {
  }

  // ---------- Requests ----------

  lemma PutEntityFollows(db: DB, i: Id, e: Entity)
    requires i in db.entities ==>
               e.caseId == db.entities[i].caseId && e.etype == db.entities[i].etype && (e.live ==> db.entities[i].live)
    ensures Follows(db, PutEntity(db, i, e))
    ensures i in db.entities ==> Follows(db, DropEntity(db, i))
  {
  }

  lemma PutRelFollows(db: DB, j: Id, r: Relationship)
    requires j !in db.rels || r == db.rels[j]
    ensures Follows(db, PutRel(db, j, r))
    ensures j in db.rels ==> Follows(db, DropRel(db, j))
  {
  }

  lemma AddEvidenceFollows(db: DB, ev: Evidence)
    ensures Follows(db, AddEvidence(db, ev))
  {
  }

  lemma FailRunsFollows(db: DB, ids: set<Id>, at: Option<Time>, message: string)
    ensures Follows(db, db.(runs := FailRuns(db.runs, ids, at, message)))
  {
  }

  /** One lawful commit, or none. */
  ghost predicate Lawful(s: Store, s': Store) {
    Follows(s.base, s'.base) && MayCommit(s, s', s'.base)
  }

  lemma CommitIsLawful(s: Store, s': Store, db: DB)
    requires MayCommit(s, s', db) && Follows(s.base, db)
    ensures Lawful(s, s')
  {
    SelfGrows(s.base);
    hide Follows;
  }

  lemma StayIsLawful(s: Store)
    ensures Lawful(s, s)
  {
    SelfGrows(s.base);
    hide Follows;
  }

  lemma EntityWriteLawful(env: Env, s: Store, c: CaseId, d: EntityCreate)
    requires Fresh(s) && s.next !in s.work.entities
    ensures Lawful(s, GetOrCreateEntity(env, s, c, d, true).0)
    ensures Lawful(s, CreateEntity(env, s, c, d, true).0)
  {
    hide WriteThrough;
    hide Follows;
    hide Lawful;
    hide MayCommit;
    var db := s.work;
    StayIsLawful(s);
    PutEntityFollows(db, s.next, EntityRow(c, d));
    EntityPutLawful(env, s, s.next, EntityRow(c, d), s.next + 1);
    var l := ScalarOneOrNone(EntityMatches(db, c, NodeKey(d.etype, d.name)));
    if l.One? {
      assert l.id in EntityMatches(db, c, NodeKey(d.etype, d.name));
      var e := db.entities[l.id].(confidence := d.confidence);
      PutEntityFollows(db, l.id, e);
      EntityPutLawful(env, s, l.id, e, s.next);
    }
  }

  lemma EntityPutLawful(env: Env, s: Store, i: Id, e: Entity, next: Id)
    requires Fresh(s) && Follows(s.work, PutEntity(s.work, i, e))
    ensures Lawful(s, WriteThrough(env, s, PutEntity(s.work, i, e), next, Age, true).0)
  {
    hide WriteThrough;
    hide Follows;
    hide Lawful;
    hide MayCommit;
    var db := PutEntity(s.work, i, e);
    WriteThroughBase(env, s, db, next, Age, true);
    CommitIsLawful(s, WriteThrough(env, s, db, next, Age, true).0, db);
  }

  lemma EntityChangeLawful(env: Env, s: Store, i: Id, c: CaseId, u: EntityUpdate)
    requires Fresh(s)
    ensures Lawful(s, UpdateEntity(env, s, i, c, u).0)
    ensures Lawful(s, SoftDeleteEntity(env, s, i, c).0)
  {
    hide WriteThrough;
    hide Follows;
    hide Lawful;
    hide MayCommit;
    var db := s.work;
    StayIsLawful(s);
    if EntityInCase(db, i, c) {
      PutEntityFollows(db, i, Patched(db.entities[i], u));
      EntityPutLawful(env, s, i, Patched(db.entities[i], u), s.next);
      WriteThroughBase(env, s, DropEntity(db, i), s.next, Age, true);
      CommitIsLawful(s, WriteThrough(env, s, DropEntity(db, i), s.next, Age, true).0, DropEntity(db, i));
      UpdateWrites(env, s, i, c, u);
    }
  }

  lemma UpdateWrites(env: Env, s: Store, i: Id, c: CaseId, u: EntityUpdate)
    requires Fresh(s) && EntityInCase(s.work, i, c)
    ensures var s' := UpdateEntity(env, s, i, c, u).0;
            || Lawful(s, s')
            || s' == WriteThrough(env, s, PutEntity(s.work, i, Patched(s.work.entities[i], u)), s.next, Age, true).0
  {
    StayIsLawful(s);
    hide Follows;
    hide WriteThrough;
  }

  lemma RelWriteLawful(env: Env, s: Store, c: CaseId, d: RelationshipCreate)
    requires Fresh(s) && s.next !in s.work.rels
    ensures Lawful(s, CreateRel(env, s, c, d, true).0)
    ensures Lawful(s, CreateRelIfNotExists(env, s, c, d, true).0)
  {
    hide WriteThrough;
    hide Follows;
    hide Lawful;
    hide MayCommit;
    var db := PutRel(s.work, s.next, RelRow(c, d));
    StayIsLawful(s);
    PutRelFollows(s.work, s.next, RelRow(c, d));
    WriteThroughBase(env, s, db, s.next + 1, Age, true);
    CommitIsLawful(s, WriteThrough(env, s, db, s.next + 1, Age, true).0, db);
  }

  lemma RelDropLawful(env: Env, s: Store, c: CaseId, j: Id)
    requires Fresh(s)
    ensures Lawful(s, SoftDeleteRel(env, s, j, c).0)
  {
    hide WriteThrough;
    hide Follows;
    hide Lawful;
    hide MayCommit;
    StayIsLawful(s);
    if RelInCase(s.work, j, c) {
      PutRelFollows(s.work, j, s.work.rels[j]);
      WriteThroughBase(env, s, DropRel(s.work, j), s.next, Age, true);
      CommitIsLawful(s, WriteThrough(env, s, DropRel(s.work, j), s.next, Age, true).0, DropRel(s.work, j));
    }
  }

  lemma CommitLawful(env: Env, s: Store, s0: Store)
    requires s0.base == s.base && s0.log == s.log && Follows(s.base, s0.work)
    ensures Lawful(s, Commit(env, s0).0)
  {
    hide Follows;
    hide Commit;
    hide Lawful;
    CommitBase(env, s0);
    CommitIsLawful(s, Commit(env, s0).0, s0.work);
  }

  lemma NextIsFree(env: Env, s: Store)
    requires Inv(env, s)
    ensures s.next !in s.work.entities && s.next !in s.work.rels && s.next !in s.work.runs
  {
    hide Consistent;
    InvWork(env, s);
    IdsAreBelow(s.work, s.next);
  }

  lemma EvidenceLawful(env: Env, s: Store, request: Request)
    requires Fresh(s) && request.CreateEvidenceOp?
    ensures Lawful(s, Perform(env, s, request))
  {
    hide Follows;
    hide Lawful;
    hide WriteThrough;
    hide MayCommit;
    var d := request;
    var row := EvidenceRow(env.hash, s.next, d.c, d.ev, d.payload, d.contentType, d.now);
    AddEvidenceFollows(s.work, row);
    WriteThroughBase(env, s, AddEvidence(s.work, row), s.next + 1, Blob(d.c, d.payload), true);
    CommitIsLawful(s, Perform(env, s, d), AddEvidence(s.work, row));
  }

  lemma RunRowsLawful(env: Env, s: Store, request: Request)
    requires Fresh(s) && s.next !in s.work.runs && (request.QueueRunOp? || request.FailRunsOp?)
    ensures Lawful(s, Perform(env, s, request))
  {
    hide Follows;
    hide Lawful;
    hide Commit;
    match request
    case QueueRunOp(a) =>
      SelfGrows(s.work);
      GrowsFollows(s.work, s.work, s.next, QueuedRow(a));
      CommitLawful(env, s, WriteRun(s.(next := s.next + 1), s.next, QueuedRow(a)));
    case FailRunsOp(ids, at, message) =>
      FailRunsFollows(s.work, ids, at, message);
      CommitLawful(env, s, s.(work := s.work.(runs := FailRuns(s.work.runs, ids, at, message))));
  }

  /** A request commits its one change or nothing. */
  lemma RequestLawful(env: Env, s: Store, request: Request)
    requires Inv(env, s) && Fresh(s)
    ensures Lawful(s, Perform(env, s, request))
  {
    hide Inv;
    hide Lawful;
    hide Commit;
    hide CreateEntity;
    hide GetOrCreateEntity;
    hide UpdateEntity;
    hide SoftDeleteEntity;
    hide CreateRel;
    hide CreateRelIfNotExists;
    hide SoftDeleteRel;
    hide CreateEvidence;
    NextIsFree(env, s);
    match request
    case CreateEntityOp(c, d) => EntityWriteLawful(env, s, c, d);
    case GetOrCreateEntityOp(c, d) => EntityWriteLawful(env, s, c, d);
    case UpdateEntityOp(i, c, u) => EntityChangeLawful(env, s, i, c, u);
    case DeleteEntityOp(i, c) => EntityChangeLawful(env, s, i, c, EntityUpdate(Unset, Unset, Unset));
    case CreateRelOp(c, d) => RelWriteLawful(env, s, c, d);
    case CreateRelIfNotExistsOp(c, d) => RelWriteLawful(env, s, c, d);
    case DeleteRelOp(j, c) => RelDropLawful(env, s, c, j);
    case CreateEvidenceOp(_, _, _, _, _) => EvidenceLawful(env, s, request);
    case _ => RunRowsLawful(env, s, request);
  }

  // ---------- Runs ----------

  lemma OpenedLawful(env: Env, s: Store, a: RunArgs)
    requires Inv(env, s) && Fresh(s) && Startable(s, a)
    ensures var (s', ok) := Opened(env, s, a);
            && Lawful(s, s')
            && (ok ==>
                  && !s'.broken && s'.work == s'.base && RunIdOf(s, a) in s'.base.runs
                  && s'.base.runs[RunIdOf(s, a)] == StartRow(s, a))
  {
    hide Inv;
    hide Follows;
    hide Lawful;
    NextIsFree(env, s);
    var r, row := RunIdOf(s, a), StartRow(s, a);
    StayIsLawful(s);
    SelfGrows(s.work);
    GrowsFollows(s.work, s.work, r, row);
    CommitLawful(env, s, WriteRun(s.(next := if a.existing.Some? then s.next else s.next + 1), r, row));
  }

  /** Where the batch leaves the store: committed as a whole, or undone or in part and not committed, or
      on a broken session after a failed commit. */
  lemma AttemptEnds(env: Env, s: Store, a: RunArgs)
    requires Inv(env, s) && Fresh(s)
    ensures var (x, err) := Attempt(env, s, a);
            match err
            case None =>
              && a.query.Returns? && !x.s.broken && x.s.base == x.s.work && x.s.log == s.log + [x.s.base]
              && ApplyAll(CtxOf(env, a), Start(s.work, s.next), ProposalsOf(a)) == Ok(View(x))
              && x.s.work.runs == s.work.runs && Grows(s.work, x.s.work)
              && ListsExact(s.work, View(x))
            case Some(_) =>
              if x.s.broken then
                exists db :: MayCommit(s, x.s, db) && db.runs == s.work.runs && Grows(s.work, db)
              else
                && x.s.base == s.base && x.s.log == s.log
                && x.s.work.runs == s.work.runs && Grows(s.work, x.s.work)
  {
    hide Persist;
    hide Apply;
    hide ApplyAll;
    hide Grows;
    hide ListsExact;
    hide Consistent;
    SelfGrows(s.work);
    InvWork(env, s);
    if a.credentials && a.query.Returns? && Total(a.query.result) <= MAX_PROPOSALS_PER_RUN {
      var c, ps := CtxOf(env, a), ProposalsOf(a);
      PersistEnds(env, c, s, a.query.result);
      var (x, err) := Persist(env, c, s, a.query.result);
      if err.None? || err == Some(CommitFailed) {
        assert ps[..|ps|] == ps;
        PrefixFacts(env, s, a, |ps|);
        if err.Some? {
          assert MayCommit(s, x.s, ApplyAll(c, Start(s.work, s.next), ps).value.db);
        }
      } else if Undone(err.value) {
        assert MayCommit(s, x.s, s.work);
      } else {
        var n: nat :| n < |ps| && ApplyAll(c, Start(s.work, s.next), ps[..n]) == Ok(View(x));
        PrefixFacts(env, s, a, n);
      }
    }
  }

  lemma RunBatchLawful(env: Env, s: Store, a: RunArgs, r: Id)
    requires Inv(env, s) && Fresh(s) && r in s.work.runs
    ensures Lawful(s, RunBatch(env, s, a, r).0)
  {
    hide Inv;
    hide Attempt;
    hide Grows;
    hide Follows;
    hide Handle;
    hide ApplyAll;
    hide ListsExact;
    AttemptEnds(env, s, a);
    SelfGrows(s.work);
    var (x, err) := Attempt(env, s, a);
    if err.None? {
      GrowsFollows(s.work, x.s.work, r, s.work.runs[r]);
    } else {
      var failed := FailureRow(s.work.runs[r], a.finished, err.value);
      HandleEnds(env, x.s, a, r, s.work.runs[r], err.value);
      if x.s.broken {
        var db :| MayCommit(s, x.s, db) && db.runs == s.work.runs && Grows(s.work, db);
        GrowsFollows(s.work, db, r, failed);
      } else {
        GrowsFollows(s.work, x.s.work, r, failed);
      }
    }
  }

  /** Closing a run writes its own row only. */
  ghost predicate Closes(s: Store, s': Store, r: Id, n: Counts) {
    && Preserves(s.base, s'.base) && MayCommit(s, s', s'.base)
    && forall i :: i in s'.base.runs && s'.base.runs[i].status == Succeeded
                   && (i == r ==> CountsOf(s'.base.runs[i]) != n) ==>
         i in s.base.runs && s.base.runs[i].status == Succeeded
         && CountsOf(s.base.runs[i]) == CountsOf(s'.base.runs[i])
  }

  lemma CloseRunCloses(env: Env, s: Store, a: RunArgs, r: Id, n: Counts)
    requires Fresh(s) && r in s.work.runs
    ensures Closes(s, CloseRun(env, s, a, r, n), r, n)
  {
    hide Preserves;
    var done := SuccessRow(s.work.runs[r], a.finished, n.ents, n.rels, n.evs);
    SelfGrows(s.work);
    GrowsFollows(s.work, s.work, r, done);
    assert CountsOf(done) == n;
  }

  /** What one operation may do to the committed state. */
  lemma StepIsLawful(env: Env, w: World, op: Op)
    requires Inv(env, w.s) && Fresh(w.s)
    ensures var s' := Step(env, w, op).s;
            && Preserves(w.s.base, s'.base) && MayCommit(w.s, s', s'.base)
            && (!op.CloseOp? || !CloseDue(w, op.job) ==> Lawful(w.s, s'))
            && (op.CloseOp? && CloseDue(w, op.job) ==>
                  Closes(w.s, s', w.live[op.job].row, w.live[op.job].counts.value))
  {
    hide Inv;
    hide Perform;
    hide Opened;
    hide RunBatch;
    hide CloseRun;
    hide Preserves;
    hide NoNewSuccess;
    StayIsLawful(w.s);
    match op
    case RequestOp(request) => RequestLawful(env, w.s, request);
    case OpenOp(t, a) =>
      if Startable(w.s, a) {
        OpenedLawful(env, w.s, a);
      }
    case BatchOp(t) =>
      if BatchDue(w, t) {
        RunBatchLawful(env, w.s, w.live[t].run, w.live[t].row);
      }
    case CloseOp(t) =>
      if CloseDue(w, t) {
        CloseRunCloses(env, w.s, w.live[t].run, w.live[t].row, w.live[t].counts.value);
      }
    case CrashOp(t) =>
  }

  /** Over any sequence of operations with any failures, from any reachable state, committed evidence
      is never changed or lost, relationships are never changed but by deletion, nothing deleted comes
      back, and no row disappears. */
  lemma {:induction false} StepsPreserve(env: Env, w: World, ops: seq<Op>)
    requires Inv(env, w.s) && Fresh(w.s)
    ensures Preserves(w.s.base, Steps(env, w, ops).s.base)
    decreases |ops|
  {
    hide Inv;
    hide Step;
    hide Preserves;
    hide Lawful;
    hide Closes;
    if ops == [] {
      SelfGrows(w.s.base);
    } else {
      StepKeepsInv(env, w, ops[0]);
      StepIsLawful(env, w, ops[0]);
      var w' := Step(env, w, ops[0]);
      StepsPreserve(env, w', ops[1..]);
      PreservesTransitive(w.s.base, w'.s.base, Steps(env, w', ops[1..]).s.base);
    }
  }

  // ---------- A run left alone ----------

  /** The transactions of one run. */
  function RunOps(t: nat, a: RunArgs): seq<Op> {
    [OpenOp(t, a), BatchOp(t), CloseOp(t)]
  }

  lemma {:induction false} StepsConcat(env: Env, w: World, ops: seq<Op>, more: seq<Op>)
    ensures Steps(env, w, ops + more) == Steps(env, Steps(env, w, ops), more)
    decreases |ops|
  {
    hide Step;
    if ops == [] {
      assert ops + more == more;
    } else {
      assert (ops + more)[0] == ops[0] && (ops + more)[1..] == ops[1..] + more;
      StepsConcat(env, Step(env, w, ops[0]), ops[1..], more);
    }
  }

  lemma ThreeSteps(env: Env, w: World, a: Op, b: Op, c: Op)
    ensures Steps(env, w, [a, b, c]) == Step(env, Step(env, Step(env, w, a), b), c)
  {
    hide Step;
    var w1 := Step(env, w, a);
    assert [a, b, c][1..] == [b, c] && [b, c][1..] == [c] && [c][1..] == [];
    assert Steps(env, Step(env, w1, b), [c]) == Step(env, Step(env, w1, b), c);
  }

  /** With nothing in between, the transactions of a run are `PluginRunner.run`. */
  lemma RunIsItsTransactions(env: Env, w: World, t: nat, a: RunArgs)
    requires Inv(env, w.s) && Fresh(w.s) && Startable(w.s, a) && t !in w.live
    ensures Steps(env, w, RunOps(t, a)) == World(Rollback(Run(env, w.s, a).0), w.live)
  {
    hide Inv;
    hide Opened;
    hide Lawful;
    hide Attempt;
    hide Handle;
    ThreeSteps(env, w, OpenOp(t, a), BatchOp(t), CloseOp(t));
    OpenedLawful(env, w.s, a);
    var (s1, ok) := Opened(env, w.s, a);
    assert w.live - {t} == w.live;
    if ok {
      OpenedKeeps(env, w.s, a);
      BatchAndClose(env, World(s1, w.live), t, a, RunIdOf(w.s, a));
    }
  }

  lemma BatchAndClose(env: Env, w: World, t: nat, a: RunArgs, r: Id)
    requires Inv(env, w.s) && Fresh(w.s) && r in w.s.work.runs && t !in w.live
    ensures var w1 := w.(live := w.live[t := Job(r, a, None)]);
            Step(env, Step(env, w1, BatchOp(t)), CloseOp(t)) ==
            World(Rollback(RunFrom(env, w.s, a, r, w.s.work.runs[r]).0), w.live)
  {
    hide Inv;
    hide Attempt;
    hide Grows;
    hide ApplyAll;
    hide ListsExact;
    AttemptEnds(env, w.s, a);
    var (x, err) := Attempt(env, w.s, a);
    if err.None? {
      var n := Counts(|x.ents|, |x.rels|, |x.evs|);
      assert w.live[t := Job(r, a, None)][t := Job(r, a, Some(n))] - {t} == w.live;
    } else {
      assert w.live[t := Job(r, a, None)] - {t} == w.live;
    }
  }
}
