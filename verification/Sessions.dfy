/** The database session and the object store: a working and a committed copy of the database,
    every state that was ever committed, and calls that may fail. */
module Sessions {
  import opened Prelude
  import opened GraphDb
  import opened EvidenceKeys
  import opened Batches

  /** The environment decides the fate of the n-th fallible call, and fixes the hash. A flush or a Cypher
      call that fails has no effect. */
  datatype Env = Env(fault: nat -> Fault, hash: Hash)

  /** `log` is every database state committed so far, so every state a crash can leave.
      `broken`: a failed flush or commit makes the session unusable until it is rolled back. */
  datatype Store = Store(work: DB, base: DB, log: seq<DB>, blobs: Bucket, broken: bool, tick: nat, next: Id)

  // ---------- The calls ----------

  function Rollback(s: Store): Store {
    s.(work := s.base, broken := false)
  }

  function Flush(env: Env, s: Store): (Store, bool) {
    if s.broken then (s.(work := s.base), false)
    else if env.fault(s.tick) != NoFault then (s.(work := s.base, broken := true, tick := s.tick + 1), false)
    else (s.(tick := s.tick + 1), true)
  }

  function Committed(s: Store): Store {
    s.(base := s.work, log := s.log + [s.work])
  }

  function Commit(env: Env, s: Store): (Store, bool) {
    if s.broken then (s.(work := s.base), false)
    else
      match env.fault(s.tick)
      case NoFault => (Committed(s).(tick := s.tick + 1), true)
      case FaultBefore => (s.(work := s.base, broken := true, tick := s.tick + 1), false)
      case FaultAfter => (Committed(s).(broken := true, tick := s.tick + 1), false)
  }

  /** The call that follows a flush: a Cypher statement, or the upload of a payload. */
  datatype Io = Age | Blob(caseId: CaseId, data: Bytes)

  function IoError(io: Io): RunError {
    if io.Age? then AgeFailed else BlobFailed
  }

  function Perform(env: Env, s: Store, io: Io): (Store, bool) {
    var s' := s.(tick := s.tick + 1);
    match io
    case Age => (s', env.fault(s.tick) == NoFault)
    case Blob(c, data) =>
      var stored := s'.(blobs := PutBlob(s.blobs, BuildKey(c, env.hash(data)), data));
      match env.fault(s.tick)
      case NoFault => (stored, true)
      case FaultBefore => (s', false)
      case FaultAfter => (stored, false)
  }

  /** Every repository write: flush the row, mirror it, commit if asked, and roll everything back
      when the mirror or the commit raises. A failed flush is not rolled back here. */
  function WriteThrough(env: Env, s: Store, db: DB, next: Id, io: Io, commit: bool): (Store, Option<RunError>) {
    var (s1, flushed) := Flush(env, s.(work := db, next := next));
    if !flushed then (s1, Some(FlushFailed))
    else
      var (s2, mirrored) := Perform(env, s1, io);
      if !mirrored then (Rollback(s2), Some(IoError(io)))
      else if !commit then (s2, None)
      else
        var (s3, committed) := Commit(env, s2);
        if committed then (s3, None) else (Rollback(s3), Some(CommitFailed))
  }

  // ---------- The invariant ----------

  /** A row that is not finished has no counts, no finish time and no error. */
  ghost predicate RunsSane(db: DB) {
    forall r :: r in db.runs && (db.runs[r].status == Queued || db.runs[r].status == Running) ==>
                  && db.runs[r].finishedAt == None && db.runs[r].error == None
                  && db.runs[r].entities == db.runs[r].rels == db.runs[r].evidence == 0
  }

  ghost predicate DbOk(hash: Hash, blobs: Bucket, db: DB, next: Id) {
    Consistent(db, next) && EvidenceIntact(hash, blobs, db.evidence) && RunsSane(db)
  }

  ghost predicate Inv(env: Env, s: Store) {
    && DbOk(env.hash, s.blobs, s.work, s.next)
    && DbOk(env.hash, s.blobs, s.base, s.next)
    && (forall n :: 0 <= n < |s.log| ==> DbOk(env.hash, s.blobs, s.log[n], s.next))
    && KeysHonest(env.hash, s.blobs)
    && (s.broken ==> s.work == s.base)
  }

  /** What a write may put into the evidence table: rows already backed by a blob, and rows whose
      blob the same write uploads. */
  ghost predicate Backed(env: Env, blobs: Bucket, rows: seq<Evidence>, io: Io) {
    forall n :: 0 <= n < |rows| ==>
                  || RowIntact(env.hash, blobs, rows[n])
                  || (io.Blob? && rows[n].caseId == io.caseId && rows[n].hash == env.hash(io.data)
                      && rows[n].uri == BuildKey(rows[n].caseId, rows[n].hash))
  }

  lemma DbOkMonotone(hash: Hash, blobs: Bucket, blobs': Bucket, db: DB, next: Id, next': Id)
    requires DbOk(hash, blobs, db, next) && next <= next'
    requires forall rows: seq<Evidence> :: EvidenceIntact(hash, blobs, rows) ==> EvidenceIntact(hash, blobs', rows)
    ensures DbOk(hash, blobs', db, next')
  {
  }

  lemma InvLater(env: Env, s: Store, next: Id)
    requires Inv(env, s) && s.next <= next
    ensures Inv(env, s.(next := next))
  {
    DbOkMonotone(env.hash, s.blobs, s.blobs, s.work, s.next, next);
    DbOkMonotone(env.hash, s.blobs, s.blobs, s.base, s.next, next);
    forall n | 0 <= n < |s.log| ensures DbOk(env.hash, s.blobs, s.log[n], next) {
      DbOkMonotone(env.hash, s.blobs, s.blobs, s.log[n], s.next, next);
    }
  }

  lemma InvWork(env: Env, s: Store)
    requires Inv(env, s)
    ensures Consistent(s.work, s.next) && RunsSane(s.work) && EvidenceIntact(env.hash, s.blobs, s.work.evidence)
  {
  }

  lemma CommitKeeps(env: Env, s: Store)
    requires Inv(env, s)
    ensures Inv(env, Commit(env, s).0)
  {
    hide DbOk;
    hide KeysHonest;
  }

  lemma PerformKeeps(env: Env, s: Store, io: Io, db: DB)
    requires Inv(env, s) && Consistent(db, s.next) && RunsSane(db) && Backed(env, s.blobs, db.evidence, io)
    ensures Inv(env, Perform(env, s, io).0)
    ensures Perform(env, s, io).1 ==> DbOk(env.hash, Perform(env, s, io).0.blobs, db, s.next)
  {
    var s' := Perform(env, s, io).0;
    if io.Blob? {
      PutKeepsHonest(env.hash, s.blobs, io.caseId, io.data);
      if s'.blobs != s.blobs {
        BlobsKeep(env, s, s');
      }
    }
    if Perform(env, s, io).1 {
      forall n | 0 <= n < |db.evidence| ensures RowIntact(env.hash, s'.blobs, db.evidence[n]) {
        if RowIntact(env.hash, s.blobs, db.evidence[n]) {
          assert EvidenceIntact(env.hash, s.blobs, [db.evidence[n]]);
          assert EvidenceIntact(env.hash, s'.blobs, [db.evidence[n]]);
          assert RowIntact(env.hash, s'.blobs, [db.evidence[n]][0]);
        }
      }
    }
  }

  lemma BlobsKeep(env: Env, s: Store, s': Store)
    requires Inv(env, s) && s' == s.(tick := s'.tick, blobs := s'.blobs) && KeysHonest(env.hash, s'.blobs)
    requires forall rows: seq<Evidence> ::
               EvidenceIntact(env.hash, s.blobs, rows) ==> EvidenceIntact(env.hash, s'.blobs, rows)
    ensures Inv(env, s')
  {
    DbOkMonotone(env.hash, s.blobs, s'.blobs, s.work, s.next, s.next);
    DbOkMonotone(env.hash, s.blobs, s'.blobs, s.base, s.next, s.next);
    forall n | 0 <= n < |s.log| ensures DbOk(env.hash, s'.blobs, s.log[n], s.next) {
      DbOkMonotone(env.hash, s.blobs, s'.blobs, s.log[n], s.next, s.next);
    }
  }

  lemma RollbackKeeps(env: Env, s: Store, tick: nat)
    requires Inv(env, s)
    ensures Inv(env, Rollback(s).(tick := tick)) && Inv(env, Rollback(s).(broken := true, tick := tick))
  {
    hide DbOk;
    hide KeysHonest;
  }

  lemma PendingKeeps(env: Env, s: Store, db: DB)
    requires Inv(env, s) && !s.broken && DbOk(env.hash, s.blobs, db, s.next)
    ensures Inv(env, s.(work := db))
  {
    hide DbOk;
    hide KeysHonest;
  }

  /** A repository write keeps the invariant at every commit it makes, whatever fails. */
  lemma WriteThroughKeeps(env: Env, s: Store, db: DB, next: Id, io: Io, commit: bool)
    requires Inv(env, s) && s.next <= next && Consistent(db, next) && RunsSane(db)
    requires Backed(env, s.blobs, db.evidence, io)
    ensures Inv(env, WriteThrough(env, s, db, next, io, commit).0)
  {
    hide Inv;
    hide DbOk;
    hide Consistent;
    hide RunsSane;
    hide Backed;
    hide Perform;
    // The row changes of `db` are not visible to anyone until the call after the flush succeeds, so
    // the invariant is followed on the store without them and `db` is put back at the end.
    InvLater(env, s, next);
    var (s1, flushed) := Flush(env, s.(work := db, next := next));
    RollbackKeeps(env, s.(next := next), s1.tick);
    if flushed {
      var t1 := Rollback(s).(next := next, tick := s1.tick);
      PerformKeeps(env, t1, io, db);
      var (s2, mirrored) := Perform(env, s1, io);
      PerformSame(env, s1, t1, io);
      var t2 := Perform(env, t1, io).0;
      RollbackKeeps(env, t2, t2.tick);
      if mirrored {
        PendingKeeps(env, t2, db);
        CommitKeeps(env, s2);
        RollbackKeeps(env, Commit(env, s2).0, Commit(env, s2).0.tick);
      }
    }
  }

  /** An upload or a Cypher call does not look at the working database. */
  lemma PerformSame(env: Env, s: Store, t: Store, io: Io)
    requires s == t.(work := s.work) && !t.broken && t.work == t.base
    ensures var (s', ok) := Perform(env, s, io);
            var (t', ok') := Perform(env, t, io);
            && ok' == ok && s' == t'.(work := s.work) && t'.work == t'.base && !t'.broken
            && t'.next == t.next
  {
  }

  // ---------- The session as an object ----------

  class Session {
    const env: Env
    var work: DB
    var base: DB
    ghost var log: seq<DB>
    var blobs: Bucket
    var broken: bool
    var tick: nat
    var next: Id

    ghost function State(): Store
      reads this
    {
      Store(work, base, log, blobs, broken, tick, next)
    }

    constructor (env: Env)
      ensures this.env == env
      ensures State() == Store(EMPTY_DB, EMPTY_DB, [EMPTY_DB], map[], false, 0, 0)
    {
      this.env := env;
      work, base, blobs := EMPTY_DB, EMPTY_DB, map[];
      log := [EMPTY_DB];
      broken, tick, next := false, 0, 0;
    }

    method RollBack()
      modifies this
      ensures State() == Rollback(old(State()))
      ensures work == base == old(base) && !broken && log == old(log) && blobs == old(blobs)
    {
      work := base;
      broken := false;
    }

    /** Send the pending rows; a failure undoes the transaction and leaves the session broken. */
    method FlushRows() returns (ok: bool)
      modifies this
      ensures (State(), ok) == Flush(env, old(State()))
      ensures ok <==> !old(broken) && env.fault(old(tick)) == NoFault
      ensures work == (if ok then old(work) else old(base)) && broken == !ok && base == old(base) && log == old(log)
    {
      if broken {
        work := base;
        return false;
      }
      ok := env.fault(tick) == NoFault;
      tick := tick + 1;
      if !ok {
        work := base;
        broken := true;
      }
    }

    method CommitWork() returns (ok: bool)
      modifies this
      ensures (State(), ok) == Commit(env, old(State()))
      ensures ok <==> !old(broken) && env.fault(old(tick)) == NoFault
      ensures var took := !old(broken) && env.fault(old(tick)) != FaultBefore;
              && base == (if took then old(work) else old(base))
              && log == (if took then old(log) + [old(work)] else old(log))
      ensures work == base && broken == !ok
    {
      if broken {
        work := base;
        return false;
      }
      var fate := env.fault(tick);
      tick := tick + 1;
      if fate == FaultBefore {
        work := base;
      } else {
        base := work;
        log := log + [work];
      }
      ok := fate == NoFault;
      broken := !ok;
    }

    /** Run one Cypher statement, given as the graph it produces from the current one. */
    method RunCypher(graph: Graph) returns (ok: bool)
      modifies this
      ensures ok == (env.fault(old(tick)) == NoFault)
      ensures State() == old(State()).(tick := old(tick) + 1,
                                       work := if ok then old(work).(graph := graph) else old(work))
    {
      ok := env.fault(tick) == NoFault;
      tick := tick + 1;
      if ok {
        work := work.(graph := graph);
      }
    }

    /** `EvidenceStorage.put`: nothing is sent when an object of the same size is there. */
    method PutObject(caseId: CaseId, data: Bytes) returns (ok: bool)
      modifies this
      ensures (State(), ok) == Perform(env, old(State()), Blob(caseId, data))
      ensures ok <==> env.fault(old(tick)) == NoFault
      ensures var key := "case/" + caseId + "/ev/" + env.hash(data);
              blobs == if env.fault(old(tick)) == FaultBefore || (key in old(blobs) && |old(blobs)[key]| == |data|)
                       then old(blobs) else old(blobs)[key := data]
    {
      var key := BuildKey(caseId, env.hash(data));
      var fate := env.fault(tick);
      tick := tick + 1;
      if fate != FaultBefore {
        if !(key in blobs && |blobs[key]| == |data|) {
          blobs := blobs[key := data];
        }
      }
      ok := fate == NoFault;
    }
  }
}
