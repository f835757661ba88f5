/** Where committed rows come from, over any sequence of operations: the payload behind every evidence row,
    and the batch behind every audit row that reads succeeded. */
module Provenance {
  import opened Prelude
  import opened GraphDb
  import opened EvidenceKeys
  import opened Batches
  import opened Sessions
  import opened Repositories
  import opened Runner
  import opened RunnerTheorems
  import opened Reachable

  // ---------- Payloads ----------

  ghost predicate Injective(hash: Hash) {
    forall a, b :: hash(a) == hash(b) ==> a == b
  }

  /** The object behind an evidence row hashes to what the payload hashes to; if the hash has no collisions
      it is the payload. */
  ghost predicate Holds(hash: Hash, blobs: Bucket, ev: Evidence, payload: Bytes) {
    && ev.hash == hash(payload) && ev.size == |payload|
    && ev.uri in blobs && hash(blobs[ev.uri]) == hash(payload)
    && (Injective(hash) ==> blobs[ev.uri] == payload)
  }

  lemma IntactHolds(hash: Hash, blobs: Bucket, ev: Evidence, payload: Bytes)
    requires RowIntact(hash, blobs, ev) && ev.hash == hash(payload) && ev.size == |payload|
    ensures Holds(hash, blobs, ev, payload)
  {
  }

  lemma RowIsIntact(hash: Hash, blobs: Bucket, rows: seq<Evidence>, n: nat)
    requires EvidenceIntact(hash, blobs, rows) && n < |rows|
    ensures RowIntact(hash, blobs, rows[n])
  {
  }

  lemma PreservesEvidence(db: DB, db': DB, n: nat)
    requires Preserves(db, db') && n < |db.evidence|
    ensures n < |db'.evidence| && db'.evidence[n] == db.evidence[n]
  {
  }

  /** A committed evidence row keeps its place, its content and its object, whatever happens afterwards and
      whatever fails. */
  lemma EvidenceSurvives(env: Env, w: World, later: seq<Op>, n: nat, payload: Bytes)
    requires Inv(env, w.s) && Fresh(w.s) && n < |w.s.base.evidence|
    requires w.s.base.evidence[n].hash == env.hash(payload) && w.s.base.evidence[n].size == |payload|
    ensures var s' := Steps(env, w, later).s;
            && n < |s'.base.evidence| && s'.base.evidence[n] == w.s.base.evidence[n]
            && Holds(env.hash, s'.blobs, s'.base.evidence[n], payload)
  {
    hide Inv;
    hide EvidenceIntact;
    hide Preserves;
    hide Steps;
    StepsKeepInv(env, w, later);
    StepsPreserve(env, w, later);
    var s' := Steps(env, w, later).s;
    PreservesEvidence(w.s.base, s'.base, n);
    InvEvidence(env, s');
    RowIsIntact(env.hash, s'.blobs, s'.base.evidence, n);
    IntactHolds(env.hash, s'.blobs, s'.base.evidence[n], payload);
  }

  /** Chain of custody, for a direct recording: once the call has answered, its row keeps its place and its
      content, and its object is the payload. */
  lemma PayloadSurvives(env: Env, w: World, request: Request, later: seq<Op>)
    requires Inv(env, w.s) && Fresh(w.s) && request.CreateEvidenceOp?
    requires CreateEvidence(env, w.s, request.c, request.ev, request.payload, request.contentType, request.now, true)
             .1.Ok?
    ensures var s' := Steps(env, Step(env, w, RequestOp(request)), later).s;
            var n := |w.s.base.evidence|;
            && n < |s'.base.evidence|
            && var row := s'.base.evidence[n];
               && row.caseId == request.c && row.query == request.ev.query && row.source == request.ev.source
               && row.timestamp == request.now && row.entity == request.ev.entity && row.spec == request.ev.spec
               && row.uri == "case/" + request.c + "/ev/" + env.hash(request.payload)
               && row.contentType == MimeType(request.contentType)
               && Holds(env.hash, s'.blobs, row, request.payload)
  {
    hide Inv;
    hide WriteThrough;
    hide Steps;
    hide Holds;
    var s, d := w.s, request;
    var row := EvidenceRow(env.hash, s.next, d.c, d.ev, d.payload, d.contentType, d.now);
    WriteIsAtomic(env, s, AddEvidence(s.work, row), s.next + 1, Blob(d.c, d.payload));
    StepKeepsInv(env, w, RequestOp(d));
    assert Step(env, w, RequestOp(d)).s.base.evidence[|s.base.evidence|] == row;
    EvidenceSurvives(env, Step(env, w, RequestOp(d)), later, |s.base.evidence|, d.payload);
  }

  /** What an evidence proposal of a run asks to be recorded. */
  predicate RecordedAs(hash: Hash, a: RunArgs, p: EvidenceProposal, row: Evidence) {
    && row.caseId == a.caseId && row.source == a.plugin && row.query == p.query && row.spec == p.spec
    && row.entity == (if p.linkToInput then Some(a.input) else None)
    && row.uri == "case/" + a.caseId + "/ev/" + hash(p.payload) && row.contentType == MimeType(p.contentType)
  }

  /** Without a content type, or with an empty one, it is an octet stream. */
  function MimeType(t: Option<string>): string {
    if t == None || t.value == "" then "application/octet-stream" else t.value
  }

  /** Chain of custody, for the evidence of plugin runs: once the batch is committed, one row per proposal
      keeps its place and its content, and its object is the payload, whatever happens afterwards: the rest
      of the run may fail, or its process may end. */
  lemma RunPayloadSurvives(env: Env, w: World, t: nat, later: seq<Op>, n: nat)
    requires Inv(env, w.s) && Fresh(w.s) && BatchDue(w, t)
    requires RunBatch(env, w.s, w.live[t].run, w.live[t].row).1.Some?
    requires w.live[t].run.query.Returns? && n < |w.live[t].run.query.result.evidence|
    ensures var s' := Steps(env, Step(env, w, BatchOp(t)), later).s;
            var a := w.live[t].run;
            var p, at := a.query.result.evidence[n], |w.s.base.evidence| + n;
            && at < |s'.base.evidence|
            && RecordedAs(env.hash, a, p, s'.base.evidence[at])
            && Holds(env.hash, s'.blobs, s'.base.evidence[at], p.payload)
  {
    hide Inv;
    hide Steps;
    hide Holds;
    hide RecordedAs;
    var a := w.live[t].run;
    var w1 := Step(env, w, BatchOp(t));
    StepKeepsInv(env, w, BatchOp(t));
    BatchRecords(env, w, t, n);
    EvidenceSurvives(env, w1, later, |w.s.base.evidence| + n, a.query.result.evidence[n].payload);
  }

  /** The rows of a batch that was committed. */
  lemma BatchRecords(env: Env, w: World, t: nat, n: nat)
    requires Inv(env, w.s) && Fresh(w.s) && BatchDue(w, t)
    requires RunBatch(env, w.s, w.live[t].run, w.live[t].row).1.Some?
    requires w.live[t].run.query.Returns? && n < |w.live[t].run.query.result.evidence|
    ensures var a := w.live[t].run;
            var rows, at := Step(env, w, BatchOp(t)).s.base.evidence, |w.s.base.evidence| + n;
            var p := a.query.result.evidence[n];
            && at < |rows| && RecordedAs(env.hash, a, p, rows[at])
            && rows[at].hash == env.hash(p.payload) && rows[at].size == |p.payload|
  {
    hide Inv;
    hide Attempt;
    hide ApplyAll;
    hide Grows;
    hide ListsExact;
    hide Handle;
    var a := w.live[t].run;
    AttemptEnds(env, w.s, a);
    var (x, err) := Attempt(env, w.s, a);
    assert err.None? && ApplyAll(CtxOf(env, a), Start(w.s.work, w.s.next), Proposals(a.query.result)) == Ok(View(x));
    var from := EvidenceAppended(CtxOf(env, a), Start(w.s.work, w.s.next), a.query.result);
    assert Step(env, w, BatchOp(t)).s.base == x.s.base;
    assert x.s.base.evidence[|w.s.base.evidence| + n] ==
           NewEvidence(CtxOf(env, a), from + n, a.query.result.evidence[n]);
  }

  /** So for a run whose transactions follow each other directly and that is done. */
  lemma DonePayloadSurvives(env: Env, w: World, t: nat, a: RunArgs, later: seq<Op>, n: nat)
    requires Inv(env, w.s) && Fresh(w.s) && Startable(w.s, a) && t !in w.live && Run(env, w.s, a).1.Done?
    requires a.query.Returns? && n < |a.query.result.evidence|
    ensures var s' := Steps(env, w, RunOps(t, a) + later).s;
            var p, at := a.query.result.evidence[n], |w.s.base.evidence| + n;
            && at < |s'.base.evidence|
            && RecordedAs(env.hash, a, p, s'.base.evidence[at])
            && Holds(env.hash, s'.blobs, s'.base.evidence[at], p.payload)
  {
    hide Inv;
    hide Opened;
    hide Lawful;
    hide Attempt;
    hide Handle;
    hide Holds;
    hide RecordedAs;
    var w1 := Step(env, w, OpenOp(t, a));
    OpenedLawful(env, w.s, a);
    StepKeepsInv(env, w, OpenOp(t, a));
    OpenedEvidence(env, w.s, a);
    assert RunOps(t, a) + later == [OpenOp(t, a)] + ([BatchOp(t)] + ([CloseOp(t)] + later));
    hide Run;
    StepsCons(env, w, OpenOp(t, a), [BatchOp(t)] + ([CloseOp(t)] + later));
    StepsCons(env, w1, BatchOp(t), [CloseOp(t)] + later);
    RunPayloadSurvives(env, w1, t, [CloseOp(t)] + later, n);
  }

  lemma StepsCons(env: Env, w: World, op: Op, ops: seq<Op>)
    ensures Steps(env, w, [op] + ops) == Steps(env, Step(env, w, op), ops)
  {
    hide Step;
    assert ([op] + ops)[1..] == ops;
  }

  lemma OpenedEvidence(env: Env, s: Store, a: RunArgs)
    requires Fresh(s) && Startable(s, a)
    ensures Opened(env, s, a).0.base.evidence == s.base.evidence
  {
  }

  // ---------- The batch behind a succeeded row ----------

  /** The `j`-th committed state is the one before it with the whole batch of `a` applied, `n` counting the
      rows it inserted. */
  ghost predicate BatchAt(env: Env, log: seq<DB>, j: nat, a: RunArgs, next: Id, n: Counts) {
    && 0 < j < |log| && a.query.Returns?
    && var all := ApplyAll(CtxOf(env, a), Start(log[j - 1], next), Proposals(a.query.result));
       && all.Ok? && log[j] == all.value.db && ListsExact(log[j - 1], all.value)
       && n == Counts(|all.value.ents|, |all.value.rels|, |all.value.evs|)
  }

  /** The audit row of the run was there. */
  predicate RunsAs(db: DB, r: Id, a: RunArgs) {
    r in db.runs && db.runs[r].caseId == a.caseId && db.runs[r].input == a.input
  }

  /** A run of row `r` committed its whole batch before state `k`, with these counts. */
  ghost predicate BatchBefore(env: Env, log: seq<DB>, k: nat, r: Id, n: Counts) {
    exists j: nat, a: RunArgs, next: Id ::
      j < k && j < |log| && BatchAt(env, log, j, a, next, n) && RunsAs(log[j], r, a)
  }

  ghost predicate RowsTraced(env: Env, log: seq<DB>, k: nat)
    requires k < |log|
  {
    forall r :: r in log[k].runs && log[k].runs[r].status == Succeeded ==>
                  BatchBefore(env, log, k, r, CountsOf(log[k].runs[r]))
  }

  ghost predicate JobsTraced(env: Env, w: World) {
    forall t :: t in w.live ==>
      && RunsAs(w.s.base, w.live[t].row, w.live[t].run)
      && (w.live[t].counts.Some? ==> BatchBefore(env, w.s.log, |w.s.log|, w.live[t].row, w.live[t].counts.value))
  }

  /** The committed state is the last of the log, each state there follows the one before it, and every
      succeeded row and every job with a committed batch has its batch in the log. */
  ghost predicate Traced(env: Env, w: World) {
    && LogEnds(w.s) && Ascending(w.s.log)
    && (forall k :: 0 <= k < |w.s.log| ==> RowsTraced(env, w.s.log, k))
    && JobsTraced(env, w)
  }

  ghost predicate LogEnds(s: Store) {
    s.log != [] && s.base == s.log[|s.log| - 1]
  }

  ghost predicate Ascending(log: seq<DB>) {
    forall k :: 0 < k < |log| ==> Preserves(log[k - 1], log[k])
  }

  lemma BatchStays(env: Env, log: seq<DB>, more: seq<DB>, k: nat, k': nat, r: Id, n: Counts)
    requires BatchBefore(env, log, k, r, n) && k <= k'
    ensures BatchBefore(env, log + more, k', r, n)
  {
    hide ApplyAll;
    hide ListsExact;
    hide Proposals;
    var j: nat, a: RunArgs, next: Id :|
      j < k && j < |log| && BatchAt(env, log, j, a, next, n) && RunsAs(log[j], r, a);
    assert BatchAt(env, log + more, j, a, next, n);
  }

  /** What was traced stays so when a state is added. */
  lemma RowsStayTraced(env: Env, log: seq<DB>, db: DB, k: nat)
    requires k < |log| && RowsTraced(env, log, k)
    ensures RowsTraced(env, log + [db], k)
  {
    hide BatchBefore;
    forall r | r in log[k].runs && log[k].runs[r].status == Succeeded
      ensures BatchBefore(env, log + [db], k, r, CountsOf(log[k].runs[r]))
    {
      BatchStays(env, log, [db], k, k, r, CountsOf(log[k].runs[r]));
    }
  }

  lemma AscendingMore(log: seq<DB>, db: DB)
    requires log != [] && Ascending(log) && Preserves(log[|log| - 1], db)
    ensures Ascending(log + [db])
  {
    hide Preserves;
  }

  /** A state that says nothing new, but for row `r` if its batch is in the log. */
  lemma NewRowsTraced(env: Env, log: seq<DB>, db: DB, own: Option<Id>)
    requires log != [] && RowsTraced(env, log, |log| - 1)
    requires forall r :: r in db.runs && db.runs[r].status == Succeeded && own != Some(r) ==>
               r in log[|log| - 1].runs && log[|log| - 1].runs[r].status == Succeeded
               && CountsOf(log[|log| - 1].runs[r]) == CountsOf(db.runs[r])
    requires own.Some? && own.value in db.runs && db.runs[own.value].status == Succeeded ==>
               BatchBefore(env, log, |log|, own.value, CountsOf(db.runs[own.value]))
    ensures RowsTraced(env, log + [db], |log|)
  {
    hide BatchBefore;
    forall r | r in db.runs && db.runs[r].status == Succeeded
      ensures BatchBefore(env, log + [db], |log|, r, CountsOf(db.runs[r]))
    {
      if own == Some(r) {
        BatchStays(env, log, [db], |log|, |log|, r, CountsOf(db.runs[r]));
      } else {
        BatchStays(env, log, [db], |log| - 1, |log|, r, CountsOf(db.runs[r]));
      }
    }
  }

  /** The log side of one operation. */
  lemma LogStaysTraced(env: Env, w: World, op: Op)
    requires Inv(env, w.s) && Fresh(w.s) && Traced(env, w)
    ensures var s' := Step(env, w, op).s;
            LogEnds(s') && Ascending(s'.log) && forall k :: 0 <= k < |s'.log| ==> RowsTraced(env, s'.log, k)
  {
    hide Step;
    hide Inv;
    hide Preserves;
    hide BatchBefore;
    hide RowsTraced;
    hide Ascending;
    StepIsLawful(env, w, op);
    var log, s' := w.s.log, Step(env, w, op).s;
    if s'.log != log {
      var db := s'.base;
      forall k | 0 <= k < |log| ensures RowsTraced(env, log + [db], k) {
        RowsStayTraced(env, log, db, k);
      }
      AscendingMore(log, db);
      if op.CloseOp? && CloseDue(w, op.job) {
        CloseIsTraced(env, w, op.job, db);
      } else {
        NewRowsTraced(env, log, db, None);
      }
    }
  }

  lemma CloseIsTraced(env: Env, w: World, t: nat, db: DB)
    requires Fresh(w.s) && Traced(env, w) && CloseDue(w, t)
    requires Closes(w.s, w.s.(base := db, log := w.s.log + [db]), w.live[t].row, w.live[t].counts.value)
    ensures RowsTraced(env, w.s.log + [db], |w.s.log|)
  {
    hide Preserves;
    hide BatchBefore;
    hide RowsTraced;
    hide Ascending;
    var r, n := w.live[t].row, w.live[t].counts.value;
    var own := if r in db.runs && CountsOf(db.runs[r]) == n then Some(r) else None;
    NewRowsTraced(env, w.s.log, db, own);
  }

  lemma JobStays(env: Env, w: World, s': Store, t: nat)
    requires JobsTraced(env, w) && t in w.live && Preserves(w.s.base, s'.base) && MayCommit(w.s, s', s'.base)
    ensures RunsAs(s'.base, w.live[t].row, w.live[t].run)
    ensures w.live[t].counts.Some? ==>
              BatchBefore(env, s'.log, |s'.log|, w.live[t].row, w.live[t].counts.value)
  {
    hide BatchBefore;
    if w.live[t].counts.Some? && s'.log != w.s.log {
      BatchStays(env, w.s.log, [s'.base], |w.s.log|, |s'.log|, w.live[t].row, w.live[t].counts.value);
    }
  }

  /** The runs in progress. */
  lemma JobsStayTraced(env: Env, w: World, op: Op)
    requires Inv(env, w.s) && Fresh(w.s) && Traced(env, w)
    ensures JobsTraced(env, Step(env, w, op))
  {
    hide Inv;
    hide Reachable.Perform;
    hide Opened;
    hide RunBatch;
    hide CloseRun;
    hide Preserves;
    hide BatchBefore;
    hide RowsTraced;
    hide Lawful;
    hide Closes;
    StepIsLawful(env, w, op);
    var w' := Step(env, w, op);
    forall t | t in w.live
      ensures RunsAs(w'.s.base, w.live[t].row, w.live[t].run)
      ensures w.live[t].counts.Some? ==>
                BatchBefore(env, w'.s.log, |w'.s.log|, w.live[t].row, w.live[t].counts.value)
    {
      JobStays(env, w, w'.s, t);
    }
    if op.OpenOp? && Startable(w.s, op.run) {
      OpenedLawful(env, w.s, op.run);
    }
    if op.BatchOp? && BatchDue(w, op.job) {
      BatchIsTraced(env, w, op.job);
    }
  }

  lemma BatchIsTraced(env: Env, w: World, t: nat)
    requires Inv(env, w.s) && Fresh(w.s) && LogEnds(w.s) && BatchDue(w, t)
    requires RunsAs(w.s.base, w.live[t].row, w.live[t].run)
    ensures var (s', n) := RunBatch(env, w.s, w.live[t].run, w.live[t].row);
            n.Some? ==> BatchBefore(env, s'.log, |s'.log|, w.live[t].row, n.value)
  {
    hide Inv;
    hide Attempt;
    hide ApplyAll;
    hide Grows;
    hide ListsExact;
    hide Handle;
    var a := w.live[t].run;
    AttemptEnds(env, w.s, a);
    var (x, err) := Attempt(env, w.s, a);
    if err.None? {
      var n := Counts(|x.ents|, |x.rels|, |x.evs|);
      assert BatchAt(env, x.s.log, |w.s.log|, a, w.s.next, n);
      assert RunsAs(x.s.log[|w.s.log|], w.live[t].row, a);
    }
  }

  lemma {:induction false} StepsTraced(env: Env, w: World, ops: seq<Op>)
    requires Inv(env, w.s) && Fresh(w.s) && Traced(env, w)
    ensures Traced(env, Steps(env, w, ops))
    decreases |ops|
  {
    hide Step;
    hide Inv;
    hide JobsTraced;
    hide RowsTraced;
    hide Ascending;
    hide LogEnds;
    if ops != [] {
      StepKeepsInv(env, w, ops[0]);
      LogStaysTraced(env, w, ops[0]);
      JobsStayTraced(env, w, ops[0]);
      StepsTraced(env, Step(env, w, ops[0]), ops[1..]);
    }
  }

  lemma {:induction false} AscendingIsPreserved(log: seq<DB>, j: nat, k: nat)
    requires Ascending(log) && j <= k < |log|
    ensures Preserves(log[j], log[k])
    decreases k - j
  {
    hide Preserves;
    if j == k {
      SelfGrows(log[j]);
    } else {
      AscendingIsPreserved(log, j + 1, k);
      PreservesTransitive(log[j], log[j + 1], log[k]);
    }
  }

  /** Write ordering over everything the system may do: when an audit row reads succeeded in a committed
      state, an earlier one is the result of the whole batch of a run of that row, the counts of the row
      are those of the rows this batch inserted, and nothing of it was undone in between but by deletion. */
  lemma SucceededRowsAreWhole(env: Env, ops: seq<Op>, k: nat, r: Id) returns (j: nat, a: RunArgs, next: Id)
    requires var log := Steps(env, INITIAL, ops).s.log;
             k < |log| && r in log[k].runs && log[k].runs[r].status == Succeeded
    ensures var log := Steps(env, INITIAL, ops).s.log;
            && 0 < j < k && BatchAt(env, log, j, a, next, CountsOf(log[k].runs[r]))
            && RunsAs(log[j], r, a) && Preserves(log[j], log[k])
  {
    hide Preserves;
    hide ApplyAll;
    hide ListsExact;
    hide Steps;
    InitialInv(env);
    StepsTraced(env, INITIAL, ops);
    var log := Steps(env, INITIAL, ops).s.log;
    assert RowsTraced(env, log, k);
    j, a, next :|
      j < k && j < |log| && BatchAt(env, log, j, a, next, CountsOf(log[k].runs[r])) && RunsAs(log[j], r, a);
    AscendingIsPreserved(log, j, k);
  }
}
