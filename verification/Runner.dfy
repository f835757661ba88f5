/** PluginRunner: one batch under faults, the audit row around it, and every way a run can end. */
module Runner {
  import opened Prelude
  import opened GraphDb
  import opened EvidenceKeys
  import opened Batches
  import opened Lookups
  import opened Sessions

  const MAX_PROPOSALS_PER_RUN := 2000

  // ---------- The batch under faults ----------

  /** The batch in progress over a store. */
  datatype Exec = Exec(s: Store, refs: map<string, Id>, ents: seq<Id>, rels: seq<Id>, evs: seq<Id>)

  function View(x: Exec): Batch {
    Batch(x.s.work, x.s.next, x.refs, x.ents, x.rels, x.evs)
  }

  function Back(s: Store, b: Batch): Exec {
    Exec(s, b.refs, b.ents, b.rels, b.evs)
  }

  /** A dedup hit writes nothing, unless it raises a confidence. */
  ghost predicate NeedsWrite(c: Ctx, b: Batch, p: Proposal) {
    match p
    case PE(ep) =>
      (match ScalarOneOrNone(EntityMatches(b.db, c.caseId, ProposalKey(ep)))
       case NoRow => true
       case Many => false
       case One(i) =>
         assert i in EntityMatches(b.db, c.caseId, ProposalKey(ep));
         ep.confidence > b.db.entities[i].confidence)
    case PR(rp) =>
      var src, dst := ResolveRef(c, b.refs, rp.src).GetOr(0), ResolveRef(c, b.refs, rp.dst).GetOr(0);
      RelMatches(b.db, c.caseId, LinkKey(src, dst, rp.rtype)) == {}
    case PV(_) => true
  }

  function IoOf(c: Ctx, p: Proposal): Io {
    if p.PV? then Blob(c.caseId, p.v.payload) else Age
  }

  ghost function PersistOne(env: Env, c: Ctx, x: Exec, p: Proposal): (Exec, Option<RunError>) {
    match Apply(c, View(x), p)
    case Err(e) => (x, Some(e))
    case Ok(b) =>
      if !NeedsWrite(c, View(x), p) then (Back(x.s, b), None)
      else
        var (s, err) := WriteThrough(env, x.s, b.db, b.next, IoOf(c, p), false);
        if err.Some? then (x.(s := s), err) else (Back(s, b), None)
  }

  ghost function PersistAll(env: Env, c: Ctx, x: Exec, ps: seq<Proposal>): (Exec, Option<RunError>)
    decreases |ps|
  {
    if ps == [] then (x, None)
    else
      var (x', err) := PersistOne(env, c, x, ps[0]);
      if err.Some? then (x', err) else PersistAll(env, c, x', ps[1..])
  }

  /** How many proposals were persisted before the first error. */
  ghost function Processed(env: Env, c: Ctx, x: Exec, ps: seq<Proposal>): (n: nat)
    ensures n <= |ps|
    decreases |ps|
  {
    if ps == [] then 0
    else
      var (x', err) := PersistOne(env, c, x, ps[0]);
      if err.Some? then 0 else 1 + Processed(env, c, x', ps[1..])
  }

  function Begin(s: Store): Exec {
    Exec(s, map[], [], [], [])
  }

  /** `_persist`: every proposal, then the one commit. */
  ghost function Persist(env: Env, c: Ctx, s: Store, q: QueryResult): (Exec, Option<RunError>) {
    var (x, err) := PersistAll(env, c, Begin(s), Proposals(q));
    if err.Some? then (x, err)
    else
      var (s', ok) := Commit(env, x.s);
      (x.(s := s'), if ok then None else Some(CommitFailed))
  }

  /** The errors raised after the transaction was undone. */
  predicate Undone(e: RunError) {
    e == FlushFailed || e == AgeFailed || e == BlobFailed
  }

  // ---------- What a batch under faults amounts to ----------

  lemma WriteThroughShape(env: Env, s: Store, db: DB, next: Id, io: Io)
    requires !s.broken
    ensures var (s', err) := WriteThrough(env, s, db, next, io, false);
            && s'.base == s.base && s'.log == s.log && s'.next == next
            && (err.None? ==> !s'.broken && s'.work == db)
            && (err.Some? ==> Undone(err.value) && s'.work == s'.base && (s'.broken <==> err.value == FlushFailed))
  {
  }

  lemma ApplyNotUndone(c: Ctx, b: Batch, p: Proposal)
    requires Apply(c, b, p).Err?
    ensures !Undone(Apply(c, b, p).error)
  {
  }

  lemma PersistOneShape(env: Env, c: Ctx, x: Exec, p: Proposal)
    requires !x.s.broken && c.hash == env.hash
    ensures var (x', err) := PersistOne(env, c, x, p);
            && x'.s.base == x.s.base && x'.s.log == x.s.log
            && (err.None? ==> !x'.s.broken && Apply(c, View(x), p) == Ok(View(x')))
            && (err.Some? && Undone(err.value) ==>
                  x'.s.work == x'.s.base && (x'.s.broken <==> err.value == FlushFailed))
            && (err.Some? && !Undone(err.value) ==> x' == x && Apply(c, View(x), p) == Err(err.value))
  {
    IdleKeepsStore(c, View(x), p);
    hide WriteThrough;
    hide NeedsWrite;
    if Apply(c, View(x), p).Err? {
      ApplyNotUndone(c, View(x), p);
    } else {
      var b := Apply(c, View(x), p).value;
      hide Apply;
      WriteThroughShape(env, x.s, b.db, b.next, IoOf(c, p));
      var (s, err) := WriteThrough(env, x.s, b.db, b.next, IoOf(c, p), false);
      if !NeedsWrite(c, View(x), p) {
        assert PersistOne(env, c, x, p) == (Back(x.s, b), None);
        assert View(Back(x.s, b)) == b;
      } else if err.None? {
        assert PersistOne(env, c, x, p) == (Back(s, b), None);
        assert View(Back(s, b)) == b;
      }
    }
  }

  /** The faulty batch against the faultless fold: with no error it is the whole fold; undone errors
      leave the committed state; any other error leaves exactly the fold of the proposals processed. */
  lemma {:induction false} PersistAllShape(env: Env, c: Ctx, x: Exec, ps: seq<Proposal>)
    requires !x.s.broken && c.hash == env.hash
    ensures var (x', err) := PersistAll(env, c, x, ps);
            var n := Processed(env, c, x, ps);
            && x'.s.base == x.s.base && x'.s.log == x.s.log
            && (err.None? ==> n == |ps| && !x'.s.broken && ApplyAll(c, View(x), ps) == Ok(View(x')))
            && (err.Some? ==> n < |ps|)
            && (err.Some? && Undone(err.value) ==>
                  x'.s.work == x'.s.base && (x'.s.broken <==> err.value == FlushFailed))
            && (err.Some? && !Undone(err.value) ==>
                  && !x'.s.broken && ApplyAll(c, View(x), ps[..n]) == Ok(View(x'))
                  && Apply(c, View(x'), ps[n]) == Err(err.value))
    decreases |ps|
  {
    hide Apply;
    hide PersistOne;
    if ps != [] {
      PersistOneShape(env, c, x, ps[0]);
      var (x1, err) := PersistOne(env, c, x, ps[0]);
      if err.None? {
        PersistAllShape(env, c, x1, ps[1..]);
        var n := Processed(env, c, x1, ps[1..]);
        assert ps[..n + 1][1..] == ps[1..][..n];
      } else {
        assert ps[..0] == [];
      }
    }
  }

  lemma PersistOneKeeps(env: Env, c: Ctx, x: Exec, p: Proposal)
    requires Inv(env, x.s) && c.hash == env.hash
    ensures Inv(env, PersistOne(env, c, x, p).0.s)
  {
    hide WriteThrough;
    hide Apply;
    hide Consistent;
    if Apply(c, View(x), p).Ok? && NeedsWrite(c, View(x), p) {
      var b := Apply(c, View(x), p).value;
      ApplyKeeps(c, View(x), p);
      ApplyBacked(env, c, x, p);
      WriteThroughKeeps(env, x.s, b.db, b.next, IoOf(c, p), false);
    }
    IdleKeepsStore(c, View(x), p);
  }

  lemma IdleKeepsStore(c: Ctx, b: Batch, p: Proposal)
    ensures Apply(c, b, p).Ok? && !NeedsWrite(c, b, p) ==>
              Apply(c, b, p).value.db == b.db && Apply(c, b, p).value.next == b.next
  {
    match p
    case PE(ep) =>
      match ScalarOneOrNone(EntityMatches(b.db, c.caseId, ProposalKey(ep))) {
        case One(i) => assert i in EntityMatches(b.db, c.caseId, ProposalKey(ep));
        case _ =>
      }
    case PR(rp) =>
    case PV(vp) =>
  }

  lemma ApplyBacked(env: Env, c: Ctx, x: Exec, p: Proposal)
    requires EvidenceIntact(env.hash, x.s.blobs, x.s.work.evidence) && c.hash == env.hash
    requires Apply(c, View(x), p).Ok?
    ensures Backed(env, x.s.blobs, Apply(c, View(x), p).value.db.evidence, IoOf(c, p))
  {
    match p
    case PE(ep) =>
      match ScalarOneOrNone(EntityMatches(x.s.work, c.caseId, ProposalKey(ep))) {
        case One(i) => assert i in EntityMatches(x.s.work, c.caseId, ProposalKey(ep));
        case _ =>
      }
    case PR(rp) =>
    case PV(vp) =>
  }

  lemma {:induction false} PersistAllKeeps(env: Env, c: Ctx, x: Exec, ps: seq<Proposal>)
    requires Inv(env, x.s) && c.hash == env.hash
    ensures Inv(env, PersistAll(env, c, x, ps).0.s)
    decreases |ps|
  {
    hide Inv;
    hide PersistOne;
    if ps != [] {
      PersistOneKeeps(env, c, x, ps[0]);
      var (x', err) := PersistOne(env, c, x, ps[0]);
      if err.None? {
        PersistAllKeeps(env, c, x', ps[1..]);
      }
    }
  }

  lemma PersistKeeps(env: Env, c: Ctx, s: Store, q: QueryResult)
    requires Inv(env, s) && c.hash == env.hash
    ensures Inv(env, Persist(env, c, s, q).0.s)
  {
    hide Inv;
    hide Commit;
    PersistAllKeeps(env, c, Begin(s), Proposals(q));
    CommitKeeps(env, PersistAll(env, c, Begin(s), Proposals(q)).0.s);
  }

  // ---------- One run ----------

  /** What the plugin's `query` does: raise, with the taxonomy label of its exception, or return. */
  datatype Query = Raises(kind: string) | Returns(result: QueryResult)

  /** `accepted`: the input type and licence checks pass. `credentials`: they could be resolved.
      `existing`: the audit row of an async run. */
  datatype RunArgs = RunArgs(caseId: CaseId, input: Id, plugin: string, accepted: bool, existing: Option<Id>,
                             credentials: bool, query: Query, started: Time, finished: Time)

  datatype RunOutcome =
    | Refused
    | NotStarted
    | Done(run: Id, ents: seq<Id>, rels: seq<Id>, evs: seq<Id>)
    | Raised(run: Id, error: RunError)

  /** `_classify_error`: the first matching entry of the taxonomy. */
  function Classify(e: RunError): string {
    match e
    case QueryRaised(kind) => kind
    case ValidationFailed => "validation_error"
    case EndpointNotInCase => "validation_error"
    case CredentialsMissing => "credentials_missing"
    case TooManyProposals => "plugin_internal"
    case UnknownRef => "plugin_internal"
    case BadEndpoint => "plugin_internal"
    case _ => "unknown"
  }

  function NewRunRow(a: RunArgs): RunRow {
    RunRow(a.caseId, a.input, a.plugin, a.started, None, Running, None, 0, 0, 0)
  }

  function SuccessRow(row: RunRow, now: Time, ents: nat, rels: nat, evs: nat): RunRow {
    row.(status := Succeeded, finishedAt := Some(now), entities := ents, rels := rels, evidence := evs)
  }

  function FailureRow(row: RunRow, now: Time, e: RunError): RunRow {
    row.(status := Failed, finishedAt := Some(now), error := Some(Classify(e)))
  }

  function CtxOf(env: Env, a: RunArgs): Ctx {
    Ctx(a.caseId, a.input, a.plugin, a.started, env.hash)
  }

  function Total(q: QueryResult): nat {
    |q.entities| + |q.relationships| + |q.evidence|
  }

  function WriteRun(s: Store, r: Id, row: RunRow): Store {
    s.(work := PutRun(s.work, r, row))
  }

  /** The credential lookup and `_execute_plugin` up to the commit of its batch. */
  ghost function Attempt(env: Env, s: Store, a: RunArgs): (Exec, Option<RunError>) {
    if !a.credentials then (Begin(s), Some(CredentialsMissing))
    else if a.query.Raises? then (Begin(s), Some(QueryRaised(a.query.kind)))
    else if Total(a.query.result) > MAX_PROPOSALS_PER_RUN then (Begin(s), Some(TooManyProposals))
    else Persist(env, CtxOf(env, a), s, a.query.result)
  }

  /** The same with the success row and its commit. */
  ghost function Execute(env: Env, s: Store, a: RunArgs, r: Id, row: RunRow): (Exec, Option<RunError>) {
    var (x, err) := Attempt(env, s, a);
    if err.Some? then (x, err)
    else
      var (s', ok) := Commit(env, WriteRun(x.s, r, SuccessRow(row, a.finished, |x.ents|, |x.rels|, |x.evs|)));
      (x.(s := s'), if ok then None else Some(CommitFailed))
  }

  /** The error handler: record the failure and commit whatever is pending; its own failure is swallowed. */
  function Handle(env: Env, s: Store, a: RunArgs, r: Id, row: RunRow, e: RunError): Store {
    Commit(env, WriteRun(s, r, FailureRow(row, a.finished, e))).0
  }

  ghost function RunFrom(env: Env, s: Store, a: RunArgs, r: Id, row: RunRow): (Store, RunOutcome) {
    var (x, err) := Execute(env, s, a, r, row);
    if err.None? then (x.s, Done(r, x.ents, x.rels, x.evs))
    else (Handle(env, x.s, a, r, row, err.value), Raised(r, err.value))
  }

  /** The row a run starts from: a fresh one, or the dispatcher's flipped to running. */
  function StartRow(s: Store, a: RunArgs): RunRow
    requires a.existing.Some? ==> a.existing.value in s.work.runs
  {
    if a.existing.Some? then s.work.runs[a.existing.value].(status := Running) else NewRunRow(a)
  }

  function RunIdOf(s: Store, a: RunArgs): Id {
    if a.existing.Some? then a.existing.value else s.next
  }

  /** The audit row is there as running: nothing to do, or one commit. */
  function Opened(env: Env, s: Store, a: RunArgs): (Store, bool)
    requires a.existing.Some? ==> a.existing.value in s.work.runs
  {
    if a.existing.Some? && s.work.runs[a.existing.value].status == Running then (s, true)
    else
      Commit(env, WriteRun(s.(next := if a.existing.Some? then s.next else s.next + 1), RunIdOf(s, a), StartRow(s, a)))
  }

  /** `PluginRunner.run` */
  ghost function Run(env: Env, s: Store, a: RunArgs): (Store, RunOutcome)
    requires a.existing.Some? ==> a.existing.value in s.work.runs
  {
    if !a.accepted then (s, Refused)
    else
      var (s1, ok) := Opened(env, s, a);
      if !ok then (s1, NotStarted) else RunFrom(env, s1, a, RunIdOf(s, a), StartRow(s, a))
  }

  // ---------- A run keeps the invariant ----------

  lemma WriteRunKeeps(env: Env, s: Store, r: Id, row: RunRow)
    requires Inv(env, s) && r < s.next && !s.broken
    requires row.status == Running || row.status == Queued ==>
               row.finishedAt == None && row.error == None && row.entities == row.rels == row.evidence == 0
    ensures Inv(env, WriteRun(s, r, row))
  {
    hide Inv;
    hide Consistent;
    InvWork(env, s);
    IdsAreBelow(s.work, s.next);
    RunsKeep(env, s, s.work.runs[r := row]);
  }

  /** Only the run table of the working database changes. */
  lemma RunsKeep(env: Env, s: Store, runs: map<Id, RunRow>)
    requires Inv(env, s) && !s.broken && RunsSane(s.work.(runs := runs)) && forall r :: r in runs ==> r < s.next
    ensures Inv(env, s.(work := s.work.(runs := runs)))
  {
    hide Consistent;
    InvWork(env, s);
    IdsAreBelow(s.work, s.next);
    var db := s.work.(runs := runs);
    MirrorFrame(s.work, s.next, db, s.next);
    assert DbOk(env.hash, s.blobs, db, s.next);
    hide DbOk;
    hide RunsSane;
  }

  /** On a broken session the write is discarded by the commit, which refuses. */
  lemma HandleKeeps(env: Env, s: Store, a: RunArgs, r: Id, row: RunRow, e: RunError)
    requires Inv(env, s) && r < s.next
    ensures Inv(env, Handle(env, s, a, r, row, e))
  {
    if !s.broken {
      WriteRunKeeps(env, s, r, FailureRow(row, a.finished, e));
      CommitKeeps(env, WriteRun(s, r, FailureRow(row, a.finished, e)));
    }
  }

  lemma {:induction false} PersistAllNext(env: Env, c: Ctx, x: Exec, ps: seq<Proposal>)
    requires Inv(env, x.s) && c.hash == env.hash
    ensures x.s.next <= PersistAll(env, c, x, ps).0.s.next
    decreases |ps|
  {
    hide Inv;
    if ps != [] {
      PersistOneKeeps(env, c, x, ps[0]);
      PersistOneNext(env, c, x, ps[0]);
      var (x', err) := PersistOne(env, c, x, ps[0]);
      if err.None? {
        PersistAllNext(env, c, x', ps[1..]);
      }
    }
  }

  lemma WriteThroughNext(env: Env, s: Store, db: DB, next: Id, io: Io)
    ensures WriteThrough(env, s, db, next, io, false).0.next == next
  {
  }

  lemma PersistOneNext(env: Env, c: Ctx, x: Exec, p: Proposal)
    requires Inv(env, x.s)
    ensures x.s.next <= PersistOne(env, c, x, p).0.s.next
  {
    hide WriteThrough;
    hide NeedsWrite;
    hide Apply;
    if Apply(c, View(x), p).Ok? {
      ApplyKeeps(c, View(x), p);
      hide Inv;
      hide Consistent;
      var b := Apply(c, View(x), p).value;
      WriteThroughNext(env, x.s, b.db, b.next, IoOf(c, p));
    }
  }

  lemma AttemptKeeps(env: Env, s: Store, a: RunArgs, r: Id)
    requires Inv(env, s) && r < s.next && !s.broken
    ensures var (x, err) := Attempt(env, s, a); Inv(env, x.s) && r < x.s.next && (err.None? ==> !x.s.broken)
  {
    hide Inv;
    hide PersistAll;
    var c := CtxOf(env, a);
    if a.credentials && a.query.Returns? && Total(a.query.result) <= MAX_PROPOSALS_PER_RUN {
      PersistKeeps(env, c, s, a.query.result);
      PersistAllNext(env, c, Begin(s), Proposals(a.query.result));
      PersistAllShape(env, c, Begin(s), Proposals(a.query.result));
    }
  }

  lemma ExecuteKeeps(env: Env, s: Store, a: RunArgs, r: Id, row: RunRow)
    requires Inv(env, s) && r < s.next && !s.broken
    ensures var x := Execute(env, s, a, r, row).0; Inv(env, x.s) && r < x.s.next
  {
    hide Inv;
    hide Attempt;
    AttemptKeeps(env, s, a, r);
    var (x, err) := Attempt(env, s, a);
    if err.None? {
      var row' := SuccessRow(row, a.finished, |x.ents|, |x.rels|, |x.evs|);
      WriteRunKeeps(env, x.s, r, row');
      CommitKeeps(env, WriteRun(x.s, r, row'));
    }
  }

  lemma RunFromKeeps(env: Env, s: Store, a: RunArgs, r: Id, row: RunRow)
    requires Inv(env, s) && r < s.next && !s.broken
    ensures Inv(env, RunFrom(env, s, a, r, row).0)
  {
    hide Inv;
    hide Handle;
    hide Execute;
    ExecuteKeeps(env, s, a, r, row);
    var (x, err) := Execute(env, s, a, r, row);
    if err.Some? {
      HandleKeeps(env, x.s, a, r, row, err.value);
    }
  }

  predicate Fresh(s: Store) {
    !s.broken && s.work == s.base
  }

  /** The row may be run: it is new, or it is a queued or running row of the session. */
  predicate Runnable(s: Store, a: RunArgs) {
    a.existing.Some? ==> a.existing.value in s.work.runs
                         && (s.work.runs[a.existing.value].status == Running
                             || s.work.runs[a.existing.value].status == Queued)
  }

  /** An unfinished row is written and committed, with room for its id. */
  lemma OpenRowKeeps(env: Env, s: Store, next: Id, r: Id, row: RunRow)
    requires Inv(env, s) && !s.broken && s.next <= next && r < next
    requires row.finishedAt == None && row.error == None && row.entities == row.rels == row.evidence == 0
    ensures Inv(env, Commit(env, WriteRun(s.(next := next), r, row)).0)
  {
    hide Inv;
    hide Commit;
    InvLater(env, s, next);
    WriteRunKeeps(env, s.(next := next), r, row);
    CommitKeeps(env, WriteRun(s.(next := next), r, row));
  }

  lemma StartRowIsOpen(env: Env, s: Store, a: RunArgs)
    requires Inv(env, s) && Fresh(s) && Runnable(s, a)
    ensures a.existing.Some? ==> a.existing.value < s.next
    ensures var row := StartRow(s, a);
            row.finishedAt == None && row.error == None && row.entities == row.rels == row.evidence == 0
  {
    hide Inv;
    hide Consistent;
    InvWork(env, s);
    IdsAreBelow(s.work, s.next);
  }

  lemma RunKeeps(env: Env, s: Store, a: RunArgs)
    requires Inv(env, s) && Fresh(s) && Runnable(s, a)
    ensures Inv(env, Run(env, s, a).0)
  {
    hide RunFrom;
    hide Commit;
    hide Inv;
    StartRowIsOpen(env, s, a);
    var row := StartRow(s, a);
    if a.accepted {
      if a.existing.Some? && s.work.runs[a.existing.value].status == Running {
        RunFromKeeps(env, s, a, a.existing.value, row);
      } else {
        var r := if a.existing.Some? then a.existing.value else s.next;
        var s0 := s.(next := if a.existing.Some? then s.next else s.next + 1);
        OpenRowKeeps(env, s, s0.next, r, row);
        var (s1, ok) := Commit(env, WriteRun(s0, r, row));
        if ok {
          CommitSucceeds(env, WriteRun(s0, r, row));
          RunFromKeeps(env, s1, a, r, row);
        }
      }
    }
  }

  lemma CommitSucceeds(env: Env, s: Store)
    requires Commit(env, s).1
    ensures Commit(env, s).0 == s.(base := s.work, log := s.log + [s.work], tick := s.tick + 1) && !s.broken
  {
  }
}
