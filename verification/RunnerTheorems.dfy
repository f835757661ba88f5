/** How a run can end, what every state it commits looks like, and what its counts mean. */
module RunnerTheorems {
  import opened Prelude
  import opened GraphDb
  import opened EvidenceKeys
  import opened Batches
  import opened Lookups
  import opened Sessions
  import opened Runner
  import OneShot
  import BatchTheorems

  function ProposalsOf(a: RunArgs): seq<Proposal> {
    if a.query.Returns? then Proposals(a.query.result) else []
  }

  /** The faultless fold over the first `n` proposals of the run. */
  ghost function Prefix(env: Env, s: Store, a: RunArgs, n: nat): Result<Batch, RunError>
    requires n <= |ProposalsOf(a)|
  {
    ApplyAll(CtxOf(env, a), Start(s.work, s.next), ProposalsOf(a)[..n])
  }

  // ---------- Ways to end ----------

  /** The errors raised while proposals were being processed, with no rollback. */
  predicate KeepsPrefix(e: RunError) {
    e == ValidationFailed || e == MultipleRows || e == UnknownRef || e == BadEndpoint || e == EndpointNotInCase
  }

  /** The errors raised before the first proposal. */
  predicate BeforeBatch(e: RunError) {
    e == CredentialsMissing || e.QueryRaised? || e == TooManyProposals
  }

  /** The handler's commit took effect: the session was usable, and this last fallible call of the run
      did not fail before doing its work. */
  predicate Recorded(env: Env, s': Store, e: RunError) {
    e != FlushFailed && e != CommitFailed && s'.tick > 0 && env.fault(s'.tick - 1) != FaultBefore
  }

  /** A failed run over `db` commits it with the failure row, or nothing. */
  predicate FailureOver(env: Env, s': Store, s: Store, db: DB, a: RunArgs, r: Id, row: RunRow, e: RunError) {
    if Recorded(env, s', e) then
      var failed := PutRun(db, r, FailureRow(row, a.finished, e));
      s'.base == failed && s'.log == s.log + [failed]
    else s'.base == s.base && s'.log == s.log
  }

  /** How a run from `s` ends in `s'`: with the outcome, what is committed by then. */
  ghost predicate EndsAs(env: Env, s: Store, a: RunArgs, r: Id, row: RunRow, s': Store, o: RunOutcome) {
    var ps := ProposalsOf(a);
    match o
    case Refused => false
    case NotStarted => false
    case Done(r', ents, rels, evs) =>
      && Prefix(env, s, a, |ps|).Ok?
      && var b := Prefix(env, s, a, |ps|).value;
         && r' == r && ents == b.ents && rels == b.rels && evs == b.evs
         && s'.base == PutRun(b.db, r, SuccessRow(row, a.finished, |b.ents|, |b.rels|, |b.evs|))
    case Raised(r', e) =>
      && r' == r
      && (BeforeBatch(e) || Undone(e) || KeepsPrefix(e) || e == CommitFailed)
      && (BeforeBatch(e) || Undone(e) ==> FailureOver(env, s', s, s.base, a, r, row, e))
      && (KeepsPrefix(e) ==>
            exists n: nat ::
              && n < |ps| && Prefix(env, s, a, n).Ok?
              && Apply(CtxOf(env, a), Prefix(env, s, a, n).value, ps[n]) == Err(e)
              && FailureOver(env, s', s, Prefix(env, s, a, n).value.db, a, r, row, e))
      && (e == CommitFailed ==>
            && Prefix(env, s, a, |ps|).Ok?
            && var b := Prefix(env, s, a, |ps|).value;
               s'.base == s.base || s'.base == b.db
               || s'.base == PutRun(b.db, r, SuccessRow(row, a.finished, |b.ents|, |b.rels|, |b.evs|)))
  }

  lemma PersistEnds(env: Env, c: Ctx, s: Store, q: QueryResult)
    requires !s.broken && c.hash == env.hash
    ensures var (x, err) := Persist(env, c, s, q);
            var ps := Proposals(q);
            var all := ApplyAll(c, Start(s.work, s.next), ps);
            match err
            case None =>
              && !x.s.broken && all == Ok(View(x)) && x.s.base == x.s.work && x.s.log == s.log + [x.s.base]
            case Some(e) =>
              && (Undone(e) ==>
                    x.s.work == x.s.base == s.base && x.s.log == s.log && (x.s.broken <==> e == FlushFailed))
              && (e == CommitFailed ==>
                    && x.s.broken && all.Ok?
                    && ((x.s.base == s.base && x.s.log == s.log)
                        || (x.s.base == all.value.db && x.s.log == s.log + [all.value.db])))
              && (!Undone(e) && e != CommitFailed ==>
                    && KeepsPrefix(e) && !x.s.broken && x.s.base == s.base && x.s.log == s.log
                    && exists n: nat ::
                         && n < |ps| && ApplyAll(c, Start(s.work, s.next), ps[..n]) == Ok(View(x))
                         && Apply(c, View(x), ps[n]) == Err(e))
  {
    hide PersistAll;
    hide ApplyAll;
    var ps := Proposals(q);
    PersistAllShape(env, c, Begin(s), ps);
    assert View(Begin(s)) == Start(s.work, s.next);
    var (x0, err) := PersistAll(env, c, Begin(s), ps);
    if err.Some? && !Undone(err.value) {
      var n := Processed(env, c, Begin(s), ps);
      ApplyErrors(c, View(x0), ps[n]);
    }
  }

  lemma ApplyErrors(c: Ctx, b: Batch, p: Proposal)
    requires Apply(c, b, p).Err?
    ensures KeepsPrefix(Apply(c, b, p).error)
  {
  }

  /** The handler over a session: on a broken one nothing is written. */
  lemma HandleEnds(env: Env, s: Store, a: RunArgs, r: Id, row: RunRow, e: RunError)
    ensures var s' := Handle(env, s, a, r, row, e);
            var failed := PutRun(s.work, r, FailureRow(row, a.finished, e));
            && (!s.broken ==> s'.tick == s.tick + 1)
            && if s.broken || env.fault(s.tick) == FaultBefore then s'.base == s.base && s'.log == s.log
               else s'.base == failed && s'.log == s.log + [failed]
  {
  }

  /** Every state one run commits: a whole number of proposals with the failure row, or the whole
      batch with the row still as it started, or the whole batch with the success row. */
  ghost predicate Checkpoint(env: Env, s: Store, a: RunArgs, r: Id, row: RunRow, db: DB) {
    exists n: nat :: n <= |ProposalsOf(a)| && CheckpointAt(env, s, a, r, row, db, n)
  }

  ghost predicate CheckpointAt(env: Env, s: Store, a: RunArgs, r: Id, row: RunRow, db: DB, n: nat)
    requires n <= |ProposalsOf(a)|
  {
    && Prefix(env, s, a, n).Ok?
    && var b := Prefix(env, s, a, n).value;
       || (exists e :: db == PutRun(b.db, r, FailureRow(row, a.finished, e)))
       || (n == |ProposalsOf(a)| && db == b.db)
       || (n == |ProposalsOf(a)| && db == PutRun(b.db, r, SuccessRow(row, a.finished, |b.ents|, |b.rels|, |b.evs|)))
  }

  ghost predicate LogGrows(env: Env, s: Store, a: RunArgs, r: Id, row: RunRow, log': seq<DB>) {
    s.log <= log' && forall k :: |s.log| <= k < |log'| ==> Checkpoint(env, s, a, r, row, log'[k])
  }

  lemma NoProposals(env: Env, s: Store, a: RunArgs)
    ensures Prefix(env, s, a, 0) == Ok(Start(s.work, s.next))
  {
    assert ProposalsOf(a)[..0] == [];
  }

  /** Where `_execute_plugin` leaves the session, before the handler. */
  ghost predicate ExecutedAs(env: Env, s: Store, a: RunArgs, r: Id, row: RunRow, x: Exec, err: Option<RunError>) {
    var ps := ProposalsOf(a);
    match err
    case None => EndsAs(env, s, a, r, row, x.s, Done(r, x.ents, x.rels, x.evs))
    case Some(e) =>
      && (x.s.broken <==> e == FlushFailed || e == CommitFailed)
      && (BeforeBatch(e) || Undone(e) ==> x.s.work == s.base && x.s.base == s.base && x.s.log == s.log)
      && (e == CommitFailed ==> EndsAs(env, s, a, r, row, x.s, Raised(r, e)))
      && (!BeforeBatch(e) && !Undone(e) && e != CommitFailed ==>
            && KeepsPrefix(e) && x.s.base == s.base && x.s.log == s.log
            && exists n: nat ::
                 && n < |ps| && Prefix(env, s, a, n) == Ok(View(x))
                 && Apply(CtxOf(env, a), View(x), ps[n]) == Err(e))
  }

  lemma ExecuteEnds(env: Env, s: Store, a: RunArgs, r: Id, row: RunRow)
    requires Fresh(s)
    ensures var (x, err) := Execute(env, s, a, r, row);
            LogGrows(env, s, a, r, row, x.s.log) && ExecutedAs(env, s, a, r, row, x, err)
  {
    hide Persist;
    hide ApplyAll;
    hide Apply;
    hide LogGrows;
    if a.credentials && a.query.Returns? && Total(a.query.result) <= MAX_PROPOSALS_PER_RUN {
      var ps := ProposalsOf(a);
      assert ps[..|ps|] == ps;
      PersistEnds(env, CtxOf(env, a), s, a.query.result);
      var (x, err) := Persist(env, CtxOf(env, a), s, a.query.result);
      if err.None? {
        ExecuteDone(env, s, a, r, row, x);
      } else {
        ExecuteRaised(env, s, a, r, row, x, err.value);
      }
    } else {
      LogStays(env, s, a, r, row);
    }
  }

  lemma LogStays(env: Env, s: Store, a: RunArgs, r: Id, row: RunRow)
    ensures LogGrows(env, s, a, r, row, s.log)
  {
  }

  /** The batch is committed and the success row is written and committed, or that commit fails. */
  lemma ExecuteDone(env: Env, s: Store, a: RunArgs, r: Id, row: RunRow, x: Exec)
    requires Prefix(env, s, a, |ProposalsOf(a)|) == Ok(View(x))
    requires !x.s.broken && x.s.base == x.s.work && x.s.log == s.log + [x.s.base]
    ensures var done := SuccessRow(row, a.finished, |x.ents|, |x.rels|, |x.evs|);
            var (s', ok) := Commit(env, WriteRun(x.s, r, done));
            && LogGrows(env, s, a, r, row, s'.log)
            && (ok ==> EndsAs(env, s, a, r, row, s', Done(r, x.ents, x.rels, x.evs)))
            && (!ok ==> s'.broken && EndsAs(env, s, a, r, row, s', Raised(r, CommitFailed)))
  {
    hide LogGrows;
    hide EndsAs;
    hide Prefix;
    hide Commit;
    hide Proposals;
    ExecuteDoneLog(env, s, a, r, row, x);
    ExecuteDoneEnds(env, s, a, r, row, x);
  }

  lemma ExecuteDoneEnds(env: Env, s: Store, a: RunArgs, r: Id, row: RunRow, x: Exec)
    requires Prefix(env, s, a, |ProposalsOf(a)|) == Ok(View(x)) && !x.s.broken && x.s.base == x.s.work
    ensures var done := SuccessRow(row, a.finished, |x.ents|, |x.rels|, |x.evs|);
            var (s', ok) := Commit(env, WriteRun(x.s, r, done));
            && (ok ==> EndsAs(env, s, a, r, row, s', Done(r, x.ents, x.rels, x.evs)))
            && (!ok ==> s'.broken && EndsAs(env, s, a, r, row, s', Raised(r, CommitFailed)))
  {
    hide Prefix;
    hide Apply;
    hide Proposals;
  }

  lemma ExecuteDoneLog(env: Env, s: Store, a: RunArgs, r: Id, row: RunRow, x: Exec)
    requires Prefix(env, s, a, |ProposalsOf(a)|) == Ok(View(x)) && !x.s.broken && x.s.base == x.s.work
    requires x.s.log == s.log + [x.s.base]
    ensures var done := SuccessRow(row, a.finished, |x.ents|, |x.rels|, |x.evs|);
            LogGrows(env, s, a, r, row, Commit(env, WriteRun(x.s, r, done)).0.log)
  {
    hide Prefix;
    hide Proposals;
    hide CheckpointAt;
    CheckpointsAtEnd(env, s, a, r, row, x);
    var n := |ProposalsOf(a)|;
    assert Checkpoint(env, s, a, r, row, x.s.base);
    assert Checkpoint(env, s, a, r, row, PutRun(x.s.work, r, SuccessRow(row, a.finished, |x.ents|, |x.rels|, |x.evs|)));
  }

  lemma CheckpointsAtEnd(env: Env, s: Store, a: RunArgs, r: Id, row: RunRow, x: Exec)
    requires Prefix(env, s, a, |ProposalsOf(a)|) == Ok(View(x))
    ensures var n := |ProposalsOf(a)|;
            var done := PutRun(x.s.work, r, SuccessRow(row, a.finished, |x.ents|, |x.rels|, |x.evs|));
            CheckpointAt(env, s, a, r, row, x.s.work, n) && CheckpointAt(env, s, a, r, row, done, n)
  {
    hide Prefix;
    hide Proposals;
  }

  lemma ExecuteRaised(env: Env, s: Store, a: RunArgs, r: Id, row: RunRow, x: Exec, e: RunError)
    requires Fresh(s) && a.query.Returns?
    requires Undone(e) ==> x.s.work == x.s.base == s.base && x.s.log == s.log && (x.s.broken <==> e == FlushFailed)
    requires e == CommitFailed ==>
               && x.s.broken && Prefix(env, s, a, |ProposalsOf(a)|).Ok?
               && ((x.s.base == s.base && x.s.log == s.log)
                   || var db := Prefix(env, s, a, |ProposalsOf(a)|).value.db;
                      x.s.base == db && x.s.log == s.log + [db])
    requires !Undone(e) && e != CommitFailed ==>
               && KeepsPrefix(e) && !x.s.broken && x.s.base == s.base && x.s.log == s.log
               && exists n: nat ::
                    && n < |ProposalsOf(a)| && Prefix(env, s, a, n) == Ok(View(x))
                    && Apply(CtxOf(env, a), View(x), ProposalsOf(a)[n]) == Err(e)
    ensures LogGrows(env, s, a, r, row, x.s.log) && ExecutedAs(env, s, a, r, row, x, Some(e))
  {
    hide ApplyAll;
    hide Apply;
    if e == CommitFailed {
      var n := |ProposalsOf(a)|;
      assert CheckpointAt(env, s, a, r, row, Prefix(env, s, a, n).value.db, n);
    }
  }

  /** Every outcome of a run is a whole number of proposals, and which number depends on the error:
      none when an AGE, blob or flush call fails or the run stops before the batch; exactly those
      processed when an error is raised without a rollback; all of them on success or when only a
      commit fails. */
  lemma RunEnds(env: Env, s: Store, a: RunArgs, r: Id, row: RunRow)
    requires Fresh(s)
    ensures var (s', o) := RunFrom(env, s, a, r, row);
            EndsAs(env, s, a, r, row, s', o) && LogGrows(env, s, a, r, row, s'.log)
  {
    hide Execute;
    hide Handle;
    hide ApplyAll;
    hide Apply;
    ExecuteEnds(env, s, a, r, row);
    var (x, err) := Execute(env, s, a, r, row);
    if err.Some? {
      var e := err.value;
      HandleEnds(env, x.s, a, r, row, e);
      var failed := PutRun(x.s.work, r, FailureRow(row, a.finished, e));
      if BeforeBatch(e) || Undone(e) {
        NoProposals(env, s, a);
        assert CheckpointAt(env, s, a, r, row, failed, 0);
      } else if e != CommitFailed {
        var n: nat :| n < |ProposalsOf(a)| && Prefix(env, s, a, n) == Ok(View(x));
        assert CheckpointAt(env, s, a, r, row, failed, n);
      }
    }
  }

  /** When a failed run is recorded as failed: exactly when its error left the session usable, so it is
      neither a failed flush nor a failed commit, and the handler's own commit took effect. Otherwise
      the row stays running with nothing committed, or, after a failed commit, as that commit left it. */
  lemma FailureRecordedIff(env: Env, s: Store, a: RunArgs, r: Id, row: RunRow)
    requires Inv(env, s) && Fresh(s) && r in s.work.runs && s.work.runs[r] == row && row.status == Running
    requires RunFrom(env, s, a, r, row).1.Raised?
    ensures var s', e := RunFrom(env, s, a, r, row).0, RunFrom(env, s, a, r, row).1.error;
            && r in s'.base.runs
            && (s'.base.runs[r] == FailureRow(row, a.finished, e) <==> Recorded(env, s', e))
            && (!Recorded(env, s', e) && e != CommitFailed ==>
                  s'.base == s.base && s'.log == s.log && s'.base.runs[r].status == Running)
            && (e == CommitFailed ==> s'.base.runs[r].status == Running || s'.base.runs[r].status == Succeeded)
  {
    RunEnds(env, s, a, r, row);
    hide RunFrom;
    hide LogGrows;
    var s', e := RunFrom(env, s, a, r, row).0, RunFrom(env, s, a, r, row).1.error;
    if e == CommitFailed {
      PrefixFacts(env, s, a, |ProposalsOf(a)|);
    } else if KeepsPrefix(e) {
      var n: nat :| n < |ProposalsOf(a)| && Prefix(env, s, a, n).Ok?
        && FailureOver(env, s', s, Prefix(env, s, a, n).value.db, a, r, row, e);
    }
  }

  // ---------- The calls of a run ----------

  /** One of the fallible calls `from .. to` failed. */
  ghost predicate FaultIn(env: Env, from: nat, to: nat) {
    exists t :: from <= t < to && env.fault(t) != NoFault
  }

  ghost predicate NoFaultsFrom(env: Env, from: nat) {
    forall t :: from <= t ==> env.fault(t) == NoFault
  }

  lemma WriteTicks(env: Env, s: Store, db: DB, next: Id, io: Io)
    requires !s.broken
    ensures var (s', err) := WriteThrough(env, s, db, next, io, false);
            s.tick <= s'.tick && (err.Some? ==> FaultIn(env, s.tick, s'.tick))
  {
    assert env.fault(s.tick) == NoFault || env.fault(s.tick) != NoFault;
    assert env.fault(s.tick + 1) == NoFault || env.fault(s.tick + 1) != NoFault;
  }

  lemma PersistOneTicks(env: Env, c: Ctx, x: Exec, p: Proposal)
    requires !x.s.broken
    ensures var (x', err) := PersistOne(env, c, x, p);
            x.s.tick <= x'.s.tick && (err.Some? && Undone(err.value) ==> FaultIn(env, x.s.tick, x'.s.tick))
  {
    hide WriteThrough;
    hide NeedsWrite;
    hide Apply;
    hide FaultIn;
    if Apply(c, View(x), p).Err? {
      ApplyNotUndone(c, View(x), p);
    } else {
      var b := Apply(c, View(x), p).value;
      WriteTicks(env, x.s, b.db, b.next, IoOf(c, p));
    }
  }

  lemma {:induction false} PersistAllTicks(env: Env, c: Ctx, x: Exec, ps: seq<Proposal>)
    requires !x.s.broken && c.hash == env.hash
    ensures var (x', err) := PersistAll(env, c, x, ps);
            x.s.tick <= x'.s.tick && (err.Some? && Undone(err.value) ==> FaultIn(env, x.s.tick, x'.s.tick))
    decreases |ps|
  {
    if ps != [] {
      hide PersistOne;
      PersistOneTicks(env, c, x, ps[0]);
      PersistOneShape(env, c, x, ps[0]);
      var (x1, err) := PersistOne(env, c, x, ps[0]);
      if err.None? {
        PersistAllTicks(env, c, x1, ps[1..]);
      }
    }
  }

  /** A proposal that changes nothing makes no call that can fail; one that does makes at least one. */
  lemma CallsIffWrites(env: Env, c: Ctx, x: Exec, p: Proposal)
    requires !x.s.broken && IdsBelow(x.s.work, x.s.next) && Apply(c, View(x), p).Ok?
    ensures var b := Apply(c, View(x), p).value;
            if b.db == x.s.work then PersistOne(env, c, x, p) == (Back(x.s, b), None)
            else PersistOne(env, c, x, p).0.s.tick > x.s.tick
  {
    var b := Apply(c, View(x), p).value;
    IdleKeepsStore(c, View(x), p);
    WriteCalls(env, x.s, b.db, b.next, IoOf(c, p));
    if NeedsWrite(c, View(x), p) {
      WriteChanges(c, View(x), p);
    }
    hide WriteThrough;
    hide Apply;
    hide NeedsWrite;
  }

  lemma WriteCalls(env: Env, s: Store, db: DB, next: Id, io: Io)
    requires !s.broken
    ensures WriteThrough(env, s, db, next, io, false).0.tick > s.tick
  {
  }

  lemma WriteChanges(c: Ctx, b: Batch, p: Proposal)
    requires IdsBelow(b.db, b.next) && Apply(c, b, p).Ok? && NeedsWrite(c, b, p)
    ensures Apply(c, b, p).value.db != b.db
  {
    var b' := Apply(c, b, p).value;
    match p
    case PE(ep) =>
      match ScalarOneOrNone(EntityMatches(b.db, c.caseId, ProposalKey(ep))) {
        case One(i) =>
          assert i in EntityMatches(b.db, c.caseId, ProposalKey(ep));
          assert b'.db.entities[i].confidence != b.db.entities[i].confidence;
        case NoRow => assert b.next in b'.db.entities && b.next !in b.db.entities;
        case Many =>
      }
    case PR(rp) => assert b.next in b'.db.rels && b.next !in b.db.rels;
    case PV(vp) => assert |b'.db.evidence| != |b.db.evidence|;
  }

  lemma CommitTicks(env: Env, s: Store)
    ensures s.tick <= Commit(env, s).0.tick
    ensures !s.broken && !Commit(env, s).1 ==> FaultIn(env, s.tick, Commit(env, s).0.tick)
  {
    assert env.fault(s.tick) == NoFault || env.fault(s.tick) != NoFault;
  }

  lemma FaultInMore(env: Env, from: nat, from': nat, to': nat, to: nat)
    requires from <= from' && to' <= to && FaultIn(env, from', to')
    ensures FaultIn(env, from, to)
  {
  }

  lemma PersistTicks(env: Env, c: Ctx, s: Store, q: QueryResult)
    requires !s.broken && c.hash == env.hash
    ensures var (x, err) := Persist(env, c, s, q);
            && s.tick <= x.s.tick && (err.None? ==> !x.s.broken)
            && (err.Some? && (Undone(err.value) || err.value == CommitFailed) ==> FaultIn(env, s.tick, x.s.tick))
  {
    hide PersistAll;
    hide FaultIn;
    hide ApplyAll;
    hide Apply;
    var ps := Proposals(q);
    PersistAllTicks(env, c, Begin(s), ps);
    PersistAllShape(env, c, Begin(s), ps);
    hide Proposals;
    var (x0, err) := PersistAll(env, c, Begin(s), ps);
    if err.None? {
      CommitTicks(env, x0.s);
      if Commit(env, x0.s).1 {
        CommitSucceeds(env, x0.s);
      } else {
        FaultInMore(env, s.tick, x0.s.tick, Commit(env, x0.s).0.tick, Commit(env, x0.s).0.tick);
      }
    } else if !Undone(err.value) {
      ApplyErrors(c, View(x0), ps[Processed(env, c, Begin(s), ps)]);
    }
  }

  lemma ExecuteTicks(env: Env, s: Store, a: RunArgs, r: Id, row: RunRow)
    requires Fresh(s)
    ensures var (x, err) := Execute(env, s, a, r, row);
            && s.tick <= x.s.tick
            && (err.Some? && (Undone(err.value) || err.value == CommitFailed) ==> FaultIn(env, s.tick, x.s.tick))
  {
    hide Persist;
    hide FaultIn;
    hide Commit;
    if a.credentials && a.query.Returns? && Total(a.query.result) <= MAX_PROPOSALS_PER_RUN {
      PersistTicks(env, CtxOf(env, a), s, a.query.result);
      var (x, err) := Persist(env, CtxOf(env, a), s, a.query.result);
      if err.None? {
        var written := WriteRun(x.s, r, SuccessRow(row, a.finished, |x.ents|, |x.rels|, |x.evs|));
        CommitTicks(env, written);
        if !Commit(env, written).1 {
          FaultInMore(env, s.tick, x.s.tick, Commit(env, written).0.tick, Commit(env, written).0.tick);
        }
      }
    }
  }

  /** A call of the run itself failed, if the run was undone, could not commit, or left no failure row. */
  lemma RunTicks(env: Env, s: Store, a: RunArgs, r: Id, row: RunRow)
    requires Fresh(s)
    ensures var (s', o) := RunFrom(env, s, a, r, row);
            && s.tick <= s'.tick
            && (o.Raised? && (Undone(o.error) || o.error == CommitFailed || !Recorded(env, s', o.error)) ==>
                  FaultIn(env, s.tick, s'.tick))
  {
    hide Execute;
    ExecuteTicks(env, s, a, r, row);
    ExecuteEnds(env, s, a, r, row);
    hide EndsAs;
    hide LogGrows;
    hide Prefix;
    hide Apply;
    var (x, err) := Execute(env, s, a, r, row);
    if err.Some? {
      HandleEnds(env, x.s, a, r, row, err.value);
      CommitTicks(env, WriteRun(x.s, r, FailureRow(row, a.finished, err.value)));
      var s' := Handle(env, x.s, a, r, row, err.value);
      if Undone(err.value) || err.value == CommitFailed {
        FaultInMore(env, s.tick, s.tick, x.s.tick, s'.tick);
      } else if !Recorded(env, s', err.value) {
        assert env.fault(x.s.tick) != NoFault;
      }
    }
  }

  /** If none of its own calls fails, and so in particular if none fails from its start on, a failed run
      leaves its failure row. */
  lemma FaultlessFailureIsRecorded(env: Env, s: Store, a: RunArgs, r: Id, row: RunRow)
    requires Inv(env, s) && Fresh(s) && r in s.work.runs && s.work.runs[r] == row && row.status == Running
    requires RunFrom(env, s, a, r, row).1.Raised?
    ensures var s', e := RunFrom(env, s, a, r, row).0, RunFrom(env, s, a, r, row).1.error;
            && (NoFaultsFrom(env, s.tick) ==> !FaultIn(env, s.tick, s'.tick))
            && (!FaultIn(env, s.tick, s'.tick) ==>
                  r in s'.base.runs && s'.base.runs[r] == FailureRow(row, a.finished, e))
  {
    hide RunFrom;
    hide Inv;
    hide Recorded;
    RunTicks(env, s, a, r, row);
    FailureRecordedIff(env, s, a, r, row);
  }

  // ---------- What the rows and counts mean ----------

  /** The returned lists are exactly the new rows, each once. */
  ghost predicate ListsExact(db0: DB, b: Batch) {
    && (forall i :: i in b.db.entities <==> i in db0.entities || i in b.ents)
    && (forall i :: i in b.ents ==> i !in db0.entities)
    && (forall m, n :: 0 <= m < n < |b.ents| ==> b.ents[m] != b.ents[n])
    && (forall j :: j in b.db.rels <==> j in db0.rels || j in b.rels)
    && (forall j :: j in b.rels ==> j !in db0.rels)
    && (forall m, n :: 0 <= m < n < |b.rels| ==> b.rels[m] != b.rels[n])
    && |b.db.evidence| == |db0.evidence| + |b.evs|
    && (forall n :: 0 <= n < |b.evs| ==> b.db.evidence[|db0.evidence| + n].id == b.evs[n])
  }

  lemma ApplyListsEntity(c: Ctx, db0: DB, b: Batch, ep: EntityProposal)
    requires IdsBelow(b.db, b.next) && ListsExact(db0, b) && ApplyEntity(c, b, ep).Ok?
    ensures ListsExact(db0, ApplyEntity(c, b, ep).value)
  {
    match ScalarOneOrNone(EntityMatches(b.db, c.caseId, ProposalKey(ep))) {
      case One(i) => assert i in EntityMatches(b.db, c.caseId, ProposalKey(ep));
      case NoRow =>
        assert b.next !in b.db.entities;
      case Many =>
    }
  }

  lemma ApplyListsRel(c: Ctx, db0: DB, b: Batch, rp: RelProposal)
    requires IdsBelow(b.db, b.next) && ListsExact(db0, b) && ApplyRel(c, b, rp).Ok?
    ensures ListsExact(db0, ApplyRel(c, b, rp).value)
  {
    assert b.next !in b.db.rels;
  }

  lemma {:induction false} ApplyAllLists(c: Ctx, db0: DB, b: Batch, ps: seq<Proposal>)
    requires Consistent(b.db, b.next) && ListsExact(db0, b) && ApplyAll(c, b, ps).Ok?
    ensures ListsExact(db0, ApplyAll(c, b, ps).value)
    decreases |ps|
  {
    if ps != [] {
      var b' := Apply(c, b, ps[0]).value;
      match ps[0] {
        case PE(ep) => ApplyListsEntity(c, db0, b, ep);
        case PR(rp) => ApplyListsRel(c, db0, b, rp);
        case PV(vp) =>
      }
      assert ListsExact(db0, b');
      ApplyKeeps(c, b, ps[0]);
      ApplyAllLists(c, db0, b', ps[1..]);
    }
  }

  /** The run row as `r`'s whole batch leaves it: all of it committed, blobs included, and the three
      counts those of the rows it inserted. */
  ghost predicate WholeBatch(env: Env, s: Store, a: RunArgs, r: Id, db: DB) {
    && Prefix(env, s, a, |ProposalsOf(a)|).Ok?
    && var b := Prefix(env, s, a, |ProposalsOf(a)|).value;
       && Data(db) == Data(b.db) && ListsExact(s.work, b)
       && r in db.runs && db.runs[r].finishedAt == Some(a.finished) && db.runs[r].error == None
       && db.runs[r].entities == |b.ents| && db.runs[r].rels == |b.rels| && db.runs[r].evidence == |b.evs|
  }

  /** Write ordering: in every state the run commits, a row reading succeeded has its whole batch
      beside it, and every evidence row its blob; a row still running has no counts and no finish
      time. */
  lemma SucceededMeansWhole(env: Env, s: Store, a: RunArgs, r: Id, row: RunRow, k: nat)
    requires Inv(env, s) && Fresh(s) && r in s.work.runs && s.work.runs[r] == row && row.status == Running
    requires |s.log| <= k < |RunFrom(env, s, a, r, row).0.log|
    ensures var s' := RunFrom(env, s, a, r, row).0;
            var db := s'.log[k];
            && r in db.runs
            && (db.runs[r].status == Succeeded ==> WholeBatch(env, s, a, r, db))
            && (db.runs[r].status == Running ==> db.runs[r] == row)
            && EvidenceIntact(env.hash, s'.blobs, db.evidence)
  {
    hide RunFrom;
    hide ApplyAll;
    hide Consistent;
    assert r < s.next by {
      assert IdsBelow(s.work, s.next) by {
        IdsAreBelow(s.work, s.next);
      }
    }
    RunEnds(env, s, a, r, row);
    RunFromKeeps(env, s, a, r, row);
    var s' := RunFrom(env, s, a, r, row).0;
    var db := s'.log[k];
    assert DbOk(env.hash, s'.blobs, db, s'.next);
    assert Checkpoint(env, s, a, r, row, db);
    var n: nat :| n <= |ProposalsOf(a)| && CheckpointAt(env, s, a, r, row, db, n);
    PrefixFacts(env, s, a, n);
  }

  lemma PrefixFacts(env: Env, s: Store, a: RunArgs, n: nat)
    requires Consistent(s.work, s.next) && n <= |ProposalsOf(a)| && Prefix(env, s, a, n).Ok?
    ensures var b := Prefix(env, s, a, n).value;
            b.db.runs == s.work.runs && ListsExact(s.work, b) && Grows(s.work, b.db)
  {
    var c, ps := CtxOf(env, a), ProposalsOf(a)[..n];
    ApplyAllKeeps(c, Start(s.work, s.next), ps);
    ApplyAllLists(c, s.work, Start(s.work, s.next), ps);
  }

  // ---------- The whole of `run` ----------

  lemma OpenedKeeps(env: Env, s: Store, a: RunArgs)
    requires Inv(env, s) && Fresh(s) && Runnable(s, a)
    ensures Inv(env, Opened(env, s, a).0)
  {
    hide Inv;
    hide Commit;
    StartRowIsOpen(env, s, a);
    OpenRowKeeps(env, s, if a.existing.Some? then s.next else s.next + 1, RunIdOf(s, a), StartRow(s, a));
  }

  /** `run` refuses and changes nothing, or cannot commit its audit row, or goes on from a session
      that holds exactly that row more, and ends in one of the ways above. */
  lemma RunStarts(env: Env, s: Store, a: RunArgs)
    requires Fresh(s) && Runnable(s, a)
    ensures var (s', o) := Run(env, s, a);
            var (s1, ok) := Opened(env, s, a);
            var r, row := RunIdOf(s, a), StartRow(s, a);
            && (s1.base == s.base || s1.base == PutRun(s.base, r, row))
            && if !a.accepted then o == Refused && s' == s
               else if !ok then o == NotStarted && s' == s1
               else
                 && Fresh(s1) && r in s1.work.runs && s1.work.runs[r] == row && row.status == Running
                 && RunFrom(env, s1, a, r, row) == (s', o)
                 && EndsAs(env, s1, a, r, row, s', o) && LogGrows(env, s1, a, r, row, s'.log)
  {
    hide RunFrom;
    hide EndsAs;
    hide LogGrows;
    var (s1, ok) := Opened(env, s, a);
    if a.accepted && ok {
      RunEnds(env, s1, a, RunIdOf(s, a), StartRow(s, a));
    }
  }

  // ---------- The evidence of a successful run ----------

  predicate NoEvidence(ps: seq<Proposal>) {
    forall n :: 0 <= n < |ps| ==> !ps[n].PV?
  }

  lemma {:induction false} EvidenceUntouched(c: Ctx, b: Batch, ps: seq<Proposal>)
    requires NoEvidence(ps) && ApplyAll(c, b, ps).Ok?
    ensures ApplyAll(c, b, ps).value.db.evidence == b.db.evidence
    decreases |ps|
  {
    if ps != [] {
      if ps[0].PE? {
        var ep := ps[0].e;
        var l := ScalarOneOrNone(EntityMatches(b.db, c.caseId, ProposalKey(ep)));
        if l.One? {
          assert l.id in EntityMatches(b.db, c.caseId, ProposalKey(ep));
        }
      }
      EvidenceUntouched(c, Apply(c, b, ps[0]).value, ps[1..]);
    }
  }

  /** A successful run leaves one evidence row per evidence proposal, in order: it names the payload's
      hash and size, the query and, if asked, the input entity, and the object under its key hashes to
      what the payload hashes to. */
  lemma SuccessfulRunStoresPayloads(env: Env, s: Store, a: RunArgs, r: Id, row: RunRow, n: nat)
    requires Inv(env, s) && Fresh(s) && r < s.next && RunFrom(env, s, a, r, row).1.Done?
    requires a.query.Returns? && n < |a.query.result.evidence|
    ensures var s' := RunFrom(env, s, a, r, row).0;
            var p := a.query.result.evidence[n];
            && |s'.base.evidence| == |s.base.evidence| + |a.query.result.evidence|
            && var ev := s'.base.evidence[|s.base.evidence| + n];
               && ev.hash == env.hash(p.payload) && ev.size == |p.payload| && ev.query == p.query
               && ev.source == a.plugin && ev.caseId == a.caseId && ev.spec == p.spec
               && (ev.entity == Some(a.input) <==> p.linkToInput) && (ev.entity == None <==> !p.linkToInput)
               && ev.uri in s'.blobs && env.hash(s'.blobs[ev.uri]) == env.hash(p.payload)
  {
    hide Inv;
    hide RunFrom;
    var s' := RunFrom(env, s, a, r, row).0;
    RunFromKeeps(env, s, a, r, row);
    InvEvidence(env, s');
    var from := DoneEvidence(env, s, a, r, row);
    hide EvidenceIntact;
    PayloadRow(env, a, s'.blobs, s.base.evidence, from, n);
  }

  lemma InvEvidence(env: Env, s: Store)
    requires Inv(env, s)
    ensures EvidenceIntact(env.hash, s.blobs, s.base.evidence)
  {
  }

  lemma PayloadRow(env: Env, a: RunArgs, blobs: Bucket, before: seq<Evidence>, from: Id, n: nat)
    requires a.query.Returns? && n < |a.query.result.evidence|
    requires EvidenceIntact(env.hash, blobs, before + OneShot.NewRows(CtxOf(env, a), from, a.query.result.evidence))
    ensures var p := a.query.result.evidence[n];
            var ev := (before + OneShot.NewRows(CtxOf(env, a), from, a.query.result.evidence))[|before| + n];
            && ev.hash == env.hash(p.payload) && ev.size == |p.payload| && ev.query == p.query
            && ev.source == a.plugin && ev.caseId == a.caseId && ev.spec == p.spec
            && (ev.entity == Some(a.input) <==> p.linkToInput) && (ev.entity == None <==> !p.linkToInput)
            && ev.uri in blobs && env.hash(blobs[ev.uri]) == env.hash(p.payload)
  {
    var rows := before + OneShot.NewRows(CtxOf(env, a), from, a.query.result.evidence);
    assert rows[|before| + n] == NewEvidence(CtxOf(env, a), from + n, a.query.result.evidence[n]);
    assert RowIntact(env.hash, blobs, rows[|before| + n]);
  }

  lemma DoneEvidence(env: Env, s: Store, a: RunArgs, r: Id, row: RunRow) returns (from: Id)
    requires Fresh(s) && RunFrom(env, s, a, r, row).1.Done? && a.query.Returns?
    ensures RunFrom(env, s, a, r, row).0.base.evidence ==
            s.base.evidence + OneShot.NewRows(CtxOf(env, a), from, a.query.result.evidence)
  {
    RunEnds(env, s, a, r, row);
    hide RunFrom;
    hide ApplyAll;
    hide LogGrows;
    assert ProposalsOf(a)[..|ProposalsOf(a)|] == Proposals(a.query.result);
    from := EvidenceAppended(CtxOf(env, a), Start(s.work, s.next), a.query.result);
  }

  lemma EvidenceAppended(c: Ctx, b: Batch, q: QueryResult) returns (from: Id)
    requires ApplyAll(c, b, Proposals(q)).Ok?
    ensures ApplyAll(c, b, Proposals(q)).value.db.evidence == b.db.evidence + OneShot.NewRows(c, from, q.evidence)
  {
    hide Apply;
    var es, vs := EntityProposals(q.entities) + RelProposals(q.relationships), EvidenceProposals(q.evidence);
    ApplyAllConcat(c, b, es, vs);
    EvidenceUntouched(c, b, es);
    var b1 := ApplyAll(c, b, es).value;
    BatchTheorems.EvidencePhase(c, b1, q.evidence);
    from := b1.next;
  }
}
