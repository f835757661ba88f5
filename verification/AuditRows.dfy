/** What the audit row of a run says, column by column, and why a run fails. */
module AuditRows {
  import opened Prelude
  import opened GraphDb
  import opened Batches
  import opened Sessions
  import opened CallRows
  import opened Runner
  import opened RunnerTheorems
  import BatchTheorems
  import Reachable
  import Validators

  // ---------- Opening ----------

  /** A run starts on a new row, running, with its own case, input, plugin and start and nothing else, or on
      the queued row with its status changed to running; one that runs already is left alone. No other row and no
      other table changes. */
  lemma OpenedRow(env: Env, s: Store, a: RunArgs)
    requires Inv(env, s) && Fresh(s) && Runnable(s, a) && Opened(env, s, a).1
    ensures var s', r := Opened(env, s, a).0, RunIdOf(s, a);
            && r in s'.base.runs && s'.base == s.base.(runs := s.base.runs[r := s'.base.runs[r]])
            && match a.existing
               case None =>
                 && r !in s.base.runs
                 && s'.base.runs[r] == RunRow(a.caseId, a.input, a.plugin, a.started, None, Running, None, 0, 0, 0)
               case Some(i) =>
                 && r == i && i in s.base.runs
                 && (s.base.runs[i].status == Queued || s.base.runs[i].status == Running)
                 && s'.base.runs[i] == s.base.runs[i].(status := Running)
                 && (s.base.runs[i].status == Running ==> s' == s)
  {
    hide Inv;
    Reachable.NextIsFree(env, s);
    var r := RunIdOf(s, a);
    if a.existing.Some? && s.work.runs[r].status == Running {
      assert s.base.runs[r := s.base.runs[r]] == s.base.runs;
    } else {
      var s0 := WriteRun(s.(next := if a.existing.Some? then s.next else s.next + 1), r, StartRow(s, a));
      CommitSucceeds(env, s0);
    }
  }

  /** The dispatcher's row: queued, with the run's case, input, plugin and start and nothing else. */
  lemma QueuedRowSays(env: Env, s: Store, a: RunArgs)
    requires Inv(env, s) && Fresh(s) && env.fault(s.tick) == NoFault
    ensures var s' := Reachable.Perform(env, s, Reachable.QueueRunOp(a));
            && s.next !in s.base.runs
            && s'.base == s.base.(runs := s.base.runs[s.next :=
                 RunRow(a.caseId, a.input, a.plugin, a.started, None, Queued, None, 0, 0, 0)])
  {
    hide Inv;
    Reachable.NextIsFree(env, s);
  }

  /** The sweeper, a missing input or a failed enqueue: exactly the named rows become failed, with the finish
      time and message given, and keep every other column. */
  lemma FailedByOthers(env: Env, s: Store, ids: set<Id>, at: Option<Time>, message: string)
    requires Fresh(s) && env.fault(s.tick) == NoFault
    ensures var s' := Reachable.Perform(env, s, Reachable.FailRunsOp(ids, at, message));
            && s'.base == s.base.(runs := s'.base.runs) && s'.base.runs.Keys == s.base.runs.Keys
            && forall r :: r in s.base.runs ==>
                 s'.base.runs[r] == if r in ids then s.base.runs[r].(status := Failed, finishedAt := at,
                                                                     error := Some(message))
                                    else s.base.runs[r]
  {
  }

  // ---------- Failing ----------

  /** The taxonomy label of an error, the exception's type name left out. */
  ghost predicate IsLabel(e: RunError, text: string) {
    match e
    case CredentialsMissing => text == "credentials_missing"
    case QueryRaised(kind) => text == kind
    case ValidationFailed => text == "validation_error"
    case EndpointNotInCase => text == "validation_error"
    case TooManyProposals => text == "plugin_internal"
    case UnknownRef => text == "plugin_internal"
    case BadEndpoint => text == "plugin_internal"
    case MultipleRows => text == "unknown"
    case AgeFailed => text == "unknown"
    case BlobFailed => text == "unknown"
    case FlushFailed => text == "unknown"
    case CommitFailed => text == "unknown"
  }

  /** When a failure is recorded, the row reads failed, with the finish time and the label of the error, and
      keeps its case, input, plugin, start and counts. */
  lemma FailedRowSays(env: Env, s: Store, a: RunArgs, r: Id, row: RunRow)
    requires Inv(env, s) && Fresh(s) && r in s.work.runs && s.work.runs[r] == row && row.status == Running
    requires RunFrom(env, s, a, r, row).1.Raised?
    requires Recorded(env, RunFrom(env, s, a, r, row).0, RunFrom(env, s, a, r, row).1.error)
    ensures var s', e := RunFrom(env, s, a, r, row).0, RunFrom(env, s, a, r, row).1.error;
            && r in s'.base.runs
            && var f := s'.base.runs[r];
               && f.status == Failed && f.finishedAt == Some(a.finished) && f.error.Some? && IsLabel(e, f.error.value)
               && f.caseId == row.caseId && f.input == row.input && f.plugin == row.plugin
               && f.startedAt == row.startedAt
               && f.entities == row.entities && f.rels == row.rels && f.evidence == row.evidence
  {
    hide RunFrom;
    hide Inv;
    hide Recorded;
    FailureRecordedIff(env, s, a, r, row);
  }

  /** Before its batch a run fails for missing credentials, else for what the plugin raised, else for more
      than 2000 proposals, and for nothing else. */
  lemma FailsBeforeBatch(env: Env, s: Store, a: RunArgs, r: Id, row: RunRow)
    requires Fresh(s)
    ensures var o := RunFrom(env, s, a, r, row).1;
            && (o == Raised(r, CredentialsMissing) <==> !a.credentials)
            && (forall kind :: o == Raised(r, QueryRaised(kind)) <==> a.credentials && a.query == Raises(kind))
            && (o == Raised(r, TooManyProposals) <==>
                  && a.credentials && a.query.Returns?
                  && var q := a.query.result; |q.entities| + |q.relationships| + |q.evidence| > 2000)
  {
    hide Handle;
    hide Persist;
    if a.credentials && a.query.Returns? && Total(a.query.result) <= MAX_PROPOSALS_PER_RUN {
      PersistEnds(env, CtxOf(env, a), s, a.query.result);
    }
  }

  /** An end of a relationship proposal resolves unless its ref is unknown, or it is neither the input nor a
      ref. */
  ghost predicate EndFails(refs: map<string, Id>, ep: Endpoint, e: RunError) {
    !ep.input && ((ep.ref.Some? && ep.ref.value !in refs && e == UnknownRef) || (ep.ref.None? && e == BadEndpoint))
  }

  predicate EndBroken(refs: map<string, Id>, ep: Endpoint) {
    !ep.input && (ep.ref.None? || ep.ref.value !in refs)
  }

  /** Why an entity or evidence proposal is refused: its dict, or two live rows of its type and name. */
  lemma RefusedWhy(c: Ctx, b: Batch, p: Proposal, e: RunError)
    requires !p.PR?
    ensures Apply(c, b, p) == Err(e) <==>
            match p
            case PE(ep) =>
              || (!Validators.Accepts(ep.attrs) && e == ValidationFailed)
              || (Validators.Accepts(ep.attrs) && e == MultipleRows
                  && exists i, j :: i != j && IsNamed(b.db, i, c.caseId, ep.etype, ep.name)
                                    && IsNamed(b.db, j, c.caseId, ep.etype, ep.name))
            case PV(vp) => !Validators.Accepts(vp.spec) && e == ValidationFailed
  {
    hide Validators.Accepts;
    hide IsNamed;
    if p.PE? {
      NamedIds(AsStore(b.db), c.caseId, p.e.etype, p.e.name);
    }
  }

  /** A store with this working database, for what is said of one. */
  function AsStore(db: DB): Store {
    Store(db, db, [db], map[], false, 0, 0)
  }

  /** Why a relationship proposal is refused, in the order of the checks: its source, its destination, its
      dict, two live rows of its triple, and, if there is none, ends that are not live in the case. `src` and
      `dst` are the rows its ends stand for, if they resolve. */
  lemma RelRefusedWhy(c: Ctx, b: Batch, rp: RelProposal, src: Id, dst: Id, e: RunError)
    requires EndBroken(b.refs, rp.src) || BatchTheorems.EndIs(c, b.refs, rp.src, src)
    requires EndBroken(b.refs, rp.dst) || BatchTheorems.EndIs(c, b.refs, rp.dst, dst)
    ensures Apply(c, b, PR(rp)) == Err(e) <==>
            if EndBroken(b.refs, rp.src) then EndFails(b.refs, rp.src, e)
            else if EndBroken(b.refs, rp.dst) then EndFails(b.refs, rp.dst, e)
            else if !Validators.Accepts(rp.attrs) then e == ValidationFailed
            else
              || (e == MultipleRows
                  && exists i, j :: i != j && IsLink(b.db, i, c.caseId, src, dst, rp.rtype)
                                    && IsLink(b.db, j, c.caseId, src, dst, rp.rtype))
              || (e == EndpointNotInCase
                  && (forall j :: !IsLink(b.db, j, c.caseId, src, dst, rp.rtype))
                  && (!IsLive(b.db, src, c.caseId) || !IsLive(b.db, dst, c.caseId)))
  {
    hide Validators.Accepts;
    hide IsLink;
    if !EndBroken(b.refs, rp.src) && !EndBroken(b.refs, rp.dst) {
      LinkIds(AsStore(b.db), c.caseId, src, dst, rp.rtype);
    }
  }

  // ---------- Succeeding ----------

  /** The row of a run that is done reads succeeded, with the finish time and the numbers of the rows it
      returns, and keeps every other column. */
  lemma DoneRowSays(env: Env, s: Store, a: RunArgs, r: Id, row: RunRow)
    requires Fresh(s) && RunFrom(env, s, a, r, row).1.Done?
    ensures var (s', o) := RunFrom(env, s, a, r, row);
            && o.run == r && r in s'.base.runs
            && s'.base.runs[r] == RunRow(row.caseId, row.input, row.plugin, row.startedAt, Some(a.finished), Succeeded,
                                         row.error, |o.ents|, |o.rels|, |o.evs|)
  {
    RunEnds(env, s, a, r, row);
    hide RunFrom;
    hide LogGrows;
    hide Prefix;
  }
}
