/** PluginRunner as an object: the loops of `_persist` and the handler of `run`, against the
    specification in `Runner`. */
module RunnerObjects {
  import opened Prelude
  import opened GraphDb
  import opened Batches
  import opened Lookups
  import opened Sessions
  import opened Repositories
  import opened Runner
  import Validators

  function EntityOf(ep: EntityProposal): EntityCreate {
    EntityCreate(ep.etype, ep.name, ep.attrs, ep.confidence)
  }

  function RelOf(c: Ctx, src: Id, dst: Id, rp: RelProposal): RelationshipCreate {
    RelationshipCreate(src, dst, rp.rtype, rp.confidence, Some(c.plugin), rp.attrs)
  }

  function EvidenceOf(c: Ctx, vp: EvidenceProposal): EvidenceCreate {
    EvidenceCreate(if vp.linkToInput then Some(c.input) else None, c.plugin, vp.query, vp.spec)
  }

  /** One turn of the entity loop is one step of the batch. */
  lemma EntityTurn(env: Env, c: Ctx, x: Exec, ep: EntityProposal)
    ensures PersistOne(env, c, x, PE(ep)) ==
            if !Validators.Accepts(ep.attrs) then (x, Some(ValidationFailed))
            else
              var (s, r) := GetOrCreateEntity(env, x.s, c.caseId, EntityOf(ep), false);
              if r.Err? then (x.(s := s), Some(r.error))
              else (Exec(s, x.refs[ep.ref := r.value.0], if r.value.1 then x.ents + [r.value.0] else x.ents,
                         x.rels, x.evs), None)
  {
    match ScalarOneOrNone(EntityMatches(x.s.work, c.caseId, ProposalKey(ep))) {
      case One(i) => assert i in EntityMatches(x.s.work, c.caseId, ProposalKey(ep));
      case _ =>
    }
  }

  lemma RelTurn(env: Env, c: Ctx, x: Exec, rp: RelProposal)
    ensures var src, dst := ResolveRef(c, x.refs, rp.src), ResolveRef(c, x.refs, rp.dst);
            PersistOne(env, c, x, PR(rp)) ==
            if src.Err? then (x, Some(src.error))
            else if dst.Err? then (x, Some(dst.error))
            else if !Validators.Accepts(rp.attrs) then (x, Some(ValidationFailed))
            else
              var (s, r) := CreateRelIfNotExists(env, x.s, c.caseId, RelOf(c, src.value, dst.value, rp), false);
              if r.Err? then (x.(s := s), Some(r.error))
              else (Exec(s, x.refs, x.ents, if r.value.1 then x.rels + [r.value.0] else x.rels, x.evs), None)
  {
  }

  lemma EvidenceTurn(env: Env, c: Ctx, x: Exec, vp: EvidenceProposal)
    requires c.hash == env.hash
    ensures PersistOne(env, c, x, PV(vp)) ==
            if !Validators.Accepts(vp.spec) then (x, Some(ValidationFailed))
            else
              var (s, r) :=
                CreateEvidence(env, x.s, c.caseId, EvidenceOf(c, vp), vp.payload, vp.contentType, c.now, false);
              if r.Err? then (x.(s := s), Some(r.error))
              else (Exec(s, x.refs, x.ents, x.rels, x.evs + [r.value]), None)
  {
  }

  lemma PersistAllAt(env: Env, c: Ctx, x: Exec, ps: seq<Proposal>, i: nat)
    requires i < |ps|
    ensures PersistAll(env, c, x, ps[i..]) ==
            var (x', err) := PersistOne(env, c, x, ps[i]);
            if err.Some? then (x', err) else PersistAll(env, c, x', ps[i + 1..])
  {
    assert ps[i..][1..] == ps[i + 1..];
  }

  /** A loop over the first `n` of `ps` took `x` to `x'`: on an error that is where the whole batch
      ends, otherwise the rest of the batch goes on from there. */
  ghost predicate LoopDone(env: Env, c: Ctx, ps: seq<Proposal>, n: nat, x: Exec, x': Exec, err: Option<RunError>)
    requires n <= |ps|
  {
    if err.Some? then PersistAll(env, c, x, ps).0.s == x'.s && PersistAll(env, c, x, ps).1 == err
    else PersistAll(env, c, x, ps) == PersistAll(env, c, x', ps[n..])
  }

  class PluginRunner {
    const session: Session

    constructor (session: Session)
      ensures this.session == session
    {
      this.session := session;
    }

    /** The entity loop of `_persist`. */
    method PersistEntities(c: Ctx, q: QueryResult)
      returns (err: Option<RunError>, refs: map<string, Id>, ents: seq<Id>)
      modifies session
      ensures LoopDone(session.env, c, Proposals(q), |q.entities|, Begin(old(session.State())),
                       Exec(session.State(), refs, ents, [], []), err)
    {
      hide GetOrCreateEntity;
      hide PersistOne;
      var repo := new EntityRepository(session);
      err, refs, ents := None, map[], [];
      ghost var ps := Proposals(q);
      ghost var goal := PersistAll(session.env, c, Begin(session.State()), ps);
      assert ps[0..] == ps;
      for i := 0 to |q.entities|
        invariant PersistAll(session.env, c, Exec(session.State(), refs, ents, [], []), ps[i..]) == goal
      {
        var ep := q.entities[i];
        assert ps[i] == PE(ep);
        PersistAllAt(session.env, c, Exec(session.State(), refs, ents, [], []), ps, i);
        EntityTurn(session.env, c, Exec(session.State(), refs, ents, [], []), ep);
        if !Validators.Accepts(ep.attrs) {
          err := Some(ValidationFailed);
          return;
        }
        var r := repo.GetOrCreate(c.caseId, EntityOf(ep), false);
        if r.Err? {
          err := Some(r.error);
          return;
        }
        refs := refs[ep.ref := r.value.0];
        if r.value.1 {
          ents := ents + [r.value.0];
        }
      }
    }

    /** The relationship loop. */
    method PersistRelationships(c: Ctx, q: QueryResult, refs: map<string, Id>, ents: seq<Id>)
      returns (err: Option<RunError>, rels: seq<Id>)
      modifies session
      ensures LoopDone(session.env, c, Proposals(q)[|q.entities|..], |q.relationships|,
                       Exec(old(session.State()), refs, ents, [], []), Exec(session.State(), refs, ents, rels, []), err)
    {
      hide CreateRelIfNotExists;
      hide PersistOne;
      hide ResolveRef;
      var repo := new RelationshipRepository(session);
      err, rels := None, [];
      ghost var ps := Proposals(q)[|q.entities|..];
      ghost var goal := PersistAll(session.env, c, Exec(session.State(), refs, ents, [], []), ps);
      assert ps[0..] == ps;
      for i := 0 to |q.relationships|
        invariant PersistAll(session.env, c, Exec(session.State(), refs, ents, rels, []), ps[i..]) == goal
      {
        var rp := q.relationships[i];
        assert ps[i] == PR(rp);
        PersistAllAt(session.env, c, Exec(session.State(), refs, ents, rels, []), ps, i);
        RelTurn(session.env, c, Exec(session.State(), refs, ents, rels, []), rp);
        var src := ResolveRef(c, refs, rp.src);
        if src.Err? {
          err := Some(src.error);
          return;
        }
        var dst := ResolveRef(c, refs, rp.dst);
        if dst.Err? {
          err := Some(dst.error);
          return;
        }
        if !Validators.Accepts(rp.attrs) {
          err := Some(ValidationFailed);
          return;
        }
        var r := repo.CreateIfNotExists(c.caseId, RelOf(c, src.value, dst.value, rp), false);
        if r.Err? {
          err := Some(r.error);
          return;
        }
        if r.value.1 {
          rels := rels + [r.value.0];
        }
      }
    }

    /** The evidence loop. */
    method PersistEvidence(c: Ctx, q: QueryResult, refs: map<string, Id>, ents: seq<Id>, rels: seq<Id>)
      returns (err: Option<RunError>, evs: seq<Id>)
      requires c.hash == session.env.hash
      modifies session
      ensures LoopDone(session.env, c, EvidenceProposals(q.evidence), |q.evidence|,
                       Exec(old(session.State()), refs, ents, rels, []),
                       Exec(session.State(), refs, ents, rels, evs), err)
    {
      hide CreateEvidence;
      hide PersistOne;
      var repo := new EvidenceRepository(session);
      err, evs := None, [];
      ghost var ps := EvidenceProposals(q.evidence);
      ghost var goal := PersistAll(session.env, c, Exec(session.State(), refs, ents, rels, []), ps);
      assert ps[0..] == ps;
      for i := 0 to |q.evidence|
        invariant PersistAll(session.env, c, Exec(session.State(), refs, ents, rels, evs), ps[i..]) == goal
      {
        var vp := q.evidence[i];
        PersistAllAt(session.env, c, Exec(session.State(), refs, ents, rels, evs), ps, i);
        EvidenceTurn(session.env, c, Exec(session.State(), refs, ents, rels, evs), vp);
        if !Validators.Accepts(vp.spec) {
          err := Some(ValidationFailed);
          return;
        }
        var r := repo.Create(c.caseId, EvidenceOf(c, vp), vp.payload, vp.contentType, c.now, false);
        if r.Err? {
          err := Some(r.error);
          return;
        }
        evs := evs + [r.value];
      }
    }

    /** `_persist`: the three loops, then the single commit. */
    method PersistResult(c: Ctx, q: QueryResult)
      returns (err: Option<RunError>, ents: seq<Id>, rels: seq<Id>, evs: seq<Id>)
      requires c.hash == session.env.hash
      modifies session
      ensures var (x, e) := Persist(session.env, c, old(session.State()), q);
              && session.State() == x.s && err == e
              && (e.None? ==> ents == x.ents && rels == x.rels && evs == x.evs)
    {
      hide PersistOne;
      hide Commit;
      var refs;
      rels, evs := [], [];
      err, refs, ents := PersistEntities(c, q);
      if err.Some? {
        return;
      }
      err, rels := PersistRelationships(c, q, refs, ents);
      if err.Some? {
        return;
      }
      assert Proposals(q)[|q.entities|..][|q.relationships|..] == EvidenceProposals(q.evidence);
      err, evs := PersistEvidence(c, q, refs, ents, rels);
      if err.Some? {
        return;
      }
      assert EvidenceProposals(q.evidence)[|q.evidence|..] == [];
      var ok := session.CommitWork();
      if !ok {
        err := Some(CommitFailed);
      }
    }

    method SetRun(r: Id, row: RunRow)
      modifies session
      ensures session.State() == WriteRun(old(session.State()), r, row)
    {
      session.work := PutRun(session.work, r, row);
    }

    /** `_resolve_credentials` and `_execute_plugin`. */
    method ExecutePlugin(a: RunArgs, r: Id, row: RunRow)
      returns (err: Option<RunError>, ents: seq<Id>, rels: seq<Id>, evs: seq<Id>)
      modifies session
      ensures var (x, e) := Execute(session.env, old(session.State()), a, r, row);
              && session.State() == x.s && err == e
              && (e.None? ==> ents == x.ents && rels == x.rels && evs == x.evs)
    {
      ents, rels, evs := [], [], [];
      if !a.credentials {
        err := Some(CredentialsMissing);
        return;
      }
      match a.query {
        case Raises(kind) =>
          err := Some(QueryRaised(kind));
        case Returns(q) =>
          if Total(q) > MAX_PROPOSALS_PER_RUN {
            err := Some(TooManyProposals);
            return;
          }
          err, ents, rels, evs := PersistResult(CtxOf(session.env, a), q);
          if err.Some? {
            return;
          }
          SetRun(r, SuccessRow(row, a.finished, |ents|, |rels|, |evs|));
          var ok := session.CommitWork();
          if !ok {
            err := Some(CommitFailed);
          }
      }
    }

    /** The audit row of a run: a new one, or the dispatcher's, committed as running. */
    method OpenRow(a: RunArgs) returns (ok: bool, r: Id, row: RunRow)
      requires a.existing.Some? ==> a.existing.value in session.work.runs
      modifies session
      ensures r == RunIdOf(old(session.State()), a) && row == StartRow(old(session.State()), a)
      ensures (session.State(), ok) == Opened(session.env, old(session.State()), a)
    {
      hide Commit;
      ok := true;
      match a.existing {
        case None =>
          r := session.next;
          row := NewRunRow(a);
          session.next := r + 1;
          SetRun(r, row);
          ok := session.CommitWork();
        case Some(queued) =>
          r := queued;
          row := session.work.runs[r].(status := Running);
          if session.work.runs[r].status != Running {
            SetRun(r, row);
            ok := session.CommitWork();
          }
      }
    }

    /** `run`: the audit row, the execution, and the handler that commits the failure. */
    method RunPlugin(a: RunArgs) returns (o: RunOutcome)
      requires a.existing.Some? ==> a.existing.value in session.work.runs
      modifies session
      ensures (session.State(), o) == Run(session.env, old(session.State()), a)
    {
      hide Execute;
      hide Commit;
      hide StartRow;
      hide Opened;
      if !a.accepted {
        return Refused;
      }
      var ok, r, row := OpenRow(a);
      if !ok {
        return NotStarted;
      }
      var err, ents, rels, evs := ExecutePlugin(a, r, row);
      if err.None? {
        return Done(r, ents, rels, evs);
      }
      SetRun(r, FailureRow(row, a.finished, err.value));
      var _ := session.CommitWork();
      o := Raised(r, err.value);
    }
  }
}
