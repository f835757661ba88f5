/** When a run is atomic: `_persist` promises that a batch is committed whole or not at all, and this is
    exactly when that promise is kept, as a condition on the batch and the tables before the run. */
module Atomicity {
  import opened Prelude
  import opened Values
  import opened GraphDb
  import opened Batches
  import opened OneShot
  import opened BatchTheorems
  import opened Sessions
  import opened Runner
  import opened RunnerTheorems
  import Validators

  // ---------- The condition ----------

  /** A proposal the batch can accept on these tables: its attributes pass, its ends are named in the same
      result, and if the input is one of them, that is a live entity of the case or the link is there. */
  ghost predicate Good(c: Ctx, db: DB, q: QueryResult, p: Proposal) {
    match p
    case PE(ep) => Validators.Accepts(ep.attrs)
    case PR(rp) =>
      && EndpointNamed(q, rp.src) && EndpointNamed(q, rp.dst) && Validators.Accepts(rp.attrs)
      && InputServes(c, db, q.entities, rp)
    case PV(vp) => Validators.Accepts(vp.spec)
  }

  ghost predicate GoodUpTo(c: Ctx, db: DB, q: QueryResult, k: nat)
    requires k <= |Proposals(q)|
  {
    forall i :: 0 <= i < k ==> Good(c, db, q, Proposals(q)[i])
  }

  /** The first proposal the batch cannot accept, or its length. */
  ghost function FirstBad(c: Ctx, db: DB, q: QueryResult): (k: nat)
    ensures k <= |Proposals(q)| && GoodUpTo(c, db, q, k) && (k < |Proposals(q)| ==> !Good(c, db, q, Proposals(q)[k]))
  {
    BadFrom(c, db, q, 0)
  }

  ghost function BadFrom(c: Ctx, db: DB, q: QueryResult, i: nat): (k: nat)
    requires i <= |Proposals(q)| && GoodUpTo(c, db, q, i)
    ensures k <= |Proposals(q)| && GoodUpTo(c, db, q, k) && (k < |Proposals(q)| ==> !Good(c, db, q, Proposals(q)[k]))
    decreases |Proposals(q)| - i
  {
    if i == |Proposals(q)| || !Good(c, db, q, Proposals(q)[i]) then i else BadFrom(c, db, q, i + 1)
  }

  /** A proposal the tables already reflect, so that applying it writes nothing. */
  ghost predicate Reflected(c: Ctx, db: DB, q: QueryResult, p: Proposal) {
    match p
    case PE(ep) => Settled(c, db, ep)
    case PR(rp) => Link(c, RefsOf(db, c.caseId, map[], q.entities), rp) in LiveLinks(db, c.caseId)
    case PV(_) => false
  }

  ghost predicate ReflectedUpTo(c: Ctx, db: DB, q: QueryResult, k: nat)
    requires k <= |Proposals(q)|
  {
    forall i :: 0 <= i < k ==> Reflected(c, db, q, Proposals(q)[i])
  }

  /** Nothing is refused, or everything before the first refusal is already there. */
  ghost predicate AtomicGuard(c: Ctx, db: DB, q: QueryResult) {
    FirstBad(c, db, q) == |Proposals(q)| || ReflectedUpTo(c, db, q, FirstBad(c, db, q))
  }

  // ---------- Prefixes of a batch ----------

  function Min(a: nat, b: nat): nat {
    if a <= b then a else b
  }

  /** The result cut down to its first `k` proposals. */
  function Cut(q: QueryResult, k: nat): QueryResult
    requires k <= |Proposals(q)|
  {
    var e := Min(k, |q.entities|);
    var r := Min(k - e, |q.relationships|);
    QueryResult(q.entities[..e], q.relationships[..r], q.evidence[..k - e - r])
  }

  lemma CutIsPrefix(q: QueryResult, k: nat)
    requires k <= |Proposals(q)|
    ensures Proposals(Cut(q, k)) == Proposals(q)[..k]
  {
  }

  lemma CutNames(q: QueryResult, k: nat)
    requires k <= |Proposals(q)|
    ensures Cut(q, k).relationships != [] ==> Cut(q, k).entities == q.entities
    ensures Cut(q, k).evidence != [] ==> Cut(q, k).relationships == q.relationships
  {
  }

  /** The guard of a whole batch, proposal by proposal. */
  lemma GuardIsGood(c: Ctx, db: DB, q: QueryResult)
    ensures AttrsAccepted(q) && RefsResolve(q) && InputServesAll(c, db, q) <==> GoodUpTo(c, db, q, |Proposals(q)|)
  {
    hide Validators.Accepts;
    hide EndpointNamed;
    hide InputServes;
    var ps, e, r := Proposals(q), |q.entities|, |q.relationships|;
    assert forall n :: 0 <= n < e ==> ps[n] == PE(q.entities[n]);
    assert forall n :: 0 <= n < r ==> ps[e + n] == PR(q.relationships[n]);
    assert forall n :: 0 <= n < |q.evidence| ==> ps[e + r + n] == PV(q.evidence[n]);
    if GoodUpTo(c, db, q, |ps|) {
      forall n | 0 <= n < e ensures Validators.Accepts(q.entities[n].attrs) {
        assert Good(c, db, q, ps[n]);
      }
      forall n | 0 <= n < r
        ensures EndpointNamed(q, q.relationships[n].src) && EndpointNamed(q, q.relationships[n].dst)
        ensures Validators.Accepts(q.relationships[n].attrs)
        ensures InputServes(c, db, q.entities, q.relationships[n])
      {
        assert Good(c, db, q, ps[e + n]);
      }
      forall n | 0 <= n < |q.evidence| ensures Validators.Accepts(q.evidence[n].spec) {
        assert Good(c, db, q, ps[e + r + n]);
      }
    }
  }

  lemma CutGood(c: Ctx, db: DB, q: QueryResult, k: nat)
    requires k <= |Proposals(q)|
    ensures |Proposals(Cut(q, k))| == k && (GoodUpTo(c, db, Cut(q, k), k) <==> GoodUpTo(c, db, q, k))
  {
    CutIsPrefix(q, k);
    hide Validators.Accepts;
    var q' := Cut(q, k);
    forall i | 0 <= i < k ensures Good(c, db, q', Proposals(q')[i]) <==> Good(c, db, q, Proposals(q)[i]) {
      assert Proposals(q')[i] == Proposals(q)[i];
      CutNames(q, k);
      hide Cut;
      if Proposals(q)[i].PR? {
        assert q'.relationships != [] by {
          assert Proposals(q')[i].PR?;
        }
      }
    }
  }

  /** A prefix of the batch goes through exactly when none of its proposals is bad. */
  lemma PrefixOkIff(c: Ctx, db: DB, next: Id, q: QueryResult, k: nat)
    requires Consistent(db, next) && UniqueEntities(db, c.caseId) && UniqueRels(db, c.caseId)
    requires c.input < next && k <= |Proposals(q)|
    ensures ApplyAll(c, Start(db, next), Proposals(q)[..k]).Ok? <==> GoodUpTo(c, db, q, k)
  {
    hide ApplyAll;
    hide Consistent;
    hide UniqueEntities;
    hide UniqueRels;
    hide AttrsAccepted;
    hide RefsResolve;
    hide InputServesAll;
    BatchSucceedsIff(c, db, next, Cut(q, k));
    CutIsPrefix(q, k);
    CutGood(c, db, q, k);
    GuardIsGood(c, db, Cut(q, k));
  }

  // ---------- Batches that write nothing ----------

  lemma CutReflected(c: Ctx, db: DB, q: QueryResult, k: nat)
    requires k <= |Proposals(q)|
    ensures |Proposals(Cut(q, k))| == k && (ReflectedUpTo(c, db, Cut(q, k), k) <==> ReflectedUpTo(c, db, q, k))
  {
    CutIsPrefix(q, k);
    hide Settled;
    hide LiveLinks;
    hide RefsOf;
    hide Link;
    var q' := Cut(q, k);
    forall i | 0 <= i < k ensures Reflected(c, db, q', Proposals(q')[i]) <==> Reflected(c, db, q, Proposals(q)[i]) {
      assert Proposals(q')[i] == Proposals(q)[i];
      CutNames(q, k);
      hide Cut;
      if Proposals(q)[i].PR? {
        assert q'.relationships != [] by {
          assert Proposals(q')[i].PR?;
        }
      }
    }
  }

  /** The same, loop by loop. */
  ghost predicate AllReflected(c: Ctx, db: DB, q: QueryResult) {
    && (forall n :: 0 <= n < |q.entities| ==> Settled(c, db, q.entities[n]))
    && LinksOf(c, RefsOf(db, c.caseId, map[], q.entities), q.relationships) <= LiveLinks(db, c.caseId)
    && q.evidence == []
  }

  lemma ReflectedByLoop(c: Ctx, db: DB, q: QueryResult)
    ensures ReflectedUpTo(c, db, q, |Proposals(q)|) <==> AllReflected(c, db, q)
  {
    hide Settled;
    hide LiveLinks;
    hide RefsOf;
    hide Link;
    var ps, e, r := Proposals(q), |q.entities|, |q.relationships|;
    var refs := RefsOf(db, c.caseId, map[], q.entities);
    assert forall n :: 0 <= n < e ==> ps[n] == PE(q.entities[n]);
    assert forall n :: 0 <= n < r ==> ps[e + n] == PR(q.relationships[n]);
    assert forall n :: 0 <= n < |q.evidence| ==> ps[e + r + n] == PV(q.evidence[n]);
    if ReflectedUpTo(c, db, q, |ps|) {
      forall n | 0 <= n < e ensures Settled(c, db, q.entities[n]) {
        assert Reflected(c, db, q, ps[n]);
      }
      forall k | k in LinksOf(c, refs, q.relationships) ensures k in LiveLinks(db, c.caseId) {
        var n :| 0 <= n < r && Link(c, refs, q.relationships[n]) == k;
        assert Reflected(c, db, q, ps[e + n]);
      }
      assert |ps| > e + r ==> Reflected(c, db, q, ps[e + r]);
    }
    if AllReflected(c, db, q) {
      forall i | 0 <= i < |ps| ensures Reflected(c, db, q, ps[i]) {
        if i >= e {
          assert Link(c, refs, q.relationships[i - e]) in LinksOf(c, refs, q.relationships);
        }
      }
    }
  }

  lemma SettledKeys(c: Ctx, db: DB, eps: seq<EntityProposal>)
    requires forall n :: 0 <= n < |eps| ==> Settled(c, db, eps[n])
    ensures KeysOf(eps) <= LiveKeys(db, c.caseId)
  {
    forall n | 0 <= n < |eps| ensures ProposalKey(eps[n]) in LiveKeys(db, c.caseId) {
      var i :| i in EntityMatches(db, c.caseId, ProposalKey(eps[n]));
    }
  }

  lemma NamesResolve(c: Ctx, db: DB, q: QueryResult)
    requires KeysOf(q.entities) <= LiveKeys(db, c.caseId) && RefsResolve(q)
    ensures var refs := RefsOf(db, c.caseId, map[], q.entities);
            forall n :: 0 <= n < |q.relationships| ==> Resolves(c, refs, q.relationships[n])
  {
    hide LiveKeys;
    hide KeysOf;
    RefsOfNames(db, c.caseId, map[], q.entities);
    forall n | 0 <= n < |q.relationships|
      ensures Resolves(c, RefsOf(db, c.caseId, map[], q.entities), q.relationships[n])
    {
      assert EndpointNamed(q, q.relationships[n].src) && EndpointNamed(q, q.relationships[n].dst);
    }
  }

  /** A batch whose proposals are all reflected leaves the database as it is. */
  lemma ReflectedWritesNothing(c: Ctx, db: DB, next: Id, q: QueryResult)
    requires Consistent(db, next) && UniqueEntities(db, c.caseId) && UniqueRels(db, c.caseId)
    requires AttrsAccepted(q) && RefsResolve(q) && AllReflected(c, db, q)
    ensures ApplyAll(c, Start(db, next), Proposals(q)).Ok?
    ensures ApplyAll(c, Start(db, next), Proposals(q)).value.db == db
  {
    SettledKeys(c, db, q.entities);
    NamesResolve(c, db, q);
    assert IdsBelow(db, next) by {
      IdsAreBelow(db, next);
    }
    assert NewRows(c, next, []) == [] && db.evidence + [] == db.evidence;
    hide Consistent;
    hide UniqueEntities;
    hide UniqueRels;
    hide ApplyAll;
    hide IdsBelow;
    hide Settled;
    hide LinksOf;
    hide LiveLinks;
    hide Resolves;
    hide AttrsAccepted;
    RerunFrom(c, c, db, next, q, RefsOf(db, c.caseId, map[], q.entities));
  }

  /** A batch that leaves the tables as they are was reflected in them. */
  lemma WritesNothingIsReflected(c: Ctx, db: DB, next: Id, q: QueryResult)
    requires Consistent(db, next) && UniqueEntities(db, c.caseId) && UniqueRels(db, c.caseId)
    requires ApplyAll(c, Start(db, next), Proposals(q)).Ok?
    requires Data(ApplyAll(c, Start(db, next), Proposals(q)).value.db) == Data(db)
    ensures AllReflected(c, db, q)
  {
    var db' := ApplyAll(c, Start(db, next), Proposals(q)).value.db;
    var refs := FirstRunLeaves(c, db, next, q);
    var _ := EvidenceAppended(c, Start(db, next), q);
    hide ApplyAll;
    hide Consistent;
    hide LiveLinks;
    hide LinksOf;
    SameRels(c.caseId, db', db);
    RefsOfSame(db', db, c.caseId, map[], q.entities);
    hide RefsOf;
    forall n | 0 <= n < |q.entities| ensures Settled(c, db, q.entities[n]) {
      SettledSame(c, c, db', db, q.entities[n]);
    }
  }

  /** A prefix that goes through leaves the tables as they were exactly when it is reflected in them. */
  lemma PrefixIdleIff(c: Ctx, db: DB, next: Id, q: QueryResult, k: nat)
    requires Consistent(db, next) && UniqueEntities(db, c.caseId) && UniqueRels(db, c.caseId)
    requires c.input < next && k <= |Proposals(q)| && GoodUpTo(c, db, q, k)
    ensures var b := ApplyAll(c, Start(db, next), Proposals(q)[..k]);
            b.Ok? && (Data(b.value.db) == Data(db) <==> ReflectedUpTo(c, db, q, k))
  {
    hide Consistent;
    hide UniqueEntities;
    hide UniqueRels;
    hide ApplyAll;
    hide AttrsAccepted;
    hide RefsResolve;
    hide InputServesAll;
    hide AllReflected;
    hide GoodUpTo;
    hide ReflectedUpTo;
    PrefixOkIff(c, db, next, q, k);
    CutIsPrefix(q, k);
    CutGood(c, db, q, k);
    GuardIsGood(c, db, Cut(q, k));
    CutReflected(c, db, q, k);
    ReflectedByLoop(c, db, Cut(q, k));
    if ReflectedUpTo(c, db, q, k) {
      ReflectedWritesNothing(c, db, next, Cut(q, k));
    }
    if Data(ApplyAll(c, Start(db, next), Proposals(q)[..k]).value.db) == Data(db) {
      WritesNothingIsReflected(c, db, next, Cut(q, k));
    }
  }

  // ---------- Runs ----------

  /** The run gets as far as its batch. */
  predicate ReachesBatch(a: RunArgs) {
    a.credentials && a.query.Returns? && Total(a.query.result) <= MAX_PROPOSALS_PER_RUN
  }

  /** What the caller knows before the run: a consistent, committed state without duplicate keys and
      links in the case, and an input id that was given out. The input itself may be deleted by now. */
  ghost predicate Clean(s: Store, a: RunArgs) {
    && Fresh(s) && Consistent(s.work, s.next)
    && UniqueEntities(s.work, a.caseId) && UniqueRels(s.work, a.caseId) && a.input < s.next
  }

  /** Where a run stops by itself, if it gets as far as its batch. */
  ghost function BadAt(env: Env, s: Store, a: RunArgs): (k: nat)
    requires a.query.Returns?
    ensures k <= |ProposalsOf(a)|
  {
    FirstBad(CtxOf(env, a), s.work, a.query.result)
  }

  lemma PrefixOfRun(env: Env, s: Store, a: RunArgs, n: nat)
    requires Clean(s, a) && a.query.Returns? && n <= |ProposalsOf(a)|
    ensures Prefix(env, s, a, n).Ok? <==> GoodUpTo(CtxOf(env, a), s.work, a.query.result, n)
    ensures Prefix(env, s, a, n).Ok? ==>
              (Data(Prefix(env, s, a, n).value.db) == Data(s.work) <==>
               ReflectedUpTo(CtxOf(env, a), s.work, a.query.result, n))
  {
    hide Consistent;
    hide UniqueEntities;
    hide UniqueRels;
    hide GoodUpTo;
    hide ReflectedUpTo;
    hide ApplyAll;
    PrefixOkIff(CtxOf(env, a), s.work, s.next, a.query.result, n);
    if GoodUpTo(CtxOf(env, a), s.work, a.query.result, n) {
      PrefixIdleIff(CtxOf(env, a), s.work, s.next, a.query.result, n);
    }
  }

  /** A run that stops at proposal `n` stops at the first bad one. */
  lemma StopsAtFirstBad(env: Env, s: Store, a: RunArgs, n: nat)
    requires Clean(s, a) && a.query.Returns? && n < |ProposalsOf(a)|
    requires Prefix(env, s, a, n).Ok?
    requires Apply(CtxOf(env, a), Prefix(env, s, a, n).value, ProposalsOf(a)[n]).Err?
    ensures n == BadAt(env, s, a)
  {
    hide Clean;
    hide Apply;
    var ps, c := ProposalsOf(a), CtxOf(env, a);
    PrefixOfRun(env, s, a, n);
    PrefixOfRun(env, s, a, n + 1);
    assert ps[..n + 1] == ps[..n] + [ps[n]];
    ApplyAllConcat(c, Start(s.work, s.next), ps[..n], [ps[n]]);
    assert ApplyAll(c, Prefix(env, s, a, n).value, [ps[n]]).Err?;
    hide ApplyAll;
    hide Good;
    var k := BadAt(env, s, a);
  }

  /** A run without faults never undoes its batch, and only a run that does not reach its batch stops
      before it. */
  lemma FaultlessRun(env: Env, s: Store, a: RunArgs, r: Id, row: RunRow)
    requires Fresh(s)
    ensures var (s', o) := RunFrom(env, s, a, r, row);
            && (o.Raised? ==> (BeforeBatch(o.error) <==> !ReachesBatch(a)))
            && (o.Raised? && NoFaultsFrom(env, s.tick) ==>
                  !Undone(o.error) && o.error != CommitFailed && Recorded(env, s', o.error))
            && (!o.Raised? ==> ReachesBatch(a))
  {
    RunTicks(env, s, a, r, row);
    hide Handle;
    hide Persist;
    if ReachesBatch(a) {
      PersistEnds(env, CtxOf(env, a), s, a.query.result);
    }
  }

  // ---------- The theorems ----------

  /** If nothing fails from its start on, a bad proposal commits exactly the prefix before it, with the failure row. */
  lemma BadProposalCommitsPrefix(env: Env, s: Store, a: RunArgs, r: Id, row: RunRow)
    requires Clean(s, a) && NoFaultsFrom(env, s.tick) && ReachesBatch(a) && BadAt(env, s, a) < |ProposalsOf(a)|
    ensures var (s', o) := RunFrom(env, s, a, r, row);
            var n := BadAt(env, s, a);
            && o.Raised? && KeepsPrefix(o.error) && Prefix(env, s, a, n).Ok?
            && Apply(CtxOf(env, a), Prefix(env, s, a, n).value, ProposalsOf(a)[n]) == Err(o.error)
            && s'.base == PutRun(Prefix(env, s, a, n).value.db, r, FailureRow(row, a.finished, o.error))
  {
    hide RunFrom;
    hide LogGrows;
    hide Prefix;
    hide Apply;
    assert Fresh(s);
    hide Clean;
    RunEnds(env, s, a, r, row);
    FaultlessRun(env, s, a, r, row);
    PrefixOfRun(env, s, a, |ProposalsOf(a)|);
    var (s', o) := RunFrom(env, s, a, r, row);
    var n: nat :| n < |ProposalsOf(a)| && Prefix(env, s, a, n).Ok?
      && Apply(CtxOf(env, a), Prefix(env, s, a, n).value, ProposalsOf(a)[n]) == Err(o.error)
      && FailureOver(env, s', s, Prefix(env, s, a, n).value.db, a, r, row, o.error);
    StopsAtFirstBad(env, s, a, n);
  }

  /** What `_persist` promises: the tables are as before the run, or as after its whole batch. */
  ghost predicate WholeOrNothing(env: Env, s: Store, a: RunArgs, r: Id, row: RunRow) {
    var all := Prefix(env, s, a, |ProposalsOf(a)|);
    var base' := RunFrom(env, s, a, r, row).0.base;
    Data(base') == Data(s.base) || (all.Ok? && Data(base') == Data(all.value.db))
  }

  /** An outcome other than a refused proposal is whole or nothing by itself. */
  lemma OtherEndsKeepPromise(env: Env, s: Store, a: RunArgs, r: Id, row: RunRow)
    requires Fresh(s)
    requires RunFrom(env, s, a, r, row).1.Raised? ==> !KeepsPrefix(RunFrom(env, s, a, r, row).1.error)
    ensures WholeOrNothing(env, s, a, r, row)
  {
    hide RunFrom;
    hide LogGrows;
    hide Prefix;
    hide Apply;
    hide Proposals;
    RunEnds(env, s, a, r, row);
  }

  /** Under the guard the promise is kept whatever fails. */
  lemma GuardKeepsPromise(env: Env, s: Store, a: RunArgs, r: Id, row: RunRow)
    requires Clean(s, a)
    requires ReachesBatch(a) ==> AtomicGuard(CtxOf(env, a), s.work, a.query.result)
    ensures WholeOrNothing(env, s, a, r, row)
  {
    hide RunFrom;
    hide LogGrows;
    hide Prefix;
    hide Apply;
    hide Reflected;
    hide WholeOrNothing;
    assert Fresh(s);
    hide Clean;
    FaultlessRun(env, s, a, r, row);
    var (s', o) := RunFrom(env, s, a, r, row);
    if o.Raised? && KeepsPrefix(o.error) {
      RefusedKeepsPromise(env, s, a, r, row);
    } else {
      OtherEndsKeepPromise(env, s, a, r, row);
    }
  }

  lemma RefusedKeepsPromise(env: Env, s: Store, a: RunArgs, r: Id, row: RunRow)
    requires Clean(s, a) && a.query.Returns? && AtomicGuard(CtxOf(env, a), s.work, a.query.result)
    requires RunFrom(env, s, a, r, row).1.Raised? && KeepsPrefix(RunFrom(env, s, a, r, row).1.error)
    ensures WholeOrNothing(env, s, a, r, row)
  {
    hide RunFrom;
    hide LogGrows;
    hide Prefix;
    hide Apply;
    hide Reflected;
    hide Proposals;
    assert Fresh(s);
    hide Clean;
    RunEnds(env, s, a, r, row);
    var (s', o) := RunFrom(env, s, a, r, row);
    var n: nat :| n < |ProposalsOf(a)| && Prefix(env, s, a, n).Ok?
      && Apply(CtxOf(env, a), Prefix(env, s, a, n).value, ProposalsOf(a)[n]) == Err(o.error)
      && FailureOver(env, s', s, Prefix(env, s, a, n).value.db, a, r, row, o.error);
    StopsAtFirstBad(env, s, a, n);
    PrefixOfRun(env, s, a, n);
  }

  /** Without the guard it is broken, although nothing fails. */
  lemma NoGuardBreaksPromise(env: Env, s: Store, a: RunArgs, r: Id, row: RunRow)
    requires Clean(s, a) && NoFaultsFrom(env, s.tick) && ReachesBatch(a)
    requires !AtomicGuard(CtxOf(env, a), s.work, a.query.result)
    ensures !WholeOrNothing(env, s, a, r, row)
  {
    BadProposalCommitsPrefix(env, s, a, r, row);
    PrefixOfRun(env, s, a, BadAt(env, s, a));
    PrefixOfRun(env, s, a, |ProposalsOf(a)|);
    hide RunFrom;
    hide Prefix;
    hide Apply;
    hide Good;
    hide Clean;
  }

  /** Exactly when a run is atomic, as its caller can tell before it: under every schedule of faults the
      tables end as before the run or as after its whole batch, if and only if the run stops before its
      batch, or no proposal is refused, or everything before the first refused one is in the tables
      already. */
  lemma AtomicIff(env: Env, s: Store, a: RunArgs, r: Id, row: RunRow)
    requires Clean(s, a)
    ensures (forall fault: nat -> Fault :: WholeOrNothing(env.(fault := fault), s, a, r, row)) <==>
            (ReachesBatch(a) ==> AtomicGuard(CtxOf(env, a), s.work, a.query.result))
  {
    if ReachesBatch(a) ==> AtomicGuard(CtxOf(env, a), s.work, a.query.result) {
      forall fault: nat -> Fault ensures WholeOrNothing(env.(fault := fault), s, a, r, row) {
        assert CtxOf(env.(fault := fault), a) == CtxOf(env, a);
        GuardKeepsPromise(env.(fault := fault), s, a, r, row);
      }
    } else {
      var faultless := env.(fault := _ => NoFault);
      assert CtxOf(faultless, a) == CtxOf(env, a);
      NoGuardBreaksPromise(faultless, s, a, r, row);
    }
  }

  // ---------- Witnesses ----------

  const CASE: CaseId := "00000000-0000-0000-0000-000000000000"

  const INPUT_ENTITY := Entity(CASE, DOMAIN, "example.org", VMap([]), 1.0, true)

  /** One live entity, 0, and its running audit row, 1. */
  function SmallStore(): Store {
    var row := RunRow(CASE, 0, "crtsh@0.1.0", 0, None, Running, None, 0, 0, 0);
    var db := PutRun(PutEntity(EMPTY_DB, 0, INPUT_ENTITY), 1, row);
    Store(db, db, [db], map[], false, 0, 2)
  }

  /** The same after the input was soft-deleted. */
  function DeletedStore(): Store {
    var db := DropEntity(SmallStore().work, 0);
    Store(db, db, [db], map[], false, 0, 2)
  }

  /** A new subdomain, and a relationship from `ref` to the input, in the shape of a crt.sh result. */
  function OneSubdomain(ref: string): QueryResult {
    QueryResult([EntityProposal("sub-0", DOMAIN, "www.example.org", VMap([]), 0.8)],
                [RelProposal(Endpoint(false, Some(ref)), Endpoint(true, None), SUBDOMAIN_OF, 0.9, VMap([]))], [])
  }

  function SmallRun(q: QueryResult): RunArgs {
    RunArgs(CASE, 0, "crtsh@0.1.0", true, Some(1), true, Returns(q), 0, 1)
  }

  /** The one-entity database before its run. */
  lemma SmallDbIsConsistent()
    ensures Consistent(PutEntity(EMPTY_DB, 0, INPUT_ENTITY), 2)
  {
    assert VerticesMirror(EMPTY_DB) && EdgesMirror(EMPTY_DB);
    assert Consistent(EMPTY_DB, 0);
    hide Consistent;
    InsertEntityKeeps(EMPTY_DB, 0, INPUT_ENTITY);
    LaterIdsKeep(PutEntity(EMPTY_DB, 0, INPUT_ENTITY), 1, 2);
  }

  lemma OneDbInv(env: Env, db: DB, next: Id)
    requires DbOk(env.hash, map[], db, next)
    ensures Inv(env, Store(db, db, [db], map[], false, 0, next))
  {
    hide DbOk;
  }

  lemma SmallStoreIsClean(env: Env, q: QueryResult)
    ensures Inv(env, SmallStore()) && Clean(SmallStore(), SmallRun(q))
    ensures Inv(env, DeletedStore()) && Clean(DeletedStore(), SmallRun(q))
  {
    hide Consistent;
    hide Inv;
    SmallDbIsConsistent();
    var db := SmallStore().work;
    MirrorFrame(PutEntity(EMPTY_DB, 0, INPUT_ENTITY), 2, db, 2);
    OneDbInv(env, db, 2);
    DropEntityKeeps(db, 2, 0);
    OneDbInv(env, DeletedStore().work, 2);
  }

  lemma EmptyAttrsAccepted()
    ensures Validators.Accepts(VMap([]))
  {
    assert Validators.JsonSize(VMap([])) == 2;
  }

  /** The two proposals of `OneSubdomain`: the first goes through, the second is refused. */
  lemma SecondIsBad(c: Ctx, s: Store, ref: string)
    requires c.input == 0 && c.caseId == CASE
    requires (s == SmallStore() && ref != "sub-0") || (s == DeletedStore() && ref == "sub-0")
    ensures var q := OneSubdomain(ref);
            Proposals(q) == [PE(q.entities[0]), PR(q.relationships[0])] && FirstBad(c, s.work, q) == 1
  {
    EmptyAttrsAccepted();
    hide Validators.Accepts;
    var q := OneSubdomain(ref);
    var ps := Proposals(q);
    assert ps == [PE(q.entities[0]), PR(q.relationships[0])];
    assert Good(c, s.work, q, ps[0]);
    assert RefNames(q.entities) == {"sub-0"};
    assert LiveLinks(s.work, CASE) == {};
    assert !Good(c, s.work, q, ps[1]);
  }

  /** What `OneSubdomain` does to either store before it stops. */
  lemma SecondRefused(env: Env, s: Store, ref: string)
    requires (s == SmallStore() && ref != "sub-0") || (s == DeletedStore() && ref == "sub-0")
    ensures var q := OneSubdomain(ref);
            var a := SmallRun(q);
            var b := Prefix(env, s, a, 1);
            && b.Ok? && b.value.db == PutEntity(s.work, 2, NewEntity(CtxOf(env, a), q.entities[0]))
            && Apply(CtxOf(env, a), b.value, ProposalsOf(a)[1]) ==
               Err(if ref == "sub-0" then EndpointNotInCase else UnknownRef)
  {
    var q := OneSubdomain(ref);
    var a := SmallRun(q);
    var c, ps := CtxOf(env, a), ProposalsOf(a);
    SecondIsBad(c, s, ref);
    EmptyAttrsAccepted();
    hide Validators.Accepts;
    assert EntityMatches(s.work, CASE, ProposalKey(q.entities[0])) == {};
    assert ps[..1] == [ps[0]] && [ps[0]][1..] == [];
    var first := Apply(c, Start(s.work, 2), ps[0]);
    assert first.Ok?;
    assert ApplyAll(c, first.value, []) == first;
    assert Prefix(env, s, a, 1) == ApplyAll(c, Start(s.work, 2), [ps[0]]) == first;
    assert first.value.refs == map["sub-0" := 2];
    assert first.value.db.rels == map[];
    assert RelMatches(first.value.db, CASE, LinkKey(2, 0, SUBDOMAIN_OF)) == {};
  }

  /** A faultless run whose second proposal is refused, after the first one inserted an entity. */
  lemma InsertedIsCommitted(env: Env, s: Store, a: RunArgs, r: Id, row: RunRow, i: Id, e: RunError)
    requires Clean(s, a) && NoFaultsFrom(env, s.tick) && ReachesBatch(a) && BadAt(env, s, a) == 1 < |ProposalsOf(a)|
    requires Prefix(env, s, a, 1).Ok? && i in Prefix(env, s, a, 1).value.db.entities && i !in s.base.entities
    requires Apply(CtxOf(env, a), Prefix(env, s, a, 1).value, ProposalsOf(a)[1]) == Err(e)
    ensures var (s', o) := RunFrom(env, s, a, r, row);
            && o == Raised(r, e)
            && s'.base == PutRun(Prefix(env, s, a, 1).value.db, r, FailureRow(row, a.finished, e))
            && !WholeOrNothing(env, s, a, r, row)
  {
    hide RunFrom;
    hide Prefix;
    hide Apply;
    hide Good;
    hide Clean;
    BadProposalCommitsPrefix(env, s, a, r, row);
    var s', o := RunFrom(env, s, a, r, row).0, RunFrom(env, s, a, r, row).1;
    assert o == Raised(r, e) by {
      assert Fresh(s) by {
        CleanIsFresh(s, a);
      }
      RunEnds(env, s, a, r, row);
    }
    PrefixOfRun(env, s, a, |ProposalsOf(a)|);
    assert i in s'.base.entities;
  }

  lemma CleanIsFresh(s: Store, a: RunArgs)
    requires Clean(s, a)
    ensures Fresh(s)
  {
  }

  /** One with a ref nobody proposed: nothing fails, and the first proposal is committed with the failure
      row. */
  lemma PrefixIsCommitted(env: Env)
    requires NoFaultsFrom(env, 0)
    ensures var s, a := SmallStore(), SmallRun(OneSubdomain("nobody"));
            var (s', o) := RunFrom(env, s, a, 1, s.work.runs[1]);
            && o == Raised(1, UnknownRef)
            && s'.base == PutRun(PutEntity(s.base, 2, NewEntity(CtxOf(env, a), a.query.result.entities[0])), 1,
                                 FailureRow(s.work.runs[1], 1, UnknownRef))
            && !WholeOrNothing(env, s, a, 1, s.work.runs[1])
  {
    hide RunFrom;
    hide Prefix;
    hide Apply;
    hide Good;
    hide Clean;
    hide Inv;
    hide WholeOrNothing;
    hide NoFaultsFrom;
    hide FirstBad;
    hide NewEntity;
    var s, a := SmallStore(), SmallRun(OneSubdomain("nobody"));
    SmallStoreIsClean(env, a.query.result);
    SecondIsBad(CtxOf(env, a), s, "nobody");
    SecondRefused(env, s, "nobody");
    InsertedIsCommitted(env, s, a, 1, s.work.runs[1], 2, UnknownRef);
  }

  /** One whose result is well formed, but whose input is deleted by the time of its batch. */
  lemma DeletedInputCommitsPrefix(env: Env)
    requires NoFaultsFrom(env, 0)
    ensures var s, a := DeletedStore(), SmallRun(OneSubdomain("sub-0"));
            var (s', o) := RunFrom(env, s, a, 1, s.work.runs[1]);
            && Inv(env, s) && o == Raised(1, EndpointNotInCase)
            && s'.base == PutRun(PutEntity(s.base, 2, NewEntity(CtxOf(env, a), a.query.result.entities[0])), 1,
                                 FailureRow(s.work.runs[1], 1, EndpointNotInCase))
            && !WholeOrNothing(env, s, a, 1, s.work.runs[1])
    ensures AttrsAccepted(OneSubdomain("sub-0")) && RefsResolve(OneSubdomain("sub-0"))
  {
    hide RunFrom;
    hide Prefix;
    hide Apply;
    hide Good;
    hide Clean;
    hide Inv;
    hide WholeOrNothing;
    hide NoFaultsFrom;
    hide FirstBad;
    hide NewEntity;
    hide Validators.Accepts;
    var s, a := DeletedStore(), SmallRun(OneSubdomain("sub-0"));
    SmallStoreIsClean(env, a.query.result);
    SecondIsBad(CtxOf(env, a), s, "sub-0");
    SecondRefused(env, s, "sub-0");
    InsertedIsCommitted(env, s, a, 1, s.work.runs[1], 2, EndpointNotInCase);
    SubdomainIsGood();
  }

  lemma SubdomainIsGood()
    ensures AttrsAccepted(OneSubdomain("sub-0")) && RefsResolve(OneSubdomain("sub-0"))
  {
    EmptyAttrsAccepted();
    hide Validators.Accepts;
    var q := OneSubdomain("sub-0");
    assert q.entities[0].ref in RefNames(q.entities);
  }

  /** A failed run whose row stays running: the flush fails, and with it the handler's commit. */
  lemma FailureIsLost(env: Env)
    requires env.fault(0) != NoFault
    ensures var s, a := SmallStore(), SmallRun(OneSubdomain("nobody"));
            var (s', o) := RunFrom(env, s, a, 1, s.work.runs[1]);
            o == Raised(1, FlushFailed) && s'.base == s.base && s'.base.runs[1].status == Running
  {
    var s, a := SmallStore(), SmallRun(OneSubdomain("nobody"));
    hide RunFrom;
    hide Clean;
    hide Inv;
    SmallStoreIsClean(env, a.query.result);
    FirstFlushFails(env);
    RaisedByBatch(env, s, a, 1, s.work.runs[1], FlushFailed);
    FailureRecordedIff(env, s, a, 1, s.work.runs[1]);
  }

  lemma FirstFlushFails(env: Env)
    requires env.fault(0) != NoFault
    ensures var s, a := SmallStore(), SmallRun(OneSubdomain("nobody"));
            PersistAll(env, CtxOf(env, a), Begin(s), Proposals(a.query.result)).1 == Some(FlushFailed)
  {
    EmptyAttrsAccepted();
    hide Validators.Accepts;
    var s, a := SmallStore(), SmallRun(OneSubdomain("nobody"));
    var ps, c := Proposals(a.query.result), CtxOf(env, a);
    assert ps[0] == PE(a.query.result.entities[0]);
    assert EntityMatches(s.work, CASE, ProposalKey(a.query.result.entities[0])) == {};
    assert PersistOne(env, c, Begin(s), ps[0]).1 == Some(FlushFailed);
  }

  lemma RaisedByBatch(env: Env, s: Store, a: RunArgs, r: Id, row: RunRow, e: RunError)
    requires ReachesBatch(a)
    requires PersistAll(env, CtxOf(env, a), Begin(s), Proposals(a.query.result)).1 == Some(e)
    ensures RunFrom(env, s, a, r, row).1 == Raised(r, e)
  {
    hide PersistAll;
    hide Handle;
  }
}
