/** Plugin results handed to the runner: which runs they make. */
module PluginRuns {
  import opened Prelude
  import opened GraphDb
  import opened Batches
  import opened OneShot
  import opened BatchTheorems
  import opened Sessions
  import opened Runner
  import opened RunnerTheorems
  import opened Atomicity
  import opened Plugins
  import opened PluginAttrs
  import Validators

  /** Every relationship ends at the input: what the built-in plugins propose. */
  predicate JoinsInput(q: QueryResult) {
    forall n :: 0 <= n < |q.relationships| ==> UsesInput(q.relationships[n])
  }

  /** The input is a live entity of the case, or no new relationship needs it, or no entity is written
      before the first one that does. */
  ghost predicate InputHolds(c: Ctx, db: DB, q: QueryResult) {
    || EntityInCase(db, c.input, c.caseId)
    || (forall n :: 0 <= n < |q.relationships| ==> LinkedBefore(c, db, q.entities, q.relationships[n]))
    || (forall n :: 0 <= n < |q.entities| ==> Settled(c, db, q.entities[n]))
  }

  /** Once its entities are settled, a relationship that is there already is reflected. */
  lemma LinkedIsReflected(c: Ctx, db: DB, q: QueryResult, rp: RelProposal)
    requires forall n :: 0 <= n < |q.entities| ==> Settled(c, db, q.entities[n])
    requires LinkedBefore(c, db, q.entities, rp)
    ensures Link(c, RefsOf(db, c.caseId, map[], q.entities), rp) in LiveLinks(db, c.caseId)
  {
    hide LiveLinks;
    hide LiveKeys;
    hide TheEntity;
    hide KeysOf;
    hide Settled;
    SettledKeys(c, db, q.entities);
    RefsFollowKeys(db, c.caseId, map[], map[], q.entities);
  }

  lemma GuardMeans(c: Ctx, db: DB, q: QueryResult)
    requires WellFormed(q) && AttrsAccepted(q) && JoinsInput(q)
    ensures AtomicGuard(c, db, q) <==> InputHolds(c, db, q)
  {
    GuardIsGood(c, db, q);
    hide Validators.Accepts;
    hide EndpointNamed;
    hide LinkedBefore;
    hide Settled;
    hide EntityInCase;
    hide Link;
    hide LiveLinks;
    var ps, e, k := Proposals(q), |q.entities|, FirstBad(c, db, q);
    if k < |ps| {
      assert e <= k < e + |q.relationships|;
      if ReflectedUpTo(c, db, q, k) {
        forall n | 0 <= n < e ensures Settled(c, db, q.entities[n]) {
          assert Reflected(c, db, q, ps[n]);
        }
      }
      if InputHolds(c, db, q) {
        forall i | 0 <= i < k ensures Reflected(c, db, q, ps[i]) {
          if i >= e {
            assert Good(c, db, q, ps[i]);
            LinkedIsReflected(c, db, q, q.relationships[i - e]);
          }
        }
      }
    }
  }

  /** When a run with a well-formed result of accepted attributes is atomic whatever fails: exactly when it
      stops before its batch, or its input is still there, or nothing new needs the input, or everything
      before the first relationship that does is in the tables already. */
  lemma WellFormedIsAtomic(env: Env, s: Store, a: RunArgs, r: Id, row: RunRow)
    requires Clean(s, a) && a.query.Returns? && WellFormed(a.query.result) && AttrsAccepted(a.query.result)
    requires JoinsInput(a.query.result)
    ensures (forall fault: nat -> Fault :: WholeOrNothing(env.(fault := fault), s, a, r, row)) <==>
            (ReachesBatch(a) ==> InputHolds(CtxOf(env, a), s.work, a.query.result))
  {
    hide Clean;
    hide WholeOrNothing;
    GuardMeans(CtxOf(env, a), s.work, a.query.result);
    AtomicIff(env, s, a, r, row);
    hide AtomicGuard;
    hide InputHolds;
  }

  /** A built-in plugin's run whose evidence spec is accepted: its attributes always are. */
  lemma PluginIsAtomicIff(env: Env, s: Store, a: RunArgs, r: Id, row: RunRow, fs: seq<Find>, ev: EvidenceProposal)
    requires Clean(s, a) && a.query == Returns(ResultOf(fs, ev))
    requires DistinctTags(fs) && AllSmall(fs) && Validators.Accepts(ev.spec)
    ensures (forall fault: nat -> Fault :: WholeOrNothing(env.(fault := fault), s, a, r, row)) <==>
            (ReachesBatch(a) ==> InputHolds(CtxOf(env, a), s.work, a.query.result))
  {
    hide Clean;
    hide AllSmall;
    hide Validators.Accepts;
    FindsAreWellFormed(fs, [ev]);
    SmallFindsAccepted(fs, ev);
    assert JoinsInput(ResultOf(fs, ev));
    hide WholeOrNothing;
    hide InputHolds;
    hide ResultOf;
    WellFormedIsAtomic(env, s, a, r, row);
  }

  /** A crt.sh run is turned away before its batch exactly when it found 1000 names, its own cap, or more:
      the runner's cap leaves room for 999. */
  lemma CrtShRefusedIff(env: Env, s: Store, a: RunArgs, r: Id, row: RunRow, names: seq<string>, ev: EvidenceProposal)
    requires Fresh(s) && a.credentials && a.query == Returns(CrtShResult(names, ev))
    ensures RunFrom(env, s, a, r, row).1 == Raised(r, TooManyProposals) <==> |names| >= 1000
    ensures |names| >= 1000 ==> Data(RunFrom(env, s, a, r, row).0.base) == Data(s.base)
  {
    CrtShCap(names, ev);
    FaultlessRun(env, s, a, r, row);
    RunEnds(env, s, a, r, row);
    hide Handle;
    hide Persist;
    hide LogGrows;
  }
}
