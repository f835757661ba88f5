/** A successful batch is its one-shot specification, exactly when it succeeds, and why running it
    again changes nothing in the graph. */
module BatchTheorems {
  import opened Prelude
  import opened GraphDb
  import opened Batches
  import opened Firsts
  import opened OneShot
  import Validators

  // ---------- Relationships ----------

  predicate Resolves(c: Ctx, refs: map<string, Id>, rp: RelProposal) {
    ResolveRef(c, refs, rp.src).Ok? && ResolveRef(c, refs, rp.dst).Ok?
  }

  predicate LinkEndsInCase(c: Ctx, db: DB, k: LinkKey) {
    EntityInCase(db, k.src, c.caseId) && EntityInCase(db, k.dst, c.caseId)
  }

  ghost predicate RelStepped(c: Ctx, b: Batch, b': Batch, rp: RelProposal) {
    var k := Link(c, b.refs, rp);
    && UniqueRels(b'.db, c.caseId)
    && LiveLinks(b'.db, c.caseId) == LiveLinks(b.db, c.caseId) + {k}
    && if k in LiveLinks(b.db, c.caseId) then b' == b
       else b' == b.(db := PutRel(b.db, b.next, NewRel(c, k.src, k.dst, rp)), next := b.next + 1,
                     rels := b.rels + [b.next])
  }

  lemma RelStep(c: Ctx, b: Batch, rp: RelProposal)
    requires IdsBelow(b.db, b.next) && UniqueRels(b.db, c.caseId)
    ensures Apply(c, b, PR(rp)).Ok? <==>
            && Resolves(c, b.refs, rp) && Validators.Accepts(rp.attrs)
            && (Link(c, b.refs, rp) in LiveLinks(b.db, c.caseId) || LinkEndsInCase(c, b.db, Link(c, b.refs, rp)))
    ensures Apply(c, b, PR(rp)).Ok? ==> RelStepped(c, b, Apply(c, b, PR(rp)).value, rp)
  {
    var k := Link(c, b.refs, rp);
    var ids := RelMatches(b.db, c.caseId, k);
    if ids == {} {
      assert k !in LiveLinks(b.db, c.caseId) by {
        forall j | j in b.db.rels && RelInCase(b.db, j, c.caseId) ensures LinkKeyOf(b.db.rels[j]) != k {
          assert j !in ids;
        }
      }
      if Apply(c, b, PR(rp)).Ok? {
        RelNewStep(c, b, NewRel(c, k.src, k.dst, rp));
      }
    } else {
      var j :| j in ids;
      assert ids == {j};
      assert k in LiveLinks(b.db, c.caseId);
      assert LiveLinks(b.db, c.caseId) + {k} == LiveLinks(b.db, c.caseId);
    }
  }

  lemma RelNewStep(c: Ctx, b: Batch, r: Relationship)
    requires IdsBelow(b.db, b.next) && UniqueRels(b.db, c.caseId)
    requires r.live && r.caseId == c.caseId && RelMatches(b.db, c.caseId, LinkKeyOf(r)) == {}
    ensures UniqueRels(PutRel(b.db, b.next, r), c.caseId)
    ensures LiveLinks(PutRel(b.db, b.next, r), c.caseId) == LiveLinks(b.db, c.caseId) + {LinkKeyOf(r)}
  {
    var db' := PutRel(b.db, b.next, r);
    assert b.next !in b.db.rels;
    forall j | RelInCase(b.db, j, c.caseId) ensures LinkKeyOf(b.db.rels[j]) != LinkKeyOf(r) {
      assert j !in RelMatches(b.db, c.caseId, LinkKeyOf(r));
    }
    forall j ensures RelInCase(db', j, c.caseId) <==> RelInCase(b.db, j, c.caseId) || j == b.next {
    }
    forall k | k in LiveLinks(b.db, c.caseId) ensures k in LiveLinks(db', c.caseId) {
      var j :| j in b.db.rels && RelInCase(b.db, j, c.caseId) && LinkKeyOf(b.db.rels[j]) == k;
      assert RelInCase(db', j, c.caseId);
    }
    assert RelInCase(db', b.next, c.caseId);
  }

  function LinksOf(c: Ctx, refs: map<string, Id>, rps: seq<RelProposal>): set<LinkKey> {
    set n | 0 <= n < |rps| :: Link(c, refs, rps[n])
  }

  lemma LinksOfCons(c: Ctx, refs: map<string, Id>, rps: seq<RelProposal>)
    requires rps != []
    ensures LinksOf(c, refs, rps) == {Link(c, refs, rps[0])} + LinksOf(c, refs, rps[1..])
  {
    forall k | k in LinksOf(c, refs, rps)
      ensures k in {Link(c, refs, rps[0])} + LinksOf(c, refs, rps[1..])
    {
      var n :| 0 <= n < |rps| && Link(c, refs, rps[n]) == k;
      if n > 0 {
        assert rps[1..][n - 1] == rps[n];
      }
    }
    forall k | k in LinksOf(c, refs, rps[1..])
      ensures k in LinksOf(c, refs, rps)
    {
      var n :| 0 <= n < |rps[1..]| && Link(c, refs, rps[1..][n]) == k;
      assert rps[n + 1] == rps[1..][n];
    }
  }

  function Links(c: Ctx, refs: map<string, Id>, rps: seq<RelProposal>): seq<LinkKey> {
    seq(|rps|, n requires 0 <= n < |rps| => Link(c, refs, rps[n]))
  }

  /** The row a relationship proposal would become. */
  function RowOf(c: Ctx, refs: map<string, Id>, rp: RelProposal): Relationship {
    NewRel(c, Link(c, refs, rp).src, Link(c, refs, rp).dst, rp)
  }

  function RowsOf(c: Ctx, refs: map<string, Id>, rps: seq<RelProposal>): seq<Relationship> {
    seq(|rps|, n requires 0 <= n < |rps| => RowOf(c, refs, rps[n]))
  }

  /** Which proposals create relationships: the first ones of their resolved triples outside `known`,
      in batch order. */
  lemma {:induction false} FirstNewRelsAt(known: set<LinkKey>, c: Ctx, refs: map<string, Id>, rps: seq<RelProposal>)
    returns (at: seq<nat>)
    ensures AreFirsts(known, Links(c, refs, rps), at)
    ensures Picks(RowsOf(c, refs, rps), at, FirstNewRels(known, c, refs, rps))
    decreases |rps|
  {
    at := [];
    if rps != [] {
      hide AreFirsts;
      hide Picks;
      hide Link;
      var k := Link(c, refs, rps[0]);
      var rest := FirstNewRelsAt(known + {k}, c, refs, rps[1..]);
      assert Links(c, refs, rps)[1..] == Links(c, refs, rps[1..]);
      assert RowsOf(c, refs, rps)[1..] == RowsOf(c, refs, rps[1..]);
      FirstsCons(known, Links(c, refs, rps), rest);
      PicksCons(RowsOf(c, refs, rps), rest, FirstNewRels(known + {k}, c, refs, rps[1..]));
      if k in known {
        assert known + {k} == known;
        at := Shift(rest);
        assert [] + at == at;
      } else {
        at := [0] + Shift(rest);
      }
    }
  }

  lemma LinksOfIs(c: Ctx, refs: map<string, Id>, rps: seq<RelProposal>)
    ensures LinksOf(c, refs, rps) == Elems(Links(c, refs, rps))
  {
    hide Link;
    forall k ensures k in LinksOf(c, refs, rps) <==> k in Elems(Links(c, refs, rps)) {
      if k in LinksOf(c, refs, rps) {
        var n :| 0 <= n < |rps| && Link(c, refs, rps[n]) == k;
        assert Links(c, refs, rps)[n] == k;
      }
      if k in Elems(Links(c, refs, rps)) {
        var n :| 0 <= n < |rps| && Links(c, refs, rps)[n] == k;
        assert Link(c, refs, rps[n]) == k;
      }
    }
  }

  function RowLinks(rows: seq<Relationship>): seq<LinkKey> {
    seq(|rows|, n requires 0 <= n < |rows| => LinkKeyOf(rows[n]))
  }

  /** FirstNewRels holds each distinct resolved triple of the batch outside `known` exactly once. */
  lemma FirstNewRelsIsDistinctNew(known: set<LinkKey>, c: Ctx, refs: map<string, Id>, rps: seq<RelProposal>)
    ensures var news := FirstNewRels(known, c, refs, rps);
            && Elems(RowLinks(news)) == LinksOf(c, refs, rps) - known
            && |news| == |LinksOf(c, refs, rps) - known|
            && Distinct(RowLinks(news))
  {
    var at := FirstNewRelsAt(known, c, refs, rps);
    FirstsAreDistinctNew(known, Links(c, refs, rps), at);
    LinksOfIs(c, refs, rps);
    hide Link;
    var news := FirstNewRels(known, c, refs, rps);
    forall m | 0 <= m < |at| ensures RowLinks(news)[m] == KeysAt(Links(c, refs, rps), at)[m] {
      assert news[m] == RowsOf(c, refs, rps)[at[m]];
    }
    assert RowLinks(news) == KeysAt(Links(c, refs, rps), at);
  }

  ghost predicate RelPhased(c: Ctx, b: Batch, b': Batch, rps: seq<RelProposal>) {
    var news := FirstNewRels(LiveLinks(b.db, c.caseId), c, b.refs, rps);
    && b'.db.rels == MergedRels(b.db.rels, b.next, news)
    && b'.next == b.next + |news| && b'.rels == b.rels + IdRange(b.next, |news|)
    && b' == b.(db := b'.db, next := b'.next, rels := b'.rels)
    && b'.db == b.db.(rels := b'.db.rels, graph := b'.db.graph)
    && UniqueRels(b'.db, c.caseId)
    && LiveLinks(b'.db, c.caseId) == LiveLinks(b.db, c.caseId) + LinksOf(c, b.refs, rps)
  }

  /** The relationship loop of `_persist` is the one-shot merge. */
  lemma {:induction false} RelPhase(c: Ctx, b: Batch, rps: seq<RelProposal>)
    requires Consistent(b.db, b.next) && UniqueRels(b.db, c.caseId)
    requires ApplyAll(c, b, RelProposals(rps)).Ok?
    ensures RelPhased(c, b, ApplyAll(c, b, RelProposals(rps)).value, rps)
    decreases |rps|
  {
    if rps == [] {
      assert IdRange(b.next, 0) == [];
      assert b.db.rels == MergedRels(b.db.rels, b.next, []);
      assert LinksOf(c, b.refs, []) == {};
      assert b.db == b.db.(rels := b.db.rels, graph := b.db.graph);
    } else {
      var ps := RelProposals(rps);
      assert ps[0] == PR(rps[0]) && ps[1..] == RelProposals(rps[1..]);
      RelStep(c, b, rps[0]);
      ApplyKeeps(c, b, ps[0]);
      var b1 := Apply(c, b, ps[0]).value;
      RelPhase(c, b1, rps[1..]);
      RelPhasedCons(c, b, b1, ApplyAll(c, b, ps).value, rps);
    }
  }

  lemma RelPhasedCons(c: Ctx, b: Batch, b1: Batch, b': Batch, rps: seq<RelProposal>)
    requires rps != [] && IdsBelow(b.db, b.next)
    requires RelStepped(c, b, b1, rps[0]) && RelPhased(c, b1, b', rps[1..])
    ensures RelPhased(c, b, b', rps)
  {
    hide UniqueRels;
    hide UniqueEntities;
    hide LiveLinks;
    LinksOfCons(c, b.refs, rps);
    if Link(c, b.refs, rps[0]) in LiveLinks(b.db, c.caseId) {
      assert LiveLinks(b.db, c.caseId) + {Link(c, b.refs, rps[0])} == LiveLinks(b.db, c.caseId);
    } else {
      RelShift(c, b.db, b.next, b.refs, rps);
      var n := |FirstNewRels(LiveLinks(b1.db, c.caseId), c, b.refs, rps[1..])|;
      assert IdRange(b.next, n + 1) == [b.next] + IdRange(b.next + 1, n);
    }
  }

  lemma RelShift(c: Ctx, db: DB, next: Id, refs: map<string, Id>, rps: seq<RelProposal>)
    requires rps != [] && forall j :: j in db.rels ==> j < next
    requires Link(c, refs, rps[0]) !in LiveLinks(db, c.caseId)
    ensures var k := Link(c, refs, rps[0]);
            var known := LiveLinks(db, c.caseId);
            var news := FirstNewRels(known + {k}, c, refs, rps[1..]);
            && |FirstNewRels(known, c, refs, rps)| == |news| + 1
            && MergedRels(PutRel(db, next, NewRel(c, k.src, k.dst, rps[0])).rels, next + 1, news) ==
               MergedRels(db.rels, next, FirstNewRels(known, c, refs, rps))
  {
    var k := Link(c, refs, rps[0]);
    var news := FirstNewRels(LiveLinks(db, c.caseId) + {k}, c, refs, rps[1..]);
    MergedRelsCons(db, next, NewRel(c, k.src, k.dst, rps[0]), news);
  }

  lemma MergedRelsCons(db: DB, next: Id, r: Relationship, news: seq<Relationship>)
    requires forall j :: j in db.rels ==> j < next
    ensures MergedRels(PutRel(db, next, r).rels, next + 1, news) == MergedRels(db.rels, next, [r] + news)
  {
    var m, m' := MergedRels(db.rels, next, [r] + news), MergedRels(PutRel(db, next, r).rels, next + 1, news);
    assert m.Keys == m'.Keys;
    forall j | j in m ensures m'[j] == m[j] {
      if j > next {
        assert ([r] + news)[j - next] == news[j - (next + 1)];
      }
    }
  }

  // ---------- Evidence ----------

  lemma EvidenceCons(c: Ctx, b: Batch, vps: seq<EvidenceProposal>)
    requires vps != []
    ensures b.db.evidence + NewRows(c, b.next, vps) ==
            b.db.evidence + [NewEvidence(c, b.next, vps[0])] + NewRows(c, b.next + 1, vps[1..])
    ensures b.evs + IdRange(b.next, |vps|) == b.evs + [b.next] + IdRange(b.next + 1, |vps[1..]|)
  {
    hide NewEvidence;
  }

  lemma EvidenceStep(c: Ctx, b: Batch, vp: EvidenceProposal)
    ensures Apply(c, b, PV(vp)) ==
            if !Validators.Accepts(vp.spec) then Err(ValidationFailed)
            else Ok(b.(db := b.db.(evidence := b.db.evidence + [NewEvidence(c, b.next, vp)]), next := b.next + 1,
                       evs := b.evs + [b.next]))
  {
  }

  lemma {:induction false} EvidencePhase(c: Ctx, b: Batch, vps: seq<EvidenceProposal>)
    ensures ApplyAll(c, b, EvidenceProposals(vps)).Ok? <==>
            forall n :: 0 <= n < |vps| ==> Validators.Accepts(vps[n].spec)
    ensures ApplyAll(c, b, EvidenceProposals(vps)).Ok? ==>
              ApplyAll(c, b, EvidenceProposals(vps)).value ==
              b.(db := b.db.(evidence := b.db.evidence + NewRows(c, b.next, vps)),
                 next := b.next + |vps|, evs := b.evs + IdRange(b.next, |vps|))
    decreases |vps|
  {
    if vps == [] {
      assert NewRows(c, b.next, vps) == [] && IdRange(b.next, 0) == [];
      assert b.db.evidence + [] == b.db.evidence;
    } else {
      hide Validators.Accepts;
      hide NewEvidence;
      hide Apply;
      var ps := EvidenceProposals(vps);
      assert ps[0] == PV(vps[0]) && ps[1..] == EvidenceProposals(vps[1..]);
      EvidenceStep(c, b, vps[0]);
      assert forall n :: 1 <= n < |vps| ==> vps[n] == vps[1..][n - 1];
      if Apply(c, b, ps[0]).Ok? {
        EvidencePhase(c, Apply(c, b, ps[0]).value, vps[1..]);
        EvidenceCons(c, b, vps);
        hide NewRows;
        hide IdRange;
      }
    }
  }

  // ---------- The batch ----------

  /** Batch refinement: from a state without duplicates, a successful batch leaves exactly the
      one-shot tables, graph, ids and returned lists, and still no duplicates. */
  lemma BatchIsOneShot(c: Ctx, db: DB, next: Id, q: QueryResult)
    requires Consistent(db, next) && UniqueEntities(db, c.caseId) && UniqueRels(db, c.caseId)
    requires ApplyAll(c, Start(db, next), Proposals(q)).Ok?
    ensures var b := ApplyAll(c, Start(db, next), Proposals(q)).value;
            && IsOneShot(c, db, next, q, b)
            && UniqueEntities(b.db, c.caseId) && UniqueRels(b.db, c.caseId)
            && LiveKeys(b.db, c.caseId) == LiveKeys(db, c.caseId) + KeysOf(q.entities)
            && LiveLinks(b.db, c.caseId) == LiveLinks(db, c.caseId) + LinksOf(c, b.refs, q.relationships)
            && |b.ents| == |KeysOf(q.entities) - LiveKeys(db, c.caseId)|
            && |b.rels| == |LinksOf(c, b.refs, q.relationships) - LiveLinks(db, c.caseId)|
            && |b.evs| == |q.evidence|
  {
    var b0 := Start(db, next);
    var es, rs, vs := EntityProposals(q.entities), RelProposals(q.relationships), EvidenceProposals(q.evidence);
    ApplyAllConcat(c, b0, es + rs, vs);
    ApplyAllConcat(c, b0, es, rs);
    var b1 := ApplyAll(c, b0, es).value;
    var b2 := ApplyAll(c, b1, rs).value;
    var b3 := ApplyAll(c, b2, vs).value;
    EntityPhase(c, b0, q.entities);
    AllAcceptedAt(q.entities);
    ApplyAllKeeps(c, b0, es);
    SameRels(c.caseId, db, b1.db);
    RelPhase(c, b1, q.relationships);
    ApplyAllKeeps(c, b1, rs);
    EvidencePhase(c, b2, q.evidence);
    ApplyAllKeeps(c, b2, vs);
    MirrorIsRebuilt(b3.db);
    RefsOfSame(b1.db, b3.db, c.caseId, map[], q.entities);
    SameEntities(c.caseId, b1.db, b3.db);
    SameRels(c.caseId, b2.db, b3.db);
    PhasesAreOneShot(c, db, next, q, b1, b2, b3);
    FirstNewIsDistinctNew(LiveKeys(db, c.caseId), q.entities);
    FirstNewRelsIsDistinctNew(LiveLinks(db, c.caseId), c, b3.refs, q.relationships);
  }

  /** Which proposals survive: a new entity carries the attributes of the first proposal of its key, a
      new relationship everything of the first proposal of its resolved triple, and the returned lists
      follow the order of those first proposals. */
  lemma FirstProposalsSurvive(c: Ctx, db: DB, next: Id, q: QueryResult) returns (entityAt: seq<nat>, relAt: seq<nat>)
    requires Consistent(db, next) && UniqueEntities(db, c.caseId) && UniqueRels(db, c.caseId)
    requires ApplyAll(c, Start(db, next), Proposals(q)).Ok?
    ensures var b := ApplyAll(c, Start(db, next), Proposals(q)).value;
            && AreFirsts(LiveKeys(db, c.caseId), Keys(q.entities), entityAt) && |entityAt| == |b.ents|
            && AreFirsts(LiveLinks(db, c.caseId), Links(c, b.refs, q.relationships), relAt) && |relAt| == |b.rels|
            && (forall m :: 0 <= m < |b.ents| ==>
                  entityAt[m] < |q.entities| && CreatedAs(c, b, q, b.ents[m], entityAt[m]))
            && (forall m :: 0 <= m < |b.rels| ==>
                  relAt[m] < |q.relationships| && LinkedAs(c, b, q, b.rels[m], relAt[m]))
  {
    BatchIsOneShot(c, db, next, q);
    var b := ApplyAll(c, Start(db, next), Proposals(q)).value;
    var refs := FirstRunLeaves(c, db, next, q);
    assert b.refs == refs;
    entityAt := FirstNewAt(LiveKeys(db, c.caseId), q.entities);
    relAt := FirstNewRelsAt(LiveLinks(db, c.caseId), c, b.refs, q.relationships);
    var news := FirstNew(LiveKeys(db, c.caseId), q.entities);
    IdsFresh(db, next);
    hide *;
    OneShotRows(c, db, next, q, b);
    var from := RelsFrom(db, next, c.caseId, q.entities);
    var newRels := FirstNewRels(LiveLinks(db, c.caseId), c, b.refs, q.relationships);
    SameCounts(next, q.entities, entityAt, news);
    SameCounts(from, RowsOf(c, b.refs, q.relationships), relAt, newRels);
    forall m | 0 <= m < |entityAt|
      ensures entityAt[m] < |q.entities| && CreatedAs(c, b, q, b.ents[m], entityAt[m])
    {
      CreatedInMerge(c, db.entities, next, q, b, news, entityAt, m);
    }
    forall m | 0 <= m < |relAt|
      ensures relAt[m] < |q.relationships| && LinkedAs(c, b, q, b.rels[m], relAt[m])
    {
      LinkedInRels(c, from, q, b, newRels, relAt, m);
    }
  }

  lemma SameCounts<T>(from: Id, xs: seq<T>, at: seq<nat>, picked: seq<T>)
    requires Picks(xs, at, picked)
    ensures |at| == |IdRange(from, |picked|)|
  {
  }

  lemma OneShotRows(c: Ctx, db: DB, next: Id, q: QueryResult, b: Batch)
    requires IsOneShot(c, db, next, q, b) && AllBelow(db.rels.Keys, next)
    ensures var news := FirstNew(LiveKeys(db, c.caseId), q.entities);
            var from := RelsFrom(db, next, c.caseId, q.entities);
            var newRels := FirstNewRels(LiveLinks(db, c.caseId), c, b.refs, q.relationships);
            && b.db.entities == Merge(db.entities, next, c, q.entities, news) && b.ents == IdRange(next, |news|)
            && NewAtEnd(b.db.rels, from, newRels) && b.rels == IdRange(from, |newRels|)
  {
    var from := RelsFrom(db, next, c.caseId, q.entities);
    assert AllBelow(db.rels.Keys, from);
    hide RelsFrom;
    hide MergedRels;
    MergedAtEnd(db.rels, from, FirstNewRels(LiveLinks(db, c.caseId), c, b.refs, q.relationships));
  }

  lemma MergedAtEnd(rels: map<Id, Relationship>, from: Id, news: seq<Relationship>)
    requires AllBelow(rels.Keys, from)
    ensures NewAtEnd(MergedRels(rels, from, news), from, news)
  {
    forall m | 0 <= m < |news|
      ensures from + m in MergedRels(rels, from, news) && MergedRels(rels, from, news)[from + m] == news[m]
    {
      assert Within(from + m, from, |news|);
      assert from + m in FreshIds(from, |news|) && from + m !in rels;
    }
  }

  predicate NewAtEnd(rels: map<Id, Relationship>, from: Id, news: seq<Relationship>) {
    forall m :: 0 <= m < |news| ==> from + m in rels && rels[from + m] == news[m]
  }

  lemma CreatedInMerge(c: Ctx, es: map<Id, Entity>, next: Id, q: QueryResult, b: Batch, news: seq<EntityProposal>,
                       at: seq<nat>, m: nat)
    requires b.db.entities == Merge(es, next, c, q.entities, news) && b.ents == IdRange(next, |news|)
    requires m < |at| && Picks(q.entities, at, news) && AllBelow(es.Keys, next)
    ensures m < |b.ents| && at[m] < |q.entities| && CreatedAs(c, b, q, b.ents[m], at[m])
  {
    hide MaxFrom;
    assert Within(next + m, next, |at|);
    assert next + m in FreshIds(next, |news|) && next + m !in es;
    assert b.ents[m] == next + m;
    assert news[m] == q.entities[at[m]];
  }

  lemma LinkedInRels(c: Ctx, from: Id, q: QueryResult, b: Batch, news: seq<Relationship>, at: seq<nat>, m: nat)
    requires NewAtEnd(b.db.rels, from, news) && b.rels == IdRange(from, |news|)
    requires m < |at| && Picks(RowsOf(c, b.refs, q.relationships), at, news)
    requires forall n :: 0 <= n < |q.relationships| ==> Resolves(c, b.refs, q.relationships[n])
    ensures m < |b.rels| && at[m] < |q.relationships| && LinkedAs(c, b, q, b.rels[m], at[m])
  {
    assert Resolves(c, b.refs, q.relationships[at[m]]);
    assert b.rels[m] == from + m;
    assert news[m] == RowsOf(c, b.refs, q.relationships)[at[m]];
  }

  /** Row `i` has the case of the run and type, name and attributes of proposal `n`, with the highest
      confidence proposed for its key. */
  predicate CreatedAs(c: Ctx, b: Batch, q: QueryResult, i: Id, n: nat)
    requires n < |q.entities|
  {
    var ep := q.entities[n];
    && i in b.db.entities
    && b.db.entities[i] ==
       Entity(c.caseId, ep.etype, ep.name, ep.attrs, MaxFrom(ep.confidence, NodeKey(ep.etype, ep.name), q.entities),
              true)
  }

  /** The row a relationship end stands for: the input wins over a ref. */
  predicate EndIs(c: Ctx, refs: map<string, Id>, ep: Endpoint, i: Id) {
    if ep.input then i == c.input else ep.ref.Some? && ep.ref.value in refs && refs[ep.ref.value] == i
  }

  /** Row `j` has the case and plugin of the run, the ends, type, confidence and attributes of proposal `n`. */
  predicate LinkedAs(c: Ctx, b: Batch, q: QueryResult, j: Id, n: nat)
    requires n < |q.relationships|
  {
    var rp := q.relationships[n];
    && j in b.db.rels
    && EndIs(c, b.refs, rp.src, b.db.rels[j].src) && EndIs(c, b.refs, rp.dst, b.db.rels[j].dst)
    && b.db.rels[j] == Relationship(c.caseId, b.db.rels[j].src, b.db.rels[j].dst, rp.rtype, rp.confidence,
                                    Some(c.plugin), rp.attrs, true)
  }

  ghost predicate AllBelow(ids: set<Id>, next: Id) {
    forall i :: i in ids ==> i < next
  }

  lemma IdsFresh(db: DB, next: Id)
    requires Consistent(db, next)
    ensures AllBelow(db.entities.Keys, next) && AllBelow(db.rels.Keys, next)
  {
  }

  lemma PhasesAreOneShot(c: Ctx, db: DB, next: Id, q: QueryResult, b1: Batch, b2: Batch, b3: Batch)
    requires EntityPhased(c, Start(db, next), b1, q.entities) && RelPhased(c, b1, b2, q.relationships)
    requires LiveLinks(b1.db, c.caseId) == LiveLinks(db, c.caseId)
    requires b1.refs == RefsOf(b3.db, c.caseId, map[], q.entities)
    requires b3 == b2.(db := b2.db.(evidence := b2.db.evidence + NewRows(c, b2.next, q.evidence)),
                       next := b2.next + |q.evidence|, evs := b2.evs + IdRange(b2.next, |q.evidence|))
    requires b3.db.graph == Graph(RebuiltVertices(b3.db.entities), RebuiltEdges(b3.db.entities, b3.db.rels))
    ensures IsOneShot(c, db, next, q, b3)
  {
    hide UniqueEntities;
    hide UniqueRels;
    hide EntityMatches;
    hide LiveKeys;
    hide LiveLinks;
    hide MergedRels;
    hide FirstNewRels;
    hide NewRows;
    hide RebuiltVertices;
    hide RebuiltEdges;
    hide RefsOf;
    hide MergedEntities;
    hide FirstNew;
    hide KeysOf;
    hide LinksOf;
    hide IdRange;
    var nE := |FirstNew(LiveKeys(db, c.caseId), q.entities)|;
    var newRels := FirstNewRels(LiveLinks(db, c.caseId), c, b3.refs, q.relationships);
    assert [] + IdRange(next, nE) == IdRange(next, nE);
    assert [] + IdRange(next + nE, |newRels|) == IdRange(next + nE, |newRels|);
    assert [] + IdRange(b2.next, |q.evidence|) == IdRange(b2.next, |q.evidence|);
  }

  lemma SameRels(c: CaseId, db: DB, db': DB)
    requires db.rels == db'.rels
    ensures LiveLinks(db', c) == LiveLinks(db, c)
    ensures UniqueRels(db, c) ==> UniqueRels(db', c)
  {
    assert forall j :: RelInCase(db', j, c) <==> RelInCase(db, j, c);
  }

  lemma SameEntities(c: CaseId, db: DB, db': DB)
    requires db.entities == db'.entities
    ensures UniqueEntities(db, c) ==> UniqueEntities(db', c)
    ensures LiveKeys(db', c) == LiveKeys(db, c)
    ensures forall k :: EntityMatches(db', c, k) == EntityMatches(db, c, k)
  {
    assert forall i :: EntityInCase(db', i, c) <==> EntityInCase(db, i, c);
  }

  lemma {:induction false} RefsOfSame(db: DB, db': DB, c: CaseId, refs: map<string, Id>, eps: seq<EntityProposal>)
    requires db.entities == db'.entities
    ensures RefsOf(db', c, refs, eps) == RefsOf(db, c, refs, eps)
    decreases |eps|
  {
    if eps != [] {
      SameEntities(c, db, db');
      assert EntityMatches(db', c, ProposalKey(eps[0])) == EntityMatches(db, c, ProposalKey(eps[0]));
      RefsOfSame(db, db', c, refs[eps[0].ref := TheEntity(db, c, ProposalKey(eps[0]))], eps[1..]);
    }
  }

  // ---------- When a batch succeeds ----------

  predicate EndpointNamed(q: QueryResult, ep: Endpoint) {
    ep.input || (ep.ref.Some? && ep.ref.value in RefNames(q.entities))
  }

  /** Every relationship end is the input or a ref of the same result. */
  predicate RefsResolve(q: QueryResult) {
    forall n :: 0 <= n < |q.relationships| ==>
                  EndpointNamed(q, q.relationships[n].src) && EndpointNamed(q, q.relationships[n].dst)
  }

  predicate AttrsAccepted(q: QueryResult) {
    && (forall n :: 0 <= n < |q.entities| ==> Validators.Accepts(q.entities[n].attrs))
    && (forall n :: 0 <= n < |q.relationships| ==> Validators.Accepts(q.relationships[n].attrs))
    && (forall n :: 0 <= n < |q.evidence| ==> Validators.Accepts(q.evidence[n].spec))
  }

  function RefNames(eps: seq<EntityProposal>): set<string> {
    set n | 0 <= n < |eps| :: eps[n].ref
  }

  lemma RefNamesCons(eps: seq<EntityProposal>)
    requires eps != []
    ensures RefNames(eps) == {eps[0].ref} + RefNames(eps[1..])
  {
    forall r | r in RefNames(eps) ensures r in {eps[0].ref} + RefNames(eps[1..]) {
      var n :| 0 <= n < |eps| && eps[n].ref == r;
      if n > 0 {
        assert eps[1..][n - 1] == eps[n];
      }
    }
    forall r | r in RefNames(eps[1..]) ensures r in RefNames(eps) {
      var n :| 0 <= n < |eps[1..]| && eps[1..][n].ref == r;
      assert eps[n + 1] == eps[1..][n];
    }
  }

  lemma TheEntityInCase(db: DB, c: CaseId, k: NodeKey)
    requires k in LiveKeys(db, c)
    ensures EntityInCase(db, TheEntity(db, c, k), c)
  {
    var i :| i in db.entities && EntityInCase(db, i, c) && NodeKeyOf(db.entities[i]) == k;
    assert i in EntityMatches(db, c, k);
  }

  /** The resolved refs are the proposed ones, and each resolves to a live entity of the case. */
  lemma {:induction false} RefsOfNames(db: DB, c: CaseId, refs: map<string, Id>, eps: seq<EntityProposal>)
    requires KeysOf(eps) <= LiveKeys(db, c)
    requires forall r :: r in refs ==> EntityInCase(db, refs[r], c)
    ensures var all := RefsOf(db, c, refs, eps);
            all.Keys == refs.Keys + RefNames(eps) && forall r :: r in all ==> EntityInCase(db, all[r], c)
    decreases |eps|
  {
    if eps != [] {
      KeysOfCons(eps);
      RefNamesCons(eps);
      TheEntityInCase(db, c, ProposalKey(eps[0]));
      RefsOfNames(db, c, refs[eps[0].ref := TheEntity(db, c, ProposalKey(eps[0]))], eps[1..]);
    }
  }

  // ---------- Relationship ends that may not be live ----------

  /** The key each ref stands for: that of its last proposal. */
  function RefKeys(keys: map<string, NodeKey>, eps: seq<EntityProposal>): map<string, NodeKey>
    decreases |eps|
  {
    if eps == [] then keys else RefKeys(keys[eps[0].ref := ProposalKey(eps[0])], eps[1..])
  }

  /** The row a relationship end stands for already before the batch. */
  ghost function EndBefore(c: Ctx, db: DB, eps: seq<EntityProposal>, ep: Endpoint): Option<Id> {
    if ep.input then Some(c.input)
    else
      var keys := RefKeys(map[], eps);
      if ep.ref.Some? && ep.ref.value in keys && keys[ep.ref.value] in LiveKeys(db, c.caseId) then
        Some(TheEntity(db, c.caseId, keys[ep.ref.value]))
      else None
  }

  /** The relationship is in the tables already before the batch. */
  ghost predicate LinkedBefore(c: Ctx, db: DB, eps: seq<EntityProposal>, rp: RelProposal) {
    var src, dst := EndBefore(c, db, eps, rp.src), EndBefore(c, db, eps, rp.dst);
    src.Some? && dst.Some? && LinkKey(src.value, dst.value, rp.rtype) in LiveLinks(db, c.caseId)
  }

  predicate UsesInput(rp: RelProposal) {
    rp.src.input || rp.dst.input
  }

  /** The input may have been deleted by the time of the batch, or belong to another case; it then serves
      as an end only of relationships that are there already. */
  ghost predicate InputServes(c: Ctx, db: DB, eps: seq<EntityProposal>, rp: RelProposal) {
    EntityInCase(db, c.input, c.caseId) || !UsesInput(rp) || LinkedBefore(c, db, eps, rp)
  }

  ghost predicate InputServesAll(c: Ctx, db: DB, q: QueryResult) {
    forall n :: 0 <= n < |q.relationships| ==> InputServes(c, db, q.entities, q.relationships[n])
  }

  /** The endpoint check of `create` passes, or it is not reached. */
  predicate Served(c: Ctx, db: DB, refs: map<string, Id>, rp: RelProposal) {
    LinkEndsInCase(c, db, Link(c, refs, rp)) || Link(c, refs, rp) in LiveLinks(db, c.caseId)
  }

  predicate Taken(c: Ctx, db: DB, refs: map<string, Id>, rp: RelProposal) {
    Resolves(c, refs, rp) && Validators.Accepts(rp.attrs) && Served(c, db, refs, rp)
  }

  predicate AllTaken(c: Ctx, db: DB, refs: map<string, Id>, rps: seq<RelProposal>) {
    forall n :: 0 <= n < |rps| ==> Taken(c, db, refs, rps[n])
  }

  lemma AllTakenCons(c: Ctx, db: DB, refs: map<string, Id>, rps: seq<RelProposal>)
    requires rps != []
    ensures AllTaken(c, db, refs, rps) <==> Taken(c, db, refs, rps[0]) && AllTaken(c, db, refs, rps[1..])
  {
    hide Taken;
    if Taken(c, db, refs, rps[0]) && AllTaken(c, db, refs, rps[1..]) {
      forall n | 0 <= n < |rps| ensures Taken(c, db, refs, rps[n]) {
        assert n > 0 ==> rps[n] == rps[1..][n - 1];
      }
    }
  }

  /** A relationship step takes no proposal's chance away and gives none. */
  lemma TakenStays(c: Ctx, b: Batch, b1: Batch, rp: RelProposal, rps: seq<RelProposal>)
    requires RelStepped(c, b, b1, rp) && Served(c, b.db, b.refs, rp)
    ensures AllTaken(c, b1.db, b.refs, rps) <==> AllTaken(c, b.db, b.refs, rps)
  {
    hide Resolves;
    hide Validators.Accepts;
    hide LiveLinks;
    hide Link;
    hide UniqueRels;
    assert b1.db.entities == b.db.entities;
    forall rp' ensures Taken(c, b1.db, b.refs, rp') <==> Taken(c, b.db, b.refs, rp') {
      var k, k' := Link(c, b.refs, rp), Link(c, b.refs, rp');
      assert k' in LiveLinks(b1.db, c.caseId) <==> k' in LiveLinks(b.db, c.caseId) || k' == k;
      assert LinkEndsInCase(c, b1.db, k') <==> LinkEndsInCase(c, b.db, k');
    }
    hide Taken;
  }

  lemma RelStepIff(c: Ctx, b: Batch, rp: RelProposal)
    requires Consistent(b.db, b.next) && UniqueRels(b.db, c.caseId)
    ensures Apply(c, b, PR(rp)).Ok? <==> Taken(c, b.db, b.refs, rp)
    ensures Apply(c, b, PR(rp)).Ok? ==>
              var b1 := Apply(c, b, PR(rp)).value;
              b1.refs == b.refs && Consistent(b1.db, b1.next) && UniqueRels(b1.db, c.caseId)
              && RelStepped(c, b, b1, rp)
  {
    RelStep(c, b, rp);
    if Apply(c, b, PR(rp)).Ok? {
      ApplyKeeps(c, b, PR(rp));
      hide Consistent;
      hide Validators.Accepts;
      hide UniqueRels;
    }
  }

  /** The relationship loop goes through exactly when each proposal would on the tables it starts from. */
  lemma {:induction false} RelPhaseSucceeds(c: Ctx, b: Batch, rps: seq<RelProposal>)
    requires Consistent(b.db, b.next) && UniqueRels(b.db, c.caseId)
    ensures ApplyAll(c, b, RelProposals(rps)).Ok? <==> AllTaken(c, b.db, b.refs, rps)
    decreases |rps|
  {
    if rps != [] {
      var ps := RelProposals(rps);
      assert ps[0] == PR(rps[0]) && ps[1..] == RelProposals(rps[1..]);
      hide Apply;
      hide UniqueRels;
      hide Consistent;
      hide RelStepped;
      hide AllTaken;
      RelStepIff(c, b, rps[0]);
      AllTakenCons(c, b.db, b.refs, rps);
      if Apply(c, b, ps[0]).Ok? {
        TakenStays(c, b, Apply(c, b, ps[0]).value, rps[0], rps[1..]);
        RelPhaseSucceeds(c, Apply(c, b, ps[0]).value, rps[1..]);
      }
    }
  }

  /** Each resolved ref is the row of its key. */
  lemma {:induction false} RefsFollowKeys(db: DB, c: CaseId, refs: map<string, Id>, keys: map<string, NodeKey>,
                                          eps: seq<EntityProposal>)
    requires refs.Keys == keys.Keys && KeysOf(eps) <= LiveKeys(db, c)
    requires forall r :: r in refs ==> keys[r] in LiveKeys(db, c) && refs[r] == TheEntity(db, c, keys[r])
    ensures var refs', keys' := RefsOf(db, c, refs, eps), RefKeys(keys, eps);
            && refs'.Keys == keys'.Keys
            && forall r :: r in refs' ==> keys'[r] in LiveKeys(db, c) && refs'[r] == TheEntity(db, c, keys'[r])
    decreases |eps|
  {
    if eps != [] {
      hide TheEntity;
      hide KeysOf;
      hide LiveKeys;
      KeysOfCons(eps);
      var k := ProposalKey(eps[0]);
      RefsFollowKeys(db, c, refs[eps[0].ref := TheEntity(db, c, k)], keys[eps[0].ref := k], eps[1..]);
    }
  }

  /** The entity loop adds rows of new keys only: a row of a key is the one from before, or it is new. */
  lemma RowBefore(c: Ctx, db: DB, next: Id, b1: Batch, eps: seq<EntityProposal>, k: NodeKey)
    requires EntityPhased(c, Start(db, next), b1, eps) && k in LiveKeys(b1.db, c.caseId)
    ensures k in LiveKeys(db, c.caseId) ==> TheEntity(b1.db, c.caseId, k) == TheEntity(db, c.caseId, k)
    ensures k !in LiveKeys(db, c.caseId) ==> TheEntity(b1.db, c.caseId, k) !in db.entities
  {
    hide UniqueEntities;
    hide MaxFrom;
    hide FirstNew;
    var i := TheEntity(b1.db, c.caseId, k);
    assert i in EntityMatches(b1.db, c.caseId, k) by {
      var j :| j in b1.db.entities && EntityInCase(b1.db, j, c.caseId) && NodeKeyOf(b1.db.entities[j]) == k;
      assert j in EntityMatches(b1.db, c.caseId, k);
    }
    if i in db.entities {
      assert b1.db.entities[i] == Raised(c.caseId, db.entities[i], eps);
      assert EntityInCase(db, i, c.caseId) && NodeKeyOf(db.entities[i]) == k;
    }
  }

  /** A resolved end is the row it stood for before the batch, or it stood for none and its row is new. */
  lemma EndMeans(c: Ctx, db: DB, next: Id, b1: Batch, eps: seq<EntityProposal>, ep: Endpoint)
    requires EntityPhased(c, Start(db, next), b1, eps) && KeysOf(eps) <= LiveKeys(b1.db, c.caseId)
    requires ResolveRef(c, b1.refs, ep).Ok?
    ensures !ep.input ==> EntityInCase(b1.db, End(c, b1.refs, ep), c.caseId)
    ensures var before := EndBefore(c, db, eps, ep);
            if before.Some? then before.value == End(c, b1.refs, ep) else End(c, b1.refs, ep) !in db.entities
  {
    hide LiveKeys;
    hide KeysOf;
    hide TheEntity;
    hide MergedEntities;
    hide RefKeys;
    if !ep.input {
      RefsFollowKeys(b1.db, c.caseId, map[], map[], eps);
      var k := RefKeys(map[], eps)[ep.ref.value];
      TheEntityInCase(b1.db, c.caseId, k);
      RowBefore(c, db, next, b1, eps, k);
    }
  }

  lemma LinkMeans(c: Ctx, db: DB, next: Id, b1: Batch, eps: seq<EntityProposal>, rp: RelProposal)
    requires Consistent(db, next)
    requires EntityPhased(c, Start(db, next), b1, eps) && KeysOf(eps) <= LiveKeys(b1.db, c.caseId)
    requires Resolves(c, b1.refs, rp)
    ensures !rp.src.input ==> EntityInCase(b1.db, Link(c, b1.refs, rp).src, c.caseId)
    ensures !rp.dst.input ==> EntityInCase(b1.db, Link(c, b1.refs, rp).dst, c.caseId)
    ensures Link(c, b1.refs, rp) in LiveLinks(b1.db, c.caseId) <==> LinkedBefore(c, db, eps, rp)
  {
    EndMeans(c, db, next, b1, eps, rp.src);
    EndMeans(c, db, next, b1, eps, rp.dst);
    var k := Link(c, b1.refs, rp);
    assert k in LiveLinks(db, c.caseId) ==> k.src in db.entities && k.dst in db.entities;
    assert b1.db.rels == db.rels;
    hide EntityPhased;
    hide Consistent;
    hide EndBefore;
    SameRels(c.caseId, db, b1.db);
  }

  lemma InputStays(c: Ctx, db: DB, next: Id, b1: Batch, eps: seq<EntityProposal>)
    requires EntityPhased(c, Start(db, next), b1, eps) && c.input < next
    ensures EntityInCase(b1.db, c.input, c.caseId) <==> EntityInCase(db, c.input, c.caseId)
  {
    hide UniqueEntities;
    hide MaxFrom;
    hide FirstNew;
    hide RefsOf;
    hide LiveKeys;
    hide EntityMatches;
  }

  lemma ServedMeans(c: Ctx, db: DB, next: Id, b1: Batch, eps: seq<EntityProposal>, rp: RelProposal)
    requires Consistent(db, next) && c.input < next
    requires EntityPhased(c, Start(db, next), b1, eps) && KeysOf(eps) <= LiveKeys(b1.db, c.caseId)
    requires Resolves(c, b1.refs, rp)
    ensures Served(c, b1.db, b1.refs, rp) <==> InputServes(c, db, eps, rp)
  {
    InputStays(c, db, next, b1, eps);
    LinkMeans(c, db, next, b1, eps, rp);
    hide EntityPhased;
    hide Consistent;
    hide LiveLinks;
    hide LinkedBefore;
    hide KeysOf;
    hide LiveKeys;
    hide EntityInCase;
  }

  /** Without duplicates in the case, a batch succeeds exactly when every attribute dict is accepted, every
      relationship end names the input or a proposed entity, and the input is a live entity of the case or
      the relationships that end at it are there already. */
  lemma BatchSucceedsIff(c: Ctx, db: DB, next: Id, q: QueryResult)
    requires Consistent(db, next) && UniqueEntities(db, c.caseId) && UniqueRels(db, c.caseId)
    requires c.input < next
    ensures ApplyAll(c, Start(db, next), Proposals(q)).Ok? <==>
            AttrsAccepted(q) && RefsResolve(q) && InputServesAll(c, db, q)
  {
    hide UniqueEntities;
    hide UniqueRels;
    hide EntityMatches;
    hide Consistent;
    hide ApplyAll;
    hide Validators.Accepts;
    hide EntityPhased;
    hide LiveKeys;
    hide KeysOf;
    hide RefsOf;
    hide Keeps;
    hide InputServesAll;
    var b0 := Start(db, next);
    var es := EntityProposals(q.entities);
    ThreePhases(c, b0, q);
    EntityPhase(c, b0, q.entities);
    AllAcceptedAt(q.entities);
    if ApplyAll(c, b0, es).Ok? {
      var b1 := ApplyAll(c, b0, es).value;
      ApplyAllKeeps(c, b0, es);
      AfterEntities(c, db, next, b1, q.entities);
      RelsSucceedIff(c, db, next, b1, q);
    }
  }

  /** What the entity loop hands to the relationship loop. */
  lemma AfterEntities(c: Ctx, db: DB, next: Id, b1: Batch, eps: seq<EntityProposal>)
    requires UniqueRels(db, c.caseId)
    requires EntityPhased(c, Start(db, next), b1, eps) && Keeps(Start(db, next), b1)
    ensures Consistent(b1.db, b1.next) && UniqueRels(b1.db, c.caseId)
    ensures b1.refs == RefsOf(b1.db, c.caseId, map[], eps) && KeysOf(eps) <= LiveKeys(b1.db, c.caseId)
  {
    hide Consistent;
    hide UniqueRels;
    hide UniqueEntities;
    hide RefsOf;
    hide MergedEntities;
    hide EntityMatches;
    assert b1.db.rels == db.rels;
    SameRels(c.caseId, db, b1.db);
  }

  /** The three loops in turn; the evidence loop fails only on a refused reproducibility spec. */
  lemma ThreePhases(c: Ctx, b: Batch, q: QueryResult)
    ensures var first := ApplyAll(c, b, EntityProposals(q.entities));
            ApplyAll(c, b, Proposals(q)).Ok? <==>
            && first.Ok? && ApplyAll(c, first.value, RelProposals(q.relationships)).Ok?
            && forall n :: 0 <= n < |q.evidence| ==> Validators.Accepts(q.evidence[n].spec)
  {
    var es, rs, vs := EntityProposals(q.entities), RelProposals(q.relationships), EvidenceProposals(q.evidence);
    ApplyAllConcat(c, b, es + rs, vs);
    ApplyAllConcat(c, b, es, rs);
    if ApplyAll(c, b, es + rs).Ok? {
      EvidencePhase(c, ApplyAll(c, b, es + rs).value, q.evidence);
    }
  }

  lemma RelsSucceedIff(c: Ctx, db: DB, next: Id, b1: Batch, q: QueryResult)
    requires Consistent(db, next) && c.input < next && EntityPhased(c, Start(db, next), b1, q.entities)
    requires Consistent(b1.db, b1.next) && UniqueRels(b1.db, c.caseId)
    requires b1.refs == RefsOf(b1.db, c.caseId, map[], q.entities)
    requires KeysOf(q.entities) <= LiveKeys(b1.db, c.caseId)
    ensures ApplyAll(c, b1, RelProposals(q.relationships)).Ok? <==>
            && RefsResolve(q) && InputServesAll(c, db, q)
            && forall n :: 0 <= n < |q.relationships| ==> Validators.Accepts(q.relationships[n].attrs)
  {
    hide Validators.Accepts;
    hide Consistent;
    hide UniqueRels;
    hide ApplyAll;
    hide LiveKeys;
    hide KeysOf;
    hide RefsOf;
    hide EntityPhased;
    hide InputServes;
    hide Served;
    RefsOfNames(b1.db, c.caseId, map[], q.entities);
    RelPhaseSucceeds(c, b1, q.relationships);
    forall n | 0 <= n < |q.relationships|
      ensures Taken(c, b1.db, b1.refs, q.relationships[n]) <==>
              && EndpointNamed(q, q.relationships[n].src) && EndpointNamed(q, q.relationships[n].dst)
              && Validators.Accepts(q.relationships[n].attrs) && InputServes(c, db, q.entities, q.relationships[n])
    {
      var rp := q.relationships[n];
      assert Resolves(c, b1.refs, rp) <==> EndpointNamed(q, rp.src) && EndpointNamed(q, rp.dst);
      if Resolves(c, b1.refs, rp) {
        ServedMeans(c, db, next, b1, q.entities, rp);
      }
    }
    hide Taken;
    hide EndpointNamed;
  }
  // ---------- Running the same batch again ----------

  lemma {:induction false} EntityPhaseIdle(c: Ctx, b: Batch, eps: seq<EntityProposal>)
    requires UniqueEntities(b.db, c.caseId)
    requires forall n :: 0 <= n < |eps| ==> Validators.Accepts(eps[n].attrs)
    requires forall n :: 0 <= n < |eps| ==> Settled(c, b.db, eps[n])
    ensures ApplyAll(c, b, EntityProposals(eps)) == Ok(b.(refs := RefsOf(b.db, c.caseId, b.refs, eps)))
    decreases |eps|
  {
    if eps != [] {
      var ps := EntityProposals(eps);
      assert ps[0] == PE(eps[0]) && ps[1..] == EntityProposals(eps[1..]);
      var k := ProposalKey(eps[0]);
      var i :| i in EntityMatches(b.db, c.caseId, k) && b.db.entities[i].confidence >= eps[0].confidence;
      assert EntityMatches(b.db, c.caseId, k) == {i};
      assert Apply(c, b, ps[0]) == Ok(b.(refs := b.refs[eps[0].ref := TheEntity(b.db, c.caseId, k)]));
      EntityPhaseIdle(c, Apply(c, b, ps[0]).value, eps[1..]);
    }
  }

  /** A live row of the proposal's key is there, with at least its confidence. */
  ghost predicate Settled(c: Ctx, db: DB, ep: EntityProposal) {
    exists i :: i in EntityMatches(db, c.caseId, ProposalKey(ep)) && db.entities[i].confidence >= ep.confidence
  }

  lemma {:induction false} RelPhaseIdle(c: Ctx, b: Batch, rps: seq<RelProposal>)
    requires IdsBelow(b.db, b.next) && UniqueRels(b.db, c.caseId)
    requires forall n :: 0 <= n < |rps| ==> Validators.Accepts(rps[n].attrs) && Resolves(c, b.refs, rps[n])
    requires LinksOf(c, b.refs, rps) <= LiveLinks(b.db, c.caseId)
    ensures ApplyAll(c, b, RelProposals(rps)) == Ok(b)
    decreases |rps|
  {
    if rps != [] {
      var ps := RelProposals(rps);
      assert ps[0] == PR(rps[0]) && ps[1..] == RelProposals(rps[1..]);
      LinksOfCons(c, b.refs, rps);
      RelStep(c, b, rps[0]);
      RelPhaseIdle(c, b, rps[1..]);
    }
  }

  lemma SettledAfter(c: Ctx, b: Batch, b': Batch, eps: seq<EntityProposal>, n: nat)
    requires EntityPhased(c, b, b', eps) && n < |eps|
    ensures Settled(c, b'.db, eps[n])
  {
    var k := ProposalKey(eps[n]);
    assert k in KeysOf(eps);
    assert b'.db.entities == MergedEntities(b.db, b.next, c, eps) && k in LiveKeys(b'.db, c.caseId);
    hide EntityPhased;
    MergedIsSettled(c, b, b'.db, eps, n);
  }

  lemma MergedIsSettled(c: Ctx, b: Batch, db': DB, eps: seq<EntityProposal>, n: nat)
    requires db'.entities == MergedEntities(b.db, b.next, c, eps) && n < |eps|
    requires ProposalKey(eps[n]) in LiveKeys(db', c.caseId)
    ensures Settled(c, db', eps[n])
  {
    hide FirstNew;
    hide MaxFrom;
    hide Raised;
    var k := ProposalKey(eps[n]);
    var i :| i in db'.entities && EntityInCase(db', i, c.caseId) && NodeKeyOf(db'.entities[i]) == k;
    assert i in EntityMatches(db', c.caseId, k);
    var news := FirstNew(LiveKeys(b.db, c.caseId), eps);
    assert i in Merge(b.db.entities, b.next, c, eps, news);
    var e := if i in b.db.entities then b.db.entities[i] else NewEntity(c, news[i - b.next]);
    RaisedAbove(c.caseId, e, eps, n);
  }

  lemma RaisedAbove(c: CaseId, e: Entity, eps: seq<EntityProposal>, n: nat)
    requires n < |eps| && NodeKeyOf(Raised(c, e, eps)) == ProposalKey(eps[n])
    requires Raised(c, e, eps).live && Raised(c, e, eps).caseId == c
    ensures Raised(c, e, eps).confidence >= eps[n].confidence
  {
    hide MaxFrom;
    MaxFromIsMax(e.confidence, NodeKeyOf(e), eps);
  }

  /** A rerun is a no-op on the graph: applied again to the database it left (whatever the audit rows
      say by then), a successful batch succeeds, changes no entity, relationship, vertex or edge,
      reports nothing created, and appends one evidence row per evidence proposal. */
  lemma RerunIsIdle(c: Ctx, db: DB, next: Id, q: QueryResult, c': Ctx, runs': map<Id, RunRow>, next': Id)
    requires Consistent(db, next) && UniqueEntities(db, c.caseId) && UniqueRels(db, c.caseId)
    requires ApplyAll(c, Start(db, next), Proposals(q)).Ok?
    requires c'.caseId == c.caseId && c'.input == c.input
    requires Consistent(ApplyAll(c, Start(db, next), Proposals(q)).value.db.(runs := runs'), next')
    ensures var db1 := ApplyAll(c, Start(db, next), Proposals(q)).value.db.(runs := runs');
            var again := ApplyAll(c', Start(db1, next'), Proposals(q));
            && again.Ok?
            && again.value.ents == [] && again.value.rels == []
            && again.value.evs == IdRange(next', |q.evidence|)
            && again.value.db == db1.(evidence := db1.evidence + NewRows(c', next', q.evidence))
  {
    var refs := FirstRunLeaves(c, db, next, q);
    var db0 := ApplyAll(c, Start(db, next), Proposals(q)).value.db;
    var db1 := db0.(runs := runs');
    SameRels(c.caseId, db0, db1);
    SameEntities(c.caseId, db0, db1);
    RefsOfSame(db0, db1, c.caseId, map[], q.entities);
    forall n | 0 <= n < |q.entities|
      ensures Settled(c', db1, q.entities[n])
    {
      SettledSame(c, c', db0, db1, q.entities[n]);
    }
    RerunFrom(c, c', db1, next', q, refs);
  }

  lemma SettledSame(c: Ctx, c': Ctx, db: DB, db': DB, ep: EntityProposal)
    requires db.entities == db'.entities && c.caseId == c'.caseId && Settled(c, db, ep)
    ensures Settled(c', db', ep)
  {
    SameEntities(c.caseId, db, db');
    var i :| i in EntityMatches(db, c.caseId, ProposalKey(ep)) && db.entities[i].confidence >= ep.confidence;
    assert i in EntityMatches(db', c'.caseId, ProposalKey(ep));
  }

  /** What a successful batch leaves behind for a second run of it. */
  lemma FirstRunLeaves(c: Ctx, db: DB, next: Id, q: QueryResult) returns (refs: map<string, Id>)
    requires Consistent(db, next) && UniqueEntities(db, c.caseId) && UniqueRels(db, c.caseId)
    requires ApplyAll(c, Start(db, next), Proposals(q)).Ok?
    ensures var db' := ApplyAll(c, Start(db, next), Proposals(q)).value.db;
            && UniqueEntities(db', c.caseId) && UniqueRels(db', c.caseId) && AttrsAccepted(q)
            && refs == RefsOf(db', c.caseId, map[], q.entities)
            && (forall n :: 0 <= n < |q.entities| ==> Settled(c, db', q.entities[n]))
            && (forall n :: 0 <= n < |q.relationships| ==> Resolves(c, refs, q.relationships[n]))
            && LinksOf(c, refs, q.relationships) <= LiveLinks(db', c.caseId)
  {
    hide Consistent;
    hide Resolves;
    hide Validators.Accepts;
    hide ApplyAll;
    hide Settled;
    hide EntityMatches;
    hide UniqueEntities;
    hide UniqueRels;
    hide MergedEntities;
    hide MergedRels;
    hide FirstNewRels;
    hide FirstNew;
    hide NewRows;
    hide LiveLinks;
    hide LiveKeys;
    hide LinksOf;
    hide IdRange;
    var b0 := Start(db, next);
    var es, rs, vs := EntityProposals(q.entities), RelProposals(q.relationships), EvidenceProposals(q.evidence);
    ApplyAllConcat(c, b0, es + rs, vs);
    ApplyAllConcat(c, b0, es, rs);
    var b1 := ApplyAll(c, b0, es).value;
    var b2 := ApplyAll(c, b1, rs).value;
    var db' := ApplyAll(c, b2, vs).value.db;
    EntityPhase(c, b0, q.entities);
    AllAcceptedAt(q.entities);
    ApplyAllKeeps(c, b0, es);
    SameRels(c.caseId, db, b1.db);
    RelPhase(c, b1, q.relationships);
    RelPhaseSucceeds(c, b1, q.relationships);
    assert forall n :: 0 <= n < |q.relationships| ==> Taken(c, b1.db, b1.refs, q.relationships[n]);
    hide AllTaken;
    hide Taken;
    EvidencePhase(c, b2, q.evidence);
    SameRels(c.caseId, b2.db, db');
    SameEntities(c.caseId, b1.db, db');
    refs := b1.refs;
    RefsOfSame(b1.db, db', c.caseId, map[], q.entities);
    forall n | 0 <= n < |q.entities|
      ensures Settled(c, db', q.entities[n])
    {
      SettledAfter(c, b0, b1, q.entities, n);
      SettledSame(c, c, b1.db, db', q.entities[n]);
    }
  }

  lemma SameLinks(c: Ctx, c': Ctx, refs: map<string, Id>, rps: seq<RelProposal>)
    requires c'.input == c.input
    ensures LinksOf(c', refs, rps) == LinksOf(c, refs, rps)
    ensures forall n :: 0 <= n < |rps| ==> (Resolves(c', refs, rps[n]) <==> Resolves(c, refs, rps[n]))
  {
    assert forall n :: 0 <= n < |rps| ==> Link(c', refs, rps[n]) == Link(c, refs, rps[n]);
  }

  lemma RerunFrom(c: Ctx, c': Ctx, db1: DB, next': Id, q: QueryResult, refs: map<string, Id>)
    requires c'.caseId == c.caseId && c'.input == c.input && IdsBelow(db1, next')
    requires UniqueEntities(db1, c.caseId) && UniqueRels(db1, c.caseId) && AttrsAccepted(q)
    requires refs == RefsOf(db1, c.caseId, map[], q.entities)
    requires forall n :: 0 <= n < |q.entities| ==> Settled(c', db1, q.entities[n])
    requires forall n :: 0 <= n < |q.relationships| ==> Resolves(c, refs, q.relationships[n])
    requires LinksOf(c, refs, q.relationships) <= LiveLinks(db1, c.caseId)
    ensures var again := ApplyAll(c', Start(db1, next'), Proposals(q));
            && again.Ok?
            && again.value.ents == [] && again.value.rels == []
            && again.value.evs == IdRange(next', |q.evidence|)
            && again.value.db == db1.(evidence := db1.evidence + NewRows(c', next', q.evidence))
  {
    hide ApplyAll;
    hide Settled;
    hide UniqueEntities;
    hide UniqueRels;
    hide RefsOf;
    hide NewRows;
    hide Resolves;
    hide Validators.Accepts;
    var b := Start(db1, next');
    var es, rs, vs := EntityProposals(q.entities), RelProposals(q.relationships), EvidenceProposals(q.evidence);
    ApplyAllConcat(c', b, es + rs, vs);
    ApplyAllConcat(c', b, es, rs);
    EntityPhaseIdle(c', b, q.entities);
    var b1 := b.(refs := refs);
    SameLinks(c, c', refs, q.relationships);
    RelPhaseIdle(c', b1, q.relationships);
    EvidencePhase(c', b1, q.evidence);
    assert [] + IdRange(next', |q.evidence|) == IdRange(next', |q.evidence|);
  }
}
