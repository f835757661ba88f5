/** What a successful batch leaves in the tables, column by column: a live row for every proposal, none
    twice, and nothing else. */
module BatchRows {
  import opened GraphDb
  import opened Batches
  import opened OneShot
  import opened BatchTheorems
  import opened CallRows

  // ---------- Refs ----------

  /** No later proposal of the batch takes the same ref. */
  predicate LastOfRef(eps: seq<EntityProposal>, n: nat)
    requires n < |eps|
  {
    forall m :: n < m < |eps| ==> eps[m].ref != eps[n].ref
  }

  /** A ref means the row of its last proposal's key. */
  lemma {:induction false} LastRefNames(db: DB, c: CaseId, refs: map<string, Id>, eps: seq<EntityProposal>, n: nat)
    requires n < |eps| && LastOfRef(eps, n)
    ensures var all := RefsOf(db, c, refs, eps);
            eps[n].ref in all && all[eps[n].ref] == TheEntity(db, c, ProposalKey(eps[n]))
    decreases |eps|
  {
    hide TheEntity;
    var refs' := refs[eps[0].ref := TheEntity(db, c, ProposalKey(eps[0]))];
    if n > 0 {
      assert forall m :: n - 1 < m < |eps[1..]| ==> eps[1..][m] == eps[m + 1];
      LastRefNames(db, c, refs', eps[1..], n - 1);
    } else {
      assert forall m :: 0 <= m < |eps[1..]| ==> eps[1..][m] == eps[m + 1];
      RefStays(db, c, refs', eps[1..], eps[0].ref);
    }
  }

  lemma {:induction false} RefStays(db: DB, c: CaseId, refs: map<string, Id>, eps: seq<EntityProposal>, r: string)
    requires r in refs && forall m :: 0 <= m < |eps| ==> eps[m].ref != r
    ensures r in RefsOf(db, c, refs, eps) && RefsOf(db, c, refs, eps)[r] == refs[r]
    decreases |eps|
  {
    hide TheEntity;
    if eps != [] {
      RefStays(db, c, refs[eps[0].ref := TheEntity(db, c, ProposalKey(eps[0]))], eps[1..], r);
    }
  }

  // ---------- Rows ----------

  /** Row `i` is a live entity of the case with the proposal's type and name and at least its confidence. */
  predicate Holds(c: Ctx, db: DB, i: Id, ep: EntityProposal) {
    IsNamed(db, i, c.caseId, ep.etype, ep.name) && db.entities[i].confidence >= ep.confidence
  }

  /** Row `j` is a live relationship of the case between the rows the proposal's ends stand for. */
  predicate Joins(c: Ctx, b: Batch, j: Id, rp: RelProposal) {
    && j in b.db.rels && b.db.rels[j].live && b.db.rels[j].caseId == c.caseId && b.db.rels[j].rtype == rp.rtype
    && EndIs(c, b.refs, rp.src, b.db.rels[j].src) && EndIs(c, b.refs, rp.dst, b.db.rels[j].dst)
  }

  ghost predicate HasRow(c: Ctx, db: DB, ep: EntityProposal) {
    exists i :: Holds(c, db, i, ep)
  }

  ghost predicate HasLink(c: Ctx, b: Batch, rp: RelProposal) {
    exists j :: Joins(c, b, j, rp)
  }

  /** No two live entities of the case share type and name. */
  ghost predicate NoTwins(db: DB, c: CaseId) {
    forall i, j, etype, name | IsNamed(db, i, c, etype, name) && IsNamed(db, j, c, etype, name) :: i == j
  }

  /** No two live relationships of the case share their triple. */
  ghost predicate NoTwinLinks(db: DB, c: CaseId) {
    forall i, j, src, dst, rtype | IsLink(db, i, c, src, dst, rtype) && IsLink(db, j, c, src, dst, rtype) :: i == j
  }

  lemma TwinsByColumn(db: DB, c: CaseId)
    ensures UniqueEntities(db, c) <==> NoTwins(db, c)
    ensures UniqueRels(db, c) <==> NoTwinLinks(db, c)
  {
    EntityTwins(db, c);
    RelTwins(db, c);
  }

  lemma EntityTwins(db: DB, c: CaseId)
    ensures UniqueEntities(db, c) <==> NoTwins(db, c)
  {
    if NoTwins(db, c) {
      forall i, j | EntityInCase(db, i, c) && EntityInCase(db, j, c)
                    && NodeKeyOf(db.entities[i]) == NodeKeyOf(db.entities[j])
        ensures i == j
      {
        assert IsNamed(db, i, c, db.entities[i].etype, db.entities[i].name);
        assert IsNamed(db, j, c, db.entities[i].etype, db.entities[i].name);
      }
    }
  }

  lemma RelTwins(db: DB, c: CaseId)
    ensures UniqueRels(db, c) <==> NoTwinLinks(db, c)
  {
    if NoTwinLinks(db, c) {
      forall i, j | RelInCase(db, i, c) && RelInCase(db, j, c) && LinkKeyOf(db.rels[i]) == LinkKeyOf(db.rels[j])
        ensures i == j
      {
        assert IsLink(db, i, c, db.rels[i].src, db.rels[i].dst, db.rels[i].rtype);
        assert IsLink(db, j, c, db.rels[i].src, db.rels[i].dst, db.rels[i].rtype);
      }
    }
  }

  /** The known triples and keys are those of live rows of the case. */
  lemma KnownByColumn(db: DB, c: CaseId)
    ensures forall k :: k in LiveLinks(db, c) <==> exists j :: IsLink(db, j, c, k.src, k.dst, k.rtype)
    ensures forall k :: k in LiveKeys(db, c) <==> exists i :: IsNamed(db, i, c, k.etype, k.name)
  {
    forall k ensures k in LiveLinks(db, c) <==> exists j :: IsLink(db, j, c, k.src, k.dst, k.rtype) {
      if j :| IsLink(db, j, c, k.src, k.dst, k.rtype) {
        assert RelInCase(db, j, c) && LinkKeyOf(db.rels[j]) == k;
      }
      if k in LiveLinks(db, c) {
        var j :| j in db.rels && RelInCase(db, j, c) && LinkKeyOf(db.rels[j]) == k;
        assert IsLink(db, j, c, k.src, k.dst, k.rtype);
      }
    }
    forall k ensures k in LiveKeys(db, c) <==> exists i :: IsNamed(db, i, c, k.etype, k.name) {
      if i :| IsNamed(db, i, c, k.etype, k.name) {
        assert EntityInCase(db, i, c) && NodeKeyOf(db.entities[i]) == k;
      }
      if k in LiveKeys(db, c) {
        var i :| i in db.entities && EntityInCase(db, i, c) && NodeKeyOf(db.entities[i]) == k;
        assert IsNamed(db, i, c, k.etype, k.name);
      }
    }
  }

  lemma SettledHolds(c: Ctx, db: DB, ep: EntityProposal)
    requires Settled(c, db, ep)
    ensures HasRow(c, db, ep)
  {
    var i :| i in EntityMatches(db, c.caseId, ProposalKey(ep)) && db.entities[i].confidence >= ep.confidence;
    assert Holds(c, db, i, ep);
  }

  lemma LinkJoins(c: Ctx, b: Batch, rp: RelProposal)
    requires Resolves(c, b.refs, rp) && Link(c, b.refs, rp) in LiveLinks(b.db, c.caseId)
    ensures HasLink(c, b, rp)
  {
    var j :| j in b.db.rels && RelInCase(b.db, j, c.caseId) && LinkKeyOf(b.db.rels[j]) == Link(c, b.refs, rp);
    assert Joins(c, b, j, rp);
  }

  lemma NamedByRef(c: Ctx, db: DB, ep: EntityProposal)
    requires Settled(c, db, ep)
    ensures IsNamed(db, TheEntity(db, c.caseId, ProposalKey(ep)), c.caseId, ep.etype, ep.name)
  {
    var i :| i in EntityMatches(db, c.caseId, ProposalKey(ep)) && db.entities[i].confidence >= ep.confidence;
    assert TheEntity(db, c.caseId, ProposalKey(ep)) in EntityMatches(db, c.caseId, ProposalKey(ep));
  }

  /** After a successful batch every entity proposal has a live row of the case with its type, its name and
      at least its confidence, which its ref names unless a later proposal took the ref; every relationship
      proposal has a live row of the case between the rows its ends stand for, whatever rows of the same
      triple were deleted before; and neither kind has twins. */
  lemma BatchLeavesRows(c: Ctx, db: DB, next: Id, q: QueryResult)
    requires Consistent(db, next) && NoTwins(db, c.caseId) && NoTwinLinks(db, c.caseId)
    requires ApplyAll(c, Start(db, next), Proposals(q)).Ok?
    ensures var b := ApplyAll(c, Start(db, next), Proposals(q)).value;
            && (forall n :: 0 <= n < |q.entities| ==> HasRow(c, b.db, q.entities[n]))
            && (forall n :: 0 <= n < |q.entities| && LastOfRef(q.entities, n) ==>
                  && q.entities[n].ref in b.refs
                  && IsNamed(b.db, b.refs[q.entities[n].ref], c.caseId, q.entities[n].etype, q.entities[n].name))
            && (forall n :: 0 <= n < |q.relationships| ==> HasLink(c, b, q.relationships[n]))
            && NoTwins(b.db, c.caseId) && NoTwinLinks(b.db, c.caseId)
  {
    hide *;
    var b := ApplyAll(c, Start(db, next), Proposals(q)).value;
    TwinsByColumn(db, c.caseId);
    TwinsByColumn(b.db, c.caseId);
    var refs := FirstRunLeaves(c, db, next, q);
    BatchRefs(c, db, next, q);
    forall n | 0 <= n < |q.entities| ensures HasRow(c, b.db, q.entities[n]) {
      SettledHolds(c, b.db, q.entities[n]);
    }
    forall n | 0 <= n < |q.entities| && LastOfRef(q.entities, n)
      ensures q.entities[n].ref in b.refs
      ensures IsNamed(b.db, b.refs[q.entities[n].ref], c.caseId, q.entities[n].etype, q.entities[n].name)
    {
      LastRefNames(b.db, c.caseId, map[], q.entities, n);
      NamedByRef(c, b.db, q.entities[n]);
    }
    forall n | 0 <= n < |q.relationships| ensures HasLink(c, b, q.relationships[n]) {
      LinkIsThere(c, b, q.relationships, n);
      LinkJoins(c, b, q.relationships[n]);
    }
  }

  lemma BatchRefs(c: Ctx, db: DB, next: Id, q: QueryResult)
    requires Consistent(db, next) && UniqueEntities(db, c.caseId) && UniqueRels(db, c.caseId)
    requires ApplyAll(c, Start(db, next), Proposals(q)).Ok?
    ensures var b := ApplyAll(c, Start(db, next), Proposals(q)).value;
            b.refs == RefsOf(b.db, c.caseId, map[], q.entities)
  {
    BatchIsOneShot(c, db, next, q);
    hide MergedEntities;
    hide MergedRels;
  }

  lemma LinkIsThere(c: Ctx, b: Batch, rps: seq<RelProposal>, n: nat)
    requires n < |rps| && LinksOf(c, b.refs, rps) <= LiveLinks(b.db, c.caseId)
    ensures Link(c, b.refs, rps[n]) in LiveLinks(b.db, c.caseId)
  {
    hide LiveLinks;
    assert Link(c, b.refs, rps[n]) in LinksOf(c, b.refs, rps);
  }

  /** A row that was there keeps every column but an entity's confidence, which is the highest of its own and
      those proposed for a live row of its type and name in the case. */
  lemma OldRowsStay(c: Ctx, db: DB, next: Id, q: QueryResult, i: Id)
    requires Consistent(db, next) && NoTwins(db, c.caseId) && NoTwinLinks(db, c.caseId)
    requires ApplyAll(c, Start(db, next), Proposals(q)).Ok? && i in db.entities
    ensures var e, es := db.entities[i], ApplyAll(c, Start(db, next), Proposals(q)).value.db.entities;
            && i in es && es[i] == e.(confidence := es[i].confidence) && es[i].confidence >= e.confidence
            && (forall n :: 0 <= n < |q.entities| && IsNamed(db, i, c.caseId, q.entities[n].etype, q.entities[n].name)
                  ==> es[i].confidence >= q.entities[n].confidence)
            && (es[i].confidence == e.confidence
                || exists n :: 0 <= n < |q.entities|
                               && IsNamed(db, i, c.caseId, q.entities[n].etype, q.entities[n].name)
                               && es[i].confidence == q.entities[n].confidence)
  {
    hide *;
    hide ApplyAll;
    TwinsByColumn(db, c.caseId);
    MergedAt(c, db, next, q, i);
    RaisedAt(c, db, q.entities, i);
  }

  lemma MergedAt(c: Ctx, db: DB, next: Id, q: QueryResult, i: Id)
    requires Consistent(db, next) && UniqueEntities(db, c.caseId) && UniqueRels(db, c.caseId)
    requires ApplyAll(c, Start(db, next), Proposals(q)).Ok? && i in db.entities
    ensures var es := ApplyAll(c, Start(db, next), Proposals(q)).value.db.entities;
            i in es && es[i] == Raised(c.caseId, db.entities[i], q.entities)
  {
    BatchIsOneShot(c, db, next, q);
    hide MergedRels;
    hide Raised;
    hide ApplyAll;
    hide Consistent;
  }

  lemma RaisedAt(c: Ctx, db: DB, eps: seq<EntityProposal>, i: Id)
    requires i in db.entities
    ensures var e := db.entities[i];
            var e' := Raised(c.caseId, e, eps);
            && e' == e.(confidence := e'.confidence) && e'.confidence >= e.confidence
            && (forall n :: 0 <= n < |eps| && IsNamed(db, i, c.caseId, eps[n].etype, eps[n].name)
                  ==> e'.confidence >= eps[n].confidence)
            && (e'.confidence == e.confidence
                || exists n :: 0 <= n < |eps| && IsNamed(db, i, c.caseId, eps[n].etype, eps[n].name)
                               && e'.confidence == eps[n].confidence)
  {
    var e := db.entities[i];
    MaxFromIsMax(e.confidence, NodeKeyOf(e), eps);
    hide MaxFrom;
    if e.live && e.caseId == c.caseId {
      assert forall n :: 0 <= n < |eps| ==>
          (IsNamed(db, i, c.caseId, eps[n].etype, eps[n].name) <==> ProposalKey(eps[n]) == NodeKeyOf(e));
    }
  }
}
