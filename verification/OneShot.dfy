/** A whole batch at once: what a successful run of the proposal-by-proposal fold amounts to. */
module OneShot {
  import opened Prelude
  import opened GraphDb
  import opened Batches
  import opened Firsts
  import Validators

  // ---------- The one-shot specification ----------

  /** The highest of `confidence` and of all the proposals for `k`. */
  function MaxFrom(confidence: real, k: NodeKey, eps: seq<EntityProposal>): real
    decreases |eps|
  {
    if eps == [] then confidence
    else if ProposalKey(eps[0]) == k && eps[0].confidence > confidence then MaxFrom(eps[0].confidence, k, eps[1..])
    else MaxFrom(confidence, k, eps[1..])
  }

  /** The first proposal of each key outside `known`, in batch order. */
  function FirstNew(known: set<NodeKey>, eps: seq<EntityProposal>): seq<EntityProposal>
    decreases |eps|
  {
    if eps == [] then []
    else if ProposalKey(eps[0]) in known then FirstNew(known, eps[1..])
    else [eps[0]] + FirstNew(known + {ProposalKey(eps[0])}, eps[1..])
  }

  function LiveKeys(db: DB, c: CaseId): set<NodeKey> {
    set i | i in db.entities && EntityInCase(db, i, c) :: NodeKeyOf(db.entities[i])
  }

  function LiveLinks(db: DB, c: CaseId): set<LinkKey> {
    set j | j in db.rels && RelInCase(db, j, c) :: LinkKeyOf(db.rels[j])
  }

  function Raised(c: CaseId, e: Entity, eps: seq<EntityProposal>): Entity {
    if e.live && e.caseId == c then e.(confidence := MaxFrom(e.confidence, NodeKeyOf(e), eps)) else e
  }

  predicate Within(i: Id, next: Id, n: nat) {
    next <= i < next + n
  }

  function FreshIds(next: Id, n: nat): set<Id> {
    set i: Id | next <= i < next + n && Within(i, next, n)
  }

  function IdRange(next: Id, n: nat): seq<Id> {
    seq(n, i requires 0 <= i < n => next + i)
  }

  function Merge(es: map<Id, Entity>, next: Id, c: Ctx, eps: seq<EntityProposal>, news: seq<EntityProposal>)
    : map<Id, Entity>
  {
    map i | i in es.Keys + FreshIds(next, |news|) ::
      if i in es then Raised(c.caseId, es[i], eps) else Raised(c.caseId, NewEntity(c, news[i - next]), eps)
  }

  /** Old rows with raised confidence, then one row per new key. */
  function MergedEntities(db: DB, next: Id, c: Ctx, eps: seq<EntityProposal>): map<Id, Entity> {
    Merge(db.entities, next, c, eps, FirstNew(LiveKeys(db, c.caseId), eps))
  }

  /** The live row of a key; a batch's keys always have one at the end. */
  ghost function TheEntity(db: DB, c: CaseId, k: NodeKey): Id {
    Pick(EntityMatches(db, c, k))
  }

  ghost function Pick(ids: set<Id>): (i: Id)
    ensures ids != {} ==> i in ids
  {
    if ids == {} then 0 else var i :| i in ids; i
  }

  /** Each ref names the live row of its proposal's key; a repeated ref means its last proposal. */
  ghost function RefsOf(db: DB, c: CaseId, refs: map<string, Id>, eps: seq<EntityProposal>): map<string, Id>
    decreases |eps|
  {
    if eps == [] then refs
    else RefsOf(db, c, refs[eps[0].ref := TheEntity(db, c, ProposalKey(eps[0]))], eps[1..])
  }

  function End(c: Ctx, refs: map<string, Id>, ep: Endpoint): Id {
    var r := ResolveRef(c, refs, ep);
    if r.Ok? then r.value else 0
  }

  function Link(c: Ctx, refs: map<string, Id>, rp: RelProposal): LinkKey {
    LinkKey(End(c, refs, rp.src), End(c, refs, rp.dst), rp.rtype)
  }

  /** The first proposal of each resolved triple outside `known`, as its row. */
  function FirstNewRels(known: set<LinkKey>, c: Ctx, refs: map<string, Id>, rps: seq<RelProposal>): seq<Relationship>
    decreases |rps|
  {
    if rps == [] then []
    else
      var k := Link(c, refs, rps[0]);
      if k in known then FirstNewRels(known, c, refs, rps[1..])
      else [NewRel(c, k.src, k.dst, rps[0])] + FirstNewRels(known + {k}, c, refs, rps[1..])
  }

  function MergedRels(rels: map<Id, Relationship>, next: Id, news: seq<Relationship>): map<Id, Relationship> {
    map j | j in rels.Keys + FreshIds(next, |news|) ::
      if j in rels then rels[j] else news[j - next]
  }

  function NewRows(c: Ctx, next: Id, vps: seq<EvidenceProposal>): seq<Evidence> {
    seq(|vps|, n requires 0 <= n < |vps| => NewEvidence(c, next + n, vps[n]))
  }

  /** The ids of the new relationships start behind those of the new entities. */
  function RelsFrom(db: DB, next: Id, c: CaseId, eps: seq<EntityProposal>): Id {
    next + |FirstNew(LiveKeys(db, c), eps)|
  }

  /** The whole effect of a batch: the three tables, the graph rebuilt from them, the refs and the
      returned lists. Which proposals `FirstNew` and `FirstNewRels` keep is said by position in
      `FirstNewAt` and `BatchTheorems.FirstNewRelsAt`. */
  ghost predicate IsOneShot(c: Ctx, db: DB, next: Id, q: QueryResult, b: Batch) {
    var relsFrom := RelsFrom(db, next, c.caseId, q.entities);
    var newRels := FirstNewRels(LiveLinks(db, c.caseId), c, b.refs, q.relationships);
    var evidenceFrom := relsFrom + |newRels|;
    && b.db.entities == MergedEntities(db, next, c, q.entities)
    && b.refs == RefsOf(b.db, c.caseId, map[], q.entities)
    && b.db.rels == MergedRels(db.rels, relsFrom, newRels)
    && b.db.evidence == db.evidence + NewRows(c, evidenceFrom, q.evidence)
    && b.db.runs == db.runs
    && b.db.graph == Graph(RebuiltVertices(b.db.entities), RebuiltEdges(b.db.entities, b.db.rels))
    && b.next == evidenceFrom + |q.evidence|
    && b.ents == IdRange(next, |FirstNew(LiveKeys(db, c.caseId), q.entities)|)
    && b.rels == IdRange(relsFrom, |newRels|)
    && b.evs == IdRange(evidenceFrom, |q.evidence|)
  }

  // ---------- What the pieces of the specification mean ----------

  /** MaxFrom is the least upper bound, and it is attained. */
  lemma {:induction false} MaxFromIsMax(confidence: real, k: NodeKey, eps: seq<EntityProposal>)
    ensures var m := MaxFrom(confidence, k, eps);
            && m >= confidence
            && (forall n :: 0 <= n < |eps| && ProposalKey(eps[n]) == k ==> m >= eps[n].confidence)
            && (m == confidence || exists n :: 0 <= n < |eps| && ProposalKey(eps[n]) == k && m == eps[n].confidence)
    decreases |eps|
  {
    if eps != [] {
      var next := if ProposalKey(eps[0]) == k && eps[0].confidence > confidence then eps[0].confidence else confidence;
      MaxFromIsMax(next, k, eps[1..]);
      forall n | 0 <= n < |eps| && ProposalKey(eps[n]) == k
        ensures MaxFrom(confidence, k, eps) >= eps[n].confidence
      {
        if n > 0 {
          assert eps[1..][n - 1] == eps[n];
        }
      }
    }
  }

  function KeysOf(eps: seq<EntityProposal>): set<NodeKey> {
    set n | 0 <= n < |eps| :: ProposalKey(eps[n])
  }

  function Keys(eps: seq<EntityProposal>): seq<NodeKey> {
    seq(|eps|, n requires 0 <= n < |eps| => ProposalKey(eps[n]))
  }

  /** Which proposals create entities: the first ones of their keys outside `known`, in batch order. */
  lemma {:induction false} FirstNewAt(known: set<NodeKey>, eps: seq<EntityProposal>) returns (at: seq<nat>)
    ensures AreFirsts(known, Keys(eps), at)
    ensures Picks(eps, at, FirstNew(known, eps))
    decreases |eps|
  {
    at := [];
    if eps != [] {
      hide AreFirsts;
      hide Picks;
      var k := ProposalKey(eps[0]);
      var rest := FirstNewAt(known + {k}, eps[1..]);
      assert Keys(eps)[1..] == Keys(eps[1..]);
      FirstsCons(known, Keys(eps), rest);
      PicksCons(eps, rest, FirstNew(known + {k}, eps[1..]));
      if k in known {
        assert known + {k} == known;
        at := Shift(rest);
        assert [] + at == at;
      } else {
        at := [0] + Shift(rest);
      }
    }
  }

  /** FirstNew holds each distinct key of the batch outside `known` exactly once. */
  lemma FirstNewIsDistinctNew(known: set<NodeKey>, eps: seq<EntityProposal>)
    ensures KeysOf(FirstNew(known, eps)) == KeysOf(eps) - known
    ensures |FirstNew(known, eps)| == |KeysOf(eps) - known|
    ensures forall m, n :: 0 <= m < n < |FirstNew(known, eps)| ==>
                             ProposalKey(FirstNew(known, eps)[m]) != ProposalKey(FirstNew(known, eps)[n])
  {
    var at := FirstNewAt(known, eps);
    FirstsAreDistinctNew(known, Keys(eps), at);
    assert KeysAt(Keys(eps), at) == Keys(FirstNew(known, eps));
    KeysOfIs(eps);
    KeysOfIs(FirstNew(known, eps));
  }

  lemma KeysOfIs(eps: seq<EntityProposal>)
    ensures KeysOf(eps) == Elems(Keys(eps))
  {
    forall k ensures k in KeysOf(eps) <==> k in Elems(Keys(eps)) {
      if k in KeysOf(eps) {
        var n :| 0 <= n < |eps| && ProposalKey(eps[n]) == k;
        assert Keys(eps)[n] == k;
      }
      if k in Elems(Keys(eps)) {
        var n :| 0 <= n < |Keys(eps)| && Keys(eps)[n] == k;
        assert ProposalKey(eps[n]) == k;
      }
    }
  }

  lemma KeysOfCons(eps: seq<EntityProposal>)
    requires eps != []
    ensures KeysOf(eps) == {ProposalKey(eps[0])} + KeysOf(eps[1..])
  {
    forall k | k in KeysOf(eps)
      ensures k in {ProposalKey(eps[0])} + KeysOf(eps[1..])
    {
      var n :| 0 <= n < |eps| && ProposalKey(eps[n]) == k;
      if n > 0 {
        assert eps[1..][n - 1] == eps[n];
      }
    }
    forall k | k in KeysOf(eps[1..])
      ensures k in KeysOf(eps)
    {
      var n :| 0 <= n < |eps[1..]| && ProposalKey(eps[1..][n]) == k;
      assert eps[n + 1] == eps[1..][n];
    }
  }

  // ---------- Entities ----------

  /** One entity proposal, seen from outside: either the one live row of its key is raised, or one
      row is added; every other key keeps its rows. */
  ghost predicate EntityStepped(c: Ctx, b: Batch, b': Batch, ep: EntityProposal) {
    var k := ProposalKey(ep);
    && UniqueEntities(b'.db, c.caseId)
    && LiveKeys(b'.db, c.caseId) == LiveKeys(b.db, c.caseId) + {k}
    && EntityMatches(b'.db, c.caseId, k) != {}
    && b'.refs == b.refs[ep.ref := TheEntity(b'.db, c.caseId, k)]
    && b' == b.(db := b'.db, next := b'.next, refs := b'.refs, ents := b'.ents)
    && b'.db == b.db.(entities := b'.db.entities, graph := b'.db.graph)
    && if k in LiveKeys(b.db, c.caseId) then
         && b'.next == b.next && b'.ents == b.ents
         && b'.db.entities == map i | i in b.db.entities :: Raised(c.caseId, b.db.entities[i], [ep])
       else
         && b'.next == b.next + 1 && b'.ents == b.ents + [b.next]
         && b'.db.entities == b.db.entities[b.next := NewEntity(c, ep)]
  }

  lemma EntityStep(c: Ctx, b: Batch, ep: EntityProposal)
    requires Consistent(b.db, b.next) && UniqueEntities(b.db, c.caseId)
    ensures Apply(c, b, PE(ep)).Ok? <==> Validators.Accepts(ep.attrs)
    ensures Apply(c, b, PE(ep)).Ok? ==> EntityStepped(c, b, Apply(c, b, PE(ep)).value, ep)
  {
    if Validators.Accepts(ep.attrs) {
      var ids := EntityMatches(b.db, c.caseId, ProposalKey(ep));
      if ids == {} {
        EntityNewStep(c, b, ep);
      } else {
        var i :| i in ids;
        assert ids == {i};
        EntityRaiseStep(c, b, ep, i);
      }
    }
  }

  lemma EntityNewStep(c: Ctx, b: Batch, ep: EntityProposal)
    requires Consistent(b.db, b.next) && UniqueEntities(b.db, c.caseId)
    requires Validators.Accepts(ep.attrs) && EntityMatches(b.db, c.caseId, ProposalKey(ep)) == {}
    ensures Apply(c, b, PE(ep)).Ok? && EntityStepped(c, b, Apply(c, b, PE(ep)).value, ep)
  {
    hide Consistent;
    hide Validators.Accepts;
    IdsAreBelow(b.db, b.next);
    var k := ProposalKey(ep);
    var b' := Apply(c, b, PE(ep)).value;
    assert b.next !in b.db.entities;
    forall i | EntityInCase(b.db, i, c.caseId)
      ensures NodeKeyOf(b.db.entities[i]) != k
    {
      assert i !in EntityMatches(b.db, c.caseId, k);
    }
    assert forall i :: EntityInCase(b'.db, i, c.caseId) <==> EntityInCase(b.db, i, c.caseId) || i == b.next;
    LiveKeysInsert(b.db, b'.db, b.next, c.caseId);
    assert EntityMatches(b'.db, c.caseId, k) == {b.next};
    assert k !in LiveKeys(b.db, c.caseId);
  }

  lemma LiveKeysInsert(db: DB, db': DB, i: Id, c: CaseId)
    requires i !in db.entities && i in db'.entities && db'.entities == db.entities[i := db'.entities[i]]
    requires EntityInCase(db', i, c)
    ensures LiveKeys(db', c) == LiveKeys(db, c) + {NodeKeyOf(db'.entities[i])}
  {
    forall k | k in LiveKeys(db, c) ensures k in LiveKeys(db', c) {
      var j :| j in db.entities && EntityInCase(db, j, c) && NodeKeyOf(db.entities[j]) == k;
      assert EntityInCase(db', j, c);
    }
  }

  lemma EntityRaiseStep(c: Ctx, b: Batch, ep: EntityProposal, i: Id)
    requires Consistent(b.db, b.next) && UniqueEntities(b.db, c.caseId)
    requires Validators.Accepts(ep.attrs) && EntityMatches(b.db, c.caseId, ProposalKey(ep)) == {i}
    ensures Apply(c, b, PE(ep)).Ok? && EntityStepped(c, b, Apply(c, b, PE(ep)).value, ep)
  {
    var k := ProposalKey(ep);
    assert i in EntityMatches(b.db, c.caseId, k);
    var db' := RaiseConfidence(b.db, i, ep.confidence);
    assert Apply(c, b, PE(ep)) == Ok(b.(db := db', refs := b.refs[ep.ref := i]));
    RaiseIsRaised(c, b.db, ep, i);
    assert EntityMatches(db', c.caseId, k) == {i};
    assert k in LiveKeys(b.db, c.caseId);
    assert LiveKeys(b.db, c.caseId) + {k} == LiveKeys(b.db, c.caseId);
  }

  lemma RaiseIsRaised(c: Ctx, db: DB, ep: EntityProposal, i: Id)
    requires UniqueEntities(db, c.caseId) && EntityMatches(db, c.caseId, ProposalKey(ep)) == {i}
    ensures i in db.entities
    ensures var db' := RaiseConfidence(db, i, ep.confidence);
            && db'.entities == (map n | n in db.entities :: Raised(c.caseId, db.entities[n], [ep]))
            && UniqueEntities(db', c.caseId)
            && LiveKeys(db', c.caseId) == LiveKeys(db, c.caseId)
            && forall k :: EntityMatches(db', c.caseId, k) == EntityMatches(db, c.caseId, k)
  {
    assert i in EntityMatches(db, c.caseId, ProposalKey(ep));
    var db' := RaiseConfidence(db, i, ep.confidence);
    forall n | n in db.entities
      ensures db'.entities[n] == Raised(c.caseId, db.entities[n], [ep])
    {
      RaisedByOne(c, db, ep, i, n);
    }
    LiveKeysSame(db, db', c.caseId);
  }

  lemma RaisedByOne(c: Ctx, db: DB, ep: EntityProposal, i: Id, n: Id)
    requires EntityMatches(db, c.caseId, ProposalKey(ep)) == {i} && n in db.entities
    ensures i in db.entities
    ensures n in RaiseConfidence(db, i, ep.confidence).entities
    ensures RaiseConfidence(db, i, ep.confidence).entities[n] == Raised(c.caseId, db.entities[n], [ep])
  {
    var k := ProposalKey(ep);
    assert i in EntityMatches(db, c.caseId, k);
    var e := db.entities[n];
    assert MaxFrom(e.confidence, NodeKeyOf(e), [ep]) ==
           if NodeKeyOf(e) == k && ep.confidence > e.confidence then ep.confidence else e.confidence;
    assert n == i <==> n in EntityMatches(db, c.caseId, k);
  }

  lemma LiveKeysSame(db: DB, db': DB, c: CaseId)
    requires forall n :: EntityInCase(db', n, c) <==> EntityInCase(db, n, c)
    requires forall n :: n in db.entities ==>
                           n in db'.entities && NodeKeyOf(db'.entities[n]) == NodeKeyOf(db.entities[n])
    ensures LiveKeys(db', c) == LiveKeys(db, c)
    ensures forall k :: EntityMatches(db', c, k) == EntityMatches(db, c, k)
    ensures UniqueEntities(db, c) ==> UniqueEntities(db', c)
  {
    forall k | k in LiveKeys(db, c) ensures k in LiveKeys(db', c) {
      var j :| j in db.entities && EntityInCase(db, j, c) && NodeKeyOf(db.entities[j]) == k;
      assert EntityInCase(db', j, c);
    }
    forall k | k in LiveKeys(db', c) ensures k in LiveKeys(db, c) {
      var j :| j in db'.entities && EntityInCase(db', j, c) && NodeKeyOf(db'.entities[j]) == k;
      assert EntityInCase(db, j, c);
    }
  }

  lemma MergedEntitiesConsKnown(c: Ctx, db: DB, es1: map<Id, Entity>, next: Id, eps: seq<EntityProposal>)
    requires eps != [] && ProposalKey(eps[0]) in LiveKeys(db, c.caseId)
    requires es1 == map i | i in db.entities :: Raised(c.caseId, db.entities[i], [eps[0]])
    requires LiveKeys(db.(entities := es1), c.caseId) == LiveKeys(db, c.caseId)
    ensures MergedEntities(db, next, c, eps) == MergedEntities(db.(entities := es1), next, c, eps[1..])
  {
    var known := LiveKeys(db, c.caseId);
    var news := FirstNew(known, eps);
    assert news == FirstNew(known, eps[1..]);
    var m, m' := MergedEntities(db, next, c, eps), MergedEntities(db.(entities := es1), next, c, eps[1..]);
    forall i | i in m
      ensures i in m' && m'[i] == m[i]
    {
      if i in db.entities {
        RaisedCons(c.caseId, db.entities[i], eps);
      } else {
        NewKeyNotIn(known, eps[1..], i - next);
        RaisedSkip(c.caseId, NewEntity(c, news[i - next]), eps);
      }
    }
  }

  lemma MergeShift(c: Ctx, es: map<Id, Entity>, next: Id, eps: seq<EntityProposal>, news: seq<EntityProposal>)
    requires eps != [] && forall i :: i in es ==> i < next
    requires forall i :: i in es ==> Raised(c.caseId, es[i], eps) == Raised(c.caseId, es[i], eps[1..])
    requires Raised(c.caseId, NewEntity(c, eps[0]), eps) == Raised(c.caseId, NewEntity(c, eps[0]), eps[1..])
    requires forall n :: 0 <= n < |news| ==>
                           var e := NewEntity(c, news[n]);
                           Raised(c.caseId, e, eps) == Raised(c.caseId, e, eps[1..])
    ensures Merge(es, next, c, eps, [eps[0]] + news) ==
            Merge(es[next := NewEntity(c, eps[0])], next + 1, c, eps[1..], news)
  {
    hide Raised;
    var all := [eps[0]] + news;
    var es1 := es[next := NewEntity(c, eps[0])];
    var m, m' := Merge(es, next, c, eps, all), Merge(es1, next + 1, c, eps[1..], news);
    assert m.Keys == m'.Keys;
    forall i | i in m
      ensures m'[i] == m[i]
    {
      if i > next {
        assert all[i - next] == news[i - (next + 1)];
      }
    }
  }

  lemma MergedEntitiesConsNew(c: Ctx, db: DB, es1: map<Id, Entity>, next: Id, eps: seq<EntityProposal>)
    requires eps != [] && ProposalKey(eps[0]) !in LiveKeys(db, c.caseId)
    requires forall i :: i in db.entities ==> i < next
    requires es1 == db.entities[next := NewEntity(c, eps[0])]
    requires LiveKeys(db.(entities := es1), c.caseId) == LiveKeys(db, c.caseId) + {ProposalKey(eps[0])}
    ensures MergedEntities(db, next, c, eps) == MergedEntities(db.(entities := es1), next + 1, c, eps[1..])
  {
    var known, k := LiveKeys(db, c.caseId), ProposalKey(eps[0]);
    var news := FirstNew(known + {k}, eps[1..]);
    forall i | i in db.entities
      ensures Raised(c.caseId, db.entities[i], eps) == Raised(c.caseId, db.entities[i], eps[1..])
    {
      assert EntityInCase(db, i, c.caseId) ==> NodeKeyOf(db.entities[i]) in known;
      RaisedSkip(c.caseId, db.entities[i], eps);
    }
    forall n | 0 <= n < |news|
      ensures Raised(c.caseId, NewEntity(c, news[n]), eps) == Raised(c.caseId, NewEntity(c, news[n]), eps[1..])
    {
      NewKeyNotIn(known + {k}, eps[1..], n);
      RaisedSkip(c.caseId, NewEntity(c, news[n]), eps);
    }
    MergeShift(c, db.entities, next, eps, news);
  }

  lemma MergedEntitiesCons(c: Ctx, b: Batch, b': Batch, eps: seq<EntityProposal>)
    requires eps != [] && IdsBelow(b.db, b.next) && EntityStepped(c, b, b', eps[0])
    ensures MergedEntities(b.db, b.next, c, eps) == MergedEntities(b'.db, b'.next, c, eps[1..])
  {
    hide UniqueEntities;
    hide EntityMatches;
    hide Raised;
    hide FirstNew;
    var db1 := b.db.(entities := b'.db.entities);
    assert LiveKeys(db1, c.caseId) == LiveKeys(b'.db, c.caseId);
    assert MergedEntities(db1, b'.next, c, eps[1..]) == MergedEntities(b'.db, b'.next, c, eps[1..]);
    if ProposalKey(eps[0]) in LiveKeys(b.db, c.caseId) {
      assert LiveKeys(b.db, c.caseId) + {ProposalKey(eps[0])} == LiveKeys(b.db, c.caseId);
      MergedEntitiesConsKnown(c, b.db, b'.db.entities, b.next, eps);
    } else {
      MergedEntitiesConsNew(c, b.db, b'.db.entities, b.next, eps);
    }
  }

  lemma NewKeyNotIn(known: set<NodeKey>, eps: seq<EntityProposal>, n: nat)
    requires n < |FirstNew(known, eps)|
    ensures ProposalKey(FirstNew(known, eps)[n]) !in known
  {
    FirstNewIsDistinctNew(known, eps);
    assert ProposalKey(FirstNew(known, eps)[n]) in KeysOf(FirstNew(known, eps));
  }

  lemma RaisedCons(c: CaseId, e: Entity, eps: seq<EntityProposal>)
    requires eps != []
    ensures Raised(c, e, eps) == Raised(c, Raised(c, e, [eps[0]]), eps[1..])
  {
    assert [eps[0]][1..] == [];
    assert MaxFrom(e.confidence, NodeKeyOf(e), [eps[0]]) ==
           if ProposalKey(eps[0]) == NodeKeyOf(e) && eps[0].confidence > e.confidence then eps[0].confidence
           else e.confidence;
  }

  lemma RaisedSkip(c: CaseId, e: Entity, eps: seq<EntityProposal>)
    requires eps != [] && (e.live && e.caseId == c ==> NodeKeyOf(e) != ProposalKey(eps[0]))
    ensures Raised(c, e, eps) == Raised(c, e, eps[1..])
  {
  }

  predicate AllAccepted(eps: seq<EntityProposal>) {
    forall ep :: ep in eps ==> Validators.Accepts(ep.attrs)
  }

  lemma AllAcceptedCons(eps: seq<EntityProposal>)
    requires eps != []
    ensures AllAccepted(eps) <==> Validators.Accepts(eps[0].attrs) && AllAccepted(eps[1..])
  {
    hide Validators.Accepts;
    assert eps == [eps[0]] + eps[1..];
  }

  lemma AllAcceptedAt(eps: seq<EntityProposal>)
    ensures AllAccepted(eps) <==> forall n :: 0 <= n < |eps| ==> Validators.Accepts(eps[n].attrs)
  {
    hide Validators.Accepts;
    assert forall n :: 0 <= n < |eps| ==> eps[n] in eps;
  }

  /** The entity loop of `_persist` is the one-shot merge; it fails only on a refused attribute dict. */
  lemma {:induction false} EntityPhase(c: Ctx, b: Batch, eps: seq<EntityProposal>)
    requires Consistent(b.db, b.next) && UniqueEntities(b.db, c.caseId)
    ensures ApplyAll(c, b, EntityProposals(eps)).Ok? <==> AllAccepted(eps)
    ensures ApplyAll(c, b, EntityProposals(eps)).Ok? ==>
              EntityPhased(c, b, ApplyAll(c, b, EntityProposals(eps)).value, eps)
    decreases |eps|
  {
    hide Apply;
    hide Validators.Accepts;
    hide EntityPhased;
    hide EntityStepped;
    hide Consistent;
    hide UniqueEntities;
    hide Grows;
    if eps == [] {
      EntityPhasedNil(c, b);
    } else {
      hide AllAccepted;
      var ps := EntityProposals(eps);
      assert ps[0] == PE(eps[0]) && ps[1..] == EntityProposals(eps[1..]);
      AllAcceptedCons(eps);
      EntityStepKeeps(c, b, eps[0]);
      if Validators.Accepts(eps[0].attrs) {
        var b1 := Apply(c, b, ps[0]).value;
        EntityPhase(c, b1, eps[1..]);
        if ApplyAll(c, b, ps).Ok? {
          EntityPhasedCons(c, b, b1, ApplyAll(c, b, ps).value, eps);
        }
      }
    }
  }

  lemma EntityStepKeeps(c: Ctx, b: Batch, ep: EntityProposal)
    requires Consistent(b.db, b.next) && UniqueEntities(b.db, c.caseId)
    ensures IdsBelow(b.db, b.next)
    ensures Apply(c, b, PE(ep)).Ok? <==> Validators.Accepts(ep.attrs)
    ensures Apply(c, b, PE(ep)).Ok? ==>
              var b1 := Apply(c, b, PE(ep)).value;
              && Consistent(b1.db, b1.next) && UniqueEntities(b1.db, c.caseId)
              && Grows(b.db, b1.db) && EntityStepped(c, b, b1, ep)
  {
    hide Apply;
    hide Consistent;
    hide UniqueEntities;
    hide Grows;
    IdsAreBelow(b.db, b.next);
    EntityStep(c, b, ep);
    if Apply(c, b, PE(ep)).Ok? {
      ApplyKeeps(c, b, PE(ep));
    }
  }

  ghost predicate EntityPhased(c: Ctx, b: Batch, b': Batch, eps: seq<EntityProposal>) {
    var n := |FirstNew(LiveKeys(b.db, c.caseId), eps)|;
    && b'.db.entities == MergedEntities(b.db, b.next, c, eps)
    && b'.next == b.next + n && b'.ents == b.ents + IdRange(b.next, n)
    && b'.refs == RefsOf(b'.db, c.caseId, b.refs, eps)
    && b' == b.(db := b'.db, next := b'.next, refs := b'.refs, ents := b'.ents)
    && b'.db == b.db.(entities := b'.db.entities, graph := b'.db.graph)
    && UniqueEntities(b'.db, c.caseId)
    && LiveKeys(b'.db, c.caseId) == LiveKeys(b.db, c.caseId) + KeysOf(eps)
    && (forall k :: k in LiveKeys(b.db, c.caseId) ==>
          EntityMatches(b'.db, c.caseId, k) == EntityMatches(b.db, c.caseId, k))
  }

  lemma EntityPhasedNil(c: Ctx, b: Batch)
    requires Consistent(b.db, b.next) && UniqueEntities(b.db, c.caseId)
    ensures EntityPhased(c, b, b, [])
  {
    assert KeysOf([]) == {};
    assert b.db.entities == MergedEntities(b.db, b.next, c, []);
    assert IdRange(b.next, 0) == [];
  }

  lemma MatchesStay(c: CaseId, db: DB, db': DB, k: NodeKey)
    requires UniqueEntities(db, c) && UniqueEntities(db', c) && Grows(db, db') && k in LiveKeys(db, c)
    ensures EntityMatches(db', c, k) == EntityMatches(db, c, k)
  {
    var i :| i in db.entities && EntityInCase(db, i, c) && NodeKeyOf(db.entities[i]) == k;
    assert EntityInCase(db', i, c) && NodeKeyOf(db'.entities[i]) == k;
    assert EntityMatches(db, c, k) == {i};
    assert EntityMatches(db', c, k) == {i};
  }

  lemma IdRangeMore(ids: seq<Id>, next: Id, n: nat)
    ensures ids + [next] + IdRange(next + 1, n) == ids + IdRange(next, n + 1)
  {
    assert IdRange(next, n + 1) == [next] + IdRange(next + 1, n);
  }

  /** A known key adds nothing; a new one adds its proposal and takes the next id. */
  lemma FirstNewCount(known: set<NodeKey>, ids: seq<Id>, next: Id, eps: seq<EntityProposal>)
    requires eps != []
    ensures var k := ProposalKey(eps[0]);
            var n, n1 := |FirstNew(known, eps)|, |FirstNew(known + {k}, eps[1..])|;
            if k in known then n == n1
            else n == n1 + 1 && ids + [next] + IdRange(next + 1, n1) == ids + IdRange(next, n)
  {
    var k := ProposalKey(eps[0]);
    if k in known {
      assert known + {k} == known;
    } else {
      IdRangeMore(ids, next, |FirstNew(known + {k}, eps[1..])|);
    }
  }

  lemma EntityPhasedCons(c: Ctx, b: Batch, b1: Batch, b': Batch, eps: seq<EntityProposal>)
    requires eps != [] && IdsBelow(b.db, b.next) && UniqueEntities(b.db, c.caseId)
    requires EntityStepped(c, b, b1, eps[0]) && Grows(b.db, b1.db) && EntityPhased(c, b1, b', eps[1..])
    ensures EntityPhased(c, b, b', eps)
  {
    hide Merge;
    hide MergedEntities;
    hide FirstNew;
    hide Raised;
    hide IdRange;
    hide KeysOf;
    hide LiveKeys;
    var k := ProposalKey(eps[0]);
    MergedEntitiesCons(c, b, b1, eps);
    FirstNewCount(LiveKeys(b.db, c.caseId), b.ents, b.next, eps);
    KeysOfCons(eps);
    assert LiveKeys(b'.db, c.caseId) == LiveKeys(b.db, c.caseId) + KeysOf(eps);
    assert k in LiveKeys(b1.db, c.caseId);
    assert TheEntity(b'.db, c.caseId, k) == TheEntity(b1.db, c.caseId, k);
    forall k' | k' in LiveKeys(b.db, c.caseId)
      ensures EntityMatches(b'.db, c.caseId, k') == EntityMatches(b.db, c.caseId, k')
    {
      MatchesStay(c.caseId, b.db, b1.db, k');
    }
  }
}
