/** The batch a plugin returns, applied to the database one proposal at a time: lookups, dedup, ref
    resolution, row and graph writes. Faults and transactions are added in `Sessions`. */
module Batches {
  import opened Prelude
  import opened Values
  import opened GraphDb
  import opened EvidenceKeys
  import opened Lookups
  import Validators

  datatype EntityProposal = EntityProposal(ref: string, etype: EntityType, name: string, attrs: Value,
                                           confidence: real)

  /** A relationship end is a dict: a truthy `input` wins over a `ref`. */
  datatype Endpoint = Endpoint(input: bool, ref: Option<string>)

  datatype RelProposal = RelProposal(src: Endpoint, dst: Endpoint, rtype: RelType, confidence: real, attrs: Value)

  datatype EvidenceProposal = EvidenceProposal(query: string, payload: Bytes, contentType: Option<string>,
                                               spec: Value, linkToInput: bool)

  datatype QueryResult = QueryResult(entities: seq<EntityProposal>, relationships: seq<RelProposal>,
                                     evidence: seq<EvidenceProposal>)

  datatype Proposal = PE(e: EntityProposal) | PR(r: RelProposal) | PV(v: EvidenceProposal)

  datatype RunError =
    | CredentialsMissing | QueryRaised(kind: string) | TooManyProposals
    | ValidationFailed | MultipleRows | UnknownRef | BadEndpoint | EndpointNotInCase
    | FlushFailed | AgeFailed | BlobFailed | CommitFailed

  /** What one run fixes for its whole batch. */
  datatype Ctx = Ctx(caseId: CaseId, input: Id, plugin: string, now: Time, hash: Hash)

  /** The batch so far: the database, the next fresh id, the resolved refs and the returned lists. */
  datatype Batch = Batch(db: DB, next: Id, refs: map<string, Id>, ents: seq<Id>, rels: seq<Id>, evs: seq<Id>)

  function EntityProposals(es: seq<EntityProposal>): seq<Proposal> {
    seq(|es|, i requires 0 <= i < |es| => PE(es[i]))
  }

  function RelProposals(rs: seq<RelProposal>): seq<Proposal> {
    seq(|rs|, i requires 0 <= i < |rs| => PR(rs[i]))
  }

  function EvidenceProposals(vs: seq<EvidenceProposal>): seq<Proposal> {
    seq(|vs|, i requires 0 <= i < |vs| => PV(vs[i]))
  }

  /** All proposals of a result in the order they are persisted. */
  function Proposals(q: QueryResult): seq<Proposal> {
    EntityProposals(q.entities) + RelProposals(q.relationships) + EvidenceProposals(q.evidence)
  }

  // ---------- Lookups ----------

  datatype NodeKey = NodeKey(etype: EntityType, name: string)

  datatype LinkKey = LinkKey(src: Id, dst: Id, rtype: RelType)

  function NodeKeyOf(e: Entity): NodeKey {
    NodeKey(e.etype, e.name)
  }

  function ProposalKey(ep: EntityProposal): NodeKey {
    NodeKey(ep.etype, ep.name)
  }

  function LinkKeyOf(r: Relationship): LinkKey {
    LinkKey(r.src, r.dst, r.rtype)
  }

  function EntityMatches(db: DB, c: CaseId, k: NodeKey): set<Id> {
    set i | i in db.entities && EntityInCase(db, i, c) && NodeKeyOf(db.entities[i]) == k
  }

  predicate RelInCase(db: DB, j: Id, c: CaseId) {
    LiveRel(db, j) && db.rels[j].caseId == c
  }

  function RelMatches(db: DB, c: CaseId, k: LinkKey): set<Id> {
    set j | j in db.rels && RelInCase(db, j, c) && LinkKeyOf(db.rels[j]) == k
  }

  ghost predicate UniqueEntities(db: DB, c: CaseId) {
    forall i, j | EntityInCase(db, i, c) && EntityInCase(db, j, c) ::
      NodeKeyOf(db.entities[i]) == NodeKeyOf(db.entities[j]) ==> i == j
  }

  ghost predicate UniqueRels(db: DB, c: CaseId) {
    forall i, j | RelInCase(db, i, c) && RelInCase(db, j, c) ::
      LinkKeyOf(db.rels[i]) == LinkKeyOf(db.rels[j]) ==> i == j
  }

  // ---------- One proposal ----------

  function NewEntity(c: Ctx, ep: EntityProposal): Entity {
    Entity(c.caseId, ep.etype, ep.name, ep.attrs, ep.confidence, true)
  }

  /** The dedup hit of `get_or_create`: only a higher confidence is written. */
  function RaiseConfidence(db: DB, i: Id, confidence: real): DB
    requires i in db.entities
  {
    if confidence > db.entities[i].confidence then
      PutEntity(db, i, db.entities[i].(confidence := confidence))
    else db
  }

  ghost function ApplyEntity(c: Ctx, b: Batch, ep: EntityProposal): Result<Batch, RunError> {
    if !Validators.Accepts(ep.attrs) then Err(ValidationFailed)
    else
      match ScalarOneOrNone(EntityMatches(b.db, c.caseId, ProposalKey(ep)))
      case Many => Err(MultipleRows)
      case One(i) =>
        assert i in EntityMatches(b.db, c.caseId, ProposalKey(ep));
        Ok(b.(db := RaiseConfidence(b.db, i, ep.confidence), refs := b.refs[ep.ref := i]))
      case NoRow =>
        Ok(b.(db := PutEntity(b.db, b.next, NewEntity(c, ep)), next := b.next + 1,
              refs := b.refs[ep.ref := b.next], ents := b.ents + [b.next]))
  }

  function ResolveRef(c: Ctx, refs: map<string, Id>, ep: Endpoint): Result<Id, RunError> {
    if ep.input then Ok(c.input)
    else if ep.ref.Some? then
      if ep.ref.value in refs then Ok(refs[ep.ref.value]) else Err(UnknownRef)
    else Err(BadEndpoint)
  }

  function NewRel(c: Ctx, src: Id, dst: Id, rp: RelProposal): Relationship {
    Relationship(c.caseId, src, dst, rp.rtype, rp.confidence, Some(c.plugin), rp.attrs, true)
  }

  ghost function ApplyRel(c: Ctx, b: Batch, rp: RelProposal): Result<Batch, RunError> {
    var src := ResolveRef(c, b.refs, rp.src);
    var dst := ResolveRef(c, b.refs, rp.dst);
    if src.Err? then Err(src.error)
    else if dst.Err? then Err(dst.error)
    else if !Validators.Accepts(rp.attrs) then Err(ValidationFailed)
    else
      match ScalarOneOrNone(RelMatches(b.db, c.caseId, LinkKey(src.value, dst.value, rp.rtype)))
      case Many => Err(MultipleRows)
      case One(_) => Ok(b)
      case NoRow =>
        if EntityInCase(b.db, src.value, c.caseId) && EntityInCase(b.db, dst.value, c.caseId) then
          Ok(b.(db := PutRel(b.db, b.next, NewRel(c, src.value, dst.value, rp)), next := b.next + 1,
                rels := b.rels + [b.next]))
        else Err(EndpointNotInCase)
  }

  const DEFAULT_CONTENT_TYPE := "application/octet-stream"

  function ContentType(t: Option<string>): string {
    if t.Some? && t.value != "" then t.value else DEFAULT_CONTENT_TYPE
  }

  function NewEvidence(c: Ctx, id: Id, vp: EvidenceProposal): Evidence {
    var hash := c.hash(vp.payload);
    Evidence(id, c.caseId, if vp.linkToInput then Some(c.input) else None, c.plugin, vp.query, hash,
             BuildKey(c.caseId, hash), |vp.payload|, ContentType(vp.contentType), vp.spec, c.now)
  }

  function ApplyEvidence(c: Ctx, b: Batch, vp: EvidenceProposal): Result<Batch, RunError> {
    if !Validators.Accepts(vp.spec) then Err(ValidationFailed)
    else Ok(b.(db := AddEvidence(b.db, NewEvidence(c, b.next, vp)), next := b.next + 1, evs := b.evs + [b.next]))
  }

  ghost function Apply(c: Ctx, b: Batch, p: Proposal): Result<Batch, RunError> {
    match p
    case PE(ep) => ApplyEntity(c, b, ep)
    case PR(rp) => ApplyRel(c, b, rp)
    case PV(vp) => ApplyEvidence(c, b, vp)
  }

  /** Proposals in order, stopping at the first error. */
  ghost function ApplyAll(c: Ctx, b: Batch, ps: seq<Proposal>): Result<Batch, RunError>
    decreases |ps|
  {
    if ps == [] then Ok(b)
    else
      var first := Apply(c, b, ps[0]);
      if first.Err? then first else ApplyAll(c, first.value, ps[1..])
  }

  function Start(db: DB, next: Id): Batch {
    Batch(db, next, map[], [], [], [])
  }

  lemma {:induction false} ApplyAllConcat(c: Ctx, b: Batch, ps: seq<Proposal>, qs: seq<Proposal>)
    ensures ApplyAll(c, b, ps + qs) ==
            var mid := ApplyAll(c, b, ps);
            if mid.Err? then mid else ApplyAll(c, mid.value, qs)
    decreases |ps|
  {
    if ps == [] {
      assert ps + qs == qs;
    } else {
      assert (ps + qs)[0] == ps[0] && (ps + qs)[1..] == ps[1..] + qs;
      var first := Apply(c, b, ps[0]);
      if first.Ok? {
        ApplyAllConcat(c, first.value, ps[1..], qs);
      }
    }
  }

  // ---------- What every proposal keeps ----------

  ghost predicate Keeps(b: Batch, b': Batch) {
    Consistent(b'.db, b'.next) && b'.db.runs == b.db.runs && b.next <= b'.next && Grows(b.db, b'.db)
  }

  lemma RaiseKeeps(db: DB, next: Id, i: Id, confidence: real)
    requires Consistent(db, next) && LiveEntity(db, i)
    ensures var db' := RaiseConfidence(db, i, confidence);
            Consistent(db', next) && db'.runs == db.runs && Grows(db, db')
  {
    hide Consistent;
    hide UpsertVertex;
    UpdateEntityKeeps(db, next, i, db.entities[i].(confidence := confidence));
  }

  lemma AddKeeps(db: DB, next: Id, e: Entity)
    requires Consistent(db, next) && e.live
    ensures var db' := PutEntity(db, next, e);
            Consistent(db', next + 1) && db'.runs == db.runs && Grows(db, db')
  {
    hide Consistent;
    hide UpsertVertex;
    IdsAreBelow(db, next);
    InsertEntityKeeps(db, next, e);
  }

  lemma ApplyEntityKeeps(c: Ctx, b: Batch, ep: EntityProposal)
    requires Consistent(b.db, b.next) && ApplyEntity(c, b, ep).Ok?
    ensures Keeps(b, ApplyEntity(c, b, ep).value)
  {
    hide Validators.Accepts;
    hide Consistent;
    hide Grows;
    match ScalarOneOrNone(EntityMatches(b.db, c.caseId, ProposalKey(ep))) {
      case One(i) =>
        assert i in EntityMatches(b.db, c.caseId, ProposalKey(ep));
        RaiseKeeps(b.db, b.next, i, ep.confidence);
      case NoRow =>
        AddKeeps(b.db, b.next, NewEntity(c, ep));
    }
  }

  lemma ApplyRelKeeps(c: Ctx, b: Batch, rp: RelProposal)
    requires Consistent(b.db, b.next) && ApplyRel(c, b, rp).Ok?
    ensures Keeps(b, ApplyRel(c, b, rp).value)
  {
    hide Validators.Accepts;
    hide Consistent;
    hide UpsertEdge;
    hide ResolveRef;
    IdsAreBelow(b.db, b.next);
    var src, dst := ResolveRef(c, b.refs, rp.src).value, ResolveRef(c, b.refs, rp.dst).value;
    if ScalarOneOrNone(RelMatches(b.db, c.caseId, LinkKey(src, dst, rp.rtype))) == NoRow {
      InsertRelKeeps(b.db, b.next, NewRel(c, src, dst, rp));
    }
  }

  /** A proposal keeps the mirror and the audit rows, draws fresh ids, and never removes a row. */
  lemma ApplyKeeps(c: Ctx, b: Batch, p: Proposal)
    requires Consistent(b.db, b.next) && Apply(c, b, p).Ok?
    ensures Keeps(b, Apply(c, b, p).value)
  {
    match p
    case PE(ep) => ApplyEntityKeeps(c, b, ep);
    case PR(rp) => ApplyRelKeeps(c, b, rp);
    case PV(vp) =>
      var b' := Apply(c, b, p).value;
      assert VerticesMirror(b'.db) && EdgesMirror(b'.db);
  }

  /** Rows are only added; a row that was there keeps everything but an entity's confidence,
      which never falls; evidence is appended. */
  ghost predicate Grows(db: DB, db': DB) {
    && (forall i :: i in db.entities ==>
          && i in db'.entities && db'.entities[i].confidence >= db.entities[i].confidence
          && db'.entities[i] == db.entities[i].(confidence := db'.entities[i].confidence))
    && (forall j :: j in db.rels ==> j in db'.rels && db'.rels[j] == db.rels[j])
    && db.evidence <= db'.evidence
  }

  lemma {:induction false} ApplyAllKeeps(c: Ctx, b: Batch, ps: seq<Proposal>)
    requires Consistent(b.db, b.next) && ApplyAll(c, b, ps).Ok?
    ensures Keeps(b, ApplyAll(c, b, ps).value)
    decreases |ps|
  {
    if ps != [] {
      ApplyKeeps(c, b, ps[0]);
      ApplyAllKeeps(c, Apply(c, b, ps[0]).value, ps[1..]);
    }
  }
}
