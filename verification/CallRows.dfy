/** What the repository calls write and answer, column by column and on the committed tables. */
module CallRows {
  import opened Prelude
  import opened GraphDb
  import opened EvidenceKeys
  import opened Lookups
  import opened Batches
  import opened Sessions
  import opened Repositories

  /** The call starts on a usable session with nothing pending. */
  ghost predicate Ready(env: Env, s: Store) {
    Inv(env, s) && !s.broken && s.work == s.base
  }

  /** None of the three fallible calls of a committing write fails. */
  predicate Smooth(env: Env, s: Store) {
    env.fault(s.tick) == NoFault && env.fault(s.tick + 1) == NoFault && env.fault(s.tick + 2) == NoFault
  }

  /** Row `i` is there, not deleted, and of this case. */
  predicate IsLive(db: DB, i: Id, c: CaseId) {
    i in db.entities && db.entities[i].live && db.entities[i].caseId == c
  }

  /** Row `j` is a relationship of this triple in this case, and not deleted. */
  predicate IsLink(db: DB, j: Id, c: CaseId, src: Id, dst: Id, rtype: RelType) {
    && j in db.rels && db.rels[j].live && db.rels[j].caseId == c
    && db.rels[j].src == src && db.rels[j].dst == dst && db.rels[j].rtype == rtype
  }

  /** Row `i` is an entity of this type and name in this case, and not deleted. */
  predicate IsNamed(db: DB, i: Id, c: CaseId, etype: EntityType, name: string) {
    IsLive(db, i, c) && db.entities[i].etype == etype && db.entities[i].name == name
  }

  lemma SmoothWrite(env: Env, s: Store, db: DB, next: Id, io: Io)
    requires !s.broken && Smooth(env, s)
    ensures WriteThrough(env, s, db, next, io, true).1 == None
  {
  }

  lemma NextIsNew(env: Env, s: Store)
    requires Ready(env, s)
    ensures s.next !in s.base.entities && s.next !in s.base.rels && Consistent(s.base, s.next)
    ensures forall n :: 0 <= n < |s.base.evidence| ==> s.base.evidence[n].id != s.next
  {
    IdsAreBelow(s.base, s.next);
  }

  // ---------- Entities ----------

  /** `db'` has row `i` more, or with other columns, with its vertex; nothing else differs. */
  ghost predicate EntityWritten(db: DB, db': DB, i: Id, e: Entity) {
    && i in db'.entities && db'.entities[i] == e && db'.entities == db.entities[i := e]
    && VKey(e.etype, i) in db'.graph.vertices
    && ShowsEntity(VKey(e.etype, i), db'.graph.vertices[VKey(e.etype, i)], i, e)
    && db'.graph.vertices == db.graph.vertices[VKey(e.etype, i) := db'.graph.vertices[VKey(e.etype, i)]]
    && db'.rels == db.rels && db'.graph.edges == db.graph.edges
    && db'.evidence == db.evidence && db'.runs == db.runs
  }

  lemma PutEntityWrites(db: DB, i: Id, e: Entity)
    ensures EntityWritten(db, PutEntity(db, i, e), i, e)
  {
  }

  /** A created entity is live and has the columns of the request; without faults the call succeeds. */
  lemma CreateEntityRows(env: Env, s: Store, c: CaseId, d: EntityCreate)
    requires Ready(env, s)
    ensures var (s', r) := CreateEntity(env, s, c, d, true);
            && (Smooth(env, s) ==> r.Ok?)
            && (r.Ok? ==>
                  && r.value !in s.base.entities
                  && EntityWritten(s.base, s'.base, r.value, Entity(c, d.etype, d.name, d.attrs, d.confidence, true)))
            && (r.Err? && r.error != CommitFailed ==> s'.base == s.base)
  {
    NextIsNew(env, s);
    hide Inv;
    var db := PutEntity(s.work, s.next, EntityRow(c, d));
    WriteIsAtomic(env, s, db, s.next + 1, Age);
    PutEntityWrites(s.work, s.next, EntityRow(c, d));
    if Smooth(env, s) {
      SmoothWrite(env, s, db, s.next + 1, Age);
    }
    hide WriteThrough;
    hide EntityWritten;
  }

  /** A write raises only for its own four calls. */
  lemma WriteErrors(env: Env, s: Store, db: DB, next: Id, io: Io)
    ensures var err := WriteThrough(env, s, db, next, io, true).1;
            err.Some? ==>
              err.value == FlushFailed || err.value == AgeFailed || err.value == BlobFailed || err.value == CommitFailed
  {
  }

  lemma RaiseRows(env: Env, s: Store, i: Id, confidence: real)
    requires Ready(env, s) && i in s.work.entities
    ensures var e := s.work.entities[i].(confidence := confidence);
            var (s', r) := Answer(WriteThrough(env, s, PutEntity(s.work, i, e), s.next, Age, true), (i, false));
            && (Smooth(env, s) ==> r.Ok?) && r != Err(MultipleRows)
            && (r.Ok? ==> r.value == (i, false) && EntityWritten(s.base, s'.base, i, e))
  {
    hide Inv;
    var e := s.work.entities[i].(confidence := confidence);
    WriteIsAtomic(env, s, PutEntity(s.work, i, e), s.next, Age);
    WriteErrors(env, s, PutEntity(s.work, i, e), s.next, Age);
    PutEntityWrites(s.work, i, e);
    if Smooth(env, s) {
      SmoothWrite(env, s, PutEntity(s.work, i, e), s.next, Age);
    }
    hide WriteThrough;
    hide EntityWritten;
  }

  lemma NamedIds(s: Store, c: CaseId, etype: EntityType, name: string)
    ensures var ids := EntityMatches(s.work, c, NodeKey(etype, name));
            && (forall i :: i in ids <==> IsNamed(s.work, i, c, etype, name))
            && (ScalarOneOrNone(ids) == NoRow ==> forall i :: !IsNamed(s.work, i, c, etype, name))
            && (ScalarOneOrNone(ids).One? ==> IsNamed(s.work, ScalarOneOrNone(ids).id, c, etype, name))
            && (ScalarOneOrNone(ids) == Many <==>
                  exists i, j :: i != j && IsNamed(s.work, i, c, etype, name) && IsNamed(s.work, j, c, etype, name))
  {
    var ids := EntityMatches(s.work, c, NodeKey(etype, name));
    assert forall i :: i in ids <==> IsNamed(s.work, i, c, etype, name);
    match ScalarOneOrNone(ids) {
      case One(i) => assert i in ids;
      case Many =>
        var i :| i in ids;
        assert ids != {i};
        var j :| j in ids && j != i;
      case NoRow =>
    }
  }

  /** `get_or_create` finds exactly the live row of the case with the requested type and name, raises its
      confidence to the requested one if that is higher, and creates a row only if there is none. */
  lemma GetOrCreateRows(env: Env, s: Store, c: CaseId, d: EntityCreate)
    requires Ready(env, s)
    ensures var (s', r) := GetOrCreateEntity(env, s, c, d, true);
            && (r.Ok? && !r.value.1 ==>
                  && IsNamed(s.base, r.value.0, c, d.etype, d.name)
                  && var e := s.base.entities[r.value.0];
                     if d.confidence > e.confidence then
                       EntityWritten(s.base, s'.base, r.value.0, e.(confidence := d.confidence))
                     else s'.base == s.base)
            && (r.Ok? && r.value.1 ==>
                  && r.value.0 !in s.base.entities && (forall i :: !IsNamed(s.base, i, c, d.etype, d.name))
                  && EntityWritten(s.base, s'.base, r.value.0, Entity(c, d.etype, d.name, d.attrs, d.confidence, true)))
            && (r == Err(MultipleRows) <==>
                  exists i, j :: i != j && IsNamed(s.base, i, c, d.etype, d.name)
                                 && IsNamed(s.base, j, c, d.etype, d.name))
            && (Smooth(env, s) && r != Err(MultipleRows) ==> r.Ok?)
  {
    hide EntityWritten;
    hide WriteThrough;
    CreateEntityRows(env, s, c, d);
    WriteErrors(env, s, PutEntity(s.work, s.next, EntityRow(c, d)), s.next + 1, Age);
    NamedIds(s, c, d.etype, d.name);
    var l := ScalarOneOrNone(EntityMatches(s.work, c, NodeKey(d.etype, d.name)));
    if l.One? {
      RaiseRows(env, s, l.id, d.confidence);
    }
    hide Inv;
    hide IsNamed;
  }

  /** A soft delete answers true exactly for a live row of the case, closes it, and answers false when
      repeated. */
  lemma DeleteEntityRows(env: Env, s: Store, i: Id, c: CaseId)
    requires Ready(env, s)
    ensures var (s', r) := SoftDeleteEntity(env, s, i, c);
            && (r == Ok(false) <==> !IsLive(s.base, i, c)) && (r == Ok(false) ==> s'.base == s.base)
            && (Smooth(env, s) ==> r.Ok?)
            && (r == Ok(true) ==>
                  && s'.base.entities == s.base.entities[i := s.base.entities[i].(live := false)]
                  && s'.base.rels == s.base.rels && s'.base.evidence == s.base.evidence
                  && s'.base.runs == s.base.runs
                  && forall c' :: SoftDeleteEntity(env, s', i, c') == (s', Ok(false)))
  {
    hide Inv;
    if IsLive(s.base, i, c) {
      WriteIsAtomic(env, s, DropEntity(s.work, i), s.next, Age);
      if Smooth(env, s) {
        SmoothWrite(env, s, DropEntity(s.work, i), s.next, Age);
      }
    }
    hide WriteThrough;
  }

  // ---------- Relationships ----------

  /** `db'` has the live row `j` more, with its edge from source to destination; nothing else differs. */
  ghost predicate RelWritten(db: DB, db': DB, j: Id, r: Relationship) {
    var k := EKey(r.src, r.dst, r.rtype, j);
    && j !in db.rels && j in db'.rels && db'.rels[j] == r && db'.rels == db.rels[j := r]
    && k in db'.graph.edges && ShowsRel(k, db'.graph.edges[k], j, r)
    && db'.graph.edges == db.graph.edges[k := db'.graph.edges[k]]
    && db'.entities == db.entities && db'.graph.vertices == db.graph.vertices
    && db'.evidence == db.evidence && db'.runs == db.runs
  }

  lemma PutRelWrites(db: DB, next: Id, j: Id, r: Relationship)
    requires Consistent(db, next) && j !in db.rels
    requires IsLive(db, r.src, r.caseId) && IsLive(db, r.dst, r.caseId)
    ensures RelWritten(db, PutRel(db, j, r), j, r)
  {
    VertexMatched(db, r.src);
    VertexMatched(db, r.dst);
    hide Consistent;
    hide HasVertex;
  }

  /** The committing write of a new relationship row. */
  lemma RelWriteRows(env: Env, s: Store, row: Relationship)
    requires Ready(env, s) && IsLive(s.base, row.src, row.caseId) && IsLive(s.base, row.dst, row.caseId)
    ensures var (s', err) := WriteThrough(env, s, PutRel(s.work, s.next, row), s.next + 1, Age, true);
            && (Smooth(env, s) ==> err == None)
            && (err == None ==> RelWritten(s.base, s'.base, s.next, row))
            && (err.Some? ==> err.value != EndpointNotInCase && err.value != MultipleRows)
            && (err.Some? && err.value != CommitFailed ==> s'.base == s.base)
  {
    hide WriteThrough;
    hide RelWritten;
    hide PutRel;
    hide Consistent;
    NextIsNew(env, s);
    hide Inv;
    var db := PutRel(s.work, s.next, row);
    PutRelWrites(s.work, s.next, s.next, row);
    WriteIsAtomic(env, s, db, s.next + 1, Age);
    WriteErrors(env, s, db, s.next + 1, Age);
    if Smooth(env, s) {
      SmoothWrite(env, s, db, s.next + 1, Age);
    }
  }

  /** A relationship is created exactly between live entities of the case: its row is live, has the columns
      of the request, and its edge runs from the source to the destination. */
  lemma CreateRelRows(env: Env, s: Store, c: CaseId, d: RelationshipCreate)
    requires Ready(env, s)
    ensures var (s', r) := CreateRel(env, s, c, d, true);
            && (r == Err(EndpointNotInCase) <==> !IsLive(s.base, d.src, c) || !IsLive(s.base, d.dst, c))
            && (Smooth(env, s) && r != Err(EndpointNotInCase) ==> r.Ok?)
            && (r.Ok? ==>
                  RelWritten(s.base, s'.base, r.value,
                             Relationship(c, d.src, d.dst, d.rtype, d.confidence, d.source, d.attrs, true)))
            && (r.Err? && r.error != CommitFailed ==> s'.base == s.base)
            && r != Err(MultipleRows)
  {
    hide WriteThrough;
    hide RelWritten;
    hide PutRel;
    hide Inv;
    if IsLive(s.base, d.src, c) && IsLive(s.base, d.dst, c) {
      RelWriteRows(env, s, RelRow(c, d));
    }
  }

  lemma LinkIds(s: Store, c: CaseId, src: Id, dst: Id, rtype: RelType)
    ensures var ids := RelMatches(s.work, c, LinkKey(src, dst, rtype));
            && (ScalarOneOrNone(ids) == NoRow <==> forall j :: !IsLink(s.work, j, c, src, dst, rtype))
            && (ScalarOneOrNone(ids).One? ==> IsLink(s.work, ScalarOneOrNone(ids).id, c, src, dst, rtype))
            && (ScalarOneOrNone(ids) == Many <==>
                  exists i, j :: i != j && IsLink(s.work, i, c, src, dst, rtype)
                                 && IsLink(s.work, j, c, src, dst, rtype))
  {
    var ids := RelMatches(s.work, c, LinkKey(src, dst, rtype));
    assert forall j :: j in ids <==> IsLink(s.work, j, c, src, dst, rtype);
    match ScalarOneOrNone(ids) {
      case One(j) => assert j in ids;
      case Many =>
        var i :| i in ids;
        assert ids != {i};
        var j :| j in ids && j != i;
      case NoRow =>
    }
  }

  /** `create_if_not_exists` answers with an existing row exactly when that is the live row of the triple in
      the case; otherwise it creates one, and without faults between live ends it succeeds. A deleted row
      never counts. */
  lemma CreateIfNotExistsRows(env: Env, s: Store, c: CaseId, d: RelationshipCreate)
    requires Ready(env, s)
    ensures var (s', r) := CreateRelIfNotExists(env, s, c, d, true);
            && (r.Ok? && !r.value.1 ==> s' == s && IsLink(s.base, r.value.0, c, d.src, d.dst, d.rtype))
            && (r.Ok? && r.value.1 ==>
                  && (forall j :: !IsLink(s.base, j, c, d.src, d.dst, d.rtype))
                  && RelWritten(s.base, s'.base, r.value.0,
                                Relationship(c, d.src, d.dst, d.rtype, d.confidence, d.source, d.attrs, true)))
            && (r == Err(MultipleRows) <==>
                  exists i, j :: i != j && IsLink(s.base, i, c, d.src, d.dst, d.rtype)
                                 && IsLink(s.base, j, c, d.src, d.dst, d.rtype))
            && (Smooth(env, s) && IsLive(s.base, d.src, c) && IsLive(s.base, d.dst, c) ==>
                  (forall j :: !IsLink(s.base, j, c, d.src, d.dst, d.rtype)) ==> r.Ok? && r.value.1)
  {
    CreateRelRows(env, s, c, d);
    LinkIds(s, c, d.src, d.dst, d.rtype);
    hide Inv;
    hide RelWritten;
    hide CreateRel;
    hide IsLink;
  }

  /** A relationship delete answers true exactly for a live row of the case and closes it; repeated it
      answers false, and the triple may be created again, under a new id. */
  lemma DeleteRelRows(env: Env, s: Store, j: Id, c: CaseId)
    requires Ready(env, s)
    ensures var (s', r) := SoftDeleteRel(env, s, j, c);
            && (r == Ok(false) <==> !(j in s.base.rels && s.base.rels[j].live && s.base.rels[j].caseId == c))
            && (r == Ok(false) ==> s'.base == s.base) && (Smooth(env, s) ==> r.Ok?)
            && (r == Ok(true) ==>
                  && Ready(env, s')
                  && s'.base.rels == s.base.rels[j := s.base.rels[j].(live := false)]
                  && s'.base.entities == s.base.entities && s'.base.graph.vertices == s.base.graph.vertices
                  && s'.base.evidence == s.base.evidence && s'.base.runs == s.base.runs
                  && forall c' :: SoftDeleteRel(env, s', j, c') == (s', Ok(false)))
  {
    SoftDeleteRelKeeps(env, s, j, c);
    hide Inv;
    if j in s.base.rels && s.base.rels[j].live && s.base.rels[j].caseId == c {
      WriteIsAtomic(env, s, DropRel(s.work, j), s.next, Age);
      if Smooth(env, s) {
        SmoothWrite(env, s, DropRel(s.work, j), s.next, Age);
      }
    }
    hide WriteThrough;
  }

  /** Deleted and created again: a new live row beside the closed one. */
  lemma RecreatedAfterDelete(env: Env, s: Store, j: Id, c: CaseId, d: RelationshipCreate)
    requires Ready(env, s) && SoftDeleteRel(env, s, j, c).1 == Ok(true)
    requires forall i :: IsLink(s.base, i, c, d.src, d.dst, d.rtype) <==> i == j
    requires IsLive(s.base, d.src, c) && IsLive(s.base, d.dst, c) && Smooth(env, SoftDeleteRel(env, s, j, c).0)
    ensures var (s', r) := CreateRelIfNotExists(env, SoftDeleteRel(env, s, j, c).0, c, d, true);
            && r.Ok? && r.value.1 && r.value.0 != j && j in s'.base.rels && !s'.base.rels[j].live
            && IsLink(s'.base, r.value.0, c, d.src, d.dst, d.rtype)
  {
    hide SoftDeleteRel;
    hide Inv;
    hide CreateRelIfNotExists;
    DeleteRelRows(env, s, j, c);
    var s1 := SoftDeleteRel(env, s, j, c).0;
    forall i ensures !IsLink(s1.base, i, c, d.src, d.dst, d.rtype) {
      assert IsLink(s.base, i, c, d.src, d.dst, d.rtype) <==> i == j;
    }
    CreateIfNotExistsRows(env, s1, c, d);
  }

  // ---------- Evidence ----------

  /** A recorded payload: the columns of its row, its content key included, and the object under the key. */
  lemma CreateEvidenceRows(env: Env, s: Store, c: CaseId, d: EvidenceCreate, payload: Bytes,
                           contentType: Option<string>, now: Time)
    requires Ready(env, s)
    ensures var (s', r) := CreateEvidence(env, s, c, d, payload, contentType, now, true);
            && (Smooth(env, s) ==> r.Ok?)
            && (r.Err? && r.error != CommitFailed ==> s'.base == s.base)
            && (r.Ok? ==>
                  var key := "case/" + c + "/ev/" + env.hash(payload);
                  var mime := if contentType.None? || contentType.value == "" then "application/octet-stream"
                              else contentType.value;
                  && (forall n :: 0 <= n < |s.base.evidence| ==> s.base.evidence[n].id != r.value)
                  && s'.base == s.base.(evidence := s.base.evidence +
                       [Evidence(r.value, c, d.entity, d.source, d.query, env.hash(payload), key, |payload|, mime,
                                 d.spec, now)])
                  && Stored(s.blobs, s'.blobs, key, payload))
  {
    NextIsNew(env, s);
    hide Inv;
    var row := EvidenceRow(env.hash, s.next, c, d, payload, contentType, now);
    WriteIsAtomic(env, s, AddEvidence(s.work, row), s.next + 1, Blob(c, payload));
    WriteStores(env, s, AddEvidence(s.work, row), s.next + 1, c, payload);
    if Smooth(env, s) {
      SmoothWrite(env, s, AddEvidence(s.work, row), s.next + 1, Blob(c, payload));
    }
    hide WriteThrough;
    hide Stored;
  }

  /** The object under `key` is `data`, unless one of its size was there before; no other object changed. */
  predicate Stored(blobs: Bucket, blobs': Bucket, key: string, data: Bytes) {
    && key in blobs' && |blobs'[key]| == |data|
    && blobs' == blobs[key := blobs'[key]]
    && blobs'[key] == if key in blobs && |blobs[key]| == |data| then blobs[key] else data
  }

  lemma WriteStores(env: Env, s: Store, db: DB, next: Id, c: CaseId, data: Bytes)
    requires !s.broken
    ensures var (s', err) := WriteThrough(env, s, db, next, Blob(c, data), true);
            err == None ==> Stored(s.blobs, s'.blobs, "case/" + c + "/ev/" + env.hash(data), data)
  {
  }
}
