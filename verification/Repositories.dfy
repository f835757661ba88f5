/** EntityRepository, RelationshipRepository and EvidenceRepository: what each call does to the store,
    and the methods that do it step by step. */
module Repositories {
  import opened Prelude
  import opened Values
  import opened GraphDb
  import opened EvidenceKeys
  import opened Lookups
  import opened Batches
  import opened Sessions

  datatype EntityCreate = EntityCreate(etype: EntityType, name: string, attrs: Value, confidence: real)

  datatype RelationshipCreate = RelationshipCreate(src: Id, dst: Id, rtype: RelType, confidence: real,
                                                   source: Option<string>, attrs: Value)

  datatype EvidenceCreate = EvidenceCreate(entity: Option<Id>, source: string, query: string, spec: Value)

  /** A field of a partial update: absent, explicitly null, or a value. */
  datatype Patch<T> = Unset | Null | Set(value: T)

  datatype EntityUpdate = EntityUpdate(name: Patch<string>, attrs: Patch<Value>, confidence: Patch<real>)

  type Outcome<T> = Result<T, RunError>

  function EntityRow(c: CaseId, d: EntityCreate): Entity {
    Entity(c, d.etype, d.name, d.attrs, d.confidence, true)
  }

  function RelRow(c: CaseId, d: RelationshipCreate): Relationship {
    Relationship(c, d.src, d.dst, d.rtype, d.confidence, d.source, d.attrs, true)
  }

  function EvidenceRow(hash: Hash, id: Id, c: CaseId, d: EvidenceCreate, payload: Bytes, contentType: Option<string>,
                       now: Time): Evidence {
    var h := hash(payload);
    Evidence(id, c, d.entity, d.source, d.query, h, BuildKey(c, h), |payload|, ContentType(contentType), d.spec, now)
  }

  function Patched(e: Entity, u: EntityUpdate): Entity {
    e.(name := if u.name.Set? then u.name.value else e.name,
       attrs := match u.attrs case Set(v) => v case Null => VNull case Unset => e.attrs,
       confidence := if u.confidence.Set? then u.confidence.value else e.confidence)
  }

  /** `label` and `confidence` are NOT NULL columns; a null `attrs` is stored as a JSON null. */
  predicate Storable(u: EntityUpdate) {
    !u.name.Null? && !u.confidence.Null?
  }

  function Answer<T>(w: (Store, Option<RunError>), value: T): (Store, Outcome<T>) {
    (w.0, if w.1.Some? then Err(w.1.value) else Ok(value))
  }

  // ---------- What each call does ----------

  function CreateEntity(env: Env, s: Store, c: CaseId, d: EntityCreate, commit: bool): (Store, Outcome<Id>) {
    Answer(WriteThrough(env, s, PutEntity(s.work, s.next, EntityRow(c, d)), s.next + 1, Age, commit), s.next)
  }

  ghost function GetOrCreateEntity(env: Env, s: Store, c: CaseId, d: EntityCreate, commit: bool)
    : (Store, Outcome<(Id, bool)>)
  {
    match ScalarOneOrNone(EntityMatches(s.work, c, NodeKey(d.etype, d.name)))
    case Many => (s, Err(MultipleRows))
    case NoRow =>
      var (s', r) := CreateEntity(env, s, c, d, commit);
      (s', if r.Ok? then Ok((r.value, true)) else Err(r.error))
    case One(i) =>
      assert i in EntityMatches(s.work, c, NodeKey(d.etype, d.name));
      if d.confidence > s.work.entities[i].confidence then
        var e := s.work.entities[i].(confidence := d.confidence);
        Answer(WriteThrough(env, s, PutEntity(s.work, i, e), s.next, Age, commit), (i, false))
      else (s, Ok((i, false)))
  }

  /** A null in a NOT NULL column is refused by the flush itself. */
  function UpdateEntity(env: Env, s: Store, i: Id, c: CaseId, u: EntityUpdate): (Store, Outcome<bool>) {
    if !EntityInCase(s.work, i, c) then (s, Ok(false))
    else if !Storable(u) then (s.(work := s.base, broken := true), Err(FlushFailed))
    else Answer(WriteThrough(env, s, PutEntity(s.work, i, Patched(s.work.entities[i], u)), s.next, Age, true), true)
  }

  function SoftDeleteEntity(env: Env, s: Store, i: Id, c: CaseId): (Store, Outcome<bool>) {
    if !EntityInCase(s.work, i, c) then (s, Ok(false))
    else Answer(WriteThrough(env, s, DropEntity(s.work, i), s.next, Age, true), true)
  }

  function CreateRel(env: Env, s: Store, c: CaseId, d: RelationshipCreate, commit: bool): (Store, Outcome<Id>) {
    if !EntityInCase(s.work, d.src, c) || !EntityInCase(s.work, d.dst, c) then (s, Err(EndpointNotInCase))
    else Answer(WriteThrough(env, s, PutRel(s.work, s.next, RelRow(c, d)), s.next + 1, Age, commit), s.next)
  }

  ghost function CreateRelIfNotExists(env: Env, s: Store, c: CaseId, d: RelationshipCreate, commit: bool)
    : (Store, Outcome<(Id, bool)>)
  {
    match ScalarOneOrNone(RelMatches(s.work, c, LinkKey(d.src, d.dst, d.rtype)))
    case Many => (s, Err(MultipleRows))
    case One(j) => (s, Ok((j, false)))
    case NoRow =>
      var (s', r) := CreateRel(env, s, c, d, commit);
      (s', if r.Ok? then Ok((r.value, true)) else Err(r.error))
  }

  function SoftDeleteRel(env: Env, s: Store, j: Id, c: CaseId): (Store, Outcome<bool>) {
    if !RelInCase(s.work, j, c) then (s, Ok(false))
    else Answer(WriteThrough(env, s, DropRel(s.work, j), s.next, Age, true), true)
  }

  function CreateEvidence(env: Env, s: Store, c: CaseId, d: EvidenceCreate, payload: Bytes,
                          contentType: Option<string>, now: Time, commit: bool): (Store, Outcome<Id>)
  {
    var row := EvidenceRow(env.hash, s.next, c, d, payload, contentType, now);
    Answer(WriteThrough(env, s, AddEvidence(s.work, row), s.next + 1, Blob(c, payload), commit), s.next)
  }

  // ---------- Every call keeps the invariant ----------

  lemma BackedByRows(env: Env, blobs: Bucket, rows: seq<Evidence>, io: Io)
    requires EvidenceIntact(env.hash, blobs, rows)
    ensures Backed(env, blobs, rows, io)
  {
  }

  /** A write that touches neither the evidence nor the run table. */
  lemma MirrorWriteKeeps(env: Env, s: Store, db: DB, next: Id, commit: bool)
    requires Inv(env, s) && s.next <= next && Consistent(db, next)
    requires db.runs == s.work.runs && db.evidence == s.work.evidence
    ensures Inv(env, WriteThrough(env, s, db, next, Age, commit).0)
  {
    hide Inv;
    hide Consistent;
    hide WriteThrough;
    InvWork(env, s);
    BackedByRows(env, s.blobs, s.work.evidence, Age);
    WriteThroughKeeps(env, s, db, next, Age, commit);
  }

  lemma InvConsistent(env: Env, s: Store)
    requires Inv(env, s)
    ensures Consistent(s.work, s.next)
  {
  }

  lemma AddEntityKeeps(env: Env, s: Store, e: Entity, commit: bool)
    requires Inv(env, s) && e.live
    ensures Inv(env, WriteThrough(env, s, PutEntity(s.work, s.next, e), s.next + 1, Age, commit).0)
  {
    hide Inv;
    hide WriteThrough;
    hide Consistent;
    InvConsistent(env, s);
    InsertEntityKeeps(s.work, s.next, e);
    MirrorWriteKeeps(env, s, PutEntity(s.work, s.next, e), s.next + 1, commit);
  }

  lemma CreateEntityKeeps(env: Env, s: Store, c: CaseId, d: EntityCreate, commit: bool)
    requires Inv(env, s)
    ensures Inv(env, CreateEntity(env, s, c, d, commit).0)
  {
    hide Inv;
    hide WriteThrough;
    hide PutEntity;
    AddEntityKeeps(env, s, EntityRow(c, d), commit);
  }

  lemma GetOrCreateEntityKeeps(env: Env, s: Store, c: CaseId, d: EntityCreate, commit: bool)
    requires Inv(env, s)
    ensures Inv(env, GetOrCreateEntity(env, s, c, d, commit).0)
  {
    hide Inv;
    hide Consistent;
    hide WriteThrough;
    InvConsistent(env, s);
    match ScalarOneOrNone(EntityMatches(s.work, c, NodeKey(d.etype, d.name))) {
      case NoRow => CreateEntityKeeps(env, s, c, d, commit);
      case One(i) =>
        assert i in EntityMatches(s.work, c, NodeKey(d.etype, d.name));
        if d.confidence > s.work.entities[i].confidence {
          var e := s.work.entities[i].(confidence := d.confidence);
          UpdateEntityKeeps(s.work, s.next, i, e);
          MirrorWriteKeeps(env, s, PutEntity(s.work, i, e), s.next, commit);
        }
      case Many =>
    }
  }

  lemma UpdateEntityInv(env: Env, s: Store, i: Id, c: CaseId, u: EntityUpdate)
    requires Inv(env, s)
    ensures Inv(env, UpdateEntity(env, s, i, c, u).0)
  {
    hide Inv;
    hide Consistent;
    hide WriteThrough;
    InvConsistent(env, s);
    if EntityInCase(s.work, i, c) && Storable(u) {
      var e := Patched(s.work.entities[i], u);
      UpdateEntityKeeps(s.work, s.next, i, e);
      MirrorWriteKeeps(env, s, PutEntity(s.work, i, e), s.next, true);
    }
    RefusedFlushKeeps(env, s);
  }

  lemma RefusedFlushKeeps(env: Env, s: Store)
    requires Inv(env, s)
    ensures Inv(env, s.(work := s.base, broken := true))
  {
    hide DbOk;
    hide KeysHonest;
  }

  lemma SoftDeleteEntityKeeps(env: Env, s: Store, i: Id, c: CaseId)
    requires Inv(env, s)
    ensures Inv(env, SoftDeleteEntity(env, s, i, c).0)
  {
    hide Inv;
    hide Consistent;
    hide WriteThrough;
    InvConsistent(env, s);
    if EntityInCase(s.work, i, c) {
      DropEntityKeeps(s.work, s.next, i);
      MirrorWriteKeeps(env, s, DropEntity(s.work, i), s.next, true);
    }
  }

  lemma PutRelFrame(db: DB, j: Id, r: Relationship)
    ensures PutRel(db, j, r).runs == db.runs && PutRel(db, j, r).evidence == db.evidence
  {
  }

  lemma AddRelKeeps(env: Env, s: Store, r: Relationship, commit: bool)
    requires Inv(env, s) && r.live && EntityInCase(s.work, r.src, r.caseId) && EntityInCase(s.work, r.dst, r.caseId)
    ensures Inv(env, WriteThrough(env, s, PutRel(s.work, s.next, r), s.next + 1, Age, commit).0)
  {
    hide *;
    InvConsistent(env, s);
    PutRelFrame(s.work, s.next, r);
    InsertRelKeeps(s.work, s.next, r);
    MirrorWriteKeeps(env, s, PutRel(s.work, s.next, r), s.next + 1, commit);
  }

  lemma CreateRelKeeps(env: Env, s: Store, c: CaseId, d: RelationshipCreate, commit: bool)
    requires Inv(env, s)
    ensures Inv(env, CreateRel(env, s, c, d, commit).0)
  {
    hide Inv;
    hide WriteThrough;
    hide PutRel;
    if EntityInCase(s.work, d.src, c) && EntityInCase(s.work, d.dst, c) {
      AddRelKeeps(env, s, RelRow(c, d), commit);
    }
  }

  lemma CreateRelIfNotExistsKeeps(env: Env, s: Store, c: CaseId, d: RelationshipCreate, commit: bool)
    requires Inv(env, s)
    ensures Inv(env, CreateRelIfNotExists(env, s, c, d, commit).0)
  {
    hide Inv;
    hide CreateRel;
    CreateRelKeeps(env, s, c, d, commit);
  }

  lemma SoftDeleteRelKeeps(env: Env, s: Store, j: Id, c: CaseId)
    requires Inv(env, s)
    ensures Inv(env, SoftDeleteRel(env, s, j, c).0)
  {
    hide Inv;
    hide Consistent;
    hide WriteThrough;
    InvConsistent(env, s);
    if RelInCase(s.work, j, c) {
      DropRelKeeps(s.work, s.next, j);
      MirrorWriteKeeps(env, s, DropRel(s.work, j), s.next, true);
    }
  }

  lemma CreateEvidenceKeeps(env: Env, s: Store, c: CaseId, d: EvidenceCreate, payload: Bytes,
                            contentType: Option<string>, now: Time, commit: bool)
    requires Inv(env, s)
    ensures Inv(env, CreateEvidence(env, s, c, d, payload, contentType, now, commit).0)
  {
    hide WriteThrough;
    hide Inv;
    hide Consistent;
    var row := EvidenceRow(env.hash, s.next, c, d, payload, contentType, now);
    var db := AddEvidence(s.work, row);
    InvWork(env, s);
    IdsAreBelow(s.work, s.next);
    MirrorFrame(s.work, s.next, db, s.next + 1);
    WriteThroughKeeps(env, s, db, s.next + 1, Blob(c, payload), commit);
  }

  // ---------- What a caller sees ----------

  /** One committing call is atomic: success commits row and mirror together, a failed flush, AGE call
      or upload commits nothing, and after a failed commit either all of it is there or none. */
  lemma WriteIsAtomic(env: Env, s: Store, db: DB, next: Id, io: Io)
    requires !s.broken
    ensures var (s', err) := WriteThrough(env, s, db, next, io, true);
            && s'.work == s'.base && (s'.broken <==> err == Some(FlushFailed))
            && match err
               case None => s'.base == db && s'.log == s.log + [db]
               case Some(CommitFailed) =>
                 (s'.base == s.base && s'.log == s.log) || (s'.base == db && s'.log == s.log + [db])
               case Some(_) => s'.base == s.base && s'.log == s.log
  {
  }

  predicate FieldPatched<T(==)>(p: Patch<T>, before: T, after: T) {
    (p == Unset ==> after == before) && (p.Set? ==> after == p.value)
  }

  /** A successful partial update changes exactly the fields it names, in the row and in the vertex,
      and no other row, vertex or edge; every other answer leaves the committed tables alone, unless
      the commit itself was lost. */
  lemma UpdateChangesItsFields(env: Env, s: Store, i: Id, c: CaseId, u: EntityUpdate)
    requires Inv(env, s) && !s.broken && s.work == s.base
    ensures var (s', r) := UpdateEntity(env, s, i, c, u);
            && (r == Ok(false) <==>
                  !(i in s.base.entities && s.base.entities[i].live && s.base.entities[i].caseId == c))
            && (r != Ok(true) && r != Err(CommitFailed) ==> s'.base == s.base)
            && (r != Ok(false) && (u.name == Null || u.confidence == Null) ==> r == Err(FlushFailed))
            && (r == Ok(true) ==>
                  && i in s'.base.entities
                  && var e, e' := s.base.entities[i], s'.base.entities[i];
                     && FieldPatched(u.name, e.name, e'.name) && FieldPatched(u.confidence, e.confidence, e'.confidence)
                     && FieldPatched(u.attrs, e.attrs, e'.attrs) && (u.attrs == Null ==> e'.attrs == VNull)
                     && e'.live && e'.caseId == c && e'.etype == e.etype
                     && s'.base == s.base.(entities := s.base.entities[i := e'],
                                           graph := s.base.graph.(vertices :=
                                             s.base.graph.vertices[VKey(e.etype, i) :=
                                               VProps(i, c, e'.name, e'.confidence,
                                                      if e'.attrs.VNull? then VMap([]) else e'.attrs)])))
  {
    hide Inv;
    if EntityInCase(s.work, i, c) && Storable(u) {
      WriteIsAtomic(env, s, PutEntity(s.work, i, Patched(s.work.entities[i], u)), s.next, Age);
      hide WriteThrough;
    }
  }

  /** A successful soft delete hides the entity and every edge at it; its row and the relationship rows
      stay. */
  lemma DeleteHidesEntity(env: Env, s: Store, i: Id, c: CaseId)
    requires Inv(env, s) && !s.broken && s.work == s.base
    ensures var (s', r) := SoftDeleteEntity(env, s, i, c);
            && (r == Ok(false) <==>
                  !(i in s.base.entities && s.base.entities[i].live && s.base.entities[i].caseId == c))
            && (r != Ok(true) && r != Err(CommitFailed) ==> s'.base == s.base)
            && (r == Ok(true) ==>
                  && i in s'.base.entities && !s'.base.entities[i].live
                  && (forall k :: k in s'.base.graph.vertices <==> k in s.base.graph.vertices && k.id != i)
                  && s'.base.rels == s.base.rels
                  && (forall n :: n != i ==> (n in s'.base.entities <==> n in s.base.entities))
                  && (forall n :: n != i && n in s.base.entities ==> s'.base.entities[n] == s.base.entities[n])
                  && forall k :: k in s'.base.graph.edges <==> k in s.base.graph.edges && k.src != i && k.dst != i)
  {
    hide Inv;
    if EntityInCase(s.work, i, c) {
      WriteIsAtomic(env, s, DropEntity(s.work, i), s.next, Age);
      hide WriteThrough;
    }
  }

  /** A successful relationship delete closes that one row, removes its edge and no other, and touches
      no entity or vertex. */
  lemma DeleteHidesRelationship(env: Env, s: Store, j: Id, c: CaseId)
    requires Inv(env, s) && !s.broken && s.work == s.base
    ensures var (s', r) := SoftDeleteRel(env, s, j, c);
            && (r == Ok(false) <==> !(j in s.base.rels && s.base.rels[j].live && s.base.rels[j].caseId == c))
            && (r != Ok(true) && r != Err(CommitFailed) ==> s'.base == s.base)
            && (r == Ok(true) ==>
                  && j in s'.base.rels && !s'.base.rels[j].live
                  && s'.base.rels == s.base.rels[j := s'.base.rels[j]]
                  && s'.base == s.base.(rels := s'.base.rels, graph := s.base.graph.(edges := s'.base.graph.edges))
                  && forall k :: k in s'.base.graph.edges <==> k in s.base.graph.edges && k.id != j)
  {
    hide Inv;
    if RelInCase(s.work, j, c) {
      WriteIsAtomic(env, s, DropRel(s.work, j), s.next, Age);
      hide WriteThrough;
    }
  }

  // ---------- The repositories as objects ----------

  class EntityRepository {
    const session: Session

    constructor (session: Session)
      ensures this.session == session
    {
      this.session := session;
    }

    /** `upsert_vertex`, then the commit if asked, with rollback when either raises. */
    method MirrorAndCommit(graph: Graph, commit: bool) returns (err: Option<RunError>)
      modifies session
      ensures var s := old(session.State());
              var s1 := s.(work := s.work.(graph := graph), tick := s.tick + 1);
              if session.env.fault(s.tick) != NoFault then
                session.State() == Rollback(s.(tick := s.tick + 1)) && err == Some(AgeFailed)
              else if !commit then session.State() == s1 && err == None
              else
                var (s2, ok) := Commit(session.env, s1);
                if ok then session.State() == s2 && err == None
                else session.State() == Rollback(s2) && err == Some(CommitFailed)
    {
      var ok := session.RunCypher(graph);
      if !ok {
        session.RollBack();
        return Some(AgeFailed);
      }
      if commit {
        ok := session.CommitWork();
        if !ok {
          session.RollBack();
          return Some(CommitFailed);
        }
      }
      err := None;
    }

    method Create(c: CaseId, d: EntityCreate, commit: bool) returns (r: Outcome<Id>)
      modifies session
      ensures (session.State(), r) == CreateEntity(session.env, old(session.State()), c, d, commit)
    {
      hide UpsertVertex;
      hide EntityRow;
      var id := session.next;
      var e := EntityRow(c, d);
      session.next := id + 1;
      session.work := session.work.(entities := session.work.entities[id := e]);
      var ok := session.FlushRows();
      if !ok {
        return Err(FlushFailed);
      }
      var err := MirrorAndCommit(UpsertVertex(session.work.graph, id, e), commit);
      r := if err.Some? then Err(err.value) else Ok(id);
    }

    method Update(i: Id, c: CaseId, u: EntityUpdate) returns (r: Outcome<bool>)
      modifies session
      ensures (session.State(), r) == UpdateEntity(session.env, old(session.State()), i, c, u)
    {
      if !EntityInCase(session.work, i, c) {
        return Ok(false);
      }
      if !Storable(u) {
        session.work := session.base;
        session.broken := true;
        return Err(FlushFailed);
      }
      var e := Patched(session.work.entities[i], u);
      session.work := session.work.(entities := session.work.entities[i := e]);
      var ok := session.FlushRows();
      if !ok {
        return Err(FlushFailed);
      }
      var err := MirrorAndCommit(UpsertVertex(session.work.graph, i, e), true);
      r := if err.Some? then Err(err.value) else Ok(true);
    }

    method SoftDelete(i: Id, c: CaseId) returns (r: Outcome<bool>)
      modifies session
      ensures (session.State(), r) == SoftDeleteEntity(session.env, old(session.State()), i, c)
    {
      if !EntityInCase(session.work, i, c) {
        return Ok(false);
      }
      session.work := session.work.(entities := session.work.entities[i := session.work.entities[i].(live := false)]);
      var ok := session.FlushRows();
      if !ok {
        return Err(FlushFailed);
      }
      var err := MirrorAndCommit(DeleteVertex(session.work.graph, i), true);
      r := if err.Some? then Err(err.value) else Ok(true);
    }

    method GetOrCreate(c: CaseId, d: EntityCreate, commit: bool) returns (r: Outcome<(Id, bool)>)
      modifies session
      ensures (session.State(), r) == GetOrCreateEntity(session.env, old(session.State()), c, d, commit)
    {
      hide UpsertVertex;
      hide CreateEntity;
      var ids := EntityMatches(session.work, c, NodeKey(d.etype, d.name));
      var existing := FetchOne(ids);
      match existing {
        case Many =>
          return Err(MultipleRows);
        case One(i) =>
          assert i in ids;
          if d.confidence > session.work.entities[i].confidence {
            var e := session.work.entities[i].(confidence := d.confidence);
            session.work := session.work.(entities := session.work.entities[i := e]);
            var ok := session.FlushRows();
            if !ok {
              return Err(FlushFailed);
            }
            var err := MirrorAndCommit(UpsertVertex(session.work.graph, i, e), commit);
            if err.Some? {
              return Err(err.value);
            }
          }
          return Ok((i, false));
        case NoRow =>
          var created := Create(c, d, commit);
          r := if created.Ok? then Ok((created.value, true)) else Err(created.error);
      }
    }
  }

  class RelationshipRepository {
    const session: Session
    const mirror: EntityRepository

    constructor (session: Session)
      ensures this.session == session && mirror.session == session
    {
      this.session := session;
      mirror := new EntityRepository(session);
    }

    method Create(c: CaseId, d: RelationshipCreate, commit: bool) returns (r: Outcome<Id>)
      requires mirror.session == session
      modifies session
      ensures (session.State(), r) == CreateRel(session.env, old(session.State()), c, d, commit)
    {
      hide UpsertEdge;
      hide EntityInCase;
      hide RelRow;
      if !EntityInCase(session.work, d.src, c) || !EntityInCase(session.work, d.dst, c) {
        return Err(EndpointNotInCase);
      }
      var id := session.next;
      var row := RelRow(c, d);
      session.next := id + 1;
      session.work := session.work.(rels := session.work.rels[id := row]);
      var ok := session.FlushRows();
      if !ok {
        return Err(FlushFailed);
      }
      var err := mirror.MirrorAndCommit(UpsertEdge(session.work.graph, id, row), commit);
      r := if err.Some? then Err(err.value) else Ok(id);
    }

    method CreateIfNotExists(c: CaseId, d: RelationshipCreate, commit: bool) returns (r: Outcome<(Id, bool)>)
      requires mirror.session == session
      modifies session
      ensures (session.State(), r) == CreateRelIfNotExists(session.env, old(session.State()), c, d, commit)
    {
      var existing := FetchOne(RelMatches(session.work, c, LinkKey(d.src, d.dst, d.rtype)));
      match existing {
        case Many => r := Err(MultipleRows);
        case One(j) => r := Ok((j, false));
        case NoRow =>
          var created := Create(c, d, commit);
          r := if created.Ok? then Ok((created.value, true)) else Err(created.error);
      }
    }

    method SoftDelete(j: Id, c: CaseId) returns (r: Outcome<bool>)
      requires mirror.session == session
      modifies session
      ensures (session.State(), r) == SoftDeleteRel(session.env, old(session.State()), j, c)
    {
      if !RelInCase(session.work, j, c) {
        return Ok(false);
      }
      session.work := session.work.(rels := session.work.rels[j := session.work.rels[j].(live := false)]);
      var ok := session.FlushRows();
      if !ok {
        return Err(FlushFailed);
      }
      var err := mirror.MirrorAndCommit(DeleteEdge(session.work.graph, j), true);
      r := if err.Some? then Err(err.value) else Ok(true);
    }
  }

  class EvidenceRepository {
    const session: Session

    constructor (session: Session)
      ensures this.session == session
    {
      this.session := session;
    }

    /** Row first, flushed; then the blob; then the commit, so a crash in between leaves at most an
        orphan blob. */
    method Create(c: CaseId, d: EvidenceCreate, payload: Bytes, contentType: Option<string>, now: Time, commit: bool)
      returns (r: Outcome<Id>)
      modifies session
      ensures (session.State(), r) ==
              CreateEvidence(session.env, old(session.State()), c, d, payload, contentType, now, commit)
    {
      var id := session.next;
      session.next := id + 1;
      session.work := AddEvidence(session.work,
                                  EvidenceRow(session.env.hash, id, c, d, payload, contentType, now));
      var ok := session.FlushRows();
      if !ok {
        return Err(FlushFailed);
      }
      ok := session.PutObject(c, payload);
      if !ok {
        session.RollBack();
        return Err(BlobFailed);
      }
      if commit {
        ok := session.CommitWork();
        if !ok {
          session.RollBack();
          return Err(CommitFailed);
        }
      }
      r := Ok(id);
    }
  }
}
