/** The SQL tables, the Apache AGE graph that mirrors them, and the mirror invariant. */
module GraphDb {
  import opened Prelude
  import opened Values

  type Id = nat
  type Time = int

  /** `str(uuid)` always has 36 characters. */
  type CaseId = s: string | |s| == 36 witness "00000000-0000-0000-0000-000000000000"

  datatype EntityType = PERSON | ORGANIZATION | DOMAIN | IP_ADDRESS | EMAIL | PHONE | URL | CRYPTO_ADDRESS

  datatype RelType =
    | OWNS | EMPLOYED_BY | REGISTERED_BY | HOSTED_ON | RESOLVES_TO
    | ASSOCIATED_WITH | COMMUNICATED_WITH | MENTIONS | SUBDOMAIN_OF

  /** `live` is `deleted_at IS NULL`. */
  datatype Entity = Entity(caseId: CaseId, etype: EntityType, name: string, attrs: Value,
                           confidence: real, live: bool)

  datatype Relationship = Relationship(caseId: CaseId, src: Id, dst: Id, rtype: RelType, confidence: real,
                                       source: Option<string>, attrs: Value, live: bool)

  datatype Evidence = Evidence(id: Id, caseId: CaseId, entity: Option<Id>, source: string, query: string,
                               hash: string, uri: string, size: nat, contentType: string, spec: Value,
                               timestamp: Time)

  datatype Status = Queued | Running | Succeeded | Failed

  datatype RunRow = RunRow(caseId: CaseId, input: Id, plugin: string, startedAt: Time, finishedAt: Option<Time>,
                           status: Status, error: Option<string>,
                           entities: nat, rels: nat, evidence: nat)

  // ---------- The AGE graph ----------

  /** MERGE finds a vertex by its Cypher label and its `id` property. */
  datatype VKey = VKey(etype: EntityType, id: Id)

  datatype VProps = VProps(id: Id, caseId: CaseId, name: string, confidence: real, attrs: Value)

  /** MERGE finds an edge by its ends, its Cypher label and its `id` property. */
  datatype EKey = EKey(src: Id, dst: Id, rtype: RelType, id: Id)

  datatype EProps = EProps(id: Id, caseId: CaseId, confidence: real, source: Option<string>, attrs: Value)

  datatype Graph = Graph(vertices: map<VKey, VProps>, edges: map<EKey, EProps>)

  /** Python's `attrs or {}`: null and the empty dict both become the empty dict. */
  function OrEmpty(v: Value): Value {
    if v == VNull then VMap([]) else v
  }

  function PropsOf(i: Id, e: Entity): VProps {
    VProps(i, e.caseId, e.name, e.confidence, OrEmpty(e.attrs))
  }

  function EdgeKey(j: Id, r: Relationship): EKey {
    EKey(r.src, r.dst, r.rtype, j)
  }

  function EdgeProps(j: Id, r: Relationship): EProps {
    EProps(j, r.caseId, r.confidence, r.source, OrEmpty(r.attrs))
  }

  /** `MERGE (v:label {id}) SET v = props` */
  function UpsertVertex(g: Graph, i: Id, e: Entity): Graph {
    g.(vertices := g.vertices[VKey(e.etype, i) := PropsOf(i, e)])
  }

  /** `MATCH (v {id}) DETACH DELETE v`: whatever its label, with every incident edge. */
  function DeleteVertex(g: Graph, i: Id): Graph {
    Graph(map k | k in g.vertices && k.id != i :: g.vertices[k],
          map k | k in g.edges && k.src != i && k.dst != i :: g.edges[k])
  }

  predicate HasVertex(g: Graph, i: Id) {
    exists k :: k in g.vertices && k.id == i
  }

  /** `MATCH (s {id}), (d {id}) MERGE ...`: writes nothing when an end is missing. */
  function UpsertEdge(g: Graph, j: Id, r: Relationship): Graph {
    if HasVertex(g, r.src) && HasVertex(g, r.dst) then
      g.(edges := g.edges[EdgeKey(j, r) := EdgeProps(j, r)])
    else g
  }

  function DeleteEdge(g: Graph, j: Id): Graph {
    g.(edges := map k | k in g.edges && k.id != j :: g.edges[k])
  }

  // ---------- The database ----------

  datatype DB = DB(entities: map<Id, Entity>, rels: map<Id, Relationship>, evidence: seq<Evidence>,
                   runs: map<Id, RunRow>, graph: Graph)

  const EMPTY_DB := DB(map[], map[], [], map[], Graph(map[], map[]))

  /** The tables without the audit rows. */
  function Data(db: DB): DB {
    db.(runs := map[])
  }

  predicate LiveEntity(db: DB, i: Id) {
    i in db.entities && db.entities[i].live
  }

  predicate EntityInCase(db: DB, i: Id, c: CaseId) {
    LiveEntity(db, i) && db.entities[i].caseId == c
  }

  predicate LiveRel(db: DB, j: Id) {
    j in db.rels && db.rels[j].live
  }

  /** A relationship shows in the graph when it and both its ends are live. */
  predicate ShownRel(db: DB, j: Id) {
    LiveRel(db, j) && LiveEntity(db, db.rels[j].src) && LiveEntity(db, db.rels[j].dst)
  }

  ghost predicate VerticesMirror(db: DB) {
    && (forall i :: LiveEntity(db, i) ==>
          var k := VKey(db.entities[i].etype, i);
          k in db.graph.vertices && db.graph.vertices[k] == PropsOf(i, db.entities[i]))
    && (forall k :: k in db.graph.vertices ==> LiveEntity(db, k.id) && db.entities[k.id].etype == k.etype)
  }

  ghost predicate EdgesMirror(db: DB) {
    && (forall j :: ShownRel(db, j) ==>
          var k := EdgeKey(j, db.rels[j]);
          k in db.graph.edges && db.graph.edges[k] == EdgeProps(j, db.rels[j]))
    && (forall k :: k in db.graph.edges ==> ShownRel(db, k.id) && EdgeKey(k.id, db.rels[k.id]) == k)
  }

  /** Both ends of every relationship row, deleted or not, are rows of the relationship's own case. */
  ghost predicate EndsInCase(db: DB) {
    forall j :: j in db.rels ==>
      && db.rels[j].src in db.entities && db.entities[db.rels[j].src].caseId == db.rels[j].caseId
      && db.rels[j].dst in db.entities && db.entities[db.rels[j].dst].caseId == db.rels[j].caseId
  }

  ghost predicate IdsBelow(db: DB, next: Id) {
    && (forall i :: i in db.entities ==> i < next)
    && (forall j :: j in db.rels ==> j < next)
    && (forall r :: r in db.runs ==> r < next)
    && (forall n :: 0 <= n < |db.evidence| ==> db.evidence[n].id < next)
  }

  ghost predicate Consistent(db: DB, next: Id) {
    IdsBelow(db, next) && EndsInCase(db) && VerticesMirror(db) && EdgesMirror(db)
  }

  // ---------- The mirror rebuilt from the tables ----------

  ghost function RebuiltVertices(es: map<Id, Entity>): map<VKey, VProps> {
    map i | i in es && es[i].live :: VKey(es[i].etype, i) := PropsOf(i, es[i])
  }

  ghost function RebuiltEdges(es: map<Id, Entity>, rs: map<Id, Relationship>): map<EKey, EProps> {
    map j | j in rs && rs[j].live && rs[j].src in es && es[rs[j].src].live && rs[j].dst in es && es[rs[j].dst].live
      :: EdgeKey(j, rs[j]) := EdgeProps(j, rs[j])
  }

  lemma VerticesAreRebuilt(db: DB)
    ensures VerticesMirror(db) <==> db.graph.vertices == RebuiltVertices(db.entities)
  {
    var vs := RebuiltVertices(db.entities);
    assert forall i :: LiveEntity(db, i) ==>
        VKey(db.entities[i].etype, i) in vs && vs[VKey(db.entities[i].etype, i)] == PropsOf(i, db.entities[i]);
    assert forall k :: k in vs ==> LiveEntity(db, k.id) && k == VKey(db.entities[k.id].etype, k.id);
  }

  lemma EdgesAreRebuilt(db: DB)
    ensures EdgesMirror(db) <==> db.graph.edges == RebuiltEdges(db.entities, db.rels)
  {
    hide EdgeProps;
    var es := RebuiltEdges(db.entities, db.rels);
    assert forall j :: ShownRel(db, j) ==>
        EdgeKey(j, db.rels[j]) in es && es[EdgeKey(j, db.rels[j])] == EdgeProps(j, db.rels[j]);
    assert forall k :: k in es ==> ShownRel(db, k.id) && k == EdgeKey(k.id, db.rels[k.id]);
  }

  /** The mirror invariant pins the graph down: it is the one that replaying the tables would build. */
  lemma MirrorIsRebuilt(db: DB)
    ensures VerticesMirror(db) && EdgesMirror(db) <==>
            db.graph == Graph(RebuiltVertices(db.entities), RebuiltEdges(db.entities, db.rels))
  {
    VerticesAreRebuilt(db);
    EdgesAreRebuilt(db);
  }

  // ---------- The mirror, column by column ----------

  /** Vertex `k` with properties `p` shows row `i`: type and id in the key, the columns in the map, and a
      null `attrs` as the empty dict. */
  predicate ShowsEntity(k: VKey, p: VProps, i: Id, e: Entity) {
    && k.id == i && k.etype == e.etype
    && p.id == i && p.caseId == e.caseId && p.name == e.name && p.confidence == e.confidence
    && p.attrs == if e.attrs.VNull? then VMap([]) else e.attrs
  }

  /** Edge `k` with properties `p` shows row `j`: from its source to its destination. */
  predicate ShowsRel(k: EKey, p: EProps, j: Id, r: Relationship) {
    && k.src == r.src && k.dst == r.dst && k.rtype == r.rtype && k.id == j
    && p.id == j && p.caseId == r.caseId && p.confidence == r.confidence && p.source == r.source
    && p.attrs == if r.attrs.VNull? then VMap([]) else r.attrs
  }

  ghost predicate VerticesShowRows(db: DB) {
    && (forall k :: k in db.graph.vertices ==>
          && k.id in db.entities && db.entities[k.id].live
          && ShowsEntity(k, db.graph.vertices[k], k.id, db.entities[k.id]))
    && (forall i :: i in db.entities && db.entities[i].live ==> VKey(db.entities[i].etype, i) in db.graph.vertices)
  }

  ghost predicate EdgesShowRows(db: DB) {
    && (forall k :: k in db.graph.edges ==>
          && k.id in db.rels && db.rels[k.id].live && ShowsRel(k, db.graph.edges[k], k.id, db.rels[k.id])
          && k.src in db.entities && db.entities[k.src].live && k.dst in db.entities && db.entities[k.dst].live)
    && (forall j :: j in db.rels && db.rels[j].live
                    && db.rels[j].src in db.entities && db.entities[db.rels[j].src].live
                    && db.rels[j].dst in db.entities && db.entities[db.rels[j].dst].live ==>
          EKey(db.rels[j].src, db.rels[j].dst, db.rels[j].rtype, j) in db.graph.edges)
  }

  lemma VerticesByColumn(db: DB)
    ensures VerticesMirror(db) <==> VerticesShowRows(db)
  {
    if VerticesShowRows(db) {
      forall i | LiveEntity(db, i)
        ensures var k := VKey(db.entities[i].etype, i);
                k in db.graph.vertices && db.graph.vertices[k] == PropsOf(i, db.entities[i])
      {
        assert VKey(db.entities[i].etype, i) in db.graph.vertices;
      }
    }
    if VerticesMirror(db) {
      forall k | k in db.graph.vertices
        ensures k.id in db.entities && db.entities[k.id].live
        ensures ShowsEntity(k, db.graph.vertices[k], k.id, db.entities[k.id])
      {
        assert LiveEntity(db, k.id) && k == VKey(db.entities[k.id].etype, k.id);
      }
      forall i | i in db.entities && db.entities[i].live ensures VKey(db.entities[i].etype, i) in db.graph.vertices {
        assert LiveEntity(db, i);
      }
    }
  }

  lemma EdgesByColumn(db: DB)
    ensures EdgesMirror(db) <==> EdgesShowRows(db)
  {
    if EdgesShowRows(db) {
      forall j | ShownRel(db, j)
        ensures var k := EdgeKey(j, db.rels[j]);
                k in db.graph.edges && db.graph.edges[k] == EdgeProps(j, db.rels[j])
      {
        assert EKey(db.rels[j].src, db.rels[j].dst, db.rels[j].rtype, j) in db.graph.edges;
      }
    }
    if EdgesMirror(db) {
      forall k | k in db.graph.edges
        ensures k.id in db.rels && db.rels[k.id].live && ShowsRel(k, db.graph.edges[k], k.id, db.rels[k.id])
        ensures k.src in db.entities && db.entities[k.src].live && k.dst in db.entities && db.entities[k.dst].live
      {
        assert ShownRel(db, k.id) && EdgeKey(k.id, db.rels[k.id]) == k;
      }
      forall j | ShownRel(db, j)
        ensures EKey(db.rels[j].src, db.rels[j].dst, db.rels[j].rtype, j) in db.graph.edges
      {
        assert EdgeKey(j, db.rels[j]) in db.graph.edges;
      }
    }
  }

  /** The mirror invariant, column by column: each vertex and edge shows a live row, from its source to its
      destination, and each live row that has its ends live is shown. */
  lemma MirrorByColumn(db: DB)
    ensures VerticesMirror(db) && EdgesMirror(db) <==> VerticesShowRows(db) && EdgesShowRows(db)
  {
    VerticesByColumn(db);
    EdgesByColumn(db);
  }

  /** No edge of a consistent database joins two cases, and each edge carries its ends' case. */
  lemma NoCrossCaseEdge(db: DB, next: Id, k: EKey)
    requires Consistent(db, next) && k in db.graph.edges
    ensures EntityInCase(db, k.src, db.graph.edges[k].caseId) && EntityInCase(db, k.dst, db.graph.edges[k].caseId)
  {
    assert ShownRel(db, k.id);
  }

  lemma VertexMatched(db: DB, i: Id)
    requires VerticesMirror(db)
    ensures HasVertex(db.graph, i) <==> LiveEntity(db, i)
  {
    if LiveEntity(db, i) {
      assert VKey(db.entities[i].etype, i) in db.graph.vertices;
    }
  }

  // ---------- The writes, each a row change with its Cypher statement ----------

  /** Write an entity row and its vertex: insert, update and confidence bump alike. */
  function PutEntity(db: DB, i: Id, e: Entity): DB {
    db.(entities := db.entities[i := e], graph := UpsertVertex(db.graph, i, e))
  }

  /** Soft delete: the row keeps its place, the vertex goes with every incident edge, the
      relationship rows stay as they are. */
  function DropEntity(db: DB, i: Id): DB
    requires i in db.entities
  {
    db.(entities := db.entities[i := db.entities[i].(live := false)], graph := DeleteVertex(db.graph, i))
  }

  function PutRel(db: DB, j: Id, r: Relationship): DB {
    db.(rels := db.rels[j := r], graph := UpsertEdge(db.graph, j, r))
  }

  function DropRel(db: DB, j: Id): DB
    requires j in db.rels
  {
    db.(rels := db.rels[j := db.rels[j].(live := false)], graph := DeleteEdge(db.graph, j))
  }

  function AddEvidence(db: DB, ev: Evidence): DB {
    db.(evidence := db.evidence + [ev])
  }

  function PutRun(db: DB, r: Id, row: RunRow): DB {
    db.(runs := db.runs[r := row])
  }

  /** Writing a live row of the same type, or a new one, keeps the vertices. */
  lemma PutKeepsVertices(db: DB, i: Id, e: Entity)
    requires VerticesMirror(db) && e.live
    requires i in db.entities ==> db.entities[i].live && e.etype == db.entities[i].etype
    ensures VerticesMirror(PutEntity(db, i, e))
  {
    var db' := PutEntity(db, i, e);
    forall k | k in db'.graph.vertices ensures LiveEntity(db', k.id) && db'.entities[k.id].etype == k.etype {
      if k != VKey(e.etype, i) {
        assert k in db.graph.vertices;
      }
    }
  }

  /** Writing a live row hides no relationship and shows no new one. */
  lemma PutKeepsEdges(db: DB, i: Id, e: Entity)
    requires EdgesMirror(db) && EndsInCase(db) && e.live && (i in db.entities ==> db.entities[i].live)
    ensures EdgesMirror(PutEntity(db, i, e))
  {
    var db' := PutEntity(db, i, e);
    forall j ensures ShownRel(db', j) <==> ShownRel(db, j) {
    }
    hide ShownRel;
  }

  lemma InsertEntityKeeps(db: DB, next: Id, e: Entity)
    requires Consistent(db, next) && e.live
    ensures Consistent(PutEntity(db, next, e), next + 1)
  {
    hide VerticesMirror;
    hide EdgesMirror;
    hide UpsertVertex;
    assert next !in db.entities;
    PutKeepsVertices(db, next, e);
    PutKeepsEdges(db, next, e);
  }

  lemma UpdateEntityKeeps(db: DB, next: Id, i: Id, e: Entity)
    requires Consistent(db, next) && LiveEntity(db, i)
    requires e.live && e.etype == db.entities[i].etype && e.caseId == db.entities[i].caseId
    ensures Consistent(PutEntity(db, i, e), next)
  {
    hide VerticesMirror;
    hide EdgesMirror;
    hide UpsertVertex;
    PutKeepsVertices(db, i, e);
    PutKeepsEdges(db, i, e);
  }

  lemma DropKeepsVertices(db: DB, i: Id)
    requires VerticesMirror(db) && LiveEntity(db, i)
    ensures VerticesMirror(DropEntity(db, i))
  {
    var db' := DropEntity(db, i);
    forall k | k in db'.graph.vertices
      ensures LiveEntity(db', k.id) && db'.entities[k.id].etype == k.etype
    {
      assert k in db.graph.vertices;
    }
  }

  lemma DropKeepsEdges(db: DB, i: Id)
    requires EdgesMirror(db) && LiveEntity(db, i)
    ensures EdgesMirror(DropEntity(db, i))
  {
    var db' := DropEntity(db, i);
    forall j
      ensures ShownRel(db', j) <==> ShownRel(db, j) && db.rels[j].src != i && db.rels[j].dst != i
    {
    }
  }

  lemma DropEntityKeeps(db: DB, next: Id, i: Id)
    requires Consistent(db, next) && LiveEntity(db, i)
    ensures Consistent(DropEntity(db, i), next)
  {
    hide VerticesMirror;
    hide EdgesMirror;
    hide DeleteVertex;
    DropKeepsVertices(db, i);
    DropKeepsEdges(db, i);
  }

  /** A new relationship between live rows gets its edge. */
  lemma PutRelKeepsEdges(db: DB, j: Id, r: Relationship)
    requires VerticesMirror(db) && EdgesMirror(db) && j !in db.rels
    requires r.live && LiveEntity(db, r.src) && LiveEntity(db, r.dst)
    ensures EdgesMirror(PutRel(db, j, r))
  {
    hide VerticesMirror;
    hide HasVertex;
    var db' := PutRel(db, j, r);
    VertexMatched(db, r.src);
    VertexMatched(db, r.dst);
    assert db'.graph.edges == db.graph.edges[EdgeKey(j, r) := EdgeProps(j, r)];
    forall n ensures ShownRel(db', n) <==> ShownRel(db, n) || n == j {
    }
    forall n | ShownRel(db', n)
      ensures EdgeKey(n, db'.rels[n]) in db'.graph.edges
      ensures db'.graph.edges[EdgeKey(n, db'.rels[n])] == EdgeProps(n, db'.rels[n])
    {
      if n != j {
        assert ShownRel(db, n);
      }
    }
    forall k | k in db'.graph.edges
      ensures ShownRel(db', k.id) && EdgeKey(k.id, db'.rels[k.id]) == k
    {
      if k != EdgeKey(j, r) {
        assert ShownRel(db, k.id);
      }
    }
  }

  lemma SameVertices(db: DB, db': DB)
    requires db'.entities == db.entities && db'.graph.vertices == db.graph.vertices
    ensures VerticesMirror(db') <==> VerticesMirror(db)
  {
    assert forall i :: LiveEntity(db', i) <==> LiveEntity(db, i);
  }

  lemma PutRelKeepsVertices(db: DB, j: Id, r: Relationship)
    requires VerticesMirror(db)
    ensures VerticesMirror(PutRel(db, j, r))
  {
    hide VerticesMirror;
    SameVertices(db, PutRel(db, j, r));
  }

  lemma DropRelKeepsVertices(db: DB, j: Id)
    requires VerticesMirror(db) && j in db.rels
    ensures VerticesMirror(DropRel(db, j))
  {
    hide VerticesMirror;
    SameVertices(db, DropRel(db, j));
  }

  /** The two ends are found, so the edge is there, from source to destination. */
  lemma EdgeIsMerged(db: DB, j: Id, r: Relationship)
    requires VerticesMirror(db) && LiveEntity(db, r.src) && LiveEntity(db, r.dst)
    ensures var k, es := EKey(r.src, r.dst, r.rtype, j), PutRel(db, j, r).graph.edges;
            k in es && ShowsRel(k, es[k], j, r) && es == db.graph.edges[k := es[k]]
  {
    VertexMatched(db, r.src);
    VertexMatched(db, r.dst);
    hide HasVertex;
  }

  lemma InsertRelKeeps(db: DB, next: Id, r: Relationship)
    requires Consistent(db, next) && r.live
    requires EntityInCase(db, r.src, r.caseId) && EntityInCase(db, r.dst, r.caseId)
    ensures Consistent(PutRel(db, next, r), next + 1)
    ensures var k, es := EKey(r.src, r.dst, r.rtype, next), PutRel(db, next, r).graph.edges;
            k in es && ShowsRel(k, es[k], next, r)
  {
    hide VerticesMirror;
    hide EdgesMirror;
    hide PutRel;
    hide ShowsRel;
    EdgeIsMerged(db, next, r);
    PutRelFields(db, next, r);
    PutRelKeepsEdges(db, next, r);
    PutRelKeepsVertices(db, next, r);
  }

  lemma PutRelFields(db: DB, j: Id, r: Relationship)
    ensures PutRel(db, j, r) == db.(rels := db.rels[j := r], graph := PutRel(db, j, r).graph)
  {
  }

  lemma DropRelKeepsEdges(db: DB, j: Id)
    requires EdgesMirror(db) && LiveRel(db, j)
    ensures EdgesMirror(DropRel(db, j))
  {
    var db' := DropRel(db, j);
    forall n | ShownRel(db', n)
      ensures EdgeKey(n, db'.rels[n]) in db'.graph.edges
      ensures db'.graph.edges[EdgeKey(n, db'.rels[n])] == EdgeProps(n, db'.rels[n])
    {
      assert ShownRel(db, n);
    }
    forall k | k in db'.graph.edges
      ensures ShownRel(db', k.id) && EdgeKey(k.id, db'.rels[k.id]) == k
    {
      assert k in db.graph.edges && ShownRel(db, k.id);
    }
  }

  lemma DropRelKeeps(db: DB, next: Id, j: Id)
    requires Consistent(db, next) && LiveRel(db, j)
    ensures Consistent(DropRel(db, j), next)
  {
    hide VerticesMirror;
    hide EdgesMirror;
    hide DeleteEdge;
    DropRelKeepsEdges(db, j);
    DropRelKeepsVertices(db, j);
  }

  /** The evidence and run tables are no part of the mirror. */
  lemma MirrorFrame(db: DB, next: Id, db': DB, next': Id)
    requires Consistent(db, next) && next <= next'
    requires db'.entities == db.entities && db'.rels == db.rels && db'.graph == db.graph
    requires forall r :: r in db'.runs ==> r < next'
    requires forall n :: 0 <= n < |db'.evidence| ==> db'.evidence[n].id < next'
    ensures Consistent(db', next')
  {
    hide VerticesMirror;
    hide EdgesMirror;
    SameVertices(db, db');
    SameEdges(db, db');
  }

  lemma SameEdges(db: DB, db': DB)
    requires db'.entities == db.entities && db'.rels == db.rels && db'.graph == db.graph
    ensures EdgesMirror(db') <==> EdgesMirror(db)
  {
    assert forall j :: ShownRel(db', j) <==> ShownRel(db, j);
  }

  lemma IdsAreBelow(db: DB, next: Id)
    requires Consistent(db, next)
    ensures IdsBelow(db, next)
  {
  }

  lemma LaterIdsKeep(db: DB, next: Id, next': Id)
    requires Consistent(db, next) && next <= next'
    ensures Consistent(db, next')
  {
  }

  /** Relationship rows outlive their deleted ends: hidden from the graph, still live in SQL. */
  lemma DeleteLeavesRelationships(db: DB, next: Id, i: Id)
    requires Consistent(db, next) && LiveEntity(db, i)
    ensures DropEntity(db, i).rels == db.rels
    ensures forall k :: k in DropEntity(db, i).graph.edges <==> k in db.graph.edges && k.src != i && k.dst != i
    ensures forall j :: LiveRel(db, j) && (db.rels[j].src == i || db.rels[j].dst == i) ==>
                          LiveRel(DropEntity(db, i), j) && EdgeKey(j, db.rels[j]) !in DropEntity(db, i).graph.edges
  {
  }
}
