# SleuthGraph: a verified model of its transactional core

SleuthGraph keeps an investigation's entities and relationships in SQL tables, mirrors them into an Apache AGE
graph in the same transaction, lets plugins propose new rows in batches, and keeps every plugin response as
content-addressed evidence. This project models that core in Dafny and proves what its code guarantees.

* **Tables, graph and batches** (`GraphDb`, `Batches`, `Firsts`, `OneShot`, `BatchTheorems`, `BatchRows`). The
  entity, relationship, evidence and run tables, the AGE vertices and edges, and the fold of a plugin's
  proposals into both. The graph of every consistent database is the one the tables would rebuild, and a
  successful batch is a one-shot set operation that can be repeated without effect on the graph.
* **Sessions and repositories** (`Sessions`, `Repositories`, `CallRows`). A session has a working and a
  committed database; its flush, commit, Cypher and upload calls may each fail, before or after taking effect.
  `log` holds every database ever committed, so a statement about each element of `log` is a statement about
  every crash point. The repositories are classes whose methods are proved equal to specification functions over
  that store.
* **The plugin runner** (`Runner`, `RunnerTheorems`, `Atomicity`, `AuditRows`, `RunnerObjects`). `run`,
  `_execute_plugin` and `_persist` with their error handler: every way a run can end, exactly when a run is
  atomic and when its failure is recorded, and what each commit on the way looks like.
* **Any sequence of operations** (`Reachable`, `Provenance`). Requests, and plugin runs as their separate
  transactions, so that a request, a sweep or another run may fall between the opening of a run, its batch and its
  success row, and its process may end there: invariants, what is never undone, the payload behind each evidence
  row and the batch behind each succeeded run.
* **The life of a run row** (`Lifecycle`). Dispatcher, worker, runner and sweeper as a timed state machine.
* **Printing and framing** (`Validators`, `Json`, `Cypher`, `DollarQuotes`, `CypherTheorems`). The attribute
  validator, the Cypher map printer with a reader, and the dollar-quoted frame with the reading rule of section
  4.1.2.4 of the PostgreSQL 16 documentation.
* **Evidence** (`EvidenceKeys`, `Integrity`, `Custody`, `CanonicalJson`, `JsonReader`, `Utf8`). Content keys,
  the integrity sweep, and canonical JSON with a reader for sections 4 to 7 of RFC 8259 and UTF-8 of section 3
  of RFC 3629.
* **Smaller protocols** (`Wayback`, `Plugins`, `PluginRows`, `PluginAttrs`, `PluginRuns`, `Oidc`, `Pool`).
  Snapshot grouping, plugin results, identity binding over runs of logins, and the shared queue pool under any
  interleaving.

`Prelude`, `Lookups`, `Text`, `Values`, `Scanning` and `StringOrder` hold what several modules share.
`dafny verify dfyconfig.toml` checks everything.

## What the proofs found

The code, not its documentation, decides what is proved. Where the two differ, or where a natural claim fails:

* `_persist` is documented as atomic (`src/sleuthgraph/plugins/runner.py:258-261`), but an error raised without a
  rollback, such as an unknown ref, is followed by the commit of the error handler, which keeps the prefix
  processed so far. `Atomicity.PrefixIsCommitted` is such a run, without a single fault. So is
  `Atomicity.DeletedInputCommitsPrefix`, whose result is well formed: the worker loads its input without asking
  whether it is deleted (`src/sleuthgraph/queue/tasks.py:56`), an input can be deleted during the query, and the
  endpoint check of a new relationship to it then raises. `Atomicity.AtomicIff` gives the exact condition, on the
  tables before the batch: no proposal is refused, or all those before the first refused one are in the tables
  already. `PluginRuns.WellFormedIsAtomic` says what that comes to for the plugins: the input is live, or nothing
  new needs it, or no entity is written before the first relationship that does.
* A failed flush or commit leaves the session unusable until it is rolled back. The runner does not roll back, so
  the handler's commit then fails as well and the row stays running, as in `Atomicity.FailureIsLost`.
  `FailureRecordedIff` says exactly when a failed run is recorded as failed, and `FaultlessFailureIsRecorded` that
  it is whenever none of its own calls fails.
* A run row is documented as updated once (`src/sleuthgraph/plugins/models.py:16-17`). `LateClaimIsOverwritten`
  gives a run in which a sweep fails a row and its worker then marks it succeeded, `LateDispatcherIsOverwritten`
  one in which an enqueue call fails after the sweep. `SecondWriteIff` and `TwoWritesIff` say exactly when a row is
  written twice, over single events and whole runs, and that it never is a third time; `OneTerminalWrite` says
  under which timing it is written once.
* A crt.sh result may hold 1000 names (its own cap) but then has 2001 proposals, one more than the runner admits:
  `CrtShCap` puts the limit at 999, and `CrtShRefusedIff` follows it into the runner.
* Soft-deleting an entity removes its edges from the graph and leaves its relationship rows live in SQL:
  `DeleteHidesEntity`. The mirror is therefore stated over relationships whose two ends are live.
* The evidence repository is documented as uploading the blob before inserting the row
  (`src/sleuthgraph/evidence/repository.py:37`); it flushes the row first and commits last, which is what matters.
* A pool whose `close` raises after the connection is gone stays in the global, and later callers get it:
  `DeadPoolIff`.

## Model

| member | source | states |
|---|---|---|
| GraphDb.MirrorIsRebuilt | src/sleuthgraph/entities/age.py:18-50 | the mirror invariant holds exactly when the AGE graph is the one rebuilt from the tables: one vertex per live entity with its current properties, one edge per live relationship whose two ends are live |
| GraphDb.MirrorByColumn | src/sleuthgraph/relationships/age.py:34-51 | the same invariant column by column: each vertex and edge is keyed and filled from the columns of its own live row, the edge running from the row's source to its destination, null attributes as the empty dict, and each live row whose ends are live has its own |
| GraphDb.NoCrossCaseEdge | src/sleuthgraph/relationships/repository.py:23-37 | in a consistent database every edge joins two live entities of its own case |
| GraphDb.InsertEntityKeeps | src/sleuthgraph/entities/age.py:42-44 | a new row with its MERGE keeps the mirror |
| GraphDb.UpdateEntityKeeps | src/sleuthgraph/entities/age.py:42-44 | rewriting a live row of the same type and case with its MERGE keeps the mirror, although MERGE only finds a vertex of the same label |
| GraphDb.DropEntityKeeps | src/sleuthgraph/entities/age.py:47-50 | a soft delete with DETACH DELETE keeps the mirror |
| GraphDb.InsertRelKeeps | src/sleuthgraph/relationships/age.py:44-51 | with both ends live the MATCH finds them, so the MERGE creates the edge from source to destination with the row's columns, and the mirror is kept |
| GraphDb.DropRelKeeps | src/sleuthgraph/relationships/age.py:54-57 | deleting a relationship row and its edge keeps the mirror |
| GraphDb.DeleteLeavesRelationships | src/sleuthgraph/entities/age.py:47-50 | a deleted entity's relationships stay live in SQL and exactly its incident edges leave the graph |
| Lookups.FetchOne | src/sleuthgraph/entities/repository.py:132-138 | the lookup tells no row, the one row, and several rows apart |
| Batches.ApplyKeeps | src/sleuthgraph/plugins/runner.py:270-322 | each proposal keeps the mirror and the audit rows, draws fresh ids, removes no row and lowers no confidence |
| Batches.ApplyAllKeeps | src/sleuthgraph/plugins/runner.py:270-322 | so does any list of proposals |
| Batches.ApplyAllConcat | src/sleuthgraph/plugins/runner.py:267-322 | a batch is its three loops in turn |
| OneShot.MaxFromIsMax | src/sleuthgraph/entities/repository.py:129-142 | the confidence of the specification is the least upper bound of the old and all proposed values, and one of them |
| OneShot.FirstNewIsDistinctNew | src/sleuthgraph/entities/repository.py:119-157 | the created entities are the distinct new keys, each once |
| OneShot.FirstNewAt | src/sleuthgraph/plugins/runner.py:270-284 | the created entities are the first proposals of their new keys, exactly those, in batch order |
| OneShot.EntityStep | src/sleuthgraph/entities/repository.py:119-157 | without duplicates, get_or_create either raises the one live row of the key or adds one row, and leaves every other key's rows alone; it fails only on refused attributes |
| OneShot.EntityPhase | src/sleuthgraph/plugins/runner.py:267-284 | the entity loop is the one-shot merge of its proposals, refs included |
| BatchTheorems.RelStep | src/sleuthgraph/relationships/repository.py:75-99 | exactly when a relationship proposal succeeds, and that it adds one row for a new triple and nothing for a known one |
| BatchTheorems.RelPhase | src/sleuthgraph/plugins/runner.py:286-304 | the relationship loop adds one row per distinct new resolved triple |
| BatchTheorems.FirstNewRelsAt | src/sleuthgraph/plugins/runner.py:287-304 | the created relationships are the first proposals of their new triples, exactly those, in batch order |
| BatchTheorems.FirstNewRelsIsDistinctNew | src/sleuthgraph/relationships/repository.py:83-99 | the created relationships are the distinct new triples, each once |
| BatchTheorems.EvidencePhase | src/sleuthgraph/plugins/runner.py:306-322 | the evidence loop appends one row per proposal, in order, and fails only on a refused spec |
| BatchTheorems.BatchIsOneShot | src/sleuthgraph/plugins/runner.py:248-327 | batch refinement: from a state without duplicates a successful batch leaves exactly the one-shot tables, the rebuilt graph, the refs and the returned lists, and again no duplicates; the live keys and triples grow by exactly the proposed ones, and the lists have one entry per distinct new key, per distinct new triple and per evidence proposal |
| BatchTheorems.FirstProposalsSurvive | src/sleuthgraph/plugins/runner.py:270-304 | which proposals survive, column by column: a new entity is live in the run's case with type, name and attributes of the first proposal of its key and the highest confidence of all; a new relationship is live in that case between the rows its ends stand for, with type, confidence and attributes of the first proposal of its triple and the run's plugin as source; and the lists follow that order |
| BatchRows.BatchLeavesRows | src/sleuthgraph/plugins/runner.py:270-304 | after a successful batch every entity proposal has a live row of the case with its type, name and at least its confidence, which its ref names; every relationship proposal has a live row between the rows its ends stand for, whatever rows of the same triple were deleted before; and no two live rows share a key or a triple |
| BatchRows.OldRowsStay | src/sleuthgraph/entities/repository.py:133-150 | a row that was there keeps every column but the confidence of an entity, which becomes the highest of its own and those proposed for a live row of its type and name |
| BatchRows.LastRefNames | src/sleuthgraph/plugins/runner.py:267-284 | a ref taken twice names the row of its last proposal |
| BatchRows.KnownByColumn | src/sleuthgraph/relationships/repository.py:88-97 | the keys and triples a batch takes as known are exactly those of live rows of the case |
| BatchTheorems.BatchSucceedsIff | src/sleuthgraph/plugins/runner.py:270-344 | without duplicates in the case a batch succeeds exactly when every attribute dict is accepted, every relationship end is the input or a ref of the batch, and the input is live in the case or each relationship that ends at it was live before the batch between rows bearing its ends' keys |
| BatchTheorems.RelPhaseSucceeds | src/sleuthgraph/relationships/repository.py:23-37 | the relationship loop goes through exactly when each proposal would on the tables the loop starts from: none gains or loses its chance by those before it |
| BatchTheorems.ServedMeans | src/sleuthgraph/relationships/repository.py:75-99 | whether a proposal's endpoint check passes or is not reached, after the entity loop, in terms of the tables before the batch |
| BatchTheorems.RerunIsIdle | src/sleuthgraph/plugins/runner.py:270-322 | applied again, a successful batch succeeds, changes no entity, relationship, vertex or edge, reports nothing created, and appends one evidence row per evidence proposal |
| Sessions.WriteThroughKeeps | src/sleuthgraph/entities/repository.py:38-49 | the flush, mirror, commit, rollback pattern of every repository write keeps the invariant of the working, committed and all earlier committed databases, whatever fails |
| Sessions.Session.RollBack | src/sleuthgraph/entities/repository.py:45 | a rollback restores the committed database and a usable session |
| Sessions.Session.FlushRows | src/sleuthgraph/entities/repository.py:39 | a failed flush undoes the transaction and breaks the session |
| Sessions.Session.CommitWork | src/sleuthgraph/plugins/runner.py:325 | a commit may fail before or after it took effect; exactly when it took effect the pending rows are the committed ones and one more state is logged; a broken session commits nothing |
| Sessions.Session.PutObject | src/sleuthgraph/evidence/storage.py:74-97 | an upload writes under the content key unless an object of the same size is there, and may fail before or after |
| Repositories.WriteIsAtomic | src/sleuthgraph/entities/repository.py:91-97 | a committing call commits row and mirror together or nothing; only a lost commit is ambiguous, and then it is all or nothing |
| Repositories.UpdateChangesItsFields | src/sleuthgraph/entities/repository.py:79-99 | a successful update changes exactly the fields it names, in the row and in the vertex, and nothing else; any other answer changes nothing unless its commit was lost |
| Repositories.DeleteHidesEntity | src/sleuthgraph/entities/repository.py:101-117 | a successful soft delete hides the vertex and every edge at it and keeps every row |
| Repositories.DeleteHidesRelationship | src/sleuthgraph/relationships/repository.py:135-151 | a successful delete closes one relationship row, removes its edge and no other, and touches no entity |
| CallRows.CreateEntityRows | src/sleuthgraph/entities/repository.py:22-49 | a created entity is live with exactly the columns of the request, row and vertex; without faults the call succeeds |
| CallRows.GetOrCreateRows | src/sleuthgraph/entities/repository.py:119-157 | `get_or_create` answers with the live row of the case with this type and name, raising its confidence exactly if the requested one is higher, creates one exactly if there is none, and raises exactly if there are several |
| CallRows.DeleteEntityRows | src/sleuthgraph/entities/repository.py:101-117 | a soft delete answers true exactly for a live row of the case, closes just that row, and answers false when repeated |
| CallRows.CreateRelRows | src/sleuthgraph/relationships/repository.py:39-73 | a relationship is refused exactly when an end is no live entity of the case; else its row is live with the columns of the request and its edge runs from the source to the destination |
| CallRows.CreateIfNotExistsRows | src/sleuthgraph/relationships/repository.py:75-99 | an existing row is returned exactly when it is the live row of the triple in the case; with no such row and both ends live the call creates one, whatever deleted rows there are |
| CallRows.DeleteRelRows | src/sleuthgraph/relationships/repository.py:135-151 | a relationship delete answers true exactly for a live row of the case, closes just that row, and answers false when repeated |
| CallRows.RecreatedAfterDelete | src/sleuthgraph/relationships/repository.py:88-99 | after the delete of a triple's live row a create makes a new live row beside the closed one |
| CallRows.CreateEvidenceRows | src/sleuthgraph/evidence/repository.py:38-67 | a recording adds one row with exactly these columns, its key `case/<case>/ev/<hash>` and its content type included, and the object under the key, skipping the upload only for an object of the same size |
| Repositories.CreateEntityKeeps | src/sleuthgraph/entities/repository.py:22-49 | create keeps the store invariant whatever fails |
| Repositories.GetOrCreateEntityKeeps | src/sleuthgraph/entities/repository.py:119-157 | so does get_or_create |
| Repositories.UpdateEntityInv | src/sleuthgraph/entities/repository.py:79-99 | so does update |
| Repositories.SoftDeleteEntityKeeps | src/sleuthgraph/entities/repository.py:101-117 | so does soft_delete |
| Repositories.CreateRelKeeps | src/sleuthgraph/relationships/repository.py:39-73 | so does creating a relationship, which refuses ends outside the case |
| Repositories.CreateRelIfNotExistsKeeps | src/sleuthgraph/relationships/repository.py:75-99 | so does create_if_not_exists |
| Repositories.SoftDeleteRelKeeps | src/sleuthgraph/relationships/repository.py:135-151 | so does deleting a relationship |
| Repositories.CreateEvidenceKeeps | src/sleuthgraph/evidence/repository.py:27-67 | so does recording evidence: no committed row is ever without its blob |
| Repositories.EntityRepository.Create | src/sleuthgraph/entities/repository.py:22-49 | leaves the store and the answer of its specification |
| Repositories.EntityRepository.Update | src/sleuthgraph/entities/repository.py:79-99 | likewise; an explicit null in a NOT NULL column is refused by the flush |
| Repositories.EntityRepository.SoftDelete | src/sleuthgraph/entities/repository.py:101-117 | likewise |
| Repositories.EntityRepository.GetOrCreate | src/sleuthgraph/entities/repository.py:119-157 | likewise; several live rows of one key raise |
| Repositories.RelationshipRepository.Create | src/sleuthgraph/relationships/repository.py:39-73 | likewise |
| Repositories.RelationshipRepository.CreateIfNotExists | src/sleuthgraph/relationships/repository.py:75-99 | likewise; an existing relationship is returned unchanged |
| Repositories.RelationshipRepository.SoftDelete | src/sleuthgraph/relationships/repository.py:135-151 | likewise |
| Repositories.EvidenceRepository.Create | src/sleuthgraph/evidence/repository.py:27-67 | likewise: row flushed, blob put, then the commit |
| Runner.PersistAllShape | src/sleuthgraph/plugins/runner.py:263-322 | the batch under faults against the faultless fold: without an error all of it; after a flush, AGE or upload failure the committed state; after any other error exactly the proposals processed |
| RunnerTheorems.CallsIffWrites | src/sleuthgraph/plugins/runner.py:270-322 | a dedup hit that changes nothing makes no call that can fail; every other proposal makes one |
| Runner.RunKeeps | src/sleuthgraph/plugins/runner.py:101-180 | a whole run keeps the store invariant at every commit it makes |
| RunnerTheorems.PersistEnds | src/sleuthgraph/plugins/runner.py:248-327 | the ways `_persist` can end, its commit included |
| RunnerTheorems.RunStarts | src/sleuthgraph/plugins/runner.py:111-151 | a refused run changes nothing, so a row already running stays running; otherwise the run goes on from exactly one more row, or its first commit fails |
| AuditRows.OpenedRow | src/sleuthgraph/plugins/runner.py:130-149 | a run starts on a new row, running, with its own case, input, plugin and start and nothing else, or on the queued row with only its status changed |
| AuditRows.QueuedRowSays | src/sleuthgraph/plugins/router.py:105-115 | the dispatcher's row is queued, with the run's case, input, plugin and start and nothing else |
| AuditRows.FailedByOthers | src/sleuthgraph/plugins/sweeper.py:44-61 | failures written outside the runner set status, finish time and message of exactly the named rows and no other column |
| RunnerTheorems.RunEnds | src/sleuthgraph/plugins/runner.py:151-180 | every outcome is a whole number of proposals: none, exactly those processed, or all, as the error says, committed with the failure row exactly when the handler's commit took effect; and every state committed on the way is such a prefix |
| RunnerTheorems.FailureRecordedIff | src/sleuthgraph/plugins/runner.py:167-177 | a failed run has its failure row exactly when its error is neither a failed flush nor a failed commit and the handler's own commit did not fail before taking effect; else nothing is committed and the row stays running, or a failed commit decides |
| AuditRows.FailedRowSays | src/sleuthgraph/plugins/runner.py:167-173 | a recorded failure reads failed, with the finish time and the label of its error, spelled out per error, and keeps case, input, plugin, start and counts |
| AuditRows.FailsBeforeBatch | src/sleuthgraph/plugins/runner.py:151-227 | a run fails before its batch exactly for missing credentials, else for what the plugin raised, else for more than 2000 proposals |
| AuditRows.RefusedWhy | src/sleuthgraph/plugins/runner.py:270-284 | an entity or evidence proposal is refused exactly for its dict or for several live rows of its type and name |
| AuditRows.RelRefusedWhy | src/sleuthgraph/plugins/runner.py:287-304 | a relationship proposal is refused exactly for, in this order, its source, its destination, its dict, several live rows of its triple, or, if there is none, an end that is not live in the case |
| RunnerTheorems.FaultlessFailureIsRecorded | src/sleuthgraph/plugins/runner.py:167-177 | a failed run leaves its failure row whenever none of the calls it makes fails, so in particular when none fails from its start on |
| RunnerTheorems.RunTicks | src/sleuthgraph/plugins/runner.py:151-180 | a run that is undone, cannot commit or leaves no failure row met a failing call of its own |
| Atomicity.PrefixOkIff | src/sleuthgraph/plugins/runner.py:270-344 | a prefix of a batch goes through exactly when none of its proposals is refused: attributes accepted, ends named, and a deleted input used by no relationship that is not there already |
| Atomicity.PrefixIdleIff | src/sleuthgraph/plugins/runner.py:270-322 | such a prefix leaves the tables as they were exactly when each of its entities is live with at least that confidence, each of its triples is live, and it holds no evidence |
| Atomicity.BadProposalCommitsPrefix | src/sleuthgraph/plugins/runner.py:167-177 | if no call fails from its start on, a run with a refused proposal ends with exactly the proposals before it committed, and the failure row; an input deleted by then is one of the ways to be refused |
| Atomicity.AtomicIff | src/sleuthgraph/plugins/runner.py:258-261 | whether or not the input is still live: under every schedule of faults the tables end as before the run or as after its whole batch, if and only if the run stops before its batch, or no proposal is refused, or everything before the first refused one is in the tables already |
| Atomicity.PrefixIsCommitted | src/sleuthgraph/plugins/runner.py:258-261 | a faultless run with an unknown ref in its second proposal commits the first one and the failure row |
| Atomicity.DeletedInputCommitsPrefix | src/sleuthgraph/queue/tasks.py:53-56 | a faultless run with a well-formed result, as crt.sh makes it, whose input is soft-deleted by the time of its batch commits the new entity and the failure row |
| Atomicity.FailureIsLost | src/sleuthgraph/plugins/runner.py:173-177 | a run whose flush fails raises, commits nothing, and leaves its row running |
| RunnerTheorems.ApplyAllLists | src/sleuthgraph/plugins/runner.py:269-327 | the returned lists are exactly the new rows, each once |
| RunnerTheorems.SucceededMeansWhole | src/sleuthgraph/plugins/runner.py:229-243 | in every state a run commits, a row reading succeeded has its whole batch beside it, its three counts are those of the rows inserted, and every evidence row has its blob; a row still running is as it started |
| AuditRows.DoneRowSays | src/sleuthgraph/plugins/runner.py:229-237 | the row of a run that is done reads succeeded, with the finish time and the numbers of the rows returned, and keeps every other column |
| RunnerTheorems.SuccessfulRunStoresPayloads | src/sleuthgraph/plugins/runner.py:306-322 | a successful run leaves one evidence row per evidence proposal, in order, with the payload's hash and size, and the object under its key hashes to what the payload hashes to |
| RunnerObjects.EntityTurn | src/sleuthgraph/plugins/runner.py:270-284 | one turn of the entity loop is one step of the batch under faults |
| RunnerObjects.RelTurn | src/sleuthgraph/plugins/runner.py:287-304 | one turn of the relationship loop is one step, its checks in the order `_persist` makes them |
| RunnerObjects.EvidenceTurn | src/sleuthgraph/plugins/runner.py:307-322 | one turn of the evidence loop is one step |
| RunnerObjects.PluginRunner.PersistEntities | src/sleuthgraph/plugins/runner.py:267-284 | the loop ends where the batch ends, or hands the rest of the batch on |
| RunnerObjects.PluginRunner.PersistRelationships | src/sleuthgraph/plugins/runner.py:286-304 | likewise |
| RunnerObjects.PluginRunner.PersistEvidence | src/sleuthgraph/plugins/runner.py:306-322 | likewise |
| RunnerObjects.PluginRunner.PersistResult | src/sleuthgraph/plugins/runner.py:248-327 | the three loops and the commit are the specified batch |
| RunnerObjects.PluginRunner.ExecutePlugin | src/sleuthgraph/plugins/runner.py:182-246 | credentials, query, cap, batch and success row, as specified |
| RunnerObjects.PluginRunner.OpenRow | src/sleuthgraph/plugins/runner.py:130-149 | the audit row is new or the dispatcher's, committed as running unless it runs already |
| RunnerObjects.PluginRunner.RunPlugin | src/sleuthgraph/plugins/runner.py:101-180 | the whole run, with its handler, is the specified one |
| Reachable.StepsKeepInv | src/sleuthgraph/entities/repository.py:22-157 | any sequence of requests and of the transactions of plugin runs, interleaved in any order, with any call failing and any run ending between two of them, keeps the store invariant |
| Reachable.EveryCommittedStateMirrors | src/sleuthgraph/relationships/age.py:44-50 | every state ever committed from the empty store by such a sequence has a graph that shows the tables column by column and is the rebuilt one, no edge across cases, evidence rows with matching blobs, and unfinished runs without counts or finish time |
| Reachable.StepsPreserve | src/sleuthgraph/evidence/repository.py:20-21 | over any such sequence evidence is append-only, relationships change only by deletion, nothing deleted comes back, entities keep their case and type, audit rows keep their start, case and input, and no row disappears |
| Reachable.RunIsItsTransactions | src/sleuthgraph/plugins/runner.py:101-180 | with nothing in between, the opening commit, the batch and the close of a run leave exactly what the whole run does |
| Reachable.StepIsLawful | src/sleuthgraph/plugins/runner.py:101-180 | each operation commits at most once and undoes nothing, and only the close of a run makes a row read succeeded, its own with the counts of its batch |
| Provenance.EvidenceSurvives | src/sleuthgraph/evidence/repository.py:20-21 | any committed evidence row keeps its place, its content and an object of its hash, which with a collision-free hash is the payload, over any later operations with any failures |
| Provenance.PayloadSurvives | src/sleuthgraph/evidence/repository.py:38-63 | chain of custody for direct recording: once the call has answered, its row, content key and content type included, and its payload stay, whatever follows and whatever fails |
| Provenance.RunPayloadSurvives | src/sleuthgraph/plugins/runner.py:306-325 | chain of custody for plugin runs: once a batch is committed, each evidence proposal has its row with its query, source, spec, link, content key and content type, and row and payload stay, even if the rest of the run fails or its process ends |
| Provenance.DonePayloadSurvives | src/sleuthgraph/plugins/runner.py:306-325 | so for a run that is done |
| Provenance.SucceededRowsAreWhole | src/sleuthgraph/plugins/runner.py:229-243 | write ordering over everything the system may do: when an audit row reads succeeded in a committed state, an earlier one is the result of the whole batch of a run of that row, its counts are those of the rows that batch inserted, and nothing of it was undone in between but by deletion |
| Lifecycle.RunTable.SweepStuckRuns | src/sleuthgraph/plugins/sweeper.py:44-65 | a sweep fails exactly the open rows older than its cutoff, with the time and the message, leaves none of them open, and counts them |
| Lifecycle.RunTable.ClaimRun | src/sleuthgraph/queue/tasks.py:39-66 | claimed exactly when the row is there, queued and has its input, and then only its status changes, to running; failed for a missing input exactly when it is queued without; else nothing changes |
| Lifecycle.RunTable.DispatchAsync | src/sleuthgraph/plugins/router.py:105-128 | a queued row, failed again when the enqueue raises |
| Lifecycle.DeliverySays | src/sleuthgraph/queue/tasks.py:39-66 | the same of a delivery among all events: a worker of its own, or the failure, or nothing |
| Lifecycle.WorkerAppearsIff | src/sleuthgraph/queue/tasks.py:53-66 | a worker takes over a row exactly by a delivery of it, queued, with its input present |
| Lifecycle.WorkedOnlyIfClaimed | src/sleuthgraph/queue/tasks.py:53-66 | over whole runs, a row that nobody held is held or queried later on only after such a delivery |
| Lifecycle.OtherWritesSay | src/sleuthgraph/plugins/sweeper.py:44-61 | what insertion, failed enqueue, result and sweep leave in the row, column by column |
| Lifecycle.QueryStartsOnce | src/sleuthgraph/queue/tasks.py:45-66 | over any interleaving of dispatch, delivery, finish, crash and sweep a row's query starts at most once |
| Lifecycle.StatusOrder | src/sleuthgraph/plugins/models.py:16-17 | queued is never re-entered, a succeeded row is never written again, insertion times never change |
| Lifecycle.StepTimely | src/sleuthgraph/plugins/sweeper.py:44-58 | if claims come at most 300 s after insertion, jobs last at most 300 s, and enqueue calls and synchronous runs at most 600 s, no default sweep touches the row of a live worker |
| Lifecycle.OneTerminalWrite | src/sleuthgraph/queue/arq_settings.py:45 | under the same timing every row gets at most one terminal write |
| Lifecycle.SecondWriteIff | src/sleuthgraph/plugins/router.py:121-127 | over all events, a row is written terminally a second time exactly when a worker's recorded result or a failed enqueue meets it closed, it was failed then, and there is no third time |
| Lifecycle.TwoWritesIff | src/sleuthgraph/plugins/runner.py:167-177 | over whole runs, a row ends with two terminal writes exactly when it was overwritten on the way |
| Lifecycle.SweepHitsLiveWorkerIff | src/sleuthgraph/plugins/sweeper.py:44-58 | a sweep closes a live worker's row exactly when the row is older than the threshold |
| Lifecycle.LateClaimIsOverwritten | src/sleuthgraph/plugins/models.py:16-17 | a late claim leads to two terminal writes, failed and then succeeded |
| Lifecycle.LateDispatcherIsOverwritten | src/sleuthgraph/plugins/router.py:121-127 | so does an enqueue call that fails after the sweep, without any worker |
| Lifecycle.BoundedRecovery | src/sleuthgraph/plugins/sweeper.py:35-65 | with default sweeps at most P seconds apart no row stays open longer than 600 + P seconds, whatever crashes |
| Cypher.EscapeIsOnePass | src/sleuthgraph/graph/age.py:57 | replacing backslashes and then quotes escapes each character on its own |
| Cypher.EncodeProps | src/sleuthgraph/graph/age.py:61-77 | the loop returns the specified text, or the first illegal key |
| Cypher.CypherScalar | src/sleuthgraph/graph/age.py:38-58 | likewise for one value |
| Cypher.ValueRoundTrip | src/sleuthgraph/graph/age.py:38-77 | reading a printed value gives it back and consumes exactly its text |
| Cypher.CypherRoundTrip | src/sleuthgraph/graph/age.py:61-77 | so does a whole property map, key order included |
| Cypher.PrinterInjective | src/sleuthgraph/graph/age.py:61-77 | maps with the same text are the same map |
| CypherTheorems.WalkExact | src/sleuthgraph/graph/validators.py:28-45 | the walk passes exactly the values whose height fits below the limit and whose keys are all legal |
| CypherTheorems.AcceptsExactly | src/sleuthgraph/graph/validators.py:16-51 | the validator accepts exactly height at most 4, legal keys everywhere and at most 65536 bytes of JSON |
| CypherTheorems.PrintsIff | src/sleuthgraph/graph/age.py:72-77 | the printer fails exactly on an illegal key at some depth |
| CypherTheorems.PrintedSize | src/sleuthgraph/graph/age.py:38-77 | Cypher text is at most twice the JSON text |
| CypherTheorems.AcceptedPrints | src/sleuthgraph/graph/age.py:61-77 | an accepted dict never makes the printer fail and prints to at most 131072 characters |
| CypherTheorems.AcceptedRoundTrip | src/sleuthgraph/graph/age.py:61-77 | an accepted dict is printed and reads back as itself |
| CypherTheorems.VertexStatementRoundTrip | src/sleuthgraph/entities/age.py:33-44 | the framed vertex statement reads back as its Cypher, and the literal in it as the vertex properties |
| CypherTheorems.EdgeStatementRoundTrip | src/sleuthgraph/relationships/age.py:34-51 | likewise for the edge statement |
| CypherTheorems.VertexHeadReads | src/sleuthgraph/entities/age.py:43 | a reader of the pattern finds the vertex of this label and id |
| CypherTheorems.EdgeHeadReads | src/sleuthgraph/relationships/age.py:45-48 | a reader of the pattern finds an edge of this label and id that leaves the source and enters the destination |
| CypherTheorems.VertexPropsSay | src/sleuthgraph/entities/age.py:33-39 | the value under each of the five keys, and no other key |
| CypherTheorems.EdgePropsSay | src/sleuthgraph/relationships/age.py:34-40 | likewise |
| DollarQuotes.FrameCypher | src/sleuthgraph/graph/age.py:100-112 | the first of four tags that does not occur in the text is used, in the statement spelled out by `Framed`; the call raises exactly when all four occur |
| DollarQuotes.NoEarlyClose | src/sleuthgraph/graph/age.py:100-112 | no closing delimiter starts before the end of the body, inside the text or across its blanks |
| DollarQuotes.FrameRoundTrip | src/sleuthgraph/graph/age.py:110-112 | PostgreSQL reads the constant back as the Cypher between two blanks and goes on right behind it |
| EvidenceKeys.BuildKeyInjective | src/sleuthgraph/evidence/storage.py:18-20 | a key determines its case and its hash |
| EvidenceKeys.PutKeepsHonest | src/sleuthgraph/evidence/storage.py:74-97 | a put under a content key leaves the right hash under that key and keeps every row intact, the same-size skip and collisions included |
| Integrity.VerifySingle | src/sleuthgraph/evidence/integrity.py:29-46 | a missing object raises, a differing hash is reported, a matching one is not |
| Integrity.SweepAll | src/sleuthgraph/evidence/integrity.py:49-63 | the sweep raises exactly when an object of the table is missing and else reports exactly the rows of the table whose object does not hash to what they record, each as often as it is there, in timestamp order |
| Integrity.HealthySweepIsEmpty | src/sleuthgraph/evidence/integrity.py:49-63 | a healthy ledger sweeps clean |
| Integrity.SweepFindsTampering | src/sleuthgraph/evidence/integrity.py:49-63 | after any overwriting of objects the sweep reports exactly the tampered rows, with both hashes |
| Integrity.TamperedIsExact | src/sleuthgraph/evidence/integrity.py:37-45 | tampered rows are those whose object's hash changed, as often as the table holds them |
| Integrity.TamperedIsOrdered | src/sleuthgraph/evidence/integrity.py:54-63 | the report is in timestamp order |
| Custody.UntamperedSweepsClean | src/sleuthgraph/evidence/integrity.py:49-63 | over all runs: whatever was requested and whatever failed, a sweep of the store as the system left it raises nothing and reports nothing |
| Custody.TamperedSweepIsExact | src/sleuthgraph/evidence/integrity.py:49-63 | over all runs: after any overwriting of objects it reports exactly the rows of the table whose object's hash changed, each as often as it is there, in timestamp order |
| CanonicalJson.OneAscendingListing | src/sleuthgraph/evidence/hashing.py:25-30 | sorting lists a dict with ascending keys, by position: each a prefix of the next or smaller where they first differ; and no other listing is |
| StringOrder.StrLeByPosition | src/sleuthgraph/evidence/hashing.py:25-30 | the order of keys and timestamps is the one by position: a prefix first, else the smaller character where two strings first differ |
| CanonicalJson.SameCanon | src/sleuthgraph/evidence/hashing.py:23 | insertion order never shows, at any depth |
| CanonicalJson.CanonSame | src/sleuthgraph/evidence/hashing.py:25-30 | the canonical form keeps everything but the order of keys |
| CanonicalJson.CanonicalTextReads | src/sleuthgraph/evidence/hashing.py:5-7 | the stored text reads back as an equal value whose keys ascend at every depth, and which is its own canonical form |
| CanonicalJson.TextExample | src/sleuthgraph/evidence/hashing.py:25-30 | one dict as both texts: canonical without blanks and with characters outside ASCII as they are, and as the validator measures it |
| CanonicalJson.BytesEqualIff | src/sleuthgraph/evidence/hashing.py:20-30 | canonical bytes are equal exactly when the values are equal as JSON values, with 1, 1.0 and true distinct |
| CanonicalJson.DigestEqualIff | src/sleuthgraph/evidence/hashing.py:33-36 | with a collision-free hash so are digests |
| JsonReader.JsonRoundTrip | src/sleuthgraph/evidence/hashing.py:25-30 | a JSON reader recovers every printed value |
| Utf8.EncodeInjective | src/sleuthgraph/evidence/hashing.py:30 | different texts have different UTF-8 bytes |
| Utf8.EncodingShape | src/sleuthgraph/evidence/hashing.py:30 | lead and continuation bytes have the ranges of section 3 of RFC 3629 |
| Wayback.ExtractSnapshots | src/sleuthgraph/plugins/builtin/wayback_cdx.py:181-211 | cell by cell: one snapshot for each URL a line of three cells sights, with the first and the last of its timestamps and the status of the line that sights it first, in ascending order of first sighting and, on a tie, of that line; and as the stable sort of the collapse in order of appearance |
| Wayback.SortIsStable | src/sleuthgraph/plugins/builtin/wayback_cdx.py:210 | the sort is an ascending permutation that keeps the order of ties |
| Wayback.PermutationKeepsSpans | src/sleuthgraph/plugins/builtin/wayback_cdx.py:187-205 | permuting the rows changes no URL's first and last sighting |
| Wayback.PermutationKeepsOrder | src/sleuthgraph/plugins/builtin/wayback_cdx.py:181-211 | the two outputs hold the same spans, and their first sightings read the same from end to end |
| Plugins.RefInjective | src/sleuthgraph/plugins/builtin/dns_whois.py:107 | a ref determines its prefix and its index |
| Plugins.FindsAreWellFormed | src/sleuthgraph/plugins/runner.py:330-344 | results built from distinctly tagged finds have distinct refs, and every relationship end resolves |
| Plugins.RefMeansItsProposal | src/sleuthgraph/plugins/runner.py:267-284 | with distinct refs a ref resolves to the row of its own proposal |
| Plugins.WaybackProposals | src/sleuthgraph/plugins/builtin/wayback_cdx.py:92-127 | the cap and the skip loop: entities plus skipped equals the smaller of the snapshots and 500 |
| Plugins.WaybackResult | src/sleuthgraph/plugins/builtin/wayback_cdx.py:97-149 | the result is well formed with at most 1001 proposals |
| Plugins.DnsProposals | src/sleuthgraph/plugins/builtin/dns_whois.py:98-192 | the four loops build the four families in order |
| Plugins.DnsResult | src/sleuthgraph/plugins/builtin/dns_whois.py:106-192 | the four families never collide and the result is well formed |
| Plugins.CappedLoop | src/sleuthgraph/plugins/builtin/virustotal.py:127-152 | a capped loop takes candidates in order up to the shared cap and reports truncation exactly when an item is left at the cap |
| Plugins.VtDomainProposals | src/sleuthgraph/plugins/builtin/virustotal.py:120-187 | the two passes share one counter and one cap, and truncation is reported exactly when either leaves a record at the cap |
| Plugins.VtIpProposals | src/sleuthgraph/plugins/builtin/virustotal.py:229-266 | likewise for the certificate names |
| Plugins.DistinctLoop | src/sleuthgraph/plugins/builtin/shodan.py:108-139 | a capped loop that takes each name once and reports truncation exactly when an item is left at the cap |
| Plugins.NewNamesAt | src/sleuthgraph/plugins/builtin/shodan.py:118-121 | the names such a loop takes are the first occurrences of those not seen before, in order |
| Plugins.ShodanProposals | src/sleuthgraph/plugins/builtin/shodan.py:97-177 | host names, then the domains not among them, under one cap, and truncation is reported exactly when either list leaves an item at the cap |
| Plugins.VtAndShodanResults | src/sleuthgraph/plugins/builtin/virustotal.py:106-289 | the VirusTotal domain and IP results and the Shodan result are well formed with at most 101 proposals each |
| Plugins.ExtractSubdomains | src/sleuthgraph/plugins/builtin/crtsh.py:161-188 | at most 1000 names, all of them candidates, and all candidates unless truncated, which happens exactly when a candidate is met with 1000 names in hand |
| Plugins.CrtShCap | src/sleuthgraph/plugins/builtin/crtsh.py:69-111 | n names give a well-formed result of 2n + 1 proposals, which passes the cap of 2000 exactly when n is at most 999 |
| Plugins.WellFormedRuns | src/sleuthgraph/plugins/runner.py:270-344 | a well-formed result succeeds exactly when its attributes are accepted and the input is live or serves only relationships that are there already, and every ref ends at its own entity |
| PluginRows.VtDomainProposes | src/sleuthgraph/plugins/builtin/virustotal.py:127-187 | each proposal spelled out: addresses the input resolves to, then subdomains below it, 50 in all, numbered through |
| PluginRows.VtIpProposes | src/sleuthgraph/plugins/builtin/virustotal.py:242-266 | each proposal spelled out: at most 50 domains that resolve to the input |
| PluginRows.ShodanProposes | src/sleuthgraph/plugins/builtin/shodan.py:108-177 | each proposal spelled out: host names and domains that resolve to the input, 50 in all |
| PluginRows.CrtShProposes | src/sleuthgraph/plugins/builtin/crtsh.py:69-88 | each proposal spelled out: every subdomain, below the input |
| PluginRows.DnsProposes | src/sleuthgraph/plugins/builtin/dns_whois.py:106-192 | each proposal of the four families spelled out |
| PluginRows.WaybackProposes | src/sleuthgraph/plugins/builtin/wayback_cdx.py:97-127 | of the snapshots looked at exactly those with a URL of at most 500 characters, in order, each spelled out and numbered by its place among all |
| PluginRows.FindsAreJoined | src/sleuthgraph/plugins/runner.py:270-304 | after a successful run every find is a live entity of the case, and a live relationship of its type joins it with the input the right way round |
| PluginRuns.WellFormedIsAtomic | src/sleuthgraph/plugins/runner.py:256-325 | a run with a well-formed result of accepted attributes whose relationships all end at the input is atomic under every schedule of faults if and only if it stops before its batch, or the input is live in the case, or every relationship is there already, or every entity is |
| PluginRuns.PluginIsAtomicIff | src/sleuthgraph/plugins/runner.py:256-325 | the same for any result built from finds with small attributes, with nothing left to assume of it but its evidence spec |
| PluginAttrs.SmallDictAccepted | src/sleuthgraph/graph/validators.py:16-51 | at most four legal keys over strings of at most 1000 characters or 16-bit numbers are accepted, whatever the characters |
| PluginAttrs.KeyAcceptedIff | src/sleuthgraph/graph/validators.py:8-14 | a key passes exactly if it has 1 to 64 ASCII letters, digits and underscores and no digit first |
| PluginAttrs.CrtShAccepted | src/sleuthgraph/plugins/builtin/crtsh.py:69-105 | every attribute dict of a crt.sh result is accepted, so the result is exactly when its evidence spec is |
| PluginAttrs.VtAccepted | src/sleuthgraph/plugins/builtin/virustotal.py:127-152 | likewise for both VirusTotal results |
| PluginAttrs.ShodanAccepted | src/sleuthgraph/plugins/builtin/shodan.py:108-170 | likewise for Shodan |
| PluginAttrs.DnsAccepted | src/sleuthgraph/plugins/builtin/dns_whois.py:106-192 | likewise for dns_whois, preferences having 16 bits |
| PluginAttrs.WaybackAccepted | src/sleuthgraph/plugins/builtin/wayback_cdx.py:97-149 | likewise for Wayback, if the archive's timestamps and statuses have at most 1000 characters |
| PluginRuns.CrtShRefusedIff | src/sleuthgraph/plugins/runner.py:223-227 | a crt.sh run is turned away before its batch exactly when it has 1000 names or more, and then changes no table but the audit row |
| Oidc.UserTable.ResolveOidcUser | src/sleuthgraph/auth/oidc_provision.py:56-113 | leaves the table and the answer of its specification; the defensive return is unreachable |
| Oidc.ResolveDecides | src/sleuthgraph/auth/oidc_provision.py:64-113 | the whole decision, case by case, with the columns of a user that is linked or provisioned: the latter active, verified, no superuser, with the login's email and a random password |
| Oidc.ResolveKeeps | src/sleuthgraph/auth/oidc_provision.py:46-113 | a login keeps subjects and folded emails unique, moves no subject, changes nothing when refused, and never meets several rows; a failed commit is the one error that may leave a change |
| Oidc.LostCommit | src/sleuthgraph/auth/oidc_provision.py:87-111 | a login whose commit raises leaves the table as it was or exactly as the commit would have left it |
| Oidc.RetrySettles | src/sleuthgraph/auth/oidc_provision.py:69-111 | after a login that raised although its commit took effect, a retry gives the user the first try would have given and changes nothing, whatever logins came between |
| Oidc.LoginsKeep | src/sleuthgraph/auth/oidc_provision.py:56-113 | so does any sequence of logins |
| Oidc.SubjectSticks | src/sleuthgraph/auth/oidc_provision.py:69-72 | once bound, a subject gives the same user at every later login, with any email, and changes nothing |
| Oidc.UnverifiedGainsNothing | src/sleuthgraph/auth/oidc_provision.py:13-16 | an unverified email adds no user, binds no subject, and is let in only by a subject already bound |
| Oidc.LinkInvalidatesPassword | src/sleuthgraph/auth/oidc_provision.py:76-89 | a user changed by a login had no subject, was found by verified email, and has a random password afterwards |
| Pool.SinglePool | src/sleuthgraph/queue/enqueue.py:26-43 | in any interleaving at most one pool is open, it is the global one unless a close failed halfway, and callers between the same closes share it |
| Pool.DeadPoolIff | src/sleuthgraph/queue/enqueue.py:41-43 | a caller gets a closed pool exactly after a close that raised with the connection gone |
| Pool.AnswersMean | src/sleuthgraph/queue/enqueue.py:26-43 | a close that returns has emptied the global and shut its pool, one that raises leaves the global; a get that returns hands out the global pool and makes a new one only if there was none |
| Pool.LockMeans | src/sleuthgraph/queue/enqueue.py:28-43 | at the lock a closer that finds a pool goes on to close it and a getter that finds none goes on to make it, and while they do nobody else enters |

## Left out

- Real concurrency between database sessions: transactions run one at a time, in any order; deduplication rests on
  the database. A run that starts on an existing audit row has that row's case and input, as the worker passes them.
- Direct creates and label updates may duplicate a key. The batch theorems and those of `Atomicity` and `PluginRuns`
  take uniqueness in the case as a precondition; the store invariants, the outcome theorems of `RunnerTheorems` and
  everything in `Reachable` and `Provenance` do not, and the lookup that then raises is part of the model.
- Reads, refreshes and rollbacks are taken to succeed; flushes, commits, Cypher statements and uploads may fail.
- AGE itself: MERGE, SET, MATCH and DETACH DELETE act on the two maps as their documentation says.
- Hard deletes and their cascades (a case, a user) are not modelled, nor are `created_by`, `created_at`, `updated_at`.
- Schema bounds on labels, confidences and queries are already enforced when a proposal or request is built; the
  model starts behind them. The source-plugin pattern depends only on the plugin's name and version.
- API operations take data whose attributes were accepted at ingress; the runner's own validation is modelled.
- `AuditRows.FailedRowSays`: the exception's type name behind the taxonomy label is dropped.
- Licence checks, the accepted-type check and the credential vault are booleans of a run.
- Confidence is a real number, and in printed text an opaque number token.
- `Cypher.ValueRoundTrip`: lists print as quoted Python text and are excluded (`NoLists`); floats are tokens.
- The key pattern's `$` also tolerates one trailing newline in Python; the model uses the documented language.
- `Json`: non-string keys, NaN and infinities are excluded; a Dafny character is a Unicode scalar value, so lone
  surrogates are excluded, and the reader does not combine escaped surrogate pairs, which canonical text never has.
- SHA-256 is an uninterpreted function, collision-free only where a lemma says so.
- `Wayback.ExtractSnapshots`: cells are strings; rows that are not lists are dropped earlier by `_fetch`. The sort
  is an insertion sort with the properties of Python's stable one.
- `Plugins.CappedLoop`: what a loop makes of one item (type tests, stripping, patterns) is a function parameter.
- `Plugins.ExtractSubdomains`: the lines of all entries are one list; the name filter is a function parameter.
- VirusTotal's `_query_url` proposes nothing.
- `Pool.SinglePool`: the module global and its lock are one state machine, since the interest is in interleavings
  at awaits; no class stands for it. `enqueue_job` is not modelled.
- `Lifecycle.QueryStartsOnce`: load, check and flip of a claim are one step, as their comment intends; an enqueue
  that raises leaves no job; there is one clock.
- A claim that every failed row has a finish time would be false: an enqueue failure and a missing input set none.
- `Integrity.SweepAll`: the ordered SELECT is its input; ties in the timestamp come in any order.
- HTTP fetching, retries, DNS, byte caps, Redis, S3 and the remaining plugins: I/O, or loops of the same kind.
- Case and credential CRUD, pagination, settings, migrations, rate limits, token checks and the graph and CSV
  endpoints would only add easy members.
