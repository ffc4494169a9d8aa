# Verification model of q15

A Dafny model of four parts of q15 that carry state across calls, with proofs
of what they keep. Models, providers, the vector store's failures, the file
system, clocks and cancellation are inputs or nondeterministic choices, so every
result holds whatever they do.

**Embedding sync** (`EmbedState`, `EmbedSync`, `EmbedTheorems`, `EmbedRun`,
`EmbedService`, `EmbedResume`, `EmbedLifetime`, `Scanner`). `EmbedState.StateStore` is the state
store: records by point id, three secondary indexes, and the state file.
`EmbedService.Service` is the sync service over that store and a vector store;
each of its methods is proved against the relations of `EmbedSync` (a scan, the
records and points a run ends with, what an interrupted run leaves behind), and
the theorems are about those relations: when an incremental run ends as a full
one, that a full run ends exactly at the scanned documents, when an interrupted
run can be resumed, and that a sync leaves other sources alone. `EmbedRun` says
what one source's run means for its own records and points and for everyone
else's; a sync of many sources is built from that (`EmbedService.Promised`), and
`EmbedService.Outside` counts whatever goes wrong outside, so that a sync is also
shown to succeed when nothing does.
`EmbedLifetime` strings syncs, failures and restarts together. `Scanner` cuts markdown into
documents and shows that scans meet the conditions the theorems ask for.

**Sealed browser transport** (`Base64`, `Transport`, `Seal`, `SealTheorems`,
`FrameSize`, `FrameContext`, `Channel`, `Queue`, `Replay`, `Reconnect`,
`History`, `Session`). Chunked sealing over an abstract AEAD (section 2 of RFC 5116) in unpadded
base64url (section 5 of RFC 4648), the size constants, the refusal of repeated
streams, the lock-free send queue as atomic steps, replay after reconnects,
budgeted history pages, and the session's event receiver.

**Agent engine** (`LoopSafety`, `Trace`, `Engine`, `ReplyLoop`). The model/tool
loop with its turn budget, failure budget and loop detector, and the reply
around it. A run is judged by the messages it adds and the steps it takes.

**Token estimate** (`Tokens`). The estimator and the context window note that
must be covered by the estimate it states.

`Text` and `Wrappers` hold decimal rendering, trimming and `Option`.

## What the code does not do

These are results of the model, each with its exact condition.

- *Base64.* The strict decoder skips carriage returns and line feeds, so an
  envelope with line breaks in its encoded data opens like the original
  (`SealTheorems.LineFeedIsAccepted`); modulo line breaks only the sealed
  envelope opens (`SealTheorems.OpensExactly`).
- *Stop and resume.* If a document still to be embedded is new and has the
  content of one that was checkpointed before the stop, the rerun moves the
  checkpointed record instead of embedding; the records then differ from an
  uninterrupted run's, and only then (`EmbedResume.ResumeAfterInterruption` after a
  restart, `EmbedResume.RerunAfterInterruption` without one,
  `EmbedResume.CopyAcrossExample`).
- *Copies.* A new document that finds a current record among the newest of its
  content takes it over, and an incremental run then, and only then, does not
  end as a full one (`EmbedTheorems.RefinementExactly`; where equally new records
  differ in being current, the lookup is free to choose, and
  `EmbedTheorems.IncrementalRefinesFull` says it by whether a record was moved).
- *Remade collections.* If a run stops after its collection was made anew and
  before the emptied state was persisted, a later incremental run restores the
  points of exactly the documents it embeds (`EmbedTheorems.EmptiedIsRefilled`).
  Those are the documents whose records are not current if and only if no new
  document takes over a current record (`EmbedTheorems.EmptiedCollectionStays`);
  a renamed file alone leaves the collection empty
  (`EmbedTheorems.RenamedIsNotRefilled`).
- *Orphans.* A full sync of a source leaves a point in the vector store without a
  record in exactly two ways (`EmbedRun.OrphansExactly`). Its record lay in the
  source's own collection, which was not made anew, its identity is still scanned,
  and its id is no scanned document's own id. Or its record lay in another
  collection and its identity is no longer scanned: pruning forgets the record but
  deletes from the source's collection only, as for a source that was registered
  again under another collection (`EmbedRun.OrphanExample`).
- *Blocked syncs.* While an unregistered source has a record in a collection that
  does not exist, every sync fails, of any scope, because its points cannot be
  deleted there (`EmbedService.Service.Sync`, the last condition of
  `EmbedService.Feasible`).
- *Strays.* A source that was registered again under another collection keeps its
  records from the old one whose identities are still scanned, through full
  syncs too; without such records its records are exactly its documents'
  (`EmbedTheorems.FullSyncExact`).
- *Queue.* A frame that fits beside the queue is refused when what other callers
  and the writer hold at that moment fills the rest (`Queue.RefusedExactly`), for
  instance while a frame too long for what is left is being taken back
  (`Queue.RefusedBesideBackOut`).
- *Session.* A stale notice leaves cursor, flag and drafts alone, but it moves the
  turn that snapshots and status frames carry, and the time of snapshots
  (`Session.StaleChangesExactly`, `Session.TurnIs`).
- *Context.* A line break in a frame's identifier or type makes its context that of
  another frame too (`FrameContext.UnmistakableExactly`).
- *Token note.* The allowance covers a note that outgrows the reserved one by 179
  tokens, and no more (`Tokens.SlackIsExact`, `Tokens.SlackIsNeeded`).

## Model

| member | source | states |
|---|---|---|
| `EmbedState.KeysAreInjective` | systems/agent/internal/embed/state.go:533-539 | identity and hash keys name one collection, source and identity or hash, for names without NUL, in both directions |
| `EmbedState.PutKeepsUnique` | systems/agent/internal/embed/state.go:429-448 | putting a record keeps identity keys unique and ids filed under themselves |
| `EmbedState.IndexesAreUnique` | systems/agent/internal/embed/state.go:429-468 | indexes consistent with the points are the ones recomputed from them: there is only one consistent triple, without empty sets |
| `EmbedState.RemoveKeepsConsistent` | systems/agent/internal/embed/state.go:450-468 | removing a point and its index entries keeps all three indexes equal to the recomputed ones |
| `EmbedState.AddKeepsConsistent` | systems/agent/internal/embed/state.go:429-448 | adding a point and its index entries keeps all three indexes equal to the recomputed ones |
| `EmbedState.LoadInvertsPersist` | systems/agent/internal/embed/state.go:101-163 | decoding persisted lines gives the same points and runs if and only if no id is blank, and otherwise is refused |
| `EmbedState.StateStore.constructor` | systems/agent/internal/embed/state.go:71-89 | a new store is empty, consistent and backed by the given file |
| `EmbedState.OpenState` | systems/agent/internal/embed/state.go:71-89 | a store opens exactly when its file loads, with the state the file decodes to |
| `EmbedState.StateStore.RemovePoint` | systems/agent/internal/embed/state.go:450-468 | exactly that point goes, and the indexes stay consistent |
| `EmbedState.StateStore.PutPoint` | systems/agent/internal/embed/state.go:429-448 | the points become the old ones with the record put, displacing any other holder of its identity; indexes stay consistent |
| `EmbedState.StateStore.FindByIdentity` | systems/agent/internal/embed/state.go:172-189 | agrees with a linear scan for the identity key, both ways |
| `EmbedState.StateStore.FindByContentHash` | systems/agent/internal/embed/state.go:191-216 | finds a record if and only if one has the hash key, and then a newest one |
| `EmbedState.StateStore.RecordsForSource` | systems/agent/internal/embed/state.go:260-277 | exactly the ids of the source's records |
| `EmbedState.StateStore.AllSourceIDs` | systems/agent/internal/embed/state.go:279-298 | exactly the sources that have a record or a sync run |
| `EmbedState.StateStore.EncodeLines` | systems/agent/internal/embed/state.go:498-531 | the lines hold every point once and every sync run once |
| `EmbedState.StateStore.Persist` | systems/agent/internal/embed/state.go:470-496 | the file is replaced as a whole by an encoding of the state, or left alone |
| `EmbedState.StateStore.Close` | systems/agent/internal/embed/state.go:91-99 | closing flushes a dirty state if the file can be written, and reports exactly whether nothing is left to write |
| `EmbedState.StateStore.Load` | systems/agent/internal/embed/state.go:101-163 | the state becomes what the file decodes to; a refused file leaves the state of the lines before the first refused one |
| `EmbedState.StateStore.UpsertPoint` | systems/agent/internal/embed/state.go:218-241 | puts the record in memory, with the time of the call if it came without one and otherwise as it is, and marks the state dirty; refused after closing |
| `EmbedState.StateStore.CheckpointBatch` | systems/agent/internal/embed/state.go:243-258 | puts all records in order and persists them in one replacement; every record that no later one displaces is stored as it came, with the time of the call if it had none, and nothing else is new |
| `EmbedState.StateStore.PutPoints` | systems/agent/internal/embed/state.go:243-258 | the points become the old ones with all records put in order, each with the time of the call if it had none |
| `EmbedState.BatchIsTimed` | systems/agent/internal/embed/state.go:243-258 | what is stored of a batch: every lasting record with the time it had or got, and nothing else is new |
| `EmbedState.LastPutIsNewest` | systems/agent/internal/embed/state.go:191-241 | of records put without a time at rising times, the newest of a hash, which a lookup finds, is the one put last, as long as no later record took its id or its identity |
| `EmbedState.StateStore.DeletePointIDs` | systems/agent/internal/embed/state.go:300-314 | exactly these ids go |
| `EmbedState.StateStore.DeleteSource` | systems/agent/internal/embed/state.go:316-335 | exactly the source's points and its run go, and the result is persisted |
| `EmbedState.StateStore.DeleteCollection` | systems/agent/internal/embed/state.go:337-368 | exactly the collection's points and runs go, both counted, and the result is persisted |
| `EmbedState.SourceGoes` | systems/agent/internal/embed/state.go:316-335 | without a source exactly the records of other sources are left, and the count is what went |
| `EmbedState.CollectionGoes` | systems/agent/internal/embed/state.go:337-368 | without a collection exactly the records and runs of other collections are left, and the counts are what went |
| `EmbedState.StateStore.StoreSyncResult` | systems/agent/internal/embed/state.go:370-391 | records the source's run and persists |
| `EmbedSync.OwnIDsDiffer` | systems/agent/internal/embed/state.go:165-170 | within a source two documents have one key or one point id if and only if they have one identity |
| `EmbedSync.PutAllIs` | systems/agent/internal/embed/service.go:338-365 | after the records of distinct documents are put, what every id holds: the document's record, or the earlier record unless it lost its identity |
| `EmbedSync.UpsertAllIs` | systems/agent/internal/embed/service.go:338-360 | after the points of distinct documents are written, what every id of the collection holds |
| `EmbedSync.ChangedIs` | systems/agent/internal/embed/service.go:266-318 | the documents an incremental run embeds are exactly the non-empty ones without a current record |
| `EmbedTheorems.FullScan` | systems/agent/internal/embed/service.go:263-318 | a full scan touches nothing and takes every non-empty document, in order |
| `EmbedTheorems.QuietScan` | systems/agent/internal/embed/service.go:263-318 | an incremental scan without copies touches nothing and takes exactly the changed documents, in order |
| `EmbedTheorems.UnmovedScan` | systems/agent/internal/embed/service.go:263-318 | an incremental scan that moved no record touches nothing and takes exactly the changed documents, in order |
| `EmbedTheorems.IncrementalRefinesFull` | systems/agent/internal/embed/service.go:237-382 | an incremental run ends with the records of a full one if and only if it moved none; then also with its point ids and vectors, with equal payloads if and only if the unchanged ones were stored already, having embedded exactly what was not current |
| `EmbedTheorems.FullSyncExact` | systems/agent/internal/embed/service.go:263-381 | after a full run every non-empty document has its record at its own id, current, with the current vector and payload; the source's other records are exactly the strays, so none if and only if there was no stray; other sources keep theirs |
| `EmbedTheorems.RerunAfterFullIsQuiet` | systems/agent/internal/embed/service.go:263-381 | an incremental rerun embeds, moves and prunes nothing and counts every document as unchanged |
| `EmbedTheorems.FullSyncOrphans` | systems/agent/internal/embed/service.go:338-410 | among the points of the source's own collection: one outlives its record in a full run if and only if the record lies in that collection, its identity is still scanned and no scanned document owns its id |
| `EmbedTheorems.TakenExactly` | systems/agent/internal/embed/service.go:279-310 | whether a scan moves a record can be told beforehand: exactly when some new document finds a current record among the newest of its content |
| `EmbedTheorems.MoveTells` | systems/agent/internal/embed/service.go:279-310 | what a move does: a newest current record of the content takes the document's identity and path and keeps its id, its point takes the payload and keeps vector and text, and nothing else changes |
| `EmbedTheorems.RefinementExactly` | systems/agent/internal/embed/service.go:237-382 | an incremental run ends with a full run's records if and only if no new document finds a current record among the newest of its content |
| `EmbedTheorems.EmptiedIsRefilled` | systems/agent/internal/embed/service.go:249-371 | over such a collection a document ends with its point if and only if the run embeds it |
| `EmbedTheorems.EmptiedCollectionStays` | systems/agent/internal/embed/service.go:249-260 | over a collection that was emptied while its records stayed, the points that come back are those of documents whose records are not current if and only if no new document takes over a current record |
| `EmbedTheorems.RenamedIsNotRefilled` | systems/agent/internal/embed/service.go:279-310 | a renamed file over such a collection is not current, and the collection stays empty |
| `EmbedTheorems.FullSettles` | systems/agent/internal/embed/service.go:263-381 | a full run settles its source: its records in its collection are exactly its documents', current, with their points; elsewhere exactly the strays are left |
| `EmbedTheorems.FullRestores` | systems/agent/internal/embed/service.go:263-381 | after a full run ids and points of the source's records in its collection are as the refinement asks, whatever held before; its records all lie there if and only if there was no stray |
| `EmbedTheorems.IncrementalRestores` | systems/agent/internal/embed/service.go:263-381 | an incremental run that moved no record keeps these conditions, wherever other records of the source lie |
| `EmbedTheorems.NeverMoves` | systems/agent/internal/embed/service.go:279-310 | without copies an incremental scan moves no record |
| `EmbedTheorems.ScanCounts` | systems/agent/internal/embed/service.go:263-318 | every non-empty document is counted once, as unchanged, moved or embedded |
| `EmbedService.VectorStore.EnsureCollection` | systems/agent/internal/embed/service.go:249-260 | a missing or unfit collection is made anew and empty, and only such a one; a lost call may stop between dropping and creating it |
| `EmbedService.VectorStore.Upsert` | systems/agent/internal/embed/service.go:358-360 | the points are written as a whole, or not, and other collections are untouched |
| `EmbedService.VectorStore.OverwritePayload` | systems/agent/internal/embed/service.go:290-292 | only the point's payload changes |
| `EmbedService.VectorStore.Delete` | systems/agent/internal/embed/service.go:403-405 | exactly the ids go from that collection |
| `EmbedRun.PutOwn` | systems/agent/internal/embed/service.go:298-308 | a record whose id derives from its own collection and source keeps the invariant and displaces no other source's record |
| `EmbedRun.ScanOwn` | systems/agent/internal/embed/service.go:263-318 | a scan keeps the invariant of every reachable state and leaves other sources' records as they were |
| `EmbedService.Service.VisitDocument` | systems/agent/internal/embed/service.go:266-318 | one document is skipped, counted, moved or marked for embedding exactly as the scan relation says |
| `EmbedService.Service.ScanDocuments` | systems/agent/internal/embed/service.go:263-318 | the loop is a scan of the documents; however it ends the state stays fit and other sources keep their records, and when stopped without copies it has written nothing, to memory or the collection |
| `EmbedService.Service.BuildBatch` | systems/agent/internal/embed/service.go:338-357 | points and records of a batch, document by document, at their own ids |
| `EmbedService.Service.EmbedBatch` | systems/agent/internal/embed/service.go:325-367 | vectors first, then one checkpoint: a failed batch leaves the state file alone, its records are in memory all together or not at all and only after its vectors, and memory and file stay fit |
| `EmbedService.Service.EmbedBatches` | systems/agent/internal/embed/service.go:320-371 | for any batch size all points and records are written, or a stop leaves whole batches of that size: those checkpointed, those in memory and those in the vector store, each a prefix of the next and at most one batch apart; memory and file stay fit |
| `EmbedService.Service.ScanAndEmbed` | systems/agent/internal/embed/service.go:263-371 | a finished scan with all of its batches, or an interrupted run; without trouble from outside it finishes |
| `EmbedService.Service.PruneMissingDocuments` | systems/agent/internal/embed/service.go:384-410 | exactly the source's records of unseen identities go, from the collection and the state |
| `EmbedService.Service.SyncPrepared` | systems/agent/internal/embed/service.go:261-382 | success is a synced source with matching counts and a state file that loads back; failure is an interrupted run, which says what file, memory and collection hold; either way memory and file stay fit and other sources keep their records |
| `EmbedService.Service.EnsureHome` | systems/agent/internal/embed/service.go:249-260 | a collection is made anew and its records forgotten exactly when it was missing or unfit, with their number; every outcome keeps memory and file fit |
| `EmbedService.Service.SyncSource` | systems/agent/internal/embed/service.go:237-382 | the same over an ensured collection, which starts empty exactly when it was missing or unfit; a failure touches other sources only in a collection made anew |
| `EmbedRun.SyncedAsFull` | systems/agent/internal/embed/service.go:237-382 | a completed incremental run left the records of a full one if and only if it moved none, and then the same points and vectors |
| `EmbedService.Service.RemovePoints` | systems/agent/internal/embed/service.go:425-440 | a removed source loses exactly its points, in the collections that its records name, all counted; on failure no other point is gone; it succeeds exactly if those collections exist and nothing goes wrong outside |
| `EmbedService.Service.RemoveSource` | systems/agent/internal/embed/service.go:425-445 | a removed source loses its points in every collection, its records and its run, all counted, and nothing else goes; a failure keeps memory and file fit |
| `EmbedService.Service.PruneRemovedSources` | systems/agent/internal/embed/service.go:412-447 | exactly the records of unregistered sources go, counted, and their points from the collections; a failure takes only such records |
| `EmbedService.Service.SyncNext` | systems/agent/internal/embed/service.go:166-195 | successful or not, a source's sync leaves other collections and other sources' records alone except in a collection it had to make anew; success is a finished run whose counts cover its documents; it fails only after trouble from outside, a failed scan or closing |
| `EmbedService.Service.Sync` | systems/agent/internal/embed/service.go:126-202 | when nothing goes wrong outside it succeeds if and only if the collection is blank or known, a named source is in scope, the scans succeed and stale records lie in existing collections; on every outcome memory and file stay fit, sources that are not synced keep exactly their records outside collections that were missing or unfit, and collections not needed lose at most stale points; after success such sources keep their points too, no record belongs to an unregistered source, every count is the sum over the sources, every synced source is settled if the run was full or made its collection anew, and ends with its documents' records and vectors if the conditions of the refinement held for it at the start |
| `EmbedService.OutOfScopeIsKept` | systems/agent/internal/embed/service.go:204-214 | a registered source that is disabled, or not of the collection or the id that the options name, keeps its records on every outcome and its points on success, except in a missing or unfit collection that a source in scope uses |
| `EmbedService.OutOfScopeStays` | systems/agent/internal/embed/service.go:204-214 | a collection that no source in scope uses is not made anew and loses at most stale points, on every outcome; after success it has lost exactly the stale ones whose records named it, and the fitting collections are those from before and those in use |
| `EmbedService.InScopeHasEnded` | systems/agent/internal/embed/service.go:166-195 | after success every enabled source of the named collection and id has ended |
| `EmbedService.UnknownCollectionIsRefused` | systems/agent/internal/embed/service.go:136-140 | a collection that is neither blank nor one of the four is refused before anything happens |
| `EmbedService.SumStep` | systems/agent/internal/embed/service.go:602-610 | adding a source's result keeps each count the sum over the sources so far |
| `EmbedService.CountsMean` | systems/agent/internal/embed/service.go:266-371 | a run counts every document as scanned, every non-empty one as unchanged or written, and a full run embeds them all |
| `EmbedService.TouchedIs` | systems/agent/internal/embed/service.go:204-214 | the sources a run syncs and the collections it needs are exactly those of the enabled sources in scope |
| `EmbedService.MidwayGoesOn` | systems/agent/internal/embed/service.go:166-195 | after one more source the sync still keeps everything it promises |
| `EmbedService.MidwayStops` | systems/agent/internal/embed/service.go:166-195 | a source that fails leaves the sync with what it promises on failure |
| `EmbedRun.EndedSettles` | systems/agent/internal/embed/service.go:237-382 | a source is settled by a run that was full, made its collection anew, or found no record of it there |
| `EmbedRun.EndedEmbeds` | systems/agent/internal/embed/service.go:237-382 | a source for which the conditions of the refinement hold ends any run with exactly its documents' records in its collection, and with their vectors |
| `EmbedRun.FreshIsFull` | systems/agent/internal/embed/service.go:263-318 | an incremental run that finds no record of its source in the collection is a full one |
| `EmbedRun.RunSpares` | systems/agent/internal/embed/service.go:263-405 | a run, full or incremental, leaves every point alone whose record belongs to another source |
| `EmbedRun.EndedUndisturbed` | systems/agent/internal/embed/service.go:166-195 | a run of another source leaves a source's records in its collection and their points as they were, unless it made that collection anew |
| `EmbedRun.EndedClears` | systems/agent/internal/embed/service.go:249-260 | a run that made a collection anew leaves other sources no record in it |
| `EmbedRun.SettledStays` | systems/agent/internal/embed/service.go:166-195 | a settled source stays settled while it is undisturbed |
| `EmbedRun.PreparedStays` | systems/agent/internal/embed/service.go:166-195 | the conditions of the refinement stay while the source is undisturbed |
| `EmbedRun.OrphansExactly` | systems/agent/internal/embed/service.go:384-410 | for every record whose point exists: a full run leaves the point without a record if and only if the record is the source's and either lay in its own collection, not made anew, with a scanned identity and an id that is no scanned document's, or lay elsewhere with an identity no longer scanned |
| `EmbedRun.OrphanExample` | systems/agent/internal/embed/service.go:384-410 | a source registered again under another collection and without documents leaves its old point behind |
| `EmbedLifetime.Live` | systems/agent/internal/embed/service.go:126-202 | from any fit file, through any sequence of successful and failed syncs, changed settings and restarts, memory and file stay fit at every moment and every sync keeps all that it promises: records, points, shelves, counts and what its sources end with |
| `EmbedLifetime.Operate` | systems/agent/internal/embed/state.go:71-99 | one sync, change of settings or restart keeps memory and file fit; a sync keeps its promise, and a restart has exactly what the file decodes to |
| `EmbedLifetime.NoFileIsFit` | systems/agent/internal/embed/state.go:105-109 | an absent file is a fit one |
| `EmbedResume.StopAndResume` | systems/agent/internal/embed/service.go:320-381 | a rerun after any prefix was checkpointed ends with the records of one uninterrupted run if and only if no late copy exists, and embeds nothing checkpointed |
| `EmbedResume.ResumedShelf` | systems/agent/internal/embed/service.go:320-381 | without late copies the points also end as in one uninterrupted run, wherever the stop left them |
| `EmbedResume.ResumeAfterInterruption` | systems/agent/internal/embed/service.go:320-381 | after a restart the same for whatever an interrupted run left on disk and in the collection, with the exact condition on copies across the cut |
| `EmbedResume.RerunAfterInterruption` | systems/agent/internal/embed/service.go:320-381 | in the same process the same for whatever it left in memory, which may hold a batch more than the file, or be done already |
| `EmbedResume.CopyAcrossExample` | systems/agent/internal/embed/service.go:279-310 | two new files of equal content are enough to break resumption |
| `Scanner.JoinInvertsSplit` | systems/agent/internal/embed/scanner.go:197-201 | joining the split lines gives the text back |
| `Scanner.HeadsAre` | systems/agent/internal/embed/scanner.go:208-219 | the heading positions are exactly the lines with one to six hash marks and a space |
| `Scanner.CountHashes` | systems/agent/internal/embed/scanner.go:213-216 | the number of leading hash marks |
| `Scanner.FindSections` | systems/agent/internal/embed/scanner.go:207-228 | each section runs from its heading to the next one, the last to the end |
| `Scanner.SectionsPartition` | systems/agent/internal/embed/scanner.go:207-246 | the lines above the first heading and the sections are the file's lines, none lost or taken twice |
| `Scanner.SplitMarkdownSections` | systems/agent/internal/embed/scanner.go:191-265 | the loops produce the preamble if there is one and one document per heading, numbered in order; nothing is dropped as blank |
| `Scanner.FileDocumentsAre` | systems/agent/internal/embed/scanner.go:191-265 | a file's documents have trimmed non-empty texts and distinct identities, and there are none only for a blank file |
| `Scanner.IdentityNamesPath` | systems/agent/internal/embed/scanner.go:229-261 | an identity determines the path of its markdown file |
| `Scanner.ScanTree` | systems/agent/internal/embed/scanner.go:81-115 | the walk collects every file's documents |
| `Scanner.TreeDocumentsAre` | systems/agent/internal/embed/scanner.go:63-122 | no two documents of a tree share an identity, and each belongs to the source and one of its files |
| `Scanner.TreeIsAdmitted` | systems/agent/internal/embed/scanner.go:63-122 | the documents of a tree belong to the source and have identities of their markdown files, which is what the service keeps of its records |
| `Scanner.TreeIsHashed` | systems/agent/internal/embed/scanner.go:163-189 | every document of a tree carries the hash of its text |
| `Scanner.ScansAgree` | systems/agent/internal/embed/scanner.go:63-122 | a scan against any state that syncs of such scans have led to meets the conditions on documents of the sync theorems, hashes included |
| `Base64.DenseRoundTrip` | libs/chat-contract/browser/seal/seal.go:142-212 | decoding an encoding gives the bytes back |
| `Base64.DenseStrict` | libs/chat-contract/browser/seal/seal.go:212-215 | a text without line breaks that decodes is the encoding of what it decodes to |
| `Base64.DecodesTo` | libs/chat-contract/browser/seal/seal.go:212-215 | a text decodes to given bytes if and only if it is their encoding once line breaks are dropped |
| `Base64.EncodeLength` | libs/chat-contract/browser/protocol/transport.go:30-31 | the length of an encoding, rounded as the chunk limit assumes |
| `Seal.AssociatedInjective` | libs/chat-contract/browser/seal/seal.go:102-106 | for one stream the associated data determine context, index and final bit |
| `Seal.AssociatedEnds` | libs/chat-contract/browser/seal/seal.go:102-104 | the associated data begin with their label and end with the final bit, spelled out |
| `Seal.NonceNames` | libs/chat-contract/browser/seal/seal.go:96-100 | a nonce has twelve bytes, the first eight zero, and the last four, big-endian, are the index |
| `SealTheorems.NoncesDiffer` | libs/chat-contract/browser/seal/seal.go:96-149 | no two chunks of a sealable stream are sealed under one nonce |
| `FrameContext.ContextDetermines` | libs/chat-contract/browser/seal/seal.go:250-261 | two frames share a context if and only if they agree on version, time and number, and on identifier and type joined |
| `FrameContext.UnmistakableExactly` | libs/chat-contract/browser/seal/seal.go:250-261 | a context names its frame if and only if neither identifier nor type holds a line break |
| `FrameContext.OpensForItsFrame` | libs/chat-contract/browser/seal/seal.go:166-261 | an envelope opens under another frame's fields if and only if the contexts agree; without line breaks only under its own |
| `Seal.SegmentSize` | libs/chat-contract/browser/seal/seal.go:128-148 | only the last chunk is short, and the chunks cover the plaintext |
| `Seal.SealStream` | libs/chat-contract/browser/seal/seal.go:108-149 | succeeds exactly within the size limits and then yields the sealed chunks of header and data |
| `Seal.Wrap` | libs/chat-contract/browser/seal/seal.go:152-162 | the envelope of type and data, exactly within the size limits |
| `Seal.OpenStream` | libs/chat-contract/browser/seal/seal.go:183-247 | the loop opens chunks in order, as the recursive reading does |
| `Seal.Open` | libs/chat-contract/browser/seal/seal.go:166-180 | version and chunk count are checked before reading |
| `SealTheorems.OpenInvertsWrap` | libs/chat-contract/browser/seal/seal.go:108-247 | opening a wrapped value gives back type and data, for every type of 1 to 1024 bytes and data within the limit |
| `SealTheorems.OpenRun` | libs/chat-contract/browser/seal/seal.go:183-247 | reading on from a right state succeeds exactly when all remaining chunks are good and none is missing or to spare |
| `SealTheorems.OpensExactly` | libs/chat-contract/browser/seal/seal.go:108-247 | under an ideal cipher with one sealed envelope, opening succeeds exactly on that envelope under its context, line breaks aside, and gives its content |
| `SealTheorems.OpensWhen` | libs/chat-contract/browser/seal/seal.go:166-247 | for any cipher, exactly when an envelope opens to a type and data: version, number of chunks, a stream that names a key, chunks in line, and plaintexts that are together the header of that type and those data, within the limits |
| `SealTheorems.OnlyTheEnvelopeOpens` | libs/chat-contract/browser/seal/seal.go:183-247 | without line breaks only the envelope itself opens: any chunk dropped, added, moved or altered is refused |
| `SealTheorems.LineFeedIsAccepted` | libs/chat-contract/browser/seal/seal.go:212-215 | a line feed after the last chunk's data changes the envelope and is always accepted |
| `FrameSize.FrameFits` | libs/chat-contract/browser/protocol/transport.go:28-37 | every sealable payload stays within the chunk limit and its frame, with a header under 4 KiB, within the server frame limit |
| `Channel.Receiver.Unseal` | libs/chat-contract/browser/channel.go:82-100 | a frame is let through exactly by the outcome rule, and its stream is remembered exactly then |
| `Channel.Receiver.UnsealAll` | libs/chat-contract/browser/channel.go:82-100 | over all frames of a connection, what each yields |
| `Channel.JsonIsNamed` | libs/chat-contract/browser/seal/seal.go:28-29 | the accepted content type is spelled application/json |
| `Channel.NoStreamTwice` | libs/chat-contract/browser/channel.go:82-100 | a frame yields data exactly when the keys open it as JSON to them, no earlier frame of its stream was let through, and fewer streams than the limit were |
| `Channel.OneEnvelopeOneDelivery` | libs/chat-contract/browser/channel.go:82-100 | whatever arrives, one sealed envelope is delivered at most once and nothing else is |
| `Queue.StepKeepsBalance` | libs/chat-contract/browser/channel.go:63-78 | every atomic step keeps counter and limits |
| `Queue.RunKeepsAccounts` | libs/chat-contract/browser/channel.go:63-78 | under every interleaving the counter is the queued bytes plus those not yet settled, the queue stays within its limits, and frames leave in order, none lost or doubled |
| `Queue.QuietCounter` | libs/chat-contract/browser/channel.go:63-78 | the counter is the bytes in the queue if and only if callers and writer hold none, as whenever no call is mid-way |
| `Queue.RefusedExactly` | libs/chat-contract/browser/channel.go:63-78 | at every point of every run a frame is refused for size if and only if it does not fit beside what is queued and what other callers and the writer hold; an empty queue with none held takes any server frame |
| `Queue.PushedExactly` | libs/chat-contract/browser/channel.go:70-78 | at every point of every run a reserved frame is accepted and queued last if and only if fewer than 2048 frames are queued |
| `Queue.CallAlone` | libs/chat-contract/browser/channel.go:63-78 | a call that nothing comes between is accepted if and only if the connection is live and the frame fits beside the queue by bytes and number, and otherwise leaves everything as it was |
| `Queue.CancelledExactly` | libs/chat-contract/browser/channel.go:212-226 | a connection is cancelled exactly after a cancellation or a failed send, and the writer has stopped exactly after a failed send or its own quitting |
| `Queue.SentExactly` | libs/chat-contract/browser/channel.go:212-226 | exactly a successful send adds to the frames sent, and exactly on a live connection a call goes on |
| `Queue.RefusedBesideBackOut` | libs/chat-contract/browser/channel.go:63-78 | for any frames of which the second does not fit beside the first and the third does: a run in which the third is refused while the second is being taken back |
| `Replay.PlanReplay` | libs/chat-contract/browser/replay.go:16-91 | the pages, the boundary probe and the budget give the plan that the missed turns call for |
| `Replay.ReplayedExactly` | libs/chat-contract/browser/replay.go:16-91 | exactly when a replay reaches Ready, and with which frames, in terms of the last turns of the transcript: at most 500 are missed, their frames fit, and the reads that are needed succeed |
| `Replay.ReadyIs` | libs/chat-contract/browser/replay.go:48-51 | what Ready announces is at least the cursor and the number of every turn, and is the cursor or some turn's number |
| `Replay.FramesStand` | libs/chat-contract/browser/replay.go:52-91 | every message of every missed turn stands at its place: turn by turn, each in its order |
| `Replay.CollectFrames` | libs/chat-contract/browser/replay.go:52-91 | the loops collect the missed turns' messages oldest first, exactly when they fit |
| `Replay.AddTurn` | libs/chat-contract/browser/replay.go:57-90 | one turn's messages are added, or the whole replay does not fit |
| `Reconnect.ReplayIsExact` | libs/chat-contract/browser/replay.go:16-104 | a replay that reaches Ready carries exactly the messages above the cursor, and more than 500 missed turns give a resync, or no answer when a page could not be had |
| `Reconnect.FramesAscend` | libs/chat-contract/browser/replay.go:52-91 | the messages of a replay are in ascending turn order |
| `Reconnect.NothingIsSkipped` | libs/chat-contract/browser/replay.go:92-104 | at every point of every run of appends, drops and reconnects the browser has every message up to its last Ready cursor |
| `Reconnect.CursorNeverFalls` | libs/chat-contract/browser/replay.go:92-104 | in no run does the browser's cursor fall |
| `Reconnect.ReplayArrives` | libs/chat-contract/browser/replay.go:48-104 | once a replay has been delivered on its connection the browser's cursor is, from then on, at least the number of every turn the transcript held when it asked |
| `Reconnect.CatchesUp` | libs/chat-contract/browser/replay.go:16-104 | at every point of every run a connected browser whose plan is a replay can catch up: asking from its cursor and taking what comes it has every message, and a cursor no lower than any turn |
| `Reconnect.TranscriptIs` | libs/chat-contract/browser/replay.go:16-27 | the transcript that replays are made from is what was appended, whatever else happened |
| `History.HistoryPayload` | libs/chat-contract/browser/history.go:12-44 | a prefix of the requested turns, refused exactly when the first turn does not fit, with an exact has_more, and within its budget unless even an empty page is not |
| `History.PageTextHolds` | libs/chat-contract/browser/history.go:11-45 | the text of a page holds the texts of its turns in order with one comma between two, then the head and whether there is more |
| `History.PagesFit` | libs/chat-contract/browser/channel.go:291 | under the budget that callers pass every page that is sent fits |
| `History.PagingIsComplete` | libs/chat-contract/browser/history.go:12-44 | paging to the end terminates and yields the whole transcript with no gap or repeat if and only if every turn fits alone |
| `Session.BoundedAppend` | libs/chat-contract/browser/session.go:201-207 | the first 4 MiB of the two together |
| `Session.Shared.Receive` | libs/chat-contract/browser/session.go:152-199 | one event's effect on the whole state, and when it is broadcast |
| `Session.Shared.Follow` | libs/chat-contract/browser/session.go:124-134 | a stream read to its end applies its events in order |
| `Session.Shared.Watch` | libs/chat-contract/browser/session.go:114-150 | over any attempts, the state is that of all events until a lost session, which resets it |
| `Session.Shared.Draft` | libs/chat-contract/browser/session.go:209-218 | a snapshot exactly while running, within the draft limit |
| `Session.Shared.ValidAck` | libs/chat-contract/browser/session.go:236-240 | an acknowledgement is valid if and only if it is for nothing or for no more than some event received since the session began |
| `Session.AckStaysValid` | libs/chat-contract/browser/session.go:236-240 | a valid acknowledgement stays valid through any delivery, until the session is lost |
| `Session.OnlyRaisingCounts` | libs/chat-contract/browser/session.go:152-199 | for any delivery, index, running flag and drafts are those of the events that raise the index |
| `Session.ApplyReaches` | libs/chat-contract/browser/session.go:158-167 | any delivery takes the cursor to the highest index it reaches |
| `Session.StaleChangesExactly` | libs/chat-contract/browser/session.go:158-171 | a stale event changes something if and only if it is a notice with another time or naming another turn |
| `Session.TurnIs` | libs/chat-contract/browser/session.go:152-171 | the turn after any delivery is that of the raising events unless a stale notice has since named another, and agrees with it exactly then |
| `Session.TimeIs` | libs/chat-contract/browser/session.go:152-171 | the time is that of the last event that raised the cursor or was a notice |
| `Session.WindowCovers` | libs/chat-contract/browser/session.go:114-135 | a window of the log that starts at or before the cursor skips nothing |
| `Session.ReadOnce` | libs/chat-contract/browser/session.go:114-199 | over any number of cut and resumed streams the session is as if the log had been read once |
| `Session.DraftsAre` | libs/chat-contract/browser/session.go:172-207 | after any delivery each draft is the first 4 MiB of its base and all deltas raised since, and the flag is what the last telling event says |
| `LoopSafety.Detector.constructor` | systems/agent/internal/agent/loop_safety.go:36-45 | a new detector has seen nothing |
| `LoopSafety.Detector.Record` | systems/agent/internal/agent/loop_safety.go:47-88 | the counts are those over the last thirty of all calls, and the maxima those of all prefixes |
| `LoopSafety.CountMatches` | systems/agent/internal/agent/loop_safety.go:59-64 | the entries of the signature |
| `LoopSafety.CountTrailing` | systems/agent/internal/agent/loop_safety.go:66-73 | the entries at the end equal to the last |
| `LoopSafety.NoProgressWithinRepeats` | systems/agent/internal/agent/loop_safety.go:59-88 | the no-progress count never exceeds the repeat count, so the repeat count alone decides |
| `LoopSafety.FirstCriticalIsAtThreshold` | systems/agent/internal/agent/loop_safety.go:47-88 | the first critical call brings its signature to exactly twenty of the last thirty |
| `LoopSafety.MaximaAre` | systems/agent/internal/agent/loop_safety.go:75-96 | the maxima bound every count and are attained |
| `Trace.CompleteMeans` | systems/agent/internal/agent/engine.go:185-299 | in a complete conversation every response is followed by answers to its calls, in order, and then by a response |
| `Trace.LawfulMeans` | systems/agent/internal/agent/turn_budget.go:24-50 | a lawful trace never overdraws its budget, marks exactly the last turn, and starts no tool on it |
| `Trace.SharedBudget` | systems/agent/internal/agent/turn_budget.go:10-50 | traces that each start where the ones before left the budget together start at most limit turns, and no tool on the last |
| `Trace.PairedMeans` | systems/agent/internal/agent/engine.go:239-260 | every tool start is directly followed by the finish of the same call, and every finish preceded by its start |
| `Trace.EntryTells` | systems/agent/internal/agent/loop_safety.go:47-53 | two calls look alike exactly when they name one tool with the same normalised arguments, and made the same progress exactly when their trimmed outputs agree |
| `Trace.ReportTells` | systems/agent/internal/agent/engine.go:239-262 | an executed call with an id is reported under it, with its output and whether it failed |
| `Engine.TurnBudget.constructor` | systems/agent/internal/agent/turn_budget.go:16-22 | the limit, or the default of 96 |
| `Engine.TurnBudget.Remaining` | systems/agent/internal/agent/turn_budget.go:24-27 | zero exactly when used up |
| `Engine.TurnBudget.Next` | systems/agent/internal/agent/turn_budget.go:29-50 | one turn is used and marked final exactly when it is the last |
| `Engine.CompleteWithObserver` | systems/agent/internal/agent/engine.go:384-538 | models are tried in the plan's order, the first that responds answers, and the attempt limit is reported exactly when reached; the steps are exactly those of the attempts made, and it is interrupted if and only if the run is cancelled at the last point it came to |
| `Engine.RunTool` | systems/agent/internal/agent/engine.go:356-377 | a call has its tool's outcome exactly with a registry, an id and the policy's consent, uncancelled, and otherwise fails |
| `Engine.RunCalls` | systems/agent/internal/agent/engine.go:231-298 | calls are executed and answered in order until one is critical or the run is cancelled, which it is exactly if it is cancelled at the last point it came to |
| `Engine.RefuseCalls` | systems/agent/internal/agent/engine.go:188-197 | calls of the final turn are all answered as not executed |
| `Engine.TakeResponse` | systems/agent/internal/agent/engine.go:185-298 | which of its four fates a response meets, exactly: refused on the final turn, thrown away, taken as the answer, or its calls executed |
| `Engine.AttemptTold` | systems/agent/internal/agent/engine.go:440-531 | which points an attempt comes past, and which response it brings |
| `Engine.TakeTurn` | systems/agent/internal/agent/engine.go:163-298 | one turn asks a model and takes its response, or ends the run with what it is held to |
| `Engine.CancelledExactly` | systems/agent/internal/agent/engine.go:441-483 | a run ends as cancelled if and only if it came to a point at which it was cancelled, which is then its last; a run that is never cancelled never ends so |
| `Engine.Run` | systems/agent/internal/agent/engine.go:120-328 | by outcome: which answers the messages hold, that every executed call is reported, that a loop stop is the detector's verdict, that the responses which came are in the messages, in order, but for silent ones thrown away, that it is cancelled exactly at a point it came to, what a model error is owed to, when an answer counts as incomplete, and the turn, failure and retry limits |
| `Engine.LoopStopsAtThreshold` | systems/agent/internal/agent/engine.go:271-297 | a loop stop comes at the first call whose signature reaches twenty of the last thirty |
| `Engine.RunSession` | systems/agent/internal/agent/turn_budget.go:10-50 | any runs one after the other on one budget produce such traces: together at most limit turns, and no tool on the last |
| `ReplyLoop.ToldIs` | systems/agent/internal/agent/run_events.go:71-93 | the emitted events of a run keep the pairing and carry one number |
| `ReplyLoop.ReplyTo` | systems/agent/internal/agent/loop.go:138-268 | one terminal event, last; tool events paired; the reserved number on everything; finished only right after a successful append at it |
| `Tokens.RequestEstimatedTokens` | systems/agent/internal/agent/request_tokens.go:33-80 | the nested loops compute the estimate, or fail exactly when a part or the tools cannot be encoded |
| `Tokens.EstimateParts` | systems/agent/internal/agent/request_tokens.go:51-72 | the tokens of one message's parts |
| `Tokens.ListTokensAppend` | systems/agent/internal/agent/request_tokens.go:46-73 | counts add up over any split of the messages |
| `Tokens.EstimateIs` | systems/agent/internal/agent/request_tokens.go:33-80 | the estimate in numbers: 128, 16 for a message, 64 more for a temporal one, 8192 for a media part and the count of every text, a quarter on top and rounded up; it fails exactly when some text cannot be had |
| `Tokens.EscapeIs` | systems/agent/internal/agent/prompt_sections.go:50-61 | an escaped attribute has no quote and no bracket, and reads back as its value |
| `Tokens.ReserveIs` | systems/agent/internal/history/context_metadata.go:70-76 | the output reserve is the least of 8192, a quarter of the window and the model's output limit |
| `Tokens.NoteIs` | systems/agent/internal/history/context_metadata.go:39-67 | the note is the element with these eleven attributes, each with its value, around the guidance |
| `Tokens.WindowIs` | systems/agent/internal/history/context_metadata.go:12-37 | what is returned, and exactly when the estimate covers the returned list |
| `Tokens.SlackIsExact` | systems/agent/internal/history/context_metadata.go:23-32 | the allowance covers every request if and only if the note outgrows the reserved one by at most 179 |
| `Tokens.EstimateCoversRequest` | systems/agent/internal/history/context_metadata.go:12-37 | the estimate is never below the count of the returned list, for every counter within that slack |
| `Tokens.DigitsDiffer` | systems/agent/internal/history/context_metadata.go:39-67 | the byte counts of two notes differ only in the digits of two numbers |
| `Tokens.BytesAreCovered` | systems/agent/internal/history/context_metadata.go:12-37 | byte counting is always within the slack |
| `Tokens.SlackIsNeeded` | systems/agent/internal/history/context_metadata.go:12-37 | a counter that exceeds the slack by one makes the estimate fall short |
| `LoopSafety.Detector.MaxRepeatCount` | systems/agent/internal/agent/loop_safety.go:90-92 | the highest repeat count of the run |
| `LoopSafety.Detector.MaxNoProgressCount` | systems/agent/internal/agent/loop_safety.go:94-96 | the highest no-progress count of the run |

## Left out

- Codecs: JSON, YAML, base64 of keys, protobuf and time encodings are taken as lossless; only lengths are modelled where a bound depends on them, and the JSON escaping of a frame's header is part of its assumed size.
- Cryptography: key agreement, AES-GCM and SHA-256 are an abstract AEAD, an abstract hash and, for point ids, an injective naming.
- Machine integers: counters, sequence numbers and sizes are unbounded; the `uint32` chunk index, `int64` event index and an estimate beyond the largest integer do not wrap around.
- Seal.SealStream: the reader and the emit callback do not fail; streaming out while reading is modelled as the list of chunks.
- Seal.OpenStream: the writer does not fail; provisional bytes are the accumulated data.
- EmbedState.StateStore.Load: a line longer than the scanner's limit is not modelled, and lines that are not JSON are lines of no known kind.
- EmbedState.StateStore.RecordsForSource: the sort by identity is left out; the ids are a set, which is all its callers use.
- EmbedState.StateStore.AllSourceIDs: the sorted order is left out; the ids are a set.
- EmbedState.StateStore.EncodeLines: the order of lines is left open; the source sorts them.
- EmbedState.StateStore: locks, contexts and per-record write errors are left out; the temporary file and its rename are one replacement.
- EmbedService.Service.Sync: progress reports are left out, the three checks for missing collaborators too, and the source registry is a parameter.
- EmbedService.Service.EmbedDocuments: the title sent with each text is left out, because a vector is taken as a function of the text.
- Scanner.ScanTree: walking directories, include patterns, front matter, chunk metadata and the final sort by identity are left out; a tree is a list of files with distinct paths.
- Search, status, source registration, the vector and embedding clients: single calls over libraries.
- Queue: byte counts only; the frames' encoding and the keepalive are left out.
- Replay.PlanReplay: the store is a fixed transcript for the calls of one replay, newest first with exact has_more.
- Reconnect.NothingIsSkipped: turns are appended in increasing order of number, as the store is not part of this model.
- Session: absent events, sending, aborting and opening a session are left out; a lost session is one step, and broadcast frames are reduced to whether one is sent.
- Engine.Run: the text of prompts, steering messages and summaries, attachments, system text, and canonicalisation of the final messages are left out; messages are those before canonicalisation, and a response is its calls, whether it speaks and its finish reason.
- Engine.CompleteWithObserver: planning over the normalised model refs, context fitting and providers are oracles, and log lines are left out.
- Engine.TurnBudget.Next: the note's text is left out.
- ReplyLoop.ReplyTo: temporal metadata of the user message is left out, the observer is present, and the mutex makes a reply one sequence of effects.
- Tokens.WithContextWindow: the sharing of slice storage between the lists is left out.
- Device registry, bus, worker supervision, configuration, proxy policy, cron, command line: short single-lock state or single-pass checks.
