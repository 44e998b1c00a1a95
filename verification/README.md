# Session Search: a verified model

Session Search captures coding-agent session files, turns them into immutable content-addressed revisions, uploads them
to one catalog that many clients write to, and answers searches over them. This project models the parts of it where
correctness spans several functions or several processes, and proves what those parts promise together.

`dafny verify dfyconfig.toml` checks everything.

| file | part of the program |
|---|---|
| `Common.dfy`, `Revisions.dfy` | results, digests, canonical session revisions |
| `Scan.dfy`, `Lines.dfy` | block-wise byte scans, and text-mode lines against LF counts |
| `Codex.dfy`, `Grouping.dfy` | the two-pass Codex parser: ownership scan, then turn grouping |
| `Account.dfy` | what the parser makes of a file, told from the file's records alone |
| `Normalize.dfy`, `Incremental.dfy` | normalization and incremental parsing |
| `BareCR.dfy`, `Capture.dfy` | the exact condition for incremental parsing, and captures in sequence |
| `TransferLock.dfy`, `Transfers.dfy`, `Uploads.dfy` | resumable raw uploads: the lock protocol, the service, the client loops |
| `Catalog.dfy`, `Server.dfy`, `Queue.dfy`, `Writer.dfy` | ingest, compare-and-write, the client's queue, and the two ends together |
| `Chunks.dfy` | shared-chunk staging and its collector |
| `VectorCache.dfy`, `Candidates.dfy`, `Ranking.dfy`, `Output.dfy` | exact retrieval, fusion and the output budget |
| `Generations.dfy` | replica generations |
| `Legacy.dfy` | the merge of the original archive |

Conventions. SHA-256 is an injective wrapper around what it digests, so a digest names its content. What a line of JSON
decodes to, redaction, text classification and similar foreign computations are the fields of `Codex.World`, arbitrary
functions. Objects the source updates in place are classes; loops are loops; locks, crashes and rival processes are
explicit steps, or parameters that say after how many durable effects a process dies. Scores are reals.

Two promises of the code are false without a condition, and the conditions are part of the results:

- Incremental parsing is a full parse only on files without a bare CR. The parser reads lines in text mode, where a
  bare CR ends a line, while `scan_bytes` and `line_offset` count LF only. `Incremental.IncrementIsFull` says what holds
  on every file; `BareCR.ExactCondition` that a parse and its own checkpoint agree with a full parse, whatever the lines
  decode to, if and only if every CR is followed by LF; `BareCR.BareCRFails` that every other file either raises without
  any checkpoint, because its last turn lies past its newlines, or loses its last turn when parsed again
  (`BareCR.BareCRRaises` and `BareCR.BareCRLosesATurn` are small inputs); and `Capture.GrowthCondition` the same
  of a source that is captured while it grows.
- Re-ingesting a known revision leaves the head alone. A client that captures revisions a, b, a, c in that order is
  refused at c (`Writer.ReturnBreaks`). `Writer.DrainsIffClean` gives the exact condition under which everything gets
  through: at each captured revision, the newest revision the server had not seen before is that one or the one
  captured just before it.

## Model

| member | source | states |
|---|---|---|
| Scan.ScanBytes | src/session_search/capture/incremental.py:26-45 | For any block size, the size, LF count, digest of the whole file and digest of exactly the first prefix_size bytes (none if the file is shorter); rejects a file not ending in LF |
| Scan.LineOffset | src/session_search/capture/incremental.py:48-69 | For any block size, the unique byte just after the (target - start_line)-th LF from the start offset; an error if the target precedes the start or lies outside the file |
| Scan.LineStartUnique | src/session_search/capture/incremental.py:48-69 | At most one byte position starts a given line, so the previous row fixes the result |
| Scan.CopyCompleteRecords | src/session_search/capture/local.py:22-50 | For any block size, the copy is the longest prefix of whole records, and the partial flag says whether anything was left |
| Scan.LongestCompleteIsLongest | src/session_search/capture/local.py:22-50 | No longer prefix of the source consists of whole records |
| Lines.TextLinesAreLFLines | src/session_search/capture/parsers/codex.py:845-864 | Text-mode line numbers agree with LF counts if and only if every CR is followed by LF |
| Lines.TextSplitConcat | src/session_search/capture/parsers/codex.py:845-864 | Cutting a file just after a newline cuts its text-mode lines there |
| Lines.LineStartSplits | src/session_search/capture/incremental.py:48-69 | A line start found by LF counting, with no bare CR before it, splits the parser's lines into the first k and the rest, whatever follows |
| Codex.IterRecords | src/session_search/capture/parsers/codex.py:845-864 | Streaming from an offset yields the numbered records of the lines from there on, skipping those up to after_line undecoded; the first bad line is an error |
| Codex.ScanMetadata | src/session_search/capture/parsers/codex.py:496-518 | The first pass as a fold over the records: session metadata, first trigger line, task starts, and the compact records kept for replay |
| Codex.OwnershipReplay | src/session_search/capture/parsers/codex.py:496-518 | Scanning the compact metadata of a prefix and then the appended records gives everything a scan of the whole file gives, including the next compact metadata |
| Codex.RecordsConcat | src/session_search/capture/parsers/codex.py:845-864 | Records of concatenated lines are the records of both parts with continued line numbers |
| Codex.Uuid7TimeDecodes | src/session_search/capture/parsers/codex.py:69-77 | The time of a version-7 UUID laid out as in section 5.7 of RFC 9562 is decoded exactly |
| Codex.Uuid7Only | src/session_search/capture/parsers/codex.py:69-77 | No other 128-bit value decodes to a time |
| Codex.ParseSession | src/session_search/capture/parsers/codex.py:485-760 | The decision between foreign and owned files, the resume decision by equal ownership, and the turns grouped from the resume point or the boundary |
| Account.DecideTold | src/session_search/capture/parsers/codex.py:523-596 | For any records: a file with only others' metadata is an orphan of its first one; otherwise the first own metadata, else the first, speaks for the session and decides whether it is a subagent and, in the order of the candidates, its parent; its own records start after line 0, or for a subagent with replayed history after the first task no older than the child, else after the first trigger if it comes after all others' metadata, else nowhere |
| Account.GroupTold | src/session_search/capture/parsers/codex.py:605-735 | The turns are opened by exactly the records that are a user's classified words, or for a subagent an agent's message with no such record before it; each carries its opening record's time, origin and identity, and after its heading exactly the evidence of the records up to the next opening, in order |
| Account.FullParseTold | src/session_search/capture/parsers/codex.py:485-760 | A full parse returns exactly the session so told of the file's records, names included, or raises because a line is no record or one of the session's own records is malformed |
| GroupingFacts.GroupFromOpener | src/session_search/capture/parsers/codex.py:605-735 | Grouping from a record that opens a turn does not depend on anything before it, but for the completed turns in front |
| GroupingFacts.LastOpener | src/session_search/capture/parsers/codex.py:605-735 | The turn left open at the end of a file began at a record that opens a turn, on that turn's start line |
| GroupingFacts.ResumedGroups | src/session_search/capture/parsers/codex.py:599-735 | Grouping the open turn's records plus appended ones, after the completed turns, is grouping the whole file |
| Normalize.NormalizeSession | src/session_search/capture/local.py:53-84 | The nested loops return a session whose events state, in order, exactly the blocks with text: redacted text, cut to 12000 characters for tool kinds, role by kind, identity from the turn's own id or first line and the block's number, time and origin of the block or else its turn; the names redacted; or an error for one of the stated reasons |
| Normalize.SessionStates | src/session_search/capture/local.py:53-84 | Events of any turns state exactly their blocks with text, in order, and are refused only when such a block has no valid time |
| Normalize.DecimalReads | src/session_search/capture/local.py:56-58 | The line number in an identity is its decimal numeral, without leading zeros |
| Normalize.SessionEventsConcat | src/session_search/capture/local.py:53-84 | The events of two runs of turns put together are those of the first followed by those of the second, failing when either fails |
| Incremental.ReplayedPass | src/session_search/capture/incremental.py:85-90 | For a true checkpoint and any extension of its file, bare CRs included, the first pass over stored metadata and the tail decodes exactly when a full pass does, and sees the same metadata |
| Incremental.ResumedTurns | src/session_search/capture/incremental.py:88-95 | For a true checkpoint and any extension of its file, the turns parsed from the stored offset are the file's turns after the checkpoint's completed ones |
| Incremental.ResumedSession | src/session_search/capture/incremental.py:90-95 | The stored events in front of the tail's events are the full parse's session, and duplicate identities across the seam are rejected exactly when the full parse rejects them |
| Incremental.TurnOffset | src/session_search/capture/incremental.py:101-108 | For every file, whichever of the three branches finds it, the next offset is the start of the last turn's first line by LF counting; it raises exactly when the file has too few newlines |
| Incremental.NextCheckpoint | src/session_search/capture/incremental.py:97-111 | For every file, the next checkpoint, none, or the exception when the last turn lies outside the file by LF counting; its positions are those of the whole file |
| Incremental.NextIsTrue | src/session_search/capture/incremental.py:97-111 | After a parse that agrees with the full one, the next checkpoint accounts for the whole file, and it is refused exactly when the last turn overshoots the newlines |
| Incremental.ParseIncremental | src/session_search/capture/incremental.py:72-121 | Its result for every file and every checkpoint a parse can leave; from a true checkpoint or none, the session told of the file's records, refused for a reason told of them or for a last turn past the newlines; without a bare CR in the file, the session or rejection of a full two-pass parse and a checkpoint that is true again |
| Incremental.IncrementIsFull | src/session_search/capture/incremental.py:72-121 | For every file and every true checkpoint, same name and prefix or not, the session is the full parse's; it raises exactly when the full parse does or the last turn lies past the newlines; resumption happens exactly when prefix, name and ownership match; the next checkpoint accounts for the file and is true exactly when the file has no bare CR |
| Incremental.FullSessionTold | src/session_search/capture/local.py:138-149 | The reference of all results on incremental parsing: a full parse gives the session told of the file's records, under the caller's directory if it records none of its own, or is refused for a reason told of them |
| Incremental.EveryTurnHasBlocks | src/session_search/capture/local.py:59-62 | No parse, full or resumed, yields a turn without blocks, so the fallback on a turn's texts is never taken |
| BareCR.ExactCondition | src/session_search/capture/incremental.py:72-121 | Parsing a file and parsing it again from its own checkpoint agree with a full parse, whatever its lines decode to, if and only if the file has no bare CR |
| BareCR.BareCRFails | src/session_search/capture/incremental.py:48-69 | For every file with a bare CR there are records with which a full parse succeeds and parse_incremental, without a checkpoint, raises exactly when the last turn is outside the file by LF counting, and otherwise drops exactly the last turn's event when the same file is parsed again |
| BareCR.BareCRRaises | src/session_search/capture/incremental.py:57-59 | A six-byte file that a full parse accepts and parse_incremental rejects without a checkpoint |
| BareCR.BareCRLosesATurn | src/session_search/capture/incremental.py:41-41 | A file and an extension of it on which resuming from the true offset by LF counting loses a turn and misnumbers another |
| Capture.CaptureFile | src/session_search/capture/local.py:127-149 | For every source file, staging directory and cache content, what one capture returns; on a staged copy without a bare CR and a trusted cache, what a full parse of the staged copy returns, and the cache stays trusted |
| Capture.CaptureSeries | src/session_search/capture/checkpoints.py:77-164 | What any sequence of captures returns; when the staged copies have no bare CR, along appends, rewrites, renames and ownership changes, with checkpoints forgotten or not saved at will, every capture gives the result of a full parse |
| Capture.GrowthCondition | src/session_search/capture/checkpoints.py:77-164 | A source may grow by any records without a bare CR, decoded in any way, with both captures returning what a full parse returns, if and only if the source has no bare CR |
| Capture.GrowthFails | src/session_search/capture/checkpoints.py:34-74 | For every source with a bare CR, records to append such that the first capture's checkpoint passes the cache's checks and the second capture loses a turn |
| Capture.CleanLoads | src/session_search/capture/checkpoints.py:34-74 | The checkpoint of a file without a bare CR passes the checks of the cache: what is saved is loaded again |
| Capture.StagingLeavesNoTrace | src/session_search/capture/local.py:147-148 | A session that did not run in the staging directory is captured as if parsed where its source lies |
| TransferLock.MutualExclusion | src/session_search/storage/transfers.py:17-50 | Over every interleaving of openers, waiters, creators, retirers, sweeps and crashes, at most one process is in the critical section, and the path names the inode it holds |
| TransferLock.UnlinkRemovesHeldInode | src/session_search/storage/transfers.py:41-50 | Over every run, a step that removes the lock file removes the inode the acting process has locked |
| TransferLock.PartialChangesInside | src/session_search/storage/transfer_maintenance.py:84-164 | Over every run, the partial appears or disappears only in the critical section |
| TransferLock.SweepInv | src/session_search/storage/transfer_maintenance.py:84-164 | Each step of expiry keeps the protocol's invariant |
| TransferLock.NoLockNoPartial | src/session_search/storage/transfers.py:125-130 | Over every run, where there is no lock file there is no partial, so the offset 0 that status answers without looking is the true one |
| TransferLock.Enters | src/session_search/storage/transfers.py:17-39 | On a quiet store a process reaches the body under the inode the path names, which a writer creates if it is missing |
| TransferLock.Leaves | src/session_search/storage/transfers.py:40-50 | Left alone, a body ends with the lock file kept beside a partial and removed without one |
| TransferLock.LockGranted | src/session_search/storage/transfers.py:31-31 | A lock is granted exactly while nobody holds the inode |
| TransferLock.Begins | src/session_search/storage/transfer_maintenance.py:43-49 | Any process may ask for a status; one may write exactly while nothing is swept, and sweep exactly while nobody writes or sweeps |
| TransferLock.StatusWithoutLock | src/session_search/storage/transfers.py:21-27 | A status that finds no lock file does nothing but answer |
| TransferLock.BodyWrites | src/session_search/storage/transfers.py:139-196 | A writer's body may create or remove the partial |
| TransferLock.SweepSpares | src/session_search/storage/transfer_maintenance.py:118-123 | A sweep may let go of a partial or a lock file that changed since it was listed, or when it only plans |
| TransferLock.SweepsStale | src/session_search/storage/transfer_maintenance.py:104-134 | A sweep of a quiet store removes a stale partial with its lock file |
| TransferLock.SweepsOrphan | src/session_search/storage/transfer_maintenance.py:135-164 | A sweep of a quiet store removes a lock file without a partial |
| Transfers.RawTransfers.GetStatus | src/session_search/storage/transfers.py:97-130 | Pending with the partial's size, complete with the file's size for an intact published object, an error for a corrupt one; retires this producer's duplicate partial unless it is busy |
| Transfers.RawTransfers.AppendChunk | src/session_search/storage/transfers.py:132-196 | The durable files and the reply after one request, told of the files before it, for every refusal branch, torn write, rival publication and death between effects |
| Transfers.RawTransfers.ExpireSlot | src/session_search/storage/transfer_maintenance.py:84-134 | Drops at most the one partial, unless it is spared or its digest is published; published evidence and other partials stay as they are |
| Transfers.ApplySound | src/session_search/storage/transfers.py:117-196 | Any request or expiry keeps published objects true to their digests and honest partials prefixes of their files |
| Transfers.RunSound | src/session_search/storage/transfers.py:117-196 | Over every run by any producers with deaths, torn appends, rivals and expiry, that stays so and nothing published is lost |
| Transfers.SharedNeverWritten | src/session_search/storage/transfers.py:145-192 | Over every run, once a digest is published a partial of it is never written or created again, so nothing is ever written through the hard link that publication makes |
| Transfers.CompleteMeansPublished | src/session_search/storage/transfers.py:117-196 | A complete answer anywhere in a run means the file's exact bytes are published from then on |
| Uploads.UploadObject | src/session_search/interfaces/client.py:270-300 | Whatever requests or replies are lost and whatever other clients and expiry do in between, the server stays sound, nothing published is lost and success means published; left alone, progress never falls; uninterrupted, exactly the missing bytes are sent, in pieces of at most MAX_CHUNK |
| Uploads.UploadRawStore | src/session_search/interfaces/client.py:209-249 | The same for the loop over stored blocks, for any block split |
| Catalog.Catalog.IndexEvents | src/session_search/storage/catalog.py:223-240 | The event loop interns each event once, returns its rows in order, and adds to the full-text table exactly the rows the previous head did not have |
| Catalog.InsertCoherent | src/session_search/storage/catalog.py:213-254 | Inserting a revision keeps all tables in agreement: the active events of every session are its head's event map, and the full-text table is the union of all active rows with none twice |
| Catalog.TextStaysExact | src/session_search/storage/catalog.py:219-242 | After the removals the full-text table is exact again, for every row of every session |
| Catalog.Catalog.Ingest | src/session_search/storage/catalog.py:188-283 | The whole transaction: errors and replays change nothing; a fresh request records producer, receipt and raw source and raises the epoch by one; a known revision leaves head, events and text alone; a new one becomes head; nothing stored changes |
| Catalog.RecordFollows | src/session_search/storage/catalog.py:200-283 | Receipts and known revisions are kept, and the epoch advances exactly once per receipt |
| Catalog.Catalog.ReadEvents | src/session_search/storage/catalog.py:506-519 | The rows in order, through batches of 500; an error if and only if a row is missing or repeated |
| Catalog.Catalog.Export | src/session_search/storage/catalog.py:570-580 | A stored revision exports to exactly the session ingested under it; anything else is unavailable |
| Catalog.Catalog.RoundTrip | src/session_search/storage/catalog.py:570-580 | After any later requests, an acknowledged revision still exports to the session that was ingested |
| Catalog.Catalog.IngestAll | src/session_search/storage/catalog.py:188-283 | Over any requests the tables stay in agreement, stored revisions and receipts never change, and epoch minus receipts is constant |
| Catalog.Catalog.Context | src/session_search/storage/catalog.py:470-490 | A citation into a stored revision is unavailable exactly when no event has its id, raises exactly when the offset is past that event's text, and is otherwise answered with the event's neighbours whole and in order around the event, whose text is whole up to 4096 characters and else the 4096 from 256 before the offset |
| Catalog.CitesOnce | src/session_search/storage/catalog.py:470-490 | There is one such answer |
| Catalog.ShownCovers | src/session_search/storage/catalog.py:481-489 | The text shown for the cited event is a window of its text, at most 4096 long, starting at most 256 before the cited offset and covering it |
| Catalog.QuoteNeighbors | src/session_search/storage/catalog.py:480-490 | The answer holds the cited event and its nearest neighbours in order, and the neighbours are whole |
| Catalog.Catalog.CiteAgain | src/session_search/storage/catalog.py:453-492 | An old citation is answered alike before and after any later requests |
| Server.HandleRevision | src/session_search/interfaces/server.py:267-293 | The compare-and-write: 409 exactly for a fresh request whose head is neither the expected revision nor the one sent; 400 for unverified raw evidence, a missing name or a reused request id; otherwise durable, moving the head only to a revision never stored; a refusal changes nothing |
| Server.ServeMoves | src/session_search/interfaces/server.py:281-293 | One request moves at most one head, from exactly the expected revision to one never recorded before |
| Server.NoLostUpdate | src/session_search/interfaces/server.py:267-293 | Over every run of any clients, retries and lost replies, a head moves from h to r only by a request for r that expected h, and no revision becomes a head twice |
| Server.ReplayIsIdle | src/session_search/storage/catalog.py:201-208 | A repeated producer and request id changes nothing, and is accepted only for the same revision |
| Server.RetryIsDurable | src/session_search/interfaces/server.py:281-293 | After a lost reply and any traffic in between, the retry is durable and changes nothing |
| Queue.UploadQueue.Ingest | src/session_search/capture/queue.py:61-91 | A captured revision is queued with its raw reference behind the newest of its session, or else the acknowledged one; a reused id for other content is refused, a repeated one queues nothing |
| Queue.UploadQueue.DueRows | src/session_search/capture/queue.py:298-305 | The selected rows are the oldest items of sendable sessions, in queue order, all of them unless the limit cuts in |
| Queue.UploadQueue.Flush | src/session_search/capture/queue.py:294-361 | Each selected session has one attempt, in order, until one ends the round, and no other session changes; a receipt for the oldest revision retires and acknowledges it; 409 blocks the session, 400, 413 and 422 reject the revision, anything else leaves it pending; attempts rise by one and the next is due after 2, 4, 8, up to 300 seconds; the round ends exactly with no reply, 401, 403, 429, 500, 502, 503, 504 or a wrong receipt; the count is that of the receipts |
| Queue.SendableAgain | src/session_search/capture/queue.py:298-357 | After a failure a session is sendable again from its next attempt on, unless the status was 400, 409, 413 or 422 |
| Queue.SettleOther | src/session_search/capture/queue.py:306-361 | Settling one session leaves other sessions' items and acknowledgements alone |
| Queue.SettleOwn | src/session_search/capture/queue.py:306-361 | A receipt for exactly the oldest revision retires it; anything else keeps it first in line |
| Queue.StillSendable | src/session_search/capture/queue.py:298-336 | Selecting all rows before sending any is safe |
| Queue.PrefixDigest | src/session_search/capture/queue.py:251-261 | For any block split, the digest of the first size bytes and how many were missing |
| Queue.UploadQueue.ReconcileRawPrefix | src/session_search/capture/queue.py:222-268 | For a pending or blocked Codex item the recorded head is adopted, and the item set pending and due, if and only if its raw file is a prefix of the queued raw file; an absent head resets the expectation; otherwise nothing changes |
| Queue.UploadQueue.BootstrapImport | src/session_search/capture/queue.py:270-292 | Only an item without an expectation may adopt the head of a legacy Codex import; items with an expectation, other sessions' items and every item's content stay as they are |
| Queue.RebaseKeeps | src/session_search/capture/queue.py:222-292 | Rebasing a session's oldest item changes no other session's items and no item's request, content or raw file |
| Writer.RunTracks | src/session_search/capture/queue.py:61-91 | Over every run of a client that owns a session, with lost requests and replies, retries and other traffic: the outstanding items are the captured revisions in order, chained from the acknowledged one; the server has recorded a prefix of the captures at most one ahead; an item is in conflict only where the chain breaks |
| Writer.ServeMine | src/session_search/interfaces/server.py:281-293 | In any such state, the oldest item is answered 409 if and only if the chain breaks at it, and is durable otherwise |
| Writer.CleanNeverRefused | src/session_search/capture/queue.py:294-336 | If the chain never breaks, no item of the session is ever in conflict or refused |
| Writer.DrainsIffClean | src/session_search/capture/queue.py:294-336 | From any such state, sending what is outstanding empties the session's queue if and only if the chain never breaks |
| Writer.NoReturnIsClean | src/session_search/storage/catalog.py:209-213 | Captures that never return to an earlier revision, but for immediate repeats, never break the chain |
| Writer.HeadIsNear | src/session_search/capture/queue.py:294-336 | Without such returns the server's head is the acknowledged or the oldest outstanding revision |
| Writer.ReturnBreaks | src/session_search/storage/catalog.py:209-213 | The captures a, b, a, c break at c for any three distinct revisions |
| Chunks.ChunkStore.Put | src/session_search/storage/chunks.py:76-101 | Chunks are published before the recipe: at every stopping point the store stays intact, and only a finished call adds a recipe that tells exactly this file in pieces of 4194304 bytes; errors are exactly the stated ones on an intact store |
| Chunks.ChunkStore.IterBytes | src/session_search/storage/chunks.py:124-135 | Whatever the store holds, what is returned is the file, and it is returned exactly when the recipe tiles it, every chunk is there with the stated content and size, and they join to it |
| Chunks.WellFormedTold | src/session_search/storage/chunks.py:103-122 | The reader's checks accept exactly the recipes whose sizes tile the file in full pieces and a last one |
| Chunks.PiecesJoin | src/session_search/storage/chunks.py:76-101 | The pieces of a recipe spell out the file |
| Chunks.RecipeOfWellFormed | src/session_search/storage/chunks.py:103-122 | Every recipe put writes passes the reader's checks |
| Chunks.ChunkStore.Prune | src/session_search/capture/queue.py:160-220 | At every stopping point the store is intact and all that is queued is kept; a finished round leaves exactly the recipes and chunks the queue needs; anything unreadable stops it before any removal |
| Chunks.StageCollectRead | src/session_search/capture/queue.py:160-220 | A queued raw file reads back exactly after staging and a collection stopped anywhere |
| VectorCache.IterSegments | src/session_search/storage/vector_cache.py:177-196 | The rows of all segments when every one is intact, ordered and within the watermark; nothing otherwise |
| VectorCache.UsableTold | src/session_search/storage/vector_cache.py:177-196 | The segment checks accept exactly intact files of the stated rows, at most 4096, ascending, one segment after the other up to the watermark |
| VectorCache.Scores | src/session_search/storage/vector_cache.py:199-226 | The row ids of the identity's vectors in the read snapshot, ascending, each with its vector's score and no others, exactly when the manifest is the anchored one of this publication, identity, dimensions and epoch, every segment is intact, and the rows after it are well shaped; nothing otherwise |
| VectorCache.Build | src/session_search/storage/vector_cache.py:50-120 | A new manifest holds exactly the table's rows up to the watermark with all segment files in place; with room and well-shaped vectors it is never deferred |
| VectorCache.WriteSegments | src/session_search/storage/vector_cache.py:90-115 | Appending batches after the reused segments covers exactly the table's rows |
| VectorCache.Advance | src/session_search/storage/semantic.py:35-42 | Every insert, update, delete, build step, crash or damage keeps all anchored manifests, and those about to be anchored, true of the table they will be compared with; a build step touches only its own identity |
| VectorCache.RunOps | src/session_search/storage/vector_cache.py:50-226 | Over every run of those steps, with builds of different identities overlapping, every search on every snapshot gets nothing or exactly the scores of that snapshot's table |
| VectorCache.BuildThenRead | src/session_search/storage/vector_cache.py:121-143 | After an undisturbed build a search is answered from the cache, and still is after any further inserts |
| Candidates.BestOfIsBest | src/session_search/storage/semantic.py:241-247 | The update rule keeps, for each event, its highest score and the earliest chunk with that score |
| Candidates.OrderIrrelevant | src/session_search/storage/semantic.py:241-247 | Only which chunks are scored matters, not their order or batches |
| Candidates.TopUnique | src/session_search/storage/semantic.py:257-260 | The ordered list of the best k events is unique |
| Candidates.PruneKeeps | src/session_search/storage/semantic.py:248-254 | Pruning to the best 200 loses nothing that can still matter |
| Candidates.StopKeeps | src/session_search/storage/semantic.py:211-216 | Stopping at a frontier strictly below the 200th score loses nothing |
| Candidates.TopEvents | src/session_search/storage/semantic.py:207-260 | The loop with pruning and early stop returns, of all hits the batches hold, each event's highest-scored and earliest chunk, in descending order of score and then of events, and leaves out an event only behind 200 others; the overflow flag is set if and only if more than 200 events have a hit |
| Candidates.RankedBatches | src/session_search/storage/semantic.py:344-369 | Every match is yielded once, and each frontier bounds everything after it |
| Candidates.RankedTop | src/session_search/storage/semantic.py:344-369 | With score-ordered batches, whatever the order among ties, the answer is that of all chunks the join finds, each with its vector's cached score |
| Ranking.Fuse | src/session_search/storage/ranking.py:37-49 | Scores add reciprocal ranks over both lists; the passage kept is that of the list ranking the event higher, the lexical one on ties |
| Ranking.Diversify | src/session_search/storage/ranking.py:55-64 | The greedy selection is a permutation of the keys in the order of a plain sort: named session first, then score divided by the position in the key's own session, then key |
| Ranking.SortUnique | src/session_search/storage/ranking.py:55-64 | There is one such order |
| Ranking.SessionOrderKept | src/session_search/storage/ranking.py:55-64 | Results of one session keep their own order |
| Ranking.ScoresPositive | src/session_search/storage/ranking.py:50-51 | With positive weights all fused scores are positive |
| Ranking.RankResults | src/session_search/storage/ranking.py:30-66 | Each event once, with its weighted fused score and passage, in diversified order, or in plain score order for a scoped query |
| Ranking.FusionTold | src/session_search/storage/ranking.py:37-51 | An event at rank r of one list and s of the other scores 1/(1+r) + 1/(1+s), and shows the lexical passage unless the semantic rank is strictly better |
| Ranking.OrderTold | src/session_search/storage/ranking.py:52-64 | The named session comes first, then the score divided by the event's place in its own session, or the plain score for a scoped query, then the key |
| Ranking.StringLessTold | src/session_search/storage/ranking.py:52-54 | Strings compare at their first difference, the shorter one first |
| Ranking.KeyLessTold | src/session_search/storage/ranking.py:52-54 | Keys compare by session, then revision, then event |
| Output.BoundedResponse | src/session_search/core/output.py:11-62 | For any size function it terminates; the responses it goes through start from the original with its counters reset, without timings if it does not fit with them, and each next one is the last one's turn; it returns the first that fits, which owes the original everything stated, and raises only outside the budget range or when nothing is left to drop |
| Output.DropTurns | src/session_search/core/output.py:27-40 | A turn with a neighbour left drops the first event equal to the last neighbour of the last result that has one, and counts it |
| Output.CutTurns | src/session_search/core/output.py:42-57 | A turn without neighbours halves the first of the longest texts over 129 characters, to no fewer than 128, and marks it |
| Output.Reduce | src/session_search/core/output.py:26-61 | One turn of the loop lowers results, events or text length lexicographically and keeps what is owed: a prefix of the results, each with its citation and all its cited events, texts untouched or at least 128 source characters and one ellipsis, counters exact, neighbours gone before any text is cut, texts cut before any result is lost |
| Output.ShortenAgain | src/session_search/core/output.py:53-54 | Shortening a shortened text still leaves a prefix of the source and one ellipsis |
| Output.DropOwes | src/session_search/core/output.py:27-40 | Dropping a neighbour keeps every cited event and counts it |
| Output.Longest | src/session_search/core/output.py:42-52 | The text chosen for shortening is the longest that can be shortened, and there is none only when all are short |
| Generations.PointersServe | src/session_search/storage/generations.py:61-65 | At every step and crash point CURRENT and PREVIOUS name verified generations when set |
| Generations.PinnedStays | src/session_search/storage/generations.py:31-45 | A generation pinned by a reader is whole for as long as it is pinned |
| Generations.OnlyPruneRemoves | src/session_search/storage/generations.py:68-93 | A verified generation is damaged only by a prune that holds its readers' lock, while no pointer names it and no reader pins it |
| Generations.PublicationsAdvance | src/session_search/storage/snapshots.py:168-180 | Over every run, once CURRENT names a publication identity and epoch it always names one with that identity and no lower epoch |
| Generations.ActivationReaches | src/session_search/storage/snapshots.py:165-190 | An undisturbed activation of a verified generation with the same identity and no lower epoch, or where none is recorded, ends with CURRENT naming it and PREVIOUS naming the former CURRENT if that was another |
| Generations.ActivationChecked | src/session_search/storage/snapshots.py:166-180 | Under the lock an activation goes on exactly when the recorded publication allows it, and otherwise gives up with nothing changed |
| Generations.ReaderMoves | src/session_search/storage/generations.py:31-45 | Each step of pinning and the condition for it, exactly |
| Generations.SweepMoves | src/session_search/storage/generations.py:68-93 | Each step of a sweep and the condition for it, exactly: what it visits, passes over and removes |
| Generations.PruneReplica | src/session_search/storage/generations.py:68-93 | An undisturbed sweep removes exactly the managed, unprotected, unpinned generations, and counts both kinds |
| Legacy.HashFixesRow | src/session_search/capture/legacy.py:46-60 | Valid records with equal revision hashes agree on everything the import keeps |
| Legacy.MergeArchive | src/session_search/capture/legacy.py:141-167 | Accepts if and only if all records declare their own digests and no revision has two hashes, unless superseded ones are allowed and a later revision replaces it; keeps for each id the revision, hash, kind, source and payload of a record of its highest revision, all producers, and counts the conflicts |
| Legacy.OrderIndependent | src/session_search/capture/legacy.py:141-167 | Any two archives with the same records are accepted or rejected alike with equal results |

## Left out

- Incremental.ParseIncremental: the check that the staged file did not change while it was parsed is left out; the file is a value
- BareCR.ExactCondition: quantifies over every decoding of the lines; for one given decoding the condition is sufficient and not necessary
- Capture.CaptureSeries: the cache's encoding and budget are left out; a load returns what was saved, if it passes the cache's checks, or nothing
- Codex.IterRecords: only the strict mode, in which the first bad line raises
- Codex.ParseSession: models strict parsing only; tool calls, file paths and commands collected on turns are left out, as they never reach a revision's events
- Normalize.NormalizeSession: time normalization is a foreign function that may fail
- Uploads.UploadObject: that progress does not fall, and the exact bytes sent, are stated for an upload nobody else interferes with
- Transfers.RawTransfers.ExpireSlot: why a partial is spared (age, links, a busy lock, a catalog reference) is an input
- Transfers.RawTransfers.AppendChunk: partial and object are two values; that the shared file is never written is `Transfers.SharedNeverWritten`
- Catalog.Catalog.Context: one citation at a time; the limits of 100 citations and 10 neighbours and legacy locators are left out
- Catalog.Catalog.Ingest: checkpoints and project aliases of the same transaction are left out
- Queue.UploadQueue.Flush: which outcome an attempt has is an input; the records of captured paths and raw acknowledgements, and the unlinking of a sent transfer copy, are left out
- Queue.UploadQueue.Ingest: the records of captured paths and staged raw files in the same transaction are left out
- Writer.RunTracks: flushes without the two rebasing options, and raw evidence that the server can verify
- VectorCache.Scores: that a stored blob is finite and of the right length is the one shape check; 32-bit arithmetic is replaced by reals
- Chunks.ChunkStore.Prune: abandoned temporaries and unexpected directory entries are left out
- Chunks.ChunkStore.Put: JSON encoding and the recipe file's size limit are left out; running out of space is a stop like a death
- Generations.PointersServe: what makes a snapshot verify is a flag of its directory
- Candidates.RankedBatches: the sort itself is a precondition on its input
- Ranking.RankResults: evidence weights are positive inputs
- HTTP, authentication, MCP, the command line, SSH, Restic and process plumbing
- SQLite, FTS5 matching and BM25, compression, JSON text, regular expressions and redaction patterns
- Embedding providers, timeouts, free-space probes and directory syncing; durability is an atomic step and a crash may fall between any two
- Sessions assembled from the merged legacy records, deployment, benchmarks and offload verification
