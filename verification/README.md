# Verification of the REPL server's protocols

This project models the concurrent and streaming core of the native REPL server
and of its Python worker, and proves what that core is for. A state machine
takes one lock-held section, or one stretch between two awaits, as one step;
tasks may interleave in any order and a future may be dropped at any await.
Theorems about a machine are about every run of it.

Files, hardest first:

- `Ledger.dfy`, `EffectJournal.dfy`, `CallRecords.dfy`: the journal of external
  calls as a write-ahead log. Admission and eviction, the encoded size of every
  snapshot, the coalescing durable writer, crashes, restarts and recovery. All
  brokers of a server share one journal, so one machine stands for all of them.
- `ArtifactStore.dfy`, `ArtifactJobs.dfy`, `ArtifactMemory.dfy`, `Artifacts.dfy`:
  the artifact store with its guards, uploads, eviction and late blocking jobs.
  `Uploads.dfy` follows an uploaded value from the worker through these jobs and back.
- `RunSlot.dfy`, `Supervisor.dfy`, `FrameWriter.dfy`: the execution slot with its
  two drop guards, worker generations, run history, and the command pipe.
- `Catalogue.dfy`, `Streams.dfy`, `BoundedJson.dfy`: reading a peer's tool list,
  the limiters on its byte streams, and the budgets on schemas and arguments.
- `Sessions.dfy`: sessions and the brokers they share.
- `Bytes.dfy`, `Base64.dfy`, `Text.dfy`, `Chunker.dfy`, `SafeValue.dfy`,
  `Checkpoint.dfy`, `SourceHistory.dfy`: the worker's algorithms.
- `Outcomes.dfy`, `Schedules.dfy`: the two result shapes used everywhere, and
  schedules of events.

A class and the functions it is proved against are two forms of the same
operation: the methods carry the source's loops and field updates, the machine
uses the functions.

## What the proofs found

Each of these is stated as a lemma with the case that shows it.

- Dispatch never checks the length or the characters of a tool name, but a
  restart does: one call to a granted tool whose name has more than 400 bytes or
  a control character makes the journal file unloadable
  (`Ledger.LongToolNameBlocksReload`, `EffectJournal.BadCallBlocksRestart`).
  Without such a call every file loads (`EffectJournal.GoodCallsAlwaysRestart`).
- An append whose write fails half-way leaves its bytes in the file while the
  recorded size stays, and a retry lands after them: the published range is then
  wrong, and only verify notices (`ArtifactJobs.TornWriteCorrupts`, with a run that
  publishes such a file in `ArtifactMemory.CorruptFilePublished`). A published
  upload holds its accepted appends exactly when no append to it failed that way
  (`ArtifactJobs.UploadRoundTrip`).
- Those uncounted bytes escape the store's memory limits: real use is what is
  recorded plus what half-failed appends left in files still alive
  (`ArtifactMemory.MemoryBound`), and exceeds any bound on some run
  (`ArtifactMemory.RealBytesUnbounded`).
- A run whose future is dropped while its worker is being terminated, after the
  guard was disarmed, leaves no history record, and that is the only way a run
  other than an inventory loses it (`RunSlot.HistoryExact`, with a schedule from
  the start in `RunSlot.RecordLost`).
- A project is left with a broker that no session uses exactly when an open was
  refused its artifact owner while the project had no session and no later open
  of it succeeded (`Sessions.UnusedBrokerExactly`); and an open that
  commits between the two sweeps of a server shutdown is left with a broker that
  the shutdown takes (`Sessions.OpenDuringShutdown`).
- A close whose future is dropped after it left the tables never shuts down the
  broker it took, and leaves its session registered with the artifact store if the
  supervisor had not stopped yet; nothing else does (`Sessions.ShutDownExactly`,
  `Sessions.OwnerRemovedExactly`, with a case in `Sessions.CloseDropped`).
- A variable whose name holds a lone surrogate makes checkpoint fail as a whole,
  because the name is put into the report of skipped names; otherwise it fails
  only if values and report together exceed 256 KiB
  (`Checkpoint.CheckpointFailsExactly`). A dictionary comes back with all its
  pairs exactly when its keys stay different once lone surrogates are replaced
  (`SafeValue.DictKeepsPairs`, with a pair of keys that merge in
  `Checkpoint.KeysCanMerge`).
- A source over 1 MiB is not remembered and clears the whole source history
  (`SourceHistory.RememberKeepsNewest`).

## Model

| member | source | states |
|---|---|---|
| EffectJournal.WriteAhead | native/src/broker.rs:569-598 | in every state of every run, a call that was sent and is not finished in memory has its own unaltered record, dispatched, in the file on disk, and loading that file gives the record back as outcome_unknown |
| EffectJournal.RecoveryInventsNothing | native/src/broker.rs:250-281 | whatever the crash point, a loaded record is never dispatched and says completed or tool_error only for a call whose reply said just that |
| EffectJournal.PersistedMeansWritten | native/src/broker.rs:1454-1474 | when a persist wait reports success the file is the ledger at some version no older than the wait's own start, whichever round wrote it |
| EffectJournal.SaturationSkipsTheWrite | native/src/broker.rs:1386-1471 | some schedule tells a call its record is durable while the file is older than the record if and only if its request met the saturating counter at its end, with the last ticket answered, or about to be answered, by an older round |
| EffectJournal.WriteAheadUnlessStale | native/src/broker.rs:569-598 | any other call is written ahead in every later state, even past saturation |
| EffectJournal.DiskNeverGoesBack | native/src/broker.rs:1415-1434 | the version on disk never decreases, across failed snapshots, crashes and restarts |
| EffectJournal.NoStrandedWaiter | native/src/broker.rs:1462-1473 | a pending ticket has a running writer, every writer event brings its round nearer and no other event pushes it back, and a sleeper whose round is over still has a notification coming |
| EffectJournal.RestartExact | native/src/broker.rs:247-281 | the file a run leaves loads if and only if every record's text metadata is short and free of control characters |
| EffectJournal.GoodCallsAlwaysRestart | native/src/broker.rs:269-276 | if every call enters with such metadata, every file any run leaves can be loaded |
| EffectJournal.BadCallBlocksRestart | native/src/broker.rs:269-276 | one sent, unfinished call whose metadata is not makes the file unloadable |
| EffectJournal.StepKeeps | native/src/broker.rs:1374-1474 | every event keeps the joint invariant of ledger, writer, tickets, calls and disk: unfinished work means a running writer, a new writer starts only when none is active, each snapshot is the ledger at its version |
| EffectJournal.WriterKept | native/src/broker.rs:1398-1453 | the bookkeeping of requested, completed and running stays consistent under every event |
| EffectJournal.AdmitKeepsFound | native/src/broker.rs:546-567 | admitting another call leaves an in-flight call's record in place and unaltered |
| EffectJournal.RecoveryKeepsSound | native/src/broker.rs:250-281 | recovery keeps the size bound and invents no outcome |
| Ledger.AdmissionIsMinimal | native/src/broker.rs:546-567 | admission evicts the fewest oldest terminal records after which the limits hold, keeps the rest in order, and succeeds if and only if some number of evictions makes room |
| Ledger.DropKeepsInFlight | native/src/broker.rs:546-566 | eviction never removes or reorders an in-flight record |
| Ledger.FinishGrowth | native/src/broker.rs:71-79 | giving a dispatched record its terminal status and clock adds at most 59 bytes to its encoding |
| Ledger.AdmitKeepsBounded | native/src/broker.rs:552-567 | admission keeps the ledger within 256 records and its width plus 59 bytes per in-flight record within the potential |
| Ledger.FinishKeepsBounded | native/src/broker.rs:71-79 | finishing a call keeps that potential |
| Ledger.RecoveryKeepsBounded | native/src/broker.rs:277-281 | recovery keeps it too, so a recovered file can be recovered again |
| Ledger.RecoveredWidth | native/src/broker.rs:277-279 | recovery adds exactly five bytes per dispatched record and leaves none dispatched |
| Ledger.ReloadExact | native/src/broker.rs:222-281 | a snapshot of a bounded ledger is under the 1 MiB cap and loads exactly when all its metadata is valid, giving every record back with dispatched ones unknown |
| Ledger.LongToolNameBlocksReload | native/src/broker.rs:551-567 | a 401-byte tool name is admitted and its snapshot is then refused |
| CallRecords.EffectLedger.OldestTerminalIndex | native/src/broker.rs:547-548 | the index scan finds the first terminal record, or that all are in flight |
| CallRecords.EffectLedger.Admit | native/src/broker.rs:546-567 | the mutable journal after admission is what the admission function says, on success and on both refusals |
| CallRecords.EffectLedger.AppendWithinBudget | native/src/broker.rs:551-567 | the encode-and-evict loop ends in the function's ledger and verdict; a refusal removes the new record |
| CallRecords.EffectLedger.SetStatus | native/src/broker.rs:71-79 | the first record with the id, and only it, takes status and time |
| CallRecords.EffectLedger.Load | native/src/broker.rs:247-285 | loading validates every record and writes the result back before it replaces the journal, or changes nothing |
| CallRecords.JournalIo.Schedule | native/src/broker.rs:1386-1392 | one ticket per request, and exactly one caller told to start the writer |
| CallRecords.JournalIo.FinishRound | native/src/broker.rs:1437-1447 | a round records its target and error and continues exactly when more was requested |
| CallRecords.JournalIo.Poll | native/src/broker.rs:1466-1471 | a waiter sees the latest round's outcome once its target is completed |
| CallRecords.CallRecord.Finish | native/src/broker.rs:80-88 | finishing sets the call's one terminal status and then takes the ticket it waits for |
| CallRecords.CallRecord.Drop | native/src/broker.rs:90-109 | dropping sets outcome_unknown and asks for a round only if the call was not finished |
| CallRecords.FinishThenDrop | native/src/broker.rs:71-109 | a call that finishes and is dropped keeps its status and asks for one round |
| EffectJournal.OneTerminalStatus | native/src/broker.rs:71-109 | in every reachable state, once a call is over every record with its id is terminal, and while the server runs none is rewritten |
| EffectJournal.OverMeansTerminal | native/src/broker.rs:569-598 | a dispatched record always belongs to a call that is still open and is that call's own |
| EffectJournal.TerminalIsFinal | native/src/broker.rs:546-598 | no event changes a record except by finishing a dispatched one |
| EffectJournal.TerminalStays | native/src/broker.rs:546-566 | a terminal record stays as it is until an admission evicts it |
| ArtifactJobs.NoResurrection | native/src/artifacts.rs:134-277 | in every interleaving of blocking jobs with session close and run end, every entry's owner is registered and live, and every registered upload's owner and run are |
| ArtifactJobs.PublishedOnceAndFrozen | native/src/artifacts.rs:585-701 | no two publications share a file, and a published file never changes again, evicted or not |
| ArtifactJobs.UploadRoundTrip | native/src/artifacts.rs:616-700 | a published upload's digest covers exactly its accepted appends in order; its file holds them if and only if no append to it failed half-way, which is also when verify passes, and paging then reads them back |
| ArtifactJobs.HashedIsAccepted | native/src/artifacts.rs:616-643 | what an upload has hashed is the concatenation of the accepted appends |
| ArtifactJobs.HashedStep | native/src/artifacts.rs:627-642 | an append is accepted only at the current size, so each offset is accepted once, and nothing else adds bytes |
| ArtifactJobs.TornWriteCorrupts | native/src/artifacts.rs:637-642 | any half-failed append followed by any accepted one leaves the failed bytes in front, with size and digest of the accepted ones |
| ArtifactMemory.CorruptFilePublished | native/src/artifacts.rs:637-700 | a run from the start that publishes an upload recorded as empty whose file holds a byte |
| Uploads.ValueComesBack | native/src/artifacts.rs:353-701 | under every interleaving, if the worker's appends of a value were accepted in order, whatever else was sent to that upload, the published digest begins with the value; when the sizes agree it covers nothing else, and unless an append failed half-way the file is the value and paging returns it |
| Uploads.OffsetsKeepTogether | native/src/artifacts.rs:627-636 | appends accepted in order have no added byte before or between them |
| ArtifactJobs.QueueChanges | native/src/artifacts.rs:444-531 | refused creates, appends and commits, and every abort, leave the queue as it was; a publication adds the entry it released after minimal eviction |
| ArtifactJobs.QueueIsNewest | native/src/artifacts.rs:521-529 | over every run without a session close or a drop, the queue is exactly the longest run of the newest publications within both limits |
| ArtifactJobs.LimitsHold | native/src/artifacts.rs:521-529 | the queue limits, four uploads and four jobs hold in every reachable state |
| ArtifactJobs.StepKeeps | native/src/artifacts.rs:199-277 | every step of every job, registration and removal keeps the invariant the theorems rest on |
| ArtifactMemory.MemoryBound | native/src/artifacts.rs:205-235 | the distinct files alive in the queue, in uploads and in jobs, imports still being copied included, never record more than 64 + 4*16 + 4*16 MiB; their real bytes are the recorded ones plus what half-failed appends of the schedule left in them, so they are equal, and bounded, exactly when no append to a file still alive failed half-way |
| ArtifactMemory.RealBytesUnbounded | native/src/artifacts.rs:637-641 | for every bound some run from the start has more real bytes alive |
| ArtifactJobs.FileLength | native/src/artifacts.rs:627-642 | an upload's file is longer than its recorded size by exactly the bytes half-failed appends left in it |
| ArtifactStore.EvictKeepsLongestSuffix | native/src/artifacts.rs:523-527 | eviction ends, and keeps the longest suffix of the queue that leaves room |
| ArtifactStore.PublishedWithinLimits | native/src/artifacts.rs:688-694 | after a publication the queue is within 64 entries and 64 MiB and ends with the new entry |
| ArtifactStore.PagesReassemble | native/src/artifacts.rs:353-396 | following has_more with any page length returns exactly the artifact's bytes |
| ArtifactStore.Lookup | native/src/artifacts.rs:300-310 | a lookup finds only the owner's own entry, and fails only when there is none |
| ArtifactStore.Position | native/src/artifacts.rs:434-437 | the position found is the first entry with that id and owner |
| ArtifactStore.DropRemovesOne | native/src/artifacts.rs:434-438 | a drop succeeds exactly when the owner has such an entry, and removes that one entry from the queue |
| Artifacts.Import | native/src/artifacts.rs:467-486 | the copy loop keeps the whole input or refuses it, exactly at 16 MiB |
| Artifacts.Artifacts.RegisterOwner | native/src/artifacts.rs:134-146 | a known owner keeps its guard, a new one gets its own, and capacity refuses |
| Artifacts.Artifacts.RegisterRun | native/src/artifacts.rs:147-170 | a run needs a registered owner and capacity |
| Artifacts.Artifacts.AbortUnfinishedUploads | native/src/artifacts.rs:171-198 | the run's guard and exactly its uploads are cleared and removed |
| Artifacts.Artifacts.RemoveOwner | native/src/artifacts.rs:239-277 | guards, runs, uploads and entries of one owner go, and nothing else |
| Artifacts.Artifacts.PublishEntry | native/src/artifacts.rs:688-694 | the eviction loop ends in the minimal eviction with the new entry last |
| Artifacts.Artifacts.Create | native/src/artifacts.rs:512-531 | publication of an import, or no change when owner or run is gone |
| Artifacts.Artifacts.Begin | native/src/artifacts.rs:554-583 | a new empty upload, or no change when a guard is dead or four are open |
| Artifacts.Artifacts.Append | native/src/artifacts.rs:616-643 | the new store for every refusal, whole write and torn write |
| Artifacts.Artifacts.Commit | native/src/artifacts.rs:678-701 | publication of the upload and its removal, or no change |
| Artifacts.Artifacts.Drop | native/src/artifacts.rs:428-440 | the owner's entry, and only it, is removed |
| RunSlot.ExclusiveSlot | native/src/supervisor.rs:573-591 | with futures dropped at any await, at most one run holds the slot, an active run is that one, and a free slot has none |
| RunSlot.HistoryExact | native/src/supervisor.rs:137-210 | a finished run has one record unless it is an inventory run or the schedule drops its future while it awaits its worker's end, disarmed; records are distinct, the newest 64, in order |
| RunSlot.RecordLost | native/src/supervisor.rs:909-911 | a schedule from the start in which a run that is no inventory run finishes without a record |
| RunSlot.DropWhileTerminatingLosesTheRecord | native/src/supervisor.rs:909-911 | from every state in which a worker is being terminated, dropping the future leads through the guards to a finished run with no record |
| RunSlot.GenerationGuard | native/src/supervisor.rs:754-792 | a cell sent with expected generation g > 0, without reset and not fresh, only reaches the worker whose spawn made the counter g; state_reset is true exactly when that worker was spawned by this run |
| RunSlot.GenerationsGrow | native/src/supervisor.rs:546-554 | generations only grow and no two spawns share one |
| RunSlot.StepKeeps | native/src/supervisor.rs:605-935 | every step, drop and guard keeps the slot, history and generation invariant |
| Supervisor.Supervisor.Reserve | native/src/supervisor.rs:568-591 | the reservation succeeds exactly on a free slot and names the run |
| Supervisor.Supervisor.Remember | native/src/supervisor.rs:558-566 | the history after recording: this run's older record gone, the new one last, the oldest dropped past 64 |
| Supervisor.Supervisor.Release | native/src/supervisor.rs:191-210 | the slot is free, and a run left active is recorded as abandoned |
| Supervisor.Supervisor.Cancel | native/src/supervisor.rs:987-998 | exactly the active run asked for is cancelled |
| Supervisor.Supervisor.Run | native/src/supervisor.rs:1000-1014 | the active run if it is asked for, else its newest record |
| Supervisor.RememberedIds | native/src/supervisor.rs:558-566 | the object's history holds the ids the run machine says |
| Supervisor.RememberedIsFound | native/src/supervisor.rs:1000-1014 | a recorded run is found at once, and runs still listed are found unchanged |
| FrameWriter.FrameIntegrity | native/src/supervisor.rs:262-286 | the pipe holds the accepted frames in order and at most one partial frame, and newline-splitting returns exactly the completed ones |
| FrameWriter.WriteFrames | native/src/supervisor.rs:267-284 | the actor's loop: it finishes frames in order until one is stopped, cut or fails, answers the finished ones and the failed one, and leaves finished frames and part of the next, so a reader sees whole commands only |
| FrameWriter.NothingAfterEnd | native/src/supervisor.rs:267-284 | once the writer ended nothing is written, accepted or acknowledged |
| FrameWriter.AnswersAreTrue | native/src/supervisor.rs:273-307 | a caller told of success has its frame on the pipe at its place; failure comes only with the end; a waiting caller is told of every flushed frame |
| FrameWriter.AbandonmentIsInvisible | native/src/supervisor.rs:272-278 | callers that stop waiting change no byte: the run without them writes the same |
| FrameWriter.LinesOfFrames | native/src/supervisor.rs:289-293 | splitting whole frames on newlines gives the commands back |
| Catalogue.Tools | native/src/broker.rs:938-1005 | against any peer, at most 128 requests; a list comes back if and only if a complete chain within all limits exists, and is then all of it, filtered; no failure returns a list |
| Catalogue.Fetch | native/src/broker.rs:943-1005 | the page loop for any page limit |
| Catalogue.NextPage | native/src/broker.rs:944-986 | one page: its reply and its effect, or an error that rules out every acceptable catalogue |
| Catalogue.ContinuesMeans | native/src/broker.rs:982-1003 | the continuing chain the results speak of: only pages with a next cursor, no cursor twice |
| Catalogue.DistinctNamesMeans | native/src/broker.rs:969-976 | the distinctness they speak of: no two kept tools share a string name |
| Catalogue.AddPage | native/src/broker.rs:957-979 | every granted tool of a page is counted, checked for its name and kept, or the page breaks a limit |
| Streams.BoundedRead.PollRead | native/src/broker.rs:1749-1769 | one read continues the line counter and fails exactly when it passes 1 MiB |
| Streams.ReadFrames | native/src/broker.rs:1743-1770 | for every split into reads, all pass if and only if no line is over 1 MiB |
| Streams.SseScan.Poll | native/src/broker.rs:1985-2028 | one chunk: passed with the new state, refused, or the end after an earlier error |
| Streams.SseScan.Count | native/src/broker.rs:1995-2017 | the closure's byte loop agrees with the byte-wise scan |
| Streams.ScanBody | native/src/broker.rs:1980-2028 | for every split into chunks, all pass if and only if a blank line ends within every limit + 1 bytes of the CR/CRLF-normalised stream |
| Streams.ScanMeasures | native/src/broker.rs:1996-2017 | the flags and the counter compute the one-pass measure of the normalised stream |
| Streams.MeasureFails | native/src/broker.rs:1753-1764 | a counter with resets passes its limit exactly when that many positions in a row have none |
| BoundedJson.VisitExact | native/src/broker.rs:1288-1321 | the traversal succeeds exactly when levels, nodes and every composition and pattern fit, and counts each node once |
| BoundedJson.BoundedExact | native/src/broker.rs:1275-1323 | the whole check accepts exactly the values within all of its budgets |
| Sessions.BrokerOwnership | native/src/sessions.rs:195-224 | at most 32 sessions, each on its project's registered broker, and two share one exactly when they share a project |
| Sessions.ClosedBrokerIsNeverUsed | native/src/sessions.rs:271-286 | a broker handed to shutdown by close is used by no session then or later and never registered again |
| Sessions.LastCloseShutsDown | native/src/sessions.rs:277-282 | close takes a broker to shut down exactly on the project's last session, and its own broker |
| Sessions.ShutDownExactly | native/src/sessions.rs:284-288 | over every run, a broker taken by a close is shut down, or will be by a close still running, if and only if that close's future was not dropped |
| Sessions.OwnerRemovedExactly | native/src/sessions.rs:284-285 | up to a server shutdown, a closed session stays registered with the artifact store if and only if its close was dropped while it waited for the supervisor |
| Sessions.CloseDropped | native/src/sessions.rs:284-288 | a case of both |
| Sessions.UnusedBrokerExactly | native/src/sessions.rs:199-224 | over every run up to a shutdown, a project has a broker that no session uses if and only if one of its opens was refused its owner while it had no session and no later open of it succeeded; the next one that does gets the broker that was left |
| Sessions.CommitLeavesOrphan | native/src/sessions.rs:196-215 | where there was none, a commit leaves an unused broker exactly when there was room, its owner was refused and the project has no open session |
| Sessions.CloseLeavesNoOrphan | native/src/sessions.rs:271-283 | a close never leaves one |
| Sessions.SweepKeepsOwnership | native/src/sessions.rs:295-315 | the shutdown's second sweep keeps ownership exactly when no session is open |
| Sessions.OpenDuringShutdown | native/src/sessions.rs:295-315 | a session opened between the sweeps uses a broker the shutdown has taken |
| Sessions.SessionManager.CommitOpen | native/src/sessions.rs:195-225 | the open commit on the two tables, for each outcome |
| Sessions.SessionManager.CloseOne | native/src/sessions.rs:267-283 | the close section on the two tables, for each outcome |
| Sessions.SessionHandedOut | native/src/sessions.rs:132-140 | in every reachable state before a shutdown drains the brokers, the session get returns uses its project's registered broker, which no close has retired |
| Sessions.DefaultStaysOpen | native/src/sessions.rs:133-139 | without an id get has an answer until a shutdown, whatever is opened and closed |
| Chunker.Upload | src/repl_mcp/native_worker.py:441-462 | commits exactly when every piece could be produced and all fit 16 MiB; every append is one the store accepts, all full but the last, and together they are the value |
| Chunker.Feed | src/repl_mcp/native_worker.py:446-457 | regrouping one piece sends only full chunks and loses no byte |
| Chunker.UploadText | src/repl_mcp/native_worker.py:430-432 | a text is uploaded exactly when it has an encoding of at most 16 MiB, and that encoding is what is sent |
| Chunker.SlicesOfText | src/repl_mcp/native_worker.py:432-432 | encoding slice by slice is encoding the whole |
| Chunker.SlicesOfBytes | src/repl_mcp/native_worker.py:429-429 | the slices of a bytes value are the value |
| ArtifactStore.RequestIsAppendable | native/src/artifacts.rs:616-636 | base64 of at most 32768 bytes at the right offset passes every test of the store |
| Chunker.StoreAcceptsUpload | native/src/artifacts.rs:616-643 | the store accepts the whole sequence and holds and hashes exactly its bytes |
| Base64.DecodeEncode | native/src/artifacts.rs:621-623 | every byte string survives the trip |
| Base64.EncodeDecode | native/src/artifacts.rs:621-623 | only the canonical spelling is accepted |
| Base64.EncodedLength | native/src/artifacts.rs:618-620 | the padded length, four letters for every three bytes |
| Text.PrefixIsLongest | src/repl_mcp/native_worker.py:47-49 | prefix is the longest character prefix of the cleaned text whose UTF-8 encoding fits |
| Text.DecodeTruncated | src/repl_mcp/native_worker.py:49-49 | cutting an encoding anywhere and decoding with errors ignored keeps exactly the characters that fit |
| Text.DecodeEncode | src/repl_mcp/native_worker.py:43-44 | decoding undoes encoding |
| Text.CaptureConserves | src/repl_mcp/native_worker.py:118-150 | over any writes, retained bytes plus what remains is the limit |
| Text.CaptureIsWholeUnlessTruncated | src/repl_mcp/native_worker.py:133-146 | truncated stays unset if and only if the whole cleaned stream fits, and then the capture is that stream |
| Text.OneWrite | src/repl_mcp/native_worker.py:137-145 | the capture is the concatenation of each write's own prefix |
| Text.BoundedCapture.Write | src/repl_mcp/native_worker.py:133-146 | one write's effect on budget, parts and flag |
| Text.BoundedCapture.GetValue | src/repl_mcp/native_worker.py:148-150 | the value is the parts joined |
| Text.CutAtBoundary | native/src/supervisor.rs:1043-1050 | stepping back to a character boundary keeps exactly the characters that fit |
| Text.BoundaryIsCharacterEnd | native/src/supervisor.rs:1064-1069 | a boundary is exactly where whole characters end |
| Text.SupervisorAgreesWithWorker | native/src/supervisor.rs:1038-1050 | the supervisor's cut and the worker's prefix keep the same characters |
| SafeValue.SafeExact | src/repl_mcp/native_worker.py:61-92 | the conversion succeeds exactly on values within depth and size limits whose nodes fit the shared budget, returns the normal form and charges each node once |
| SafeValue.SafeIdempotent | src/repl_mcp/native_worker.py:61-92 | a converted value is accepted again, unchanged |
| SafeValue.NormalTwice | src/repl_mcp/native_worker.py:81-91 | normalising twice is normalising once, merged keys included |
| SafeValue.NormalNodes | src/repl_mcp/native_worker.py:65-67 | the normal form costs no more nodes |
| Checkpoint.RoundTrip | src/repl_mcp/native_worker.py:554-620 | every file a checkpoint writes is accepted into any namespace, binds each saved name to its normalised value and leaves all others |
| Checkpoint.SavedFile | src/repl_mcp/native_worker.py:560-578 | saved names are distinct, short, not reserved, and hold normal forms of the namespace's values |
| Checkpoint.HelpersSurvive | src/repl_mcp/native_worker.py:614-619 | no file, whatever it holds, changes a helper |
| Checkpoint.CheckpointFailsExactly | src/repl_mcp/native_worker.py:562-583 | a checkpoint fails if and only if one of the names it looks at is short and has a lone surrogate, or the record with its report exceeds 256 KiB |
| SafeValue.DictKeepsPairs | src/repl_mcp/native_worker.py:87-91 | a converted dictionary keeps all its pairs, in order and normal form, if and only if its keys stay different when cleaned |
| Checkpoint.KeysCanMerge | src/repl_mcp/native_worker.py:87-91 | two keys that do not: they are merged, the last value kept |
| Checkpoint.Worker.Checkpoint | src/repl_mcp/native_worker.py:554-596 | the loop gathers what the specification gathers, and writes it or fails |
| Checkpoint.Worker.Restore | src/repl_mcp/native_worker.py:598-620 | all validated names are bound or nothing is changed |
| SourceHistory.RememberKeepsNewest | src/repl_mcp/native_worker.py:361-372 | a fitting source is kept after the longest run of newest entries that leaves room; an oversized one clears the history |
| SourceHistory.RememberKeepsBounded | src/repl_mcp/native_worker.py:365-371 | at most 64 runs and 1 MiB, whatever identifiers and sizes come |
| SourceHistory.HistoryIsNewest | src/repl_mcp/native_worker.py:361-372 | over any sequence of runs with identifiers of their own, what is kept is the longest run of the newest sources within 64 entries and 1 MiB, and the byte total is what they weigh |
| SourceHistory.TotalStaysExact | src/repl_mcp/native_worker.py:369-371 | were an identifier to repeat, the byte total would be off by exactly the weight it had before |
| SourceHistory.Sources.RememberSource | src/repl_mcp/native_worker.py:365-371 | the eviction loop and the assignment, as the function says |
| SourceHistory.Sources.Source | src/repl_mcp/native_worker.py:378-383 | retrieval succeeds exactly for a run still kept |

## Left out

- OAuth, HTTP, stdio transports, credential files and rmcp calls: a peer is any function or any event.
- The broker's pool of transports, its invalidation and its failure cooldown: they depend on reference counts and timing.
- Process spawning, signals, memory sampling, clocks and deadlines: a timeout, a kill or a worker's death is a step that can happen at any point where it could.
- Python evaluation, asyncio cleanup, process tracking and the `sh` helper.
- JSON Schema compilation and validation; only the budgets checked before them are modelled.
- SHA-256 is a function parameter, so two contents may collide; identifiers made by uuid are assumed never to repeat.
- JSON text: a checkpoint file is the value it denotes and its length in bytes; the widths json.dumps gives are parameters. Only the journal's encoded width is computed.
- EffectJournal.OneTerminalStatus: is about one process, because after a crash a record that was terminal in memory only is recovered as outcome_unknown.
- The journal machine has a journal path set; without one nothing is persisted and nothing is claimed. Poisoned locks and the lock file are not modelled.
- The text and JSON checks of a commit or an import, which only refuse, and the save and forward copies.
- The waiting loop of `execute_request`, the memory poll, and how output events reach a run's buffers while it executes.
- The catalogue's 15-second cache: every listing is a fresh one.
- Preparing a session (resolving the project and the interpreter) before its commit, and the four opening permits.
- Configuration, tool definitions, `explain`, help text, the command line and the 2.x Python modules.
- EffectJournal.WriteAhead: is for a ticket counter that has not saturated, which takes 2^64 - 1 tickets in one process; SaturationSkipsTheWrite and WriteAheadUnlessStale say exactly what is left then, for a state no run here is shown to reach.
- EffectJournal.PersistedMeansWritten: same condition, same reason.
- SourceHistory.TotalStaysExact: is hypothetical, since the worker's one caller passes each run's own identifier.
- ArtifactMemory.MemoryBound: the 192 MiB bound holds for real bytes only when no append to a file still alive failed half-way; RealBytesUnbounded shows that without this there is none.
- RunSlot.GenerationGuard: generations are unbounded numbers, so the wrap-around of the 64-bit counter after 2^64 spawns is not modelled; the task of a background run is assumed to be polled at least once.
- Chunker.Upload: the pieces a JSON value is encoded into are any pieces; that they spell the value is the encoder's business.
- Text.CutAtBoundary: works on the encoding of one text, as a Rust string always is.
