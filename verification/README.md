# A verified model of the agent gateway

The repository is a gateway that drives model providers through tool-using runs, stores what happened per
session, indexes sessions in a catalog, and shows conversations page by page. This project models the parts of it
whose correctness spans several steps or several stores, and proves what they promise.

- **One run** (`Wire`, `Tools`, `RunGrammar`, `Run`, `RunProperties`). The controller is a class whose methods
  mirror the source's loops and early returns. A `Script` decides everything outside: provider events, sink
  answers, tool results and the moment of cancellation. The run writes a ghost trace of all it does to the outside.
  `RunAdmitted` proves, for every script, that the trace is accepted by one grammar automaton and that the result
  tells the truth about it; `RunProperties` derives the protocol properties from the grammar alone.
- **Replay** (`ReplayValues`, `Reconstruct`, `SampleRuns`, `ReadBack`, `HistoryPrefix`, `ReplayBuilder`, `SessionReplay`). The
  validating constructors, the reader of a stored run, the builder that compiles a session's history and checks every
  earlier selection against its digest. Writer and reader are joined twice: the stored records of a completed run rebuild
  exactly the exchanges that took place, or are refused, and which of the two is read off the run; and what any number of
  such runs wrote is prepared as exactly their exchanges in order.
- **Host shutdown** (`Host`). The gate and the tickets as classes, and a step system over all interleavings of
  submitting, finishing, cancelling, dropping and shutting down.
- **Catalog** (`Catalog`, `Creation`, `Repair`, `Refresh`). The two tables, the creation protocol across two stores with
  lost answers and crashes, the interruptible repair scan, and the monotone refresh.
- **Conversation display** (`Spelling`, `OrderKey`, `Projection`, `Chunks`, `Tokens`, `Cursors`, `Views`). Order keys,
  projection of responses with its authoritative fallback, UTF-8 chunking, cursors with one accepted spelling, and
  page chains.
- **Frontmatter** (`YamlEvents`, `Frontmatter`). The event stack machine against its recursive meaning, and the bounded
  header reader.

Conventions. A Rust string is its UTF-8 bytes (`Wire.Text`). Serde, trimming, UUID syntax in runs, SHA-256, the YAML scanner
and its scalar schema are functions handed in (`Wire.Codec`, `Cursors.Serde`, `HistoryPrefix.Hash`, `Frontmatter.Rules`) or
injective by construction (a creation request stands for its canonical JSON and hash). Integers are unbounded; where 64 bits
matter the bound is explicit (`Wire.u64`, `U64_MAX`). In a run every checked counter is modelled, and only the event sequence
can overflow: all others are proved to stay below it.

Where the code differs from what one would expect, the model follows the code:

- A refresh that publishes an older snapshot than the row already shows is answered with an integrity error, not with
  "unchanged"; the row stays (`Refresh.PublishExactly`).
- Reading a header may consume one byte more than 1 MiB. It does so exactly for the inputs described by
  `Frontmatter.Overlong` (`Frontmatter.ExceedsExactly`, with `Frontmatter.OneLongLine` as a family of such inputs).
- A run may complete and yet not be readable. The records of a completed run can be read back exactly when its provider was
  bound, the bound identity is of the run's own provider, no two turns have the same request id or the same turn id, and no
  reasoning or message item of its responses carries a function call (`ReadBack.ReadsBackExactly` with
  `ReadBack.GrantedExactly`). The controller checks none of these; turn ids are UUIDs that it draws itself.
  `ReadBack.UncleanRunCompletes` and `ReadBack.RepeatedRequestIsRefused` give completed runs that are refused.
- Repair is not always independent of directory order. A command is stale when it names a valid session that carries
  another operation. The order matters exactly when some stale command names a session that shares its own operation with
  another valid session, and the surviving reservations are well formed (`Repair.OrderFreeExactly`);
  `Repair.RivalsDisagree` is the smallest such input.

## Model

| member | source | states |
|---|---|---|
| `Tools.ToolRegistry.Register` | src/tools.rs:63-71 | A tool is added exactly if its whole definition is valid (name, description length, object schema) and its name is not taken; cached results are untouched. |
| `Tools.ToolRegistry.FreshScope` | src/tools.rs:57-62 | A scope shares the tools and starts with no cached result. |
| `Tools.ToolRegistry.Preflight` | src/tools.rs:104-169 | Accepts exactly the completed responses all of whose items are plain or callable, with distinct ids, within the item limit, and agreeing with every cached result; then yields all calls in order and changes nothing. |
| `Run.Collector.Observe` | src/run/collect.rs:13-69 | Accepts a provider event exactly when the grammar's hearing rule does (session, provider, request, increasing sequence, one response id, nothing after the terminal), and then records it. |
| `Run.State.Send` | src/run/mod.rs:122-144 | Delivers the next sequence number or fails; after a sink error or at the last sequence number nothing is delivered. |
| `Run.State.Report` | src/run/mod.rs:514-526 | Counts a dispatch or reuse, then reports it; no counter but the sequence can overflow. |
| `Run.State.Record` | src/run/mod.rs:528-551 | Hands over a fresh tool result for the current request, or notes the sink failure. |
| `Run.State.Dispatch` | src/tools.rs:225-300 | Announces, runs, records and reports one call whose id never began, caching the bounded output. |
| `Run.State.ReuseCall` | src/tools.rs:225-300 | Returns the identical cached output for an agreeing repeat without running the tool. |
| `Run.State.ExecuteNext` | src/tools.rs:225-300 | Takes the next due call, runs or reuses it, and leaves exactly the remaining calls due. |
| `Run.State.RunBatch` | src/run/mod.rs:463-512 | Runs the prepared calls to the end; results are the turn's results, counted one by one. |
| `Run.State.PrepareTools` | src/run/mod.rs:463-512 | A response becomes nothing more to do, or tool results for all its calls, or a stop with a reason. |
| `Run.State.CollectResponse` | src/run/mod.rs:419-461 | Forwards provider events until the terminal; what is collected is what the trace says was heard. |
| `Run.State.TakeTurn` | src/run/mod.rs:350-417 | One turn between its start and its report, keeping trace, counters and cache linked. |
| `Run.State.FinishTurn` | src/run/mod.rs:350-417 | Reports the turn; the run goes on only with all results of the turn as the next input. |
| `Run.State.Drive` | src/run/mod.rs:350-417 | Turn after turn, and it ends, because turns are counted below the event sequence. |
| `Run.State.OpenSession` | src/run/mod.rs:281-290 | Opens the provider session under the close guard. |
| `Run.State.Restore` | src/run/mod.rs:291-317 | Binds the provider identity before the first turn and refuses a foreign one. |
| `Run.State.Finish` | src/run/mod.rs:320-343 | Closes, then reports the end; events are complete exactly if that report was delivered. |
| `Run.CloseGuard.Close` | src/run/mod.rs:97-109 | Closes an armed session once and is idle afterwards. |
| `Run.RunAdmitted` | src/run/mod.rs:251-343 | For every script the trace is legal, an opened session was closed in it, and the result's outcome, identities, last response and completeness are those of the trace. Completed means attempted = admitted = turns started = turns finished and no result owed; complete events mean turns started = turns finished. |
| `RunProperties.SequencesAreConsecutive` | src/run/mod.rs:122-144 | Observed envelopes carry exactly 1, 2, 3, ... |
| `RunProperties.NothingAfterSinkFailure` | src/run/mod.rs:122-144 | After the first observer failure the run only closes its session. |
| `RunProperties.FinalReportIsLast` | src/run/mod.rs:320-343 | A delivered final report is the last step, so it is unique. |
| `RunProperties.ClosedOnce` | src/run/mod.rs:97-109 | A session is closed at most once, before any final report. |
| `RunProperties.OpenedIsClosedBeforeEnd` | src/run/mod.rs:97-109 | Between opening and a final report there is a close. |
| `RunProperties.FinishMatchesStart` | src/run/mod.rs:350-417 | A turn's finish pairs with the most recent start, with equal number and id and no other boundary between. |
| `RunProperties.TurnsDoNotNest` | src/run/mod.rs:350-417 | Between two starts the earlier turn finishes; numbers increase. |
| `RunProperties.ProviderSequencesIncrease` | src/run/collect.rs:13-69 | Forwarded provider sequences strictly increase over the whole run, across turns. |
| `RunProperties.OneResponsePerTurn` | src/run/collect.rs:13-69 | Within a turn: one request, one response id, and nothing after a terminal event. |
| `RunProperties.CountersAreConserved` | src/run/mod.rs:68-74 | At every step of a legal trace the conservation guard of the grammar holds (that a run meets it is `Run.RunAdmitted`), and attempts equal the generations so far. |
| `RunProperties.CompletedSummaryIsExact` | src/run/mod.rs:68-74 | In the summary of a completed run every counter is the number of steps of its kind in the trace: turns, generations, admissions, recorded results, reuses, and prepared results as finished plus reused calls. |
| `RunProperties.BeganOnce` | src/tools.rs:225-300 | A tool begins at most once per call id in a run. |
| `RunProperties.AllOrNothing` | src/tools.rs:104-169 | Any tool work is preceded in its turn by a response that passed preflight as a whole, and no call still due contradicts a cached result. |
| `RunProperties.SentResultIsSaved` | src/tools.rs:225-300 | Every tool result sent to the provider is the cached output of its id, at most 64 KiB. |
| `RunProperties.SameIdSameOutput` | src/tools.rs:225-300 | Two requests that answer one call id give the identical output. |
| `RunProperties.RecordedIsFinal` | src/tools.rs:225-300 | What was recorded for an id is what every later request says. |
| `ReplayValues.ValidateResponse` | src/provider/replay.rs:268-300 | The id-set loop accepts exactly the valid responses. |
| `ReplayValues.NewExchange` | src/provider/replay.rs:235-256 | Succeeds exactly if the response is valid and the results answer its calls one by one, in order. |
| `ReplayValues.NewConversation` | src/provider/replay.rs:110-136 | Succeeds exactly if provider and model are admissible, an expected identity fits, runs have one, and run ids are distinct. |
| `ReadBack.CompletedRunIsReplayable` | src/run/mod.rs:350-512 | A completed run's exchanges form a valid replay run, all but the last have results, the last has none, and each is a valid exchange if and only if its response is clean. |
| `ReadBack.CompletedRunReadsBack` | src/execution/replay/reconstruct.rs:63-542 | If a completed run was bound to its own provider, has distinct request and turn ids and clean responses, and all its events are stored, the reader accepts every record, closes the run with exactly the exchanges that took place, accepts the stored result, and finds its evidence in order. |
| `ReadBack.UncleanIsRefused` | src/execution/replay/reconstruct.rs:331-362 | A stored response with a function call in a reasoning or message item makes the reader refuse the records, whatever precedes and follows it. |
| `ReadBack.ReadsBackExactly` | src/execution/replay/reconstruct.rs:63-542 | The records of a completed run, whether or not its final report was delivered, are accepted if and only if its provider was bound and every step is granted: its request id or turn id is new, the bound provider is its own, its response is clean. |
| `ReadBack.GrantedExactly` | src/execution/replay/reconstruct.rs:170-200 | Every step is granted if and only if request ids are pairwise distinct, turn ids are pairwise distinct, the bound identity is of the run's provider, and all responses are clean. |
| `ReadBack.UncleanRunCompletes` | src/run/mod.rs:350-512 | For every configuration and any well-formed ids there is a legal, completed run with all events delivered and all ids fresh whose one response is unclean, so that its exchange is invalid and its records are refused. |
| `ReadBack.TwoTurnsReadBackExactly` | src/run/mod.rs:350-512 | For any callable tool and any well-formed ids there is a legal, completed run of two turns with clean responses; its records are accepted if and only if the two request ids differ, the two turn ids differ, and the bound provider is its own. |
| `ReadBack.RepeatedRequestIsRefused` | src/run/mod.rs:376-392 | With one request id in both turns that run still completes, and its records are refused. |
| `ReadBack.ProviderWasAskedTheConversation` | src/run/mod.rs:350-417 | A completed run asked the provider exactly the prompt and then the results of each exchange but the last. |
| `ReadBack.ValidIffClean` | src/provider/replay.rs:268-300 | For a response a turn can complete with, being valid for replay is exactly being clean. |
| `Reconstruct.ActiveRun.Close` | src/execution/replay/reconstruct.rs:301-329 | A closed run keeps the run's id and its selected history and has not seen a result. |
| `Reconstruct.ClosedRun.Result` | src/execution/replay/reconstruct.rs:447-492 | An accepted result changes nothing but that it was seen. |
| `ReplayBuilder.Builder.Observe` | src/execution/replay.rs:195-244 | One stored event moves the builder as the specification function says, and keeps the index exact. |
| `ReplayBuilder.Builder.Inside` | src/execution/replay.rs:214-241 | An event of the active run: selection, binding, runtime record, tool result or interruption. |
| `ReplayBuilder.Builder.CloseActive` | src/execution/replay.rs:246-256 | The active run becomes the last closed one and is indexed at its place. |
| `ReplayBuilder.Builder.Result` | src/execution/replay.rs:258-271 | A result closes the active run if it is its own, and is checked against the indexed closed run. |
| `ReplayBuilder.HistoryIsIndexed` | src/execution/replay.rs:185-271 | After any accepted history the id index is the exact inverse of the closed runs, the active run is in neither, and runs stand in the order they were accepted. |
| `ReplayBuilder.CompiledRunsShareOneIdentity` | src/execution/replay.rs:125-165 | All included runs were bound to the one resulting identity; every closed run is either replayed in order or excluded. |
| `ReplayBuilder.CompiledIsConversation` | src/execution/replay.rs:174-176 | The final conversation is valid whenever the empty one was. |
| `ReplayBuilder.CompileRuns` | src/execution/replay.rs:125-165 | The identity fold computes the compiled conversation, with every refusal. |
| `ReplayBuilder.ReadPage` | src/execution/replay.rs:94-100 | Records of a page are observed in sequence and below the captured head. |
| `ReplayBuilder.ReadHistory` | src/execution/replay.rs:93-111 | Pages are read until the store has no more, each continuing the last. |
| `ReplayBuilder.Prepare` | src/execution/replay.rs:76-183 | Returns the compiled replay, the digest of the rows read and the selection made of it; the last two constructors run and never refuse. |
| `ReplayBuilder.SelectionsAttestTheHistory` | src/execution/replay.rs:118-124 | The new selection, and the selection of every run in the history, names exactly the rows that its digest is the hash of. |
| `HistoryPrefix.Expectations` | src/storage/history_prefix.rs:23-34 | The map of expected digests exists exactly if every checkpoint is in range, is a digest, and contradicts no other. |
| `HistoryPrefix.Digest` | src/storage/history_prefix.rs:15-69 | One streaming pass answers exactly when the prefix is gapless and every checkpoint is the hash of the rows up to it. |
| `ReplayBuilder.PreparedIsTheHistory` | src/execution/replay.rs:76-183 | A prepared replay covers events 1 to the head with no run open; its runs are those accepted that exchanged anything, in order, under one identity, forming a valid conversation. |
| `SessionReplay.FoldsRun` | src/execution/replay.rs:185-271 | The stored entries of a completed, readable run (acceptance, selection, records, result) are accepted by the builder and add exactly that run, closed, with its exchanges, selection, binding and evidence. |
| `SessionReplay.SessionRoundTrip` | src/execution/replay.rs:76-183 | The log of any number of completed, readable runs of one session, paged in any way, is prepared as exactly their exchanges, run by run, none excluded, with the selection that names the whole log. |
| `SessionReplay.NextRunContinues` | src/execution/replay.rs:166-183 | The selection handed out is the one under which the next such run extends the session, so the round trip holds again after it. |
| `Host.GateCell.Register` | src/service/mod.rs:174-250 | Registers exactly what the gate does not refuse. |
| `Host.GateCell.CloseGate` | src/service/mod.rs:252-260 | Closes once; only the call that closed must start the coordinator, and all live work is cancelled. |
| `Host.GateCell.Finish` | src/service/mod.rs:305-323 | Retires a worker; a lost one closes the gate, cancels all live work if it was the first to close, and then owes the coordinator. |
| `Host.GateCell.Cancel` | src/service/mod.rs:150-166 | Cancels exactly the addressed live work. |
| `Host.TicketCell.PublishAcceptance` | src/service/tickets.rs:75-81 | Acceptance is written once and never after completion. |
| `Host.TicketCell.PublishCompletion` | src/service/tickets.rs:83-89 | Completion is written once. |
| `Host.InvStep` | src/service/mod.rs:174-360 | Every step keeps the invariant: one coordinator spawned or owed, the gate tracks the live workers, losses are known, outcomes are justified. |
| `Host.OneCoordinator` | src/service/mod.rs:252-295 | At most one coordinator is spawned in any execution. |
| `Host.NothingRegistersAfterClosing` | src/service/mod.rs:174-268 | Once closing, nothing registers and every live worker has been cancelled. |
| `Host.ClosedMeansDrained` | src/service/mod.rs:270-360 | `Closed` is published only when every registered worker retired and published its completion, none was lost, and storage is closed. |
| `Host.OutcomeIsFinal` | src/service/mod.rs:333-360 | A published outcome never changes. |
| `Host.TicketsAreFinal` | src/service/tickets.rs:49-91 | The answer of a ticket never changes. |
| `Catalog.EntryRowsExactly` | src/storage/catalog_ops.rs:218-268 | A named session has an entry exactly if its row is readable and may be shown and the one command that names it decodes and is consistent with it; the entry is these two. |
| `Catalog.UnnamedHasNoEntry` | src/storage/catalog_ops.rs:218-268 | A session that no command names has no entry. |
| `Catalog.CatalogStore.Reserve` | src/storage/catalog_ops.rs:319-372 | Idempotent for the same request, a conflict for another, a new creating reservation otherwise; keeps one command per session. |
| `Catalog.CatalogStore.Complete` | src/storage/catalog_ops.rs:374-408 | Turns a pending reservation of this provenance ready and accepted, or leaves the tables alone. |
| `Catalog.CatalogStore.Fail` | src/storage/catalog_ops.rs:410-452 | Turns a creating reservation of this provenance failed and unavailable, or leaves the tables alone. |
| `Creation.EmptyCatalogStarts` | src/storage/creation.rs:13-120 | An empty catalog beside any files is a state the protocol may start from. |
| `Creation.InvNext` | src/storage/creation.rs:13-120 | Every step of every interleaving, with any lost answer or crash, keeps catalog, files and calls coherent. |
| `Creation.OperationIsBoundForever` | src/storage/catalog_ops.rs:319-452 | An operation keeps its session and provenance forever and leaves the creating state at most once. |
| `Creation.DatabaseIsKeptForever` | src/storage/creation.rs:78-120 | A session database is never replaced or rolled back by creation. |
| `Creation.SuccessesAgree` | src/storage/creation.rs:13-76 | All successes of an operation, at any times, return one receipt for one request, and at most one call is not marked duplicate. |
| `Creation.AnswersAreFinal` | src/storage/creation.rs:13-76 | A returned answer never changes. |
| `Creation.ReadyIsMaterialized` | src/storage/creation.rs:13-120 | A ready session has one command, accepted, and a database that holds its provenance. |
| `Creation.ConflictExactly` | src/storage/catalog_ops.rs:331-345 | A repeated operation answers conflict exactly for another request, or when its creation failed with that code. |
| `Creation.RetrySettles` | src/storage/creation.rs:13-76 | From every reachable state a retry that runs undisturbed answers, and its answer is read off the state before it. |
| `Creation.MaterializingIsFaithful` | src/storage/creation.rs:78-120 | Materialization yields a database holding the provenance, and never touches one that exists. |
| `Creation.CompletingIsCoherent` | src/storage/catalog_ops.rs:374-408 | Completion makes row and command ready and accepted together, the row showing exactly the database. |
| `Creation.FailingIsCoherent` | src/storage/catalog_ops.rs:410-452 | Failure is recorded with its kind on command and row together. |
| `Creation.Store.Create` | src/storage/creation.rs:13-76 | An undisturbed call: its answer in every case, and the coherent stores it leaves. |
| `Creation.Store.Materialized` | src/storage/creation.rs:26-76 | The part under the session lock, ending accepted or failed. |
| `Repair.Maintenance.Register` | src/storage/catalog_repair.rs:290-340 | One validated database enters the catalog, or disputes its operation with an earlier one of this scan. |
| `Repair.Maintenance.RecordFault` | src/storage/catalog_repair.rs:342-362 | A bad database marks its row; an absent one is noted only if unknown. |
| `Repair.Maintenance.RejectBucket` | src/storage/catalog_repair.rs:364-370 | All known sessions of a rejected bucket become unavailable. |
| `Repair.Maintenance.Finish` | src/storage/catalog_repair.rs:372-399 | Fails on a malformed reservation, otherwise marks the unseen missing, counts, and ends the repair. |
| `Repair.Maintenance.Repair` | src/storage/catalog_repair.rs:61-139 | The scan loop with its checked 64-bit counters, interrupted, overflowing or complete: the tables it leaves and its report. |
| `Repair.ScanReflects` | src/storage/catalog_repair.rs:61-139 | Where no stale command names one of several rivals, after any visits in any order the tables are a closed form of the tables before, the files, and the set of visits. |
| `Repair.RepairConverges` | src/storage/catalog_repair.rs:61-139 | Under the same condition any attempts, interrupted or complete, then one complete scan: it succeeds exactly if the surviving reservations were well formed, and the catalog is the closed form of the tables before the first attempt. |
| `Repair.RepairsAgree` | src/storage/catalog_repair.rs:61-399 | Under the same condition two histories of repair over the same files end in the same rows, faults and counts, and in the same commands but for which claimant a disputed one names. |
| `Repair.OrderFreeExactly` | src/storage/catalog_repair.rs:61-399 | All complete listings of the files lead to agreeing catalogs or all fail, if and only if no stale command names one of several rivals or the surviving reservations are malformed. |
| `Repair.HarmfulDisagrees` | src/storage/catalog_repair.rs:290-340 | Where a stale command names one of several rivals there are two complete listings whose repaired catalogs do not agree. |
| `Repair.RivalsDisagree` | src/storage/catalog_repair.rs:290-340 | The smallest such input: two files of one operation, and a command of another operation that names the first. |
| `Repair.ClosesExactly` | src/storage/catalog_repair.rs:372-399 | For any claims, a complete repair succeeds exactly if the surviving reservations were well formed before it. |
| `Repair.SettledClassifies` | src/storage/catalog_repair.rs:290-399 | The final row of every session by what the files say of it: ready with its contents if it alone carries its operation, conflict if not, its fault if bad, unavailable in a rejected bucket, and otherwise kept only as a recoverable reservation or marked missing. |
| `Repair.ReadyHasOneCommand` | src/storage/catalog_repair.rs:290-340 | A ready session is named by exactly one command, accepted with its own provenance, and its entry can be read. |
| `Repair.HoldsExactly` | src/storage/catalog_ops.rs:271-304 | Whether the closing transaction succeeds is decided by the tables before the scan. |
| `Repair.ScanIsUnique` | src/storage/catalog_repair.rs:325-333 | Registering keeps one command per session whatever the claims. |
| `Refresh.RowCell.Publish` | src/storage/catalog_sync.rs:71-128 | Every check of publishing, the refusal while a repair is required, and the row it leaves. |
| `Refresh.PublishExactly` | src/storage/catalog_sync.rs:71-128 | On an append-only history newer snapshots update, the same is unchanged, older ones are refused. |
| `Refresh.RowIsAPastObservation` | src/storage/catalog_sync.rs:49-128 | Over all interleavings the row shows a past snapshot, whose place in the history never moves back. |
| `Refresh.RowNeverMovesBack` | src/storage/catalog_sync.rs:49-128 | Between any two moments the row is equal or advanced. |
| `Refresh.QuietRefreshCatchesUp` | src/storage/catalog_sync.rs:49-69 | A refresh during which the session does not change leaves the row equal to the session. |
| `OrderKey.PrintPreservesOrder` | src/conversation/primitives.rs:161-209 | Byte-lexicographic order of printed keys is the order of keys. |
| `OrderKey.ParseOfPrint` | src/conversation/primitives.rs:172-235 | Every key is read back from its spelling. |
| `OrderKey.PrintOfParse` | src/conversation/primitives.rs:172-235 | Only that spelling is read. |
| `OrderKey.OutputRangeExactly` | src/conversation/primitives.rs:141-145 | The half-open range of an output holds exactly the printed keys of that output. |
| `OrderKey.SpellingIdentifiesSource` | src/conversation/primitives.rs:125-139 | Source spellings are equal exactly if the keys are, a fallback's placement aside. |
| `Projection.Parts` | src/conversation/projection.rs:107-145 | The loop over an array of parts appends exactly their display parts. |
| `Projection.ProjectItem` | src/conversation/projection.rs:52-105 | The parts of one item, by kind. |
| `Projection.ProjectResponse` | src/conversation/projection.rs:158-226 | Flatten, test representation, splice the fallback: the specification function. |
| `Projection.Splice` | src/conversation/projection.rs:200-221 | One pass that inserts the fallback at the first answer and drops covered answers. |
| `Projection.ProjectionAscends` | src/conversation/interpretation.rs:54-70 | The fields of every response have strictly increasing keys, wherever the fallback goes. |
| `Projection.ProjectionIsDisplayable` | src/conversation/projection.rs:158-226 | Printed keys ascend as strings and no two fields share a source spelling. |
| `Projection.FallbackLosesNothing` | src/conversation/projection.rs:158-226 | A fallback equal to the text appears, once, exactly if the answers do not represent it; other fields survive in order; only nonempty answers contained in the text are dropped; what is shown always represents the text. |
| `Views.ProjectionIsAdmitted` | src/conversation/values.rs:203-205 | Spellings of projected fields pass every check an entry makes on order keys. |
| `Chunks.CutIsText` | src/conversation/primitives.rs:272-276 | Text cut at a boundary is well-formed UTF-8 on both sides. |
| `Chunks.CutIsBounded` | src/conversation/primitives.rs:272-276 | A cut is nonempty, within the limit, and at most three bytes short of it unless it is the end. |
| `Chunks.ChunksPartition` | src/conversation/primitives.rs:266-286 | The chunks concatenate to the text, lie end to end, are well formed, 1 to 8192 bytes long, and all but the last at least 8189. |
| `Chunks.TextChunks.New` | src/conversation/primitives.rs:256-265 | An iterator exists exactly if the whole range fits 64 bits. |
| `Chunks.TextChunks.Next` | src/conversation/primitives.rs:266-286 | Yields the first chunk and leaves the rest, without overflow, until nothing remains. |
| `Chunks.TextChunks.Drain` | src/conversation/primitives.rs:266-286 | The iteration ends after exactly the chunks of the text. |
| `Cursors.EntryRoundTrip` | src/conversation/ids.rs:45-63 | Every entry id is read back from its spelling. |
| `Cursors.EntryIsCanonical` | src/conversation/ids.rs:45-58 | Only that spelling is read. |
| `Cursors.BlockRoundTrip` | src/conversation/cursors.rs:70-90 | Every block cursor is read back, and its spelling is short. |
| `Cursors.BlockIsCanonical` | src/conversation/cursors.rs:70-76 | Only that spelling is read. |
| `Cursors.ActivityRoundTrip` | src/conversation/cursors.rs:129-156 | Every activity cursor is read back, and its spelling is short. |
| `Cursors.ActivityIsCanonical` | src/conversation/cursors.rs:129-141 | Only that spelling is read. |
| `Cursors.ContentIsShort` | src/conversation/cursors.rs:168-198 | The size check of the constructor never fires. |
| `Cursors.ContentRoundTrip` | src/conversation/cursors.rs:222-255 | Every content cursor is read back. |
| `Cursors.ContentIsCanonical` | src/conversation/cursors.rs:222-237 | Only that spelling is read. |
| `Cursors.LiveRoundTrip` | src/conversation/cursors.rs:310-352 | Every live cursor is read back, and its spelling is short. |
| `Cursors.LiveIsCanonical` | src/conversation/cursors.rs:310-336 | Only that spelling is read. |
| `Cursors.ParsersAgree` | src/conversation/cursors.rs:17-42 | For any serde_json that writes plain strings unescaped and reads them back: parsing any array, writing it again and comparing the bytes accepts exactly the cursors of the one-pass parser, with the same values. |
| `Tokens.DecodeOfEncode` | src/conversation/cursors.rs:40-42 | Base64url without padding decodes what it encodes (section 5 of RFC 4648). |
| `Tokens.EncodeOfDecode` | src/conversation/cursors.rs:17-30 | Each byte string has one accepted encoding (section 3.5 of RFC 4648). |
| `Tokens.DecimalRoundTrip` | src/conversation/mod.rs:41-49 | Every 64-bit number is read back from its decimal spelling. |
| `Tokens.DecimalIsCanonical` | src/conversation/mod.rs:41-49 | Only that spelling is read. |
| `Views.UniqueIds` | src/conversation/values.rs:187-202 | The id set refuses exactly the repeated field ids. |
| `Views.OrderAscends` | src/conversation/values.rs:203-205 | The fields of an admitted entry carry strictly increasing order keys. |
| `Views.BlocksDescend` | src/conversation/values.rs:479-565 | Following previous blocks visits strictly earlier acceptances of the same session. |
| `Views.BlockChainEnds` | src/conversation/values.rs:479-565 | Such a chain ends, within the first acceptance sequence. |
| `Views.ActivityAscends` | src/conversation/values.rs:479-565 | Pages of earlier activity show one run, and their concatenation ascends strictly, so nothing repeats. |
| `Views.ActivityChainEnds` | src/conversation/values.rs:479-565 | Such a chain ends. |
| `YamlEvents.Parse` | src/context/frontmatter.rs:67-143 | The explicit-stack loop computes the run of the stack machine. |
| `YamlEvents.ParsedExactly` | src/context/frontmatter.rs:67-143 | A stream is accepted with a value exactly if, markers aside, it is the linearization of one mapping with unique string keys, no plain merge key and that meaning, in one document. |
| `YamlEvents.RunsNode` | src/context/frontmatter.rs:67-143 | Running the linearization of any tree delivers its meaning, or fails if it has none. |
| `YamlEvents.ReadIsSketch` | src/context/frontmatter.rs:67-143 | Whatever was read so far spells a half-read tree that the stack agrees with. |
| `Frontmatter.Line` | src/context/frontmatter.rs:39-52 | One line within the remaining budget, or the failure, and the bytes consumed. |
| `Frontmatter.ReadHeader` | src/context/frontmatter.rs:15-33 | The loop over lines computes the header and where reading stops. |
| `Frontmatter.HeaderConsumes` | src/context/frontmatter.rs:39-52 | At most one byte beyond 1 MiB is consumed, and that exactly when the answer is that the input is too large. |
| `Frontmatter.ExceedsExactly` | src/context/frontmatter.rs:15-52 | The inputs for which more than 1 MiB is consumed: a first line, or an opened header, that does not end within it. |
| `Frontmatter.HeaderLeavesTheBody` | src/context/frontmatter.rs:15-33 | A header that was read is an opening fence, lines without fences, and a closing fence, and exactly the body is left. |
| `Frontmatter.Read` | src/context/frontmatter.rs:15-209 | Succeeds exactly if the header was read, is text, parses and carries admissible metadata (name, description and the optional fields); the value is the meaning of the mapping it spells. |

## Left out

- Provider adapters, sockets, the async runtime and locks: they appear as scripts, steps and lock-holding phases.
- SQLite itself: a transaction is a function on two maps, with commit, commit-but-lost-answer and rollback as its outcomes.
- Error codes on the read side: every refusal of the reconstruction is `None`, whatever its code.
- Refresh.RowCell.Publish: failures of the catalog connection itself are not part of this cell.
- Repair.Maintenance.Repair: what validating one database does (history, digests, run projections) is the content of `Disk`; a scan stopped by a failure is one that ends after its last visit.
- SessionReplay.SessionRoundTrip: the runs of the session follow one another and all of them completed; logs with renames, interrupted runs or results that arrive late are covered by the builder theorems, which start from an accepted history.
- Creation.RetrySettles: says what an undisturbed retry answers, not that the scheduler lets one run.
- ReplayBuilder.Prepare: that SHA-256 has no collisions is not assumed, so a digest identifies rows only up to hash equality; all that is asked of it is that it yields 64 hexadecimal digits. The canonical JSON of a row is handed in.
- Cursors.ParsersAgree: serde_json itself is handed in, with its behaviour on plain strings as the only assumption.
- Frontmatter.Read: the scanner, the scalar schema and Unicode trimming are functions handed in.
- Views.OrderAscends: recorded states, outcomes and summaries of entries and blocks are not fields of the model, because no constructor constrains them.
- `ConversationChanges`, `EntryPage`, `EntryChange`, `SafeCode`, wire DTOs, streamed-delta keys, session listing, config parsing and debug redaction: single-step conversions and checks that nothing above depends on.
- Filesystem safety, symlink checks and skill discovery: external state.
