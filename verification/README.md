# Unpacking, storing, paging and synchronising contracts

A Dafny model of the parts of the inspector that decide what ends up in the contracts table and
what a reader or a restarted process makes of it, together with proofs about every input, every
run and every interleaving.

| file | modules | what it models |
|---|---|---|
| `Base.dfy`, `Codec.dfy` | `Base`, `BigEndian`, `Base64Url`, `Cursor` | 64-bit conversions; page cursors: base64url (RFC 4648, sections 4 and 5) over the gob form of `big.Int` |
| `Machine.dfy` | `Machine` | the generic state machine: its loop in atomic steps, with Pause and Resume between any two of them, and the imperative `StateMachine` |
| `Contracts.dfy` | `Stages`, `Contracts` | the contracts table with AUTOINCREMENT ids and the UNIQUE key, statement by statement |
| `Unpacker.dfy` | `Unpacker`, `UnpackerObjects` | the handlers of the pipeline as functions, and as methods on the descriptor object proved to do the same |
| `Meanings.dfy` | `Meanings` | what each handler does to every field of any descriptor, to the table and to the outside world, said of its inputs |
| `Pipeline.dfy` | `Pipeline`, `PipelineObjects` | the handlers registered on the machine: termination, dependency safety, `Unpack`; and a run on the descriptor object that calls the handler methods |
| `FreshRuns.dfy` | `FreshRuns` | runs on a fresh descriptor: histories, completed and failed lists, what is written |
| `Story.dfy` | `Story` | an undisturbed run told in a straight line from its answers, and the proof that the machine does exactly this |
| `StoreRuns.dfy` | `SequentialRuns` | runs one after another as operations on a map |
| `ConcurrentRuns.dfy` | `ConcurrentRuns` | any number of runs interleaved statement by statement on one table |
| `Races.dfy` | `SoloRuns`, `Races` | one process left to itself is the run; exactly when an entry is stored and a completed row is safe |
| `Pagination.dfy` | `Pagination`, `PagingWhileUnpacking` | the keyset query, and a client walking the pages while runs write |
| `SyncState.dfy` | `SyncState` | the sync descriptor in memory and its bytes in Redis |
| `Archive.dfy` | `Archive`, `ArchiveObjects` | archive sync over crashes and restarts, and the subscriber's `Start` |

Everything outside the repository's own logic is an answer the model is given: `Answers` holds what
solgo, SQLite, the disk, the configuration and the clock tell one handler call; `Surroundings` holds
what one `Start` meets. The theorems quantify over all such answers. State names are the
constructors of `Stage`, with `Unset` for the empty name and `Other` for any further one.

Results that a reader may not expect of the code:

- The UPDATE after a lost INSERT race carries id 0 and touches no row, yet the run lists its final
  stage as completed (`ConcurrentRuns.FallbackIsIdle`). Two runs on one new key come to this
  (`Races.LostRaceIsReached`); a run's entry is stored in exactly the other cases
  (`Races.StoredExactly`).
- Concurrent runs can undo a completed row: three runs on one key do it from any table
  (`Races.CompletedRowUndone`, with all values given in `Races.RacesFromAnEmptyTable`). It stays
  completed under every interleaving if and only if no run under way holds it and has failed a stage
  or can still fail one (`Races.StaysCompletedExactly`), and it stays the same row if and only if no
  run under way holds it at all (`Races.CompletedRowIsSafeExactly`); runs that begin later never
  touch it.
- Resumption can skip blocks of a range that holds negative numbers, because the node may take such
  a number as a tag, and the number of the block behind the tag is remembered. The attempts are
  contiguous exactly when no block of the range but the last is a tag
  (`Archive.ResumptionIsRightExactly`).
- The progress figure can leave 0..100 over a range that starts below zero, because the start loses
  its sign in Redis or a tag overshoots the end (`Archive.FiguresAreHonestExactly`).
- A page asked for with a limit below 1 never has a next page (`Pagination.LowLimitEndsTheWalk`).
- A handler failure ends the Process call with nil and without running the error handler
  (`Machine.CallIsExplained`).
- Redis keeps magnitudes only, so a field comes back after a restart if and only if its last value
  was not negative (`SyncState.RestartRebuildsAField`, `SyncState.NegativeValuesLoseTheirSign`).
- The comments in the handlers say that a redirected run comes back to the state that redirected it;
  the code sets the next state to metadata in every handler, and so does the model.

## Model

| member | source | states |
|---|---|---|
| `BigEndian.BytesRoundTrip` | pkg/state/state.go:29-47 | reading back the big-endian bytes of any natural number gives the number, zero as the empty string included |
| `BigEndian.BytesIsTheCanonicalForm` | pkg/state/state.go:29-47 | a byte string is the written form of the number it reads as if and only if it has no leading zero |
| `BigEndian.FirstByteWeighsMost` | pkg/state/state.go:39-47 | the bytes are read with the most significant one first |
| `Base64Url.Base64RoundTrip` | pkg/models/utils.go:8-21 | base64url decoding with padding undoes encoding on every byte string, for every length modulo three |
| `Base64Url.AlphabetIsUrlSafe` | pkg/models/contracts.go:53-56 | the 64 symbols are the URL-safe ones in their order, and no other character has a value |
| `Base64Url.ThreeBytesSpell` | pkg/models/contracts.go:53-56 | a full group of symbols spells the number of its three bytes |
| `Base64Url.TwoBytesSpell` | pkg/models/contracts.go:53-56 | two bytes are spelled with two zero bits behind and one padding character |
| `Base64Url.OneByteSpells` | pkg/models/contracts.go:53-56 | one byte is spelled with four zero bits behind and two padding characters |
| `Base64Url.GroupsJoin` | pkg/models/contracts.go:53-56 | groups of three bytes are encoded one after the other |
| `Base64Url.DecodesExactly` | pkg/models/utils.go:8-12 | a string decodes if and only if, line breaks aside, it is whole groups of symbols with padding at the end only |
| `Base64Url.NewlinesAreSkipped` | pkg/models/utils.go:8-12 | line breaks are skipped wherever they stand, and nothing else is |
| `Cursor.GobRoundTrip` | pkg/models/utils.go:8-21 | the sign and version byte with the magnitude undo themselves on every integer, negative ones included |
| `Cursor.CursorRoundTrip` | pkg/models/contracts.go:53-56 | for every int64 id the cursor decodes without error to that id |
| `Cursor.CursorsAreUnique` | pkg/models/contracts.go:53-56 | different ids never share a cursor |
| `Cursor.CursorIsAcceptedExactly` | pkg/models/utils.go:8-21 | a cursor is accepted if and only if its text decodes to nothing or to version 1 with a sign, and is then that signed magnitude |
| `Cursor.CursorsAsText` | pkg/models/contracts.go:53-56 | the cursors of 0, 1 and -1 as text |
| `Machine.MachineStaysSound` | pkg/machine/machine.go:106-179 | over any number of calls with Pause and Resume anywhere: history equals processedStates, is not empty and ends in the current state; nil is returned only in the final state or a registered error state |
| `Machine.EntryIsDecided` | pkg/machine/machine.go:130-177 | over any sequence of calls each appended entry is what the handler of the state before it decided on the very data the machine carried then: its choice, or the error state when it failed, which returned nil at once |
| `Machine.CallIsExplained` | pkg/machine/machine.go:133-177 | within one call the same, from entry to entry; and an entry whose handler failed is the last one, with nil returned |
| `Machine.AbortedTurnAddsNothing` | pkg/machine/machine.go:107-128 | a call that returns an error or panics began its last turn with the history it ends with |
| `Machine.HandlerMeans` | pkg/machine/machine.go:130-166 | a handler moves on if and only if Enter, Process and Exit go well and the chosen state is welcome; which data and which error each other case leaves |
| `Machine.TurnStops` | pkg/machine/machine.go:108-128 | a turn stops as paused, final, invalid or cancelled, asked in this order, and changes nothing else |
| `Machine.TurnMovesOn` | pkg/machine/machine.go:168-177 | a turn whose handler moves on appends that state to both lists, and returns nil only in the final state |
| `Machine.TurnFails` | pkg/machine/machine.go:135-166 | a failing handler ends the call in the error state with nil, or with its error when none is registered |
| `Machine.PauseStopsTheMachine` | pkg/machine/machine.go:203-214 | after a Pause that no Resume follows at most one more entry is appended, over any later steps and calls |
| `Machine.TurnsAreTraces` | pkg/machine/machine.go:107-178 | whole turns of the loop, with Pause or Resume before any of their parts, are traces of the atomic steps of one call |
| `Machine.TurnsAreSound` | pkg/machine/machine.go:106-179 | so after any number of turns the lists agree, nil means the final or the error state, and every entry is explained |
| `Machine.ReturnedStaysReturned` | pkg/machine/machine.go:106-179 | what a call returned, its history and its data do not depend on how long one looks |
| `Machine.PlainTurnsAreTurns` | pkg/machine/machine.go:133-166 | with Enter and Exit passing the data through, the loop reduces to the handlers' choices, for any number of turns |
| `Machine.StateMachine.constructor` | pkg/machine/machine.go:28-38 | a new machine has the initial state as its whole history and nothing registered |
| `Machine.StateMachine.RegisterState` | pkg/machine/machine.go:41-45 | one more handler, the others kept |
| `Machine.StateMachine.RegisterFinalState` | pkg/machine/machine.go:48-53 | the final state is replaced |
| `Machine.StateMachine.RegisterErrorState` | pkg/machine/machine.go:56-64 | accepted if and only if the state has a handler; a refusal keeps the old error state |
| `Machine.StateMachine.Pause` | pkg/machine/machine.go:203-207 | the machine is paused and nothing else changes |
| `Machine.StateMachine.Resume` | pkg/machine/machine.go:210-214 | the machine is running again and nothing else changes |
| `Machine.StateMachine.MoveTo` | pkg/machine/machine.go:233-241 | the state is appended to both lists and becomes current |
| `Machine.StateMachine.RunHandler` | pkg/machine/machine.go:130-166 | Enter, Process, check and Exit leave exactly the data and verdict of the specification, on every failure path |
| `Machine.StateMachine.TakeTurn` | pkg/machine/machine.go:108-177 | one turn of the loop leaves the machine where the turn semantics does, whatever falls between its parts |
| `Machine.StateMachine.Process` | pkg/machine/machine.go:106-179 | after any number of turns, finished or still running, the machine and its result are those of the turn semantics; history equals processedStates and ends in the current state, nil is returned only in the final or error state, and every entry it added is explained by the data carried |
| `Contracts.InsertKeeps` | pkg/models/contracts.go:224-290 | an INSERT succeeds if and only if the key is new and an id is left, reports a UNIQUE violation if and only if the key is taken, and keeps all other rows |
| `Contracts.UpdateKeeps` | pkg/models/contracts.go:293-380 | an UPDATE with id and key of one row rewrites that row except id and created_at, and no other |
| `Contracts.UpdateOfUnsavedIsIdle` | pkg/models/contracts.go:293-380 | an UPDATE with id 0 matches no row and is no error |
| `Contracts.UpdateCollides` | migrations/sqlite3/contracts.sql:34 | an UPDATE with one row's id and another's key is a UNIQUE violation and changes nothing |
| `Contracts.CompletedMeans` | pkg/models/contracts.go:70-72 | completed means processed and not partial |
| `Contracts.LookupIsUnique` | migrations/sqlite3/contracts.sql:34 | the lookup by key finds the one row that has it |
| `Contracts.ContractStore.GetContractByUniqueIndex` | pkg/models/contracts.go:75-147 | the row with the key, or none |
| `Contracts.ContractStore.SaveContract` | pkg/models/contracts.go:224-290 | the table object after an INSERT, with each of its failures |
| `Contracts.ContractStore.UpdateContract` | pkg/models/contracts.go:293-380 | the table object after an UPDATE by id, with each of its failures |
| `Unpacker.EntryOf` | pkg/unpacker/storage.go:26-71 | the entry column by column: key, hashes, what is known of the contract, lists, flags, and id and times of a known or an unknown contract |
| `UnpackerObjects.Descriptor.constructor` | pkg/unpacker/descriptor.go:33-42 | a new descriptor is fresh |
| `UnpackerObjects.Descriptor.HasCompletedState` | pkg/unpacker/descriptor.go:104-112 | true if and only if the state is in the completed list |
| `UnpackerObjects.Descriptor.HasFailedState` | pkg/unpacker/descriptor.go:134-142 | true if and only if the state is in the failed list |
| `UnpackerObjects.Descriptor.AppendCompletedState` | pkg/unpacker/descriptor.go:118-126 | the state is listed, never twice, and nothing else changes |
| `UnpackerObjects.Descriptor.AppendFailedState` | pkg/unpacker/descriptor.go:148-156 | the state is listed, never twice, and nothing else changes |
| `UnpackerObjects.Descriptor.RemoveFailedState` | pkg/unpacker/descriptor.go:158-166 | every occurrence is gone, the rest keeps its order |
| `Base.WithoutJoins` | pkg/unpacker/descriptor.go:158-166 | removing a state from two lists joined is removing it from each, so order and other entries stay |
| `Base.WithoutOne` | pkg/unpacker/descriptor.go:158-166 | a single entry is removed if and only if it is that state |
| `UnpackerObjects.Handlers.Discover` | pkg/unpacker/discover.go:40-128 | descriptor, table, next state and outside calls are those of the discovery step: three refusals, lookup, early done, pending next state |
| `UnpackerObjects.Handlers.DecodeMetadata` | pkg/unpacker/metadata.go:28-64 | the metadata step, redirect included |
| `UnpackerObjects.Handlers.FindSources` | pkg/unpacker/providers.go:46-125 | the providers step: local copy, then outside providers, then the lists |
| `UnpackerObjects.Handlers.ConfirmSources` | pkg/unpacker/sources.go:26-40 | the sources step |
| `UnpackerObjects.Handlers.Parse` | pkg/unpacker/parser.go:28-63 | the parser step |
| `UnpackerObjects.Handlers.FindConstructor` | pkg/unpacker/constructor.go:27-60 | the constructor step, which lists nothing |
| `UnpackerObjects.Handlers.GetContractEntry` | pkg/unpacker/storage.go:26-71 | the entry built field by field is the specified one |
| `UnpackerObjects.Handlers.Store` | pkg/unpacker/final.go:47-92 | INSERT with its fallback or UPDATE: the table, the outcome and the statements issued |
| `UnpackerObjects.Handlers.Finalize` | pkg/unpacker/final.go:31-126 | the final step: processed flag, statements, sources on disk, outcome in the lists |
| `UnpackerObjects.Handlers.ReportError` | pkg/unpacker/error.go:37-50 | the error step changes nothing and leads to done |
| `UnpackerObjects.Handlers.Call` | pkg/unpacker/machine.go:7-28 | each registered state has its handler |
| `Meanings.WithoutDiscovery` | pkg/unpacker/metadata.go:32-35 | every handler but discovery and error leads back to discovery until it is completed, and sets metadata as the next state |
| `Meanings.ErrorChangesNothing` | pkg/unpacker/error.go:37-50 | the error handler changes nothing and leads to done |
| `Meanings.DiscoveryRefuses` | pkg/unpacker/discover.go:43-86 | discovery fails if and only if header, transaction or receipt is missing or the lookup fails, and what it leaves then |
| `Meanings.DiscoveryLeadsOn` | pkg/unpacker/discover.go:64-127 | otherwise the row found, whether the contract is valid, the completed list, and the pending state taken once, or done exactly for a completed row that is not forced |
| `Meanings.KeyIsItsColumns` | pkg/unpacker/discover.go:71 | the key is network, block number and address, for numbers of 64 bits |
| `Meanings.MetadataMeans` | pkg/unpacker/metadata.go:37-61 | metadata is decoded for a live contract that has none; its outcome in what is known and in the lists |
| `Meanings.ProvidersMean` | pkg/unpacker/providers.go:59-122 | when the local copy and the providers are asked, what is known of the contract afterwards, and when an earlier failure is taken back |
| `Meanings.SourcesMean` | pkg/unpacker/sources.go:35-39 | the sources stage lists itself unless it failed before |
| `Meanings.ParserMeans` | pkg/unpacker/parser.go:37-60 | sources are parsed if there are any; a failure is listed, a success takes an earlier one back |
| `Meanings.ConstructorMeans` | pkg/unpacker/constructor.go:38-59 | the constructor is looked at if there is one, and nothing is listed |
| `Meanings.FinalMeans` | pkg/unpacker/final.go:41-125 | the entry, the statements with their fallback, the sources on disk, and Final failed if and only if it had before, or the last statement or the disk failed |
| `Meanings.StatementsSucceedExactly` | pkg/unpacker/final.go:47-92 | when the last statement succeeds, said of the table and the answers |
| `Meanings.PanicCutsShort` | pkg/unpacker/unpack.go:10-37 | a panic cuts the outside calls of a handler short and changes none of them |
| `Meanings.PanicsWhereTold` | pkg/unpacker/unpack.go:10-37 | a handler that panics at once has done nothing; one that panics in a call to solgo has made that call and no other since |
| `Pipeline.RunIsTheMachine` | pkg/unpacker/machine.go:7-28 | the turn-by-turn pipeline is the generic machine with the registered handlers |
| `Pipeline.RegisterMachineStates` | pkg/unpacker/machine.go:7-28 | it succeeds, and registers exactly the eight handlers, the error state and the final state |
| `Pipeline.TurnSpendsBudget` | pkg/unpacker/discover.go:104-127 | every turn ends the call or strictly lowers a measure over stage, pending next state and completed list, whatever they hold |
| `Pipeline.EveryRunTerminates` | pkg/machine/machine.go:106-179 | from any start state and any descriptor contents, every run is over within nine turns and nine history entries |
| `Pipeline.RunsWithoutWork` | pkg/machine/machine.go:113-121 | a run started in done or in a state without a handler changes nothing; one started in error calls the error handler alone |
| `Pipeline.NoWorkBeforeDiscovery` | pkg/unpacker/final.go:36-39 | on every run each outside call other than the lookup, those that end in a panic included, was made in a turn that began with discovery completed |
| `Pipeline.Unpack` | pkg/unpacker/unpack.go:10-37 | building, registering and running the machine returns the world and result of the run, and always returns |
| `PipelineObjects.Unpacking.Unpack` | pkg/unpacker/unpack.go:10-37 | running the handler methods on the descriptor object leaves the descriptor, table, outside calls, history and result of the run |
| `FreshRuns.FreshRunStaysOnItsWay` | pkg/unpacker/discover.go:40-128 | the inductive invariant of fresh runs: history, lists, subject and table are exactly those of the place on the chain |
| `FreshRuns.FreshRunHistory` | pkg/machine/machine.go:124-128 | a run that returned nil has one of the three complete histories; one cut short by its context or a panic shows a prefix of the long one |
| `FreshRuns.FreshRunCompletes` | pkg/machine/machine.go:106-179 | without cancellation or panic a run returns nil with a complete history |
| `FreshRuns.FreshRunIsForetold` | pkg/unpacker/discover.go:43-127 | which of the three histories it is, decided by the descriptor, the row in the table and the configuration; it writes exactly on the long one |
| `FreshRuns.FreshRunLists` | pkg/unpacker/descriptor.go:104-178 | in every state the lists are duplicate-free and disjoint; after the final stage each of metadata, parser and final is in exactly one, discovery, providers and sources are completed, the constructor is in neither |
| `FreshRuns.FreshRunWrites` | pkg/unpacker/final.go:43-92 | every write follows the lookup of its own key in the same run, carries id 0 or the id found, the creation time found or now, what the run knows of the contract, the hashes of its block and transaction and the lists of the chain before the final stage, and is completed exactly when neither metadata nor parser failed |
| `FreshRuns.EntryIsHonest` | pkg/unpacker/storage.go:57-60 | an entry at the final stage is completed if and only if metadata and parser did not fail |
| `Story.RunIsAsTold` | pkg/unpacker/unpack.go:10-37 | an undisturbed run makes exactly the outside calls, comes to exactly the knowledge, failures and row, column by column, that a straight-line account of its answers tells, wherever it was started |
| `Story.StatementsOfARun` | pkg/unpacker/final.go:47-92 | on a sound table such a run issues one statement, and when that succeeds |
| `SequentialRuns.ContentsAnswerLookups` | pkg/models/contracts.go:75-147 | the table stands for the map its lookups describe |
| `SequentialRuns.InsertIsPut` | pkg/models/contracts.go:224-290 | an INSERT of a new key is a map put under a fresh id |
| `SequentialRuns.UpdateIsPut` | pkg/models/contracts.go:293-380 | an UPDATE by the id found is a map put that keeps id and creation time |
| `SequentialRuns.RunRefinesPut` | pkg/unpacker/final.go:47-92 | a whole run leaves the table alone or puts the entry it issued, keyed by network, block and address; while the statements work it puts it |
| `SequentialRuns.UndisturbedRunPuts` | pkg/unpacker/discover.go:71-99 | for a run nothing disturbs, when it leaves the table alone and when it puts, decided before it starts, and every column of the entry put |
| `SequentialRuns.CompletedRowsStay` | pkg/unpacker/discover.go:95-99 | over any sequence of fresh runs without forced reprocessing a completed row stays as it is |
| `ConcurrentRuns.FinalIsItsStatements` | pkg/unpacker/final.go:47-92 | the final handler is its SQL statements run without interruption |
| `ConcurrentRuns.InterleavingKeeps` | services/syncer/interceptors.go:80-133 | under every interleaving of runs' statements the table keeps one row per key and every row its id, key and creation time |
| `ConcurrentRuns.KeysKeepTheirRow` | migrations/sqlite3/contracts.sql:3-34 | once a key answers, it answers after any further events with the same id and creation time |
| `ConcurrentRuns.FallbackIsIdle` | pkg/unpacker/final.go:48-63 | in every reachable state the UPDATE after a lost race changes no row, and the run lists its final stage as completed unless something else went wrong |
| `SoloRuns.AloneIsTheRun` | services/syncer/interceptors.go:80-133 | a process of the concurrent system left to itself comes to the descriptor and table of the pipeline's run after any number of turns, cancellation included |
| `Races.StoredExactly` | pkg/unpacker/final.go:47-92 | with working statements the first one falls back if and only if the key was looked up in vain and is taken by now, and then changes nothing; otherwise the key's row is the run's entry |
| `Races.LostRaceIsReached` | pkg/unpacker/final.go:48-63 | from any table without the key two runs reach the fallback, and the loser ends with its final stage completed and nothing stored |
| `Races.OnlyHoldersRewrite` | pkg/models/contracts.go:293-380 | no step changes the row of a taken key but the UPDATE of a run that holds it |
| `Races.HolderRewrites` | pkg/unpacker/final.go:78-92 | that UPDATE makes the row the run's entry, completed if and only if the run failed no stage |
| `Races.CompletedSurvivesStep` | pkg/unpacker/final.go:78-92 | a completed row stays completed over a step if and only if the step is not the UPDATE of a run that holds it with a failed stage |
| `Races.UnheldStays` | pkg/unpacker/discover.go:95-99 | while no run under way holds it, a completed row is unchanged by every unforced interleaving, and nobody comes to hold it |
| `Races.CompletedRowIsSafeExactly` | pkg/unpacker/discover.go:95-99 | a completed row is unchanged by all unforced interleavings if and only if no run under way holds it |
| `Races.UnthreatenedStays` | pkg/unpacker/final.go:78-92 | while every run that holds it has failed nothing and can fail nothing more, a completed row stays completed, and so does that condition |
| `Races.HolderCanUndo` | pkg/unpacker/parser.go:37-53 | a run that holds a completed row and can still fail a stage has a continuation that undoes it |
| `Races.StaysCompletedExactly` | pkg/unpacker/discover.go:95-99 | a completed row stays completed under all unforced interleavings if and only if no run under way holds it and has failed a stage or can still fail one |
| `Races.CompletedRowUndone` | pkg/unpacker/final.go:78-92 | from any table without the key a trace of three runs completes the row and then makes it partial |
| `Races.RacesFromAnEmptyTable` | pkg/unpacker/final.go:47-92 | both traces from an empty table with every value given |
| `Pagination.ResolveContracts` | pkg/graph/contracts.go:17-164 | a page comes back if and only if the query works and the cursor is absent or decodes; ten rows unless asked otherwise; rows, cursors and page info |
| `Pagination.PageStartsBehindItsCursor` | pkg/graph/contracts.go:28-53 | a page starts behind the number its cursor decodes to, as an int64, or behind 0; a cursor that does not decode starts none |
| `Pagination.PageIsTheNextStretch` | pkg/graph/contracts.go:51-53 | a page is all matching rows from its start to its last row; every edge's cursor decodes to its row's id, the start and end cursors to the first and the last |
| `Pagination.LastPageIsLast` | pkg/graph/contracts.go:157-161 | without a next page no matching row lies beyond the page |
| `Pagination.LowLimitEndsTheWalk` | pkg/graph/contracts.go:157-161 | with a limit below 1 there is no next page, and the page is all there is if and only if the query was not capped |
| `Pagination.WalkIsExact` | pkg/graph/contracts.go:28-161 | a walk that feeds end cursors back while the table grows and is rewritten ends with strictly ascending ids: every matching row of the last table is among them and each belongs to one |
| `Pagination.StaticWalkLength` | pkg/graph/contracts.go:23-161 | on a static table with n matching rows a walk takes exactly n / limit + 1 requests and returns them all |
| `PagingWhileUnpacking.WalkWhileUnpackingIsExact` | pkg/graph/contracts.go:28-161 | the same for pages read between arbitrary bursts of concurrent unpacking, with filters on network and block |
| `PagingWhileUnpacking.WalkOnOneChainIsExact` | pkg/graph/contracts.go:55-73 | the same with filters on the block and transaction hashes too, when all runs see the same hashes for a key |
| `SyncState.State.constructor` | pkg/state/state.go:22-25 | a new state knows nothing |
| `SyncState.State.SetDescriptorKey` | pkg/state/descriptor.go:21-44 | the field of a known key is set; an unknown key is refused and changes nothing |
| `SyncState.State.Set` | pkg/state/state.go:29-35 | memory first, then Redis; a refused write leaves memory ahead, an unknown key writes neither |
| `SyncState.State.Get` | pkg/state/state.go:39-47 | the number the stored bytes stand for, none for a key never written |
| `SyncState.State.Load` | pkg/state/descriptor.go:46-86 | which fields come from Redis and which stay, for any pattern of failing reads |
| `SyncState.State.Descriptor` | pkg/state/descriptor.go:88-114 | only the percentage is refreshed, with its three special cases |
| `SyncState.TraceIsRemembered` | pkg/state/state.go:29-47 | after any trace of Set calls memory holds the last value of each key and Redis the magnitude of the last one it accepted; unknown keys never reach it |
| `SyncState.RestartRebuildsAField` | pkg/state/descriptor.go:46-86 | a restart rebuilds a field if and only if its last value was not negative or never set |
| `SyncState.RestartRebuildsAll` | pkg/state/descriptor.go:46-86 | over non-negative values a restart rebuilds the whole descriptor |
| `SyncState.NegativeValuesLoseTheirSign` | pkg/state/state.go:29-35 | a start block of -7 comes back as 7 |
| `SyncState.PercentageIsTheQuotient` | pkg/state/descriptor.go:88-114 | the figure in all cases: the Euclidean quotient, zero for an empty range, unchanged while a bound or the latest block is unknown |
| `SyncState.PercentageInRange` | pkg/state/descriptor.go:95-112 | the figure lies in 0..100 if and only if the latest block is not before the start and less than a hundredth of the range past the end |
| `SyncState.PercentageIsFullAtTheEnd` | pkg/state/descriptor.go:95-112 | within the range it is 100 if and only if the latest block is the end |
| `SyncState.PercentageIsMonotone` | pkg/state/descriptor.go:95-112 | for a fixed range it never falls while the latest block rises |
| `Archive.StepKeepsSound` | pkg/subscribers/blocks_archive.go:99-129 | every step of the process, of a goroutine or of fate keeps the resumption invariant |
| `Archive.AttemptsAreAPrefix` | pkg/subscribers/blocks_archive.go:99-129 | over any crashes, restarts and orders of latest-block writes the blocks ever attempted are a contiguous prefix of the range; a run that ends its loop leaves none out |
| `Archive.SkipsTheRest` | pkg/subscribers/blocks_archive.go:102-111 | on every resumed range with a tag before its last block, a run that comes to its end while exactly the blocks up to the tag were ever attempted |
| `Archive.ResumptionIsRightExactly` | pkg/subscribers/blocks_archive.go:99-129 | no run ever leaves a hole if and only if resumption is off or no block of the range but the last is a tag |
| `Archive.PercentageIsHonest` | pkg/state/descriptor.go:88-114 | in every reachable state over a proper range that starts at zero or above, or ends at zero or below without tags, a stored or computed figure is in 0..100, and a computed one is 100 exactly when the latest block is the end |
| `Archive.FiguresAreHonestExactly` | pkg/state/descriptor.go:88-114 | over a proper range every computed figure is so in every reachable state if and only if the range is one of those |
| `Archive.TagMisreports` | pkg/state/descriptor.go:95-107 | with a tag in the range, a state that reports more than it should |
| `Archive.ReloadMisreports` | pkg/state/descriptor.go:46-114 | over a range from below zero to above it, a state just reloaded from Redis whose figure is wrong |
| `ArchiveObjects.Halt` | services/syncer/interceptors.go:41-69 | the first contract creation with a known sender and no client, or the end of the block |
| `ArchiveObjects.ArchiveBlock.BlockInterceptor` | services/syncer/interceptors.go:41-165 | as many goroutines as there are contract creations with a known sender before the halt, an error if and only if it halts early; goroutines may act after each start |
| `ArchiveObjects.ArchiveBlock.Record` | pkg/state/state.go:30-32 | a goroutine that unpacked its contract sets the latest block in memory |
| `ArchiveObjects.ArchiveBlock.Persist` | services/syncer/interceptors.go:146-156 | in a second step it writes the block to Redis, or fails to, and is over |
| `ArchiveObjects.ArchiveBlock.StoreRange` | pkg/subscribers/blocks_archive.go:60-94 | what stops a run before its loop, with the result it returns then |
| `ArchiveObjects.ArchiveBlock.ChooseStart` | pkg/subscribers/blocks_archive.go:99-108 | the configured start, or the latest inspected block if resuming and not before it |
| `ArchiveObjects.ArchiveBlock.InspectFrom` | pkg/subscribers/blocks_archive.go:111-129 | the loop attempts each block once up to the end, unfetchable ones included, and starts a goroutine for each deployment in them, whatever goroutines do between any two steps |
| `ArchiveObjects.ArchiveBlock.Start` | pkg/subscribers/blocks_archive.go:57-133 | with goroutines acting between any two of its steps it takes only steps of the archive system, returns nil in exactly the listed cases, attempts exactly the blocks from its starting point to the end, and keeps the resumption invariant |

## Left out

- `RegisterTransition` and `Trigger`: the pipeline does not use them, and `Trigger` calls `transition` while holding the same non-reentrant mutex.
- `Destroy`, `Timeout` and the getters of the machine; two Process calls at the same time on one machine.
- Panics: a handler may panic at once, in any of its calls to solgo, or after its statements, and the calls made so far are kept; a change of the descriptor made inside a panicking library call is not followed. Nil dereferences (a descriptor without a contract, log arguments in the error handler) are covered by these answers.
- The `Partial` field of the descriptor, which nothing sets, and discovery of a descriptor whose contract is nil, which keeps its self-destructed flag.
- solgo, go-ethereum, NATS, Redis, SQLite and goqu internals. What solgo knows of a contract is its name, whether there are sources, one value for the columns that come with them and one for the bytecodes, so which single column a provider fills is not told; JSON columns and storage paths are not modelled.
- Block numbers of 2^63 and more, which the SQL driver refuses: covered by the failing-statement answers.
- Pagination.ResolveContracts: what a limit below 1 makes of the query is decided by goqu and SQLite, so it is an answer the method is given; the filter is any fixed predicate on rows, because the address clause compares against the network ids (pkg/graph/contracts.go:60), so nothing is claimed about address filtering; a row that fails to scan counts as a failing query.
- PagingWhileUnpacking.WalkWhileUnpackingIsExact: filters on the hashes need runs that agree about them (`WalkOnOneChainIsExact`), because an UPDATE rewrites those columns.
- Archive.AttemptsAreAPrefix: for an end below the largest int64, past which the loop counter wraps round. A block asked for by a number of zero or more is taken to have that number; which negative numbers the node takes as tags, and for which block, is an answer it gives.
- ArchiveObjects.ArchiveBlock.Start: it follows a successful Load in a process without goroutines yet; the status field, the list of hooks (always the one interceptor) and the second mutex are not modelled.
- "Every contract up to the latest block was processed": not claimed, since completions come in any order.
- The head-block subscriber and its keys, the subscriber manager, `UnpackerInterceptor`, the NATS request for unpacking and the GraphQL mutation.
- Generated GraphQL code, network lists, command line, configuration, logging, profiling and server wiring.
