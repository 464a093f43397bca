# Codewhale, modelled in Dafny

This project models the small engines of the Codewhale repository whose behaviour is hard to see
from one function, and proves what they promise. Each module follows one component.

| modules | component |
|---|---|
| EventStream, SseFrames, Chunking | the incremental event-stream parser of the runtime SDK |
| StubStream | the stub server that emits the same wire form |
| FarthestFirst | the two farthest-first samplers of the pet's bodies |
| HabitatDisk, HabitatProtocol, HabitatInvariant, HabitatRuns, HabitatProgress, HabitatHost | the habitat store and the host that saves through it |
| PetExport | the chunked export of a recording |
| SharedPet | the client of the shared pet over a lossy link, and the contract of its owner |
| SeedRows, SeedCompiler, SeedAgreement | the seed compiler: spec, lock and render |
| Migration | the migration frontier and its transitions |
| Reachability | the two reachability gates |
| RuntimeBudget, RuntimeRatchet | the runtime-contract budget and its ratchet |
| Arithmetic, Words, Mulberry, PetDigest | the pet's generator and digest, each written over signed and unsigned words |
| PetStability, PetGait, PetFigures, PetFields, PetSim, PetShows, PetRuns | the pet simulation: spring, targets, steps, checkpoints |
| Braille | the box filter and the braille packing of the brand mark |
| Descriptors | the generated provider tables |
| Common | values that several modules share |

Protocols are state machines over their system calls or messages; every theorem about them is about
all runs, with crashes, failures, losses and late copies at any step. Code that changes state in loops
or fields is modelled by methods and classes, which are tied to specification functions.

## What turned out differently

These places do not do what their documentation, or a first reading, suggests. The model follows the
code, and each is stated as a theorem.

- The frame size check counts a partly received boundary (`npm/runtime-sdk/index.js:282`). A frame
  within the limit that leaves too little room, fewer than three characters before a CRLF boundary or no
  character before an LF one, is accepted or refused depending on the chunking:
  `Chunking.GapDependsOnChunking`, and `Chunking.SizeErrorIff` for the exact condition.
- A curated id with two case variants upstream passes the lock step and may be refused at render
  (`scripts/catalog_models_dev.py:734-740` against `946-949`): `SeedAgreement.CuratedIsRefusedIff`.
- A removed migration leaf can return although no group name is a slice name, because one slice name may
  be declared under two groups (`scripts/check-command-migration-manifest.py:446` lets `a::b::c` stand
  under `a` and under `a::b`): `Migration.SharedSliceReturns`, and `Migration.NoLeafReturnsIff` for the
  exact condition.
- The docstring of the source scan says that the handlers of a split group must fall inside a slice scope
  (`scripts/check-command-migration-manifest.py:1130`). The code does not check it:
  `Migration.SplitRuleIff`.
- A crash between `linkat` and `unlinkat`, or an `unlinkat` that fails, leaves an archive with two links,
  which every later read refuses (`pet/swift/PetHabitatStore.swift:70` and `121`), and so does every later
  save of the same segment. Nothing is lost, but nothing in the store repairs it:
  `HabitatRuns.AbandonedArchiveIsNeverRead`, `HabitatRuns.OrphanStays`,
  `HabitatRuns.OrphanedNameRefusesSaves`.
- The window of eight in the checkpoint guards holds on every legal run, not only in practice. It needs the
  whole body within 0.52 of the middle; the 980 points that ship lie within 0.44.
  `PetRuns.EveryCheckpointIsAccepted`.
- A glyph larger than its source reads some pixels more than once: `Braille.BoxesTileIff`.

## Model

| member | source | states |
|---|---|---|
| EventStream.IndexOfIsFirst | npm/runtime-sdk/index.js:292-302 | `indexOf` returns the first position at which the pattern occurs, and -1 exactly when it occurs nowhere |
| EventStream.FirstBoundaryIsFound | npm/runtime-sdk/index.js:292-302 | whichever of the two forms comes first is the boundary that `eventStreamBoundary` returns, and none is returned only if neither form occurs |
| EventStream.BoundaryIsStable | npm/runtime-sdk/index.js:270-281 | a boundary found in the buffer stays the same when more text arrives |
| EventStream.CutAppend | npm/runtime-sdk/index.js:273-281 | cutting a text into frames and then cutting its remainder with more text gives the frames of the whole text: the frames do not depend on when the text arrives |
| EventStream.ParseEventStream | npm/runtime-sdk/index.js:267-290 | the nested loops over chunks and boundaries yield exactly the events and the outcome (closed, too large, ended inside a frame, bad JSON) of the reference reading of the stream, whose frames `SseFrames.FrameIsReceived` describes |
| EventStream.DrainBuffer | npm/runtime-sdk/index.js:273-281 | the inner loop takes every complete frame from the buffer in order and stops at the first refusal |
| SseFrames.FrameIsReceived | npm/runtime-sdk/index.js:304-331 | for every frame, with any lines in any order, any blanks and any mixture of line ends: no data or `[DONE]` gives nothing, bad JSON an error, and an object is received with the name of the first event line and the cursor of the first id line added where it has none of its own and the value is not empty, and nothing else changed; several data lines are joined by a line feed |
| SseFrames.LinesReadBack | npm/runtime-sdk/index.js:305 | splitting a written frame gives back its lines, whichever way each of them ends |
| SseFrames.RecordIsReceived | npm/runtime-sdk/test/thread-events.test.mjs:57-64 | a journal record with event, id and data lines is received with its event name and its id as the cursor, for every name, id and object |
| Chunking.ChunkingIsInvisible | npm/runtime-sdk/index.js:267-290 | without a limit, two ways of cutting the same text give the same events in the same order and the same outcome, with both boundary forms mixed freely |
| Chunking.OversizedFrameStops | npm/runtime-sdk/index.js:274-282 | with limit L, in every chunking: if every earlier frame leaves room for its boundary, a longer frame stops the stream after exactly the earlier events |
| Chunking.RoomMeansNoSizeError | npm/runtime-sdk/index.js:274-282 | frames of at most L - 3 characters and a last part of at most L never cause a size error |
| Chunking.SizeErrorIff | npm/runtime-sdk/index.js:270-283 | for every text and limit: some chunking is refused for its size if and only if the frames before the first one that cannot pass are readable and that frame, or the last part, may be counted with part of its boundary |
| Chunking.GapDependsOnChunking | npm/runtime-sdk/index.js:282 | for every frame that fits but leaves too little room, one chunk is accepted and another chunking of the same text is refused: the size check also counts a partly received boundary |
| StubStream.Handler.Emit | scripts/concentrate-stub.py:168-173 | one call appends one frame, numbered with `seq`, and advances `seq` by one |
| StubStream.Handler.Stream | scripts/concentrate-stub.py:158-190 | the stream written for a request is the wire form of the whole script, numbered from 0 |
| StubStream.Handler.EmitWords | scripts/concentrate-stub.py:182-185 | the loop over the words emits one delta for every word, with a blank after each but the last |
| StubStream.FrameIsRead | scripts/concentrate-stub.py:168-173 | the client reads an emitted frame back as its payload with the event name added |
| StubStream.ClientReceivesWire | scripts/concentrate-stub.py:158-190 | in every chunking the client receives exactly the emitted payloads, in order, and the stream closes cleanly |
| StubStream.NumberedWithoutGaps | scripts/concentrate-stub.py:166-171 | the received events are numbered 0, 1, 2, ... without gaps |
| StubStream.WordsRejoin | scripts/concentrate-stub.py:182-185 | splitting a reply at blanks and sending each word with its blank loses nothing: the deltas concatenate to the reply |
| StubStream.ReplyRoundTrip | scripts/concentrate-stub.py:158-190 | for every reply, model and chunking: the client receives the whole script and the text of its deltas is the reply |
| StubStream.PartsAreNested | scripts/concentrate-stub.py:174-190 | what is closed is what was announced: the completed item holds the completed part, which holds the completed text, which is the reply; item and part began empty under the same id |
| StubStream.ResponseHoldsTheItem | scripts/concentrate-stub.py:142-156 | the last event carries the completed response, which holds exactly the completed item and the selected model |
| StubStream.ResponseIsAnnounced | scripts/concentrate-stub.py:175-177 | the response announced at the beginning differs from the completed one in status, output and usage only |
| FarthestFirst.SelectDots | pet/scripts/build-dot-glyphs.py:28-36 | the loop keeps the least squared distance of every candidate; every selected point is the first of the farthest candidates of its round; any two selected points are at least the covering radius apart; and that radius squared is at most four times that of any as many centres in the plane |
| FarthestFirst.SelectionIsDetermined | pet/scripts/build-dot-glyphs.py:28-36 | there is exactly one such selection for each list of candidates, first points and number of rounds, with marks for used positions or without |
| FarthestFirst.Separation | pet/scripts/build-dot-glyphs.py:53-61 | every greedily selected point is at least the final covering radius away from everything selected before it |
| FarthestFirst.TwoApproximation | pet/scripts/build-dot-glyphs.py:28-36 | the 2-approximation for any number of seeds: no set of centres no larger than the number of greedy choices covers all candidates within less than half of the radius reached |
| FarthestFirst.TooFewCentres | pet/scripts/build-dot-glyphs.py:53-61 | among more points than centres, pairwise a gap apart, some point is at least half of the gap from every centre |
| FarthestFirst.Pigeonhole | pet/scripts/build-dot-glyphs.py:28-36 | of more items than holes two share a hole, found constructively |
| FarthestFirst.FarthestPoint | scripts/brand/whale-points.py:113-135 | the seeded variant keeps the seeds, adds the first of the candidates that are farthest from all points chosen so far, each at a new position, reaches the wanted number, and keeps the separation of each added point |
| HabitatInvariant.StepKeeps | pet/swift/PetHabitatStore.swift:31-97 | the invariant of directory, locks, memories and program counters survives every system call of every process, every failure and every crash |
| HabitatRuns.ActiveIsWhole | pet/swift/PetHabitatStore.swift:66-86 | over every interleaving with crashes the active file is the one it was at the start, or one whole document that some save wrote |
| HabitatRuns.ActiveChangesBySave | pet/swift/PetHabitatStore.swift:37-51 | the active file changes only by the rename of a save whose store still expected exactly the content that was there, and then holds the whole new document |
| HabitatRuns.ArchiveNeverChanges | pet/swift/PetHabitatStore.swift:81-84 | a linked archive keeps its name, its file and its content for ever |
| HabitatRuns.NothingSavedIsLost | pet/swift/PetHost.swift:171-190 | in every reachable state the active file and the archives together hold every event saved so far |
| HabitatRuns.SavedStaysSaved | pet/swift/PetHost.swift:171-190 | an event that was saved once is found in the directory in every later state |
| HabitatRuns.RetiredOnlyWhenArchived | pet/swift/PetHost.swift:176-179 | a world gives up history only after its save succeeded, gives up exactly the prepared segment, and an archive holding that segment is in the directory |
| HabitatRuns.DamagedFileIsKept | pet/swift/PetHost.swift:98-103 | an active file that cannot be decoded is never replaced |
| HabitatRuns.LogOnlyGrows | pet/swift/PetHost.swift:171-190 | a step never takes anything out of the saved history |
| HabitatRuns.ReadableIff | pet/swift/PetHabitatStore.swift:56-62 | `archivedRecording` returns an archive, with its very content, if and only if no temporary name is still linked to its file |
| HabitatRuns.AbandonedArchiveIsNeverRead | pet/swift/PetHabitatStore.swift:70-84 | in every run, if the next step of a process that has linked a new archive is a crash or an `unlinkat` that fails, the leftover name stays and no later state lets the archive be read back |
| HabitatRuns.OrphanStays | pet/swift/PetHabitatStore.swift:99-123 | along every run such a leftover name is never removed; the archive keeps its content and every later read refuses it |
| HabitatRuns.OrphanedNameRefusesSaves | pet/swift/PetHabitatStore.swift:81-84 | along every run, a save whose segment has the orphaned name and that was not past its archive never gets past it: it never replaces the active file and never succeeds |
| HabitatProgress.UndisturbedSave | pet/swift/PetHabitatStore.swift:37-51 | in the protocol, whatever the other processes are doing, a save whose store expects the file that is there, with the lock free and current and its archive name free, can go through: then the file holds its document, the archive is linked and the world has retired the segment |
| HabitatProgress.SaveBegins | pet/swift/PetHost.swift:171-180 | a call of save carries the whole world, or with a segment the world without it and its archive |
| HabitatProgress.UndisturbedLoad | pet/swift/PetHabitatStore.swift:31-35 | a load with the lock free and current and the file within its limit can go through, and the store then expects that file |
| HabitatHost.PetHabitatStore.Load | pet/swift/PetHabitatStore.swift:31-35 | a load that succeeds returns the active file and remembers its digest; one that fails changes nothing; if no call fails, it succeeds exactly if the lock is current and the file is absent or can be read |
| HabitatHost.PetHabitatStore.Save | pet/swift/PetHabitatStore.swift:37-51 | a save succeeds only if the file still had the remembered content, and then holds the new document and, if asked, the archive; a failed save leaves the active file and `expected` as they were; archives are kept in every case; if no call fails, it succeeds exactly if the store is loaded, the limits are kept, the lock is current, the file is absent or readable and has the expected digest, and the archive name is free or its file equal; the next save is then allowed |
| HabitatHost.PetHabitatStore.Write | pet/swift/PetHabitatStore.swift:66-86 | the write loop with partial writes puts the whole value under its name or leaves the active file alone, and keeps every archive; if no call fails, it fails only for an archive name taken by a file that cannot be read back |
| HabitatHost.PetNativeCore.ExportCompleted | pet/swift/PetNativeCore.swift:126-140 | an export that succeeds is the whole prepared segment and within the limit |
| PetExport.ChunksAreTheRecording | pet/src/core/pet-world.ts:175-194 | the chunked export loses nothing: for any numbers of buckets and interactions, the chunks joined in order are the text of the whole recording, and the cursor ends exactly after the last one |
| PetExport.FirstPiecesAre | pet/src/core/pet-world.ts:184-188 | the first k slices of sixteen items, with their commas, are the text of the items up to there |
| PetExport.Export | pet/swift/PetNativeCore.swift:127-140 | the loop over the chunks returns the whole recording exactly if it is within the limit, and refuses otherwise |
| HabitatHost.PetHost.Save | pet/swift/PetHost.swift:171-190 | the world either stays or gives up a prepared segment whose archive is then in the directory; success means the active file holds the world as it is now; the active file never becomes anything else; if no call fails, it succeeds exactly if there is nothing to save or the store takes what the core prepares |
| HabitatHost.PetHost.SelectSource | pet/swift/PetHost.swift:70-75 | a source is left only after its world was saved, unless the caller discards it; a refused change leaves everything in place and means, if no call failed, that the save was not possible; an accepted one opens the store of the new source |
| HabitatHost.PetHost.Restart | pet/swift/PetHost.swift:76-132 | after a restart with a store the core holds the decoded active file, and a file that cannot be decoded leaves no store to write with; if no call fails, there is a store exactly if the file is absent or can be read and decoded, and it may save |
| SharedPet.StepKeeps | pet/swift/PetShared.swift:162-180 | the invariant of client, link and owner survives every interaction, send, loss, late or repeated delivery, reply and source change |
| SharedPet.AtMostOnce | pet/scripts/check-shared.py:50-53 | every interaction is applied at most once; the two sequence numbers differ by at most one, and only while that very action is pending; what the client counts as done was applied in that order, and what it gave up was not applied |
| SharedPet.LateCopiesAreHarmless | pet/scripts/check-shared.py:50-53 | a copy of a settled request that arrives late changes nothing at the owner |
| SharedPet.OneGoodExchangeSettles | pet/swift/PetShared.swift:176-180 | one send whose reply arrives settles the pending action: counted exactly if it was applied, dropped exactly if it was not |
| SharedPet.FreshTapIsApplied | pet/swift/PetShared.swift:170-180 | a tap on a fresh frame of the current source is applied: one send, its delivery and the reply end with the action applied and counted on both sides |
| SharedPet.PetSharedHost.Interact | pet/swift/PetShared.swift:170-175 | an interaction is queued only if there is a fresh frame and nothing is pending |
| SharedPet.PetSharedHost.EndSend | pet/swift/PetShared.swift:162-180 | a success counts the action and clears it, a conflict that is not about storage clears it, any other outcome keeps it for the next poll |
| SeedRows.FindAgrees | scripts/catalog_models_dev.py:710-717 | a lookup in a restricted copy that still holds the row agrees with the lookup in the full catalog |
| SeedRows.FindInPartIff | scripts/catalog_models_dev.py:710-717 | if the full catalog has no unique row, the copy has one exactly when it kept a single case variant, and then the full catalog had several |
| SeedRows.StripIsClean | scripts/catalog_models_dev.py:157-171 | no credential-shaped key is left at any depth |
| SeedRows.CleanIsKept | scripts/catalog_models_dev.py:157-171 | a value without such keys is returned unchanged |
| SeedRows.OnlyCredentialsAreDropped | scripts/catalog_models_dev.py:157-171 | nothing but credential-shaped keys is dropped |
| SeedRows.ProjectKeepsListed | scripts/catalog_models_dev.py:534-551 | every listed field with something to keep is kept, scrubbed; of a nested field exactly the listed keys that are not null |
| SeedRows.ProjectIsProjected | scripts/catalog_models_dev.py:534-551 | a projection has only listed fields, listed nested fields and no nulls |
| SeedRows.ProjectedIsKept | scripts/catalog_models_dev.py:534-551 | projecting a projected row again changes nothing |
| SeedCompiler.NormalizeSeedSpec | scripts/catalog_models_dev.py:594-663 | the spec is accepted exactly when it names its source, its notes are texts, curated rows are complete and listed once, no entry has an unknown key, canonical entries have keys, ids are present and unique, curated marks and curated rows match both ways, and each provider names one default among its models; the result is the expanded spec |
| SeedCompiler.BuildSeedLock | scripts/catalog_models_dev.py:720-765 | the lock holds exactly the rows that the lookups chose, projected; there is no error exactly when every derived model is listed, no curated one is and every canonical entry exists |
| SeedCompiler.RenderSeed | scripts/catalog_models_dev.py:935-998 | the seed is rendered exactly when no model and no canonical entry is refused and the reviewed data is valid, and holds one finished row for each model and for each canonical key, from the last entry with that key, and nothing else |
| SeedAgreement.ProviderSchemaIsOK | scripts/catalog_models_dev.py:471-525 | the listed provider fields contain the three that the seed writes, and none of these is nested: the lemmas about schemas apply to them |
| SeedAgreement.LockedRowIsSource | scripts/catalog_models_dev.py:728-746 | the lookup in the lock finds the very row that the lookup in the upstream catalog chose, projected |
| SeedAgreement.DerivedItem | scripts/catalog_models_dev.py:945-968 | what the render makes of a derived model, stated from the upstream catalog alone |
| SeedAgreement.RenderAcceptsIff | scripts/catalog_models_dev.py:935-983 | after a lock without errors the render accepts if and only if every model fits, a condition on spec and upstream alone |
| SeedAgreement.LockedSpecRenders | scripts/catalog_models_dev.py:935-983 | if no curated id has a case variant upstream and no base model contradicts the canonical id, a clean lock always renders |
| SeedAgreement.SeedRowIsUpstreamRow | scripts/catalog_models_dev.py:945-968 | each row that is not curated is the projection of the very upstream row that the lock step chose, with id and seed fields rewritten |
| SeedAgreement.RewrittenFields | scripts/catalog_models_dev.py:958-967 | in such a row the id is the model's, the base model is the stated one, it is marked exactly if it is the default, and every other field is as upstream has it |
| SeedAgreement.BaseAgrees | scripts/catalog_models_dev.py:959-964 | no derived row of the seed contradicts itself: where the spec states a base model, a canonical id that the row carries is the same |
| SeedAgreement.SeedModelIsUpstreamModel | scripts/catalog_models_dev.py:976-981 | after a clean lock the row under a canonical key is the upstream row of its last entry, projected, with that key as its id |
| SeedAgreement.SeedModelsAreCanonical | scripts/catalog_models_dev.py:976-981 | the models of the seed have exactly the canonical keys |
| SeedAgreement.OneDefaultEach | scripts/catalog_models_dev.py:965-968 | each provider has exactly one row marked as default, and no row holds a credential-shaped key |
| SeedAgreement.CuratedIsRefusedIff | scripts/catalog_models_dev.py:946-949 | a curated model that passed the lock step is refused at render if and only if the lock kept exactly one case variant of its id |
| SeedAgreement.CuratedBetweenVariants | scripts/catalog_models_dev.py:734-740 | a concrete spec: a curated id with two case variants upstream passes the lock step and is refused at render |
| Migration.RevisionsAreHistory | scripts/check-command-migration-manifest.py:514-551 | accepted revisions share one topology, start at all its roots, and each step is a shrink or a documented split |
| Migration.HistoryIsRevisions | scripts/check-command-migration-manifest.py:514-551 | conversely every such history of a valid topology is a sequence of accepted revisions |
| Migration.NeverOverlapsIff | scripts/check-command-migration-manifest.py:342-387 | no sequence of accepted revisions ever holds a group together with one of its slices if and only if no slice carries a group's name and no slice is declared under two groups |
| Migration.NoLeafReturnsIff | scripts/check-command-migration-manifest.py:342-387 | along accepted revisions a removed leaf never returns if and only if the same condition holds |
| Migration.SharedSliceReturns | scripts/check-command-migration-manifest.py:427-447 | a topology that the document check accepts, in which no group name is a slice name, and accepted revisions in which a removed slice returns: one slice is declared under two groups |
| Migration.MigrationIsBounded | scripts/check-command-migration-manifest.py:342-387 | if no slice carries a group's name, the number of real changes along any passed sequence of revisions is at most the sum over groups of one plus the number of slices |
| Migration.ShrinkThenSplit | scripts/check-command-migration-manifest.py:342-387 | any set of roots may shrink away and any remaining group with slices may then be split |
| Migration.SplitRuleIff | scripts/check-command-migration-manifest.py:1130-1197 | for a split group an accepted scan means that every handler lies inside a slice scope if and only if the slice scopes cover the group scope: the code does not check it |
| Migration.NothingFoundIff | scripts/check-command-migration-manifest.py:1136-1216 | the scan finds nothing for a group exactly if a pending group has handlers left, a split one has some in every slice, and a done one only retained ones |
| Reachability.Follow | scripts/check-blocking-calls-budget.py:404-427 | the worklist loop finds exactly the nodes that a path reaches, and terminates on cyclic graphs |
| Reachability.ModuleFileScopes | scripts/check-blocking-calls-budget.py:393-430 | a file is exempted exactly when it is reachable from a test-guarded edge or a test root and not reachable by unguarded edges from a production root or from a file outside that closure |
| Reachability.ExemptIsGreatest | scripts/check-blocking-calls-budget.py:393-430 | the exempted files are the greatest set inside the test closure that production does not use |
| Reachability.Reaches | scripts/check-command-crate-boundaries.py:164-176 | a package is returned only if it is forbidden and reachable by at least one edge, and none is returned only if no forbidden one is |
| Reachability.CheckDependencyGraph | scripts/check-command-crate-boundaries.py:192-215 | no violation exactly if every rule's package is in the graph and reaches nothing forbidden; every reported dependency is real |
| RuntimeBudget.GetOfSet | scripts/check-runtime-contract-budget.py:352-356 | what `set_path_value` writes, `required_value` reads back |
| RuntimeBudget.SetLeavesOthers | scripts/check-runtime-contract-budget.py:352-356 | writing one path leaves every path that is not a prefix of it or extends it as it was |
| RuntimeBudget.LeavesApart | scripts/check-runtime-contract-budget.py:61-160 | no two metric, identity or note paths lie on one another |
| RuntimeBudget.MetricsAre | scripts/check-runtime-contract-budget.py:61-136 | the list of metrics holds each metric path and nothing else |
| RuntimeBudget.IdentitiesAre | scripts/check-runtime-contract-budget.py:138-160 | the list of identities holds each identity path and nothing else |
| RuntimeRatchet.BudgetFromReceipt | scripts/check-runtime-contract-budget.py:359-382 | a budget is built exactly when every metric is a count and every identity is present, and then agrees with the receipt on all of them |
| RuntimeRatchet.RebasedBudget | scripts/check-runtime-contract-budget.py:446-452 | the rebased budget agrees with the receipt and keeps every underscore note of the previous one |
| RuntimeRatchet.Compare | scripts/check-runtime-contract-budget.py:319-349 | documents compare exactly when identities agree and all metrics are counts; then the metrics above and below their ceilings are reported in the order of the list |
| RuntimeRatchet.MovesAre | scripts/check-runtime-contract-budget.py:339-349 | exactly the metrics above their ceilings are in the one report, and exactly those below in the other |
| RuntimeRatchet.MoveCounts | scripts/check-runtime-contract-budget.py:339-349 | every reported metric carries the counts of both documents |
| RuntimeRatchet.NoIncreaseIff | scripts/check-runtime-contract-budget.py:339-349 | no increase is reported if and only if no metric is above its ceiling |
| RuntimeRatchet.RebasedIsValidAndEqual | scripts/check-runtime-contract-budget.py:446-452 | a budget rebased on a valid receipt is valid, compares equal to it and keeps the notes |
| RuntimeRatchet.Update | scripts/check-runtime-contract-budget.py:670-737 | `--update` fails exactly if a document is invalid or the two are not comparable, reports exactly the increases if there are any, and otherwise writes the rebased budget; with `--allow-increase` it writes a valid rebased budget exactly if the documents are valid and the receipt complete |
| RuntimeRatchet.UpdateStep | scripts/check-runtime-contract-budget.py:709-737 | one plain update keeps the budget valid, raises no ceiling, changes no identity and keeps the notes |
| RuntimeRatchet.CeilingsOnlyFall | scripts/check-runtime-contract-budget.py:709-737 | along any run of plain updates no ceiling ever rises, no identity changes and no note is lost |
| Words.BitwiseIsLocal | pet/android/PetSim.kt:67-76 | the low bits of a signed xor or or are those of the unsigned one, for every width |
| Words.XorUndoesItself | pet/android/PetSim.kt:366 | xor with the same word twice gives the first word back |
| Words.OddFactorCancels | pet/android/PetSim.kt:70 | a power of two that divides a number times an odd factor divides the number |
| Mulberry.PortsAgree | pet/swift/PetSim.swift:68-78 | for every seed and every number of draws the signed and the unsigned generator return the same value, and it lies in [0, 1) |
| Mulberry.StateRepeatsIff | pet/android/PetSim.kt:70 | two points of a run hold the same state if and only if their distance is a multiple of 2^w |
| Mulberry.PeriodIsFull | pet/android/PetSim.kt:70 | the w-bit state takes 2^w distinct values and then repeats |
| Mulberry.EveryStateIsReached | pet/swift/PetSim.swift:72 | every 32-bit word is reached from every seed within 2^32 draws |
| Mulberry.FirstDrawOf11 | pet/android/PetSim.kt:69-75 | one draw worked out through every round: the first draw for seed 11 is 2197249643 of 2^32, in both ports |
| Mulberry.KotlinMulberry32.Next | pet/android/PetSim.kt:69-75 | each call returns the next draw of the signed generator for its seed |
| Mulberry.SwiftMulberry32.Next | pet/swift/PetSim.swift:71-77 | each call returns the next draw of the unsigned generator for its seed |
| PetDigest.OrderIsIgnored | pet/android/PetSim.kt:358-364 | particles in another order have the same digest |
| PetDigest.StepIsBijection | pet/android/PetSim.kt:366 | every FNV-1a step is a bijection of the 64-bit states: injective, and with a state that leads to any given one |
| PetDigest.OneByteShows | pet/android/PetSim.kt:366-369 | two byte streams that differ in exactly one byte never share a hash |
| PetDigest.OneByteOfThePictureShows | pet/android/PetSim.kt:358-371 | two pictures whose saturated counts or rounded frame differ in exactly one byte print different digests |
| PetDigest.MoreParticlesShow | pet/android/PetSim.kt:360-364 | one more particle in a cell that is not full changes the digest |
| PetDigest.PortsHashAlike | pet/swift/PetSim.swift:399-406 | the signed and the unsigned port hold the same 64 bits after every byte |
| PetDigest.PaddedIsFixed | pet/android/PetSim.kt:370 | the padded shortest form and the sixteen-digit form are the same text |
| PetDigest.HexReadsBack | pet/swift/PetSim.swift:407 | the sixteen digits determine the hash |
| PetDigest.Tally | pet/android/PetSim.kt:359-364 | the grid holds min(255, count) in every cell |
| PetDigest.CellIff | pet/android/PetSim.kt:361-363 | the cells are the 64 by 32 equal parts of the square from -0.66 to 0.66, row by row |
| PetDigest.StreamIs | pet/android/PetSim.kt:367-369 | the stream is the counts cell by cell, then red, green, blue and the opacity on the scale of a byte, each rounded to a nearest number, then the hollow byte |
| PetDigest.HashOfA | pet/android/PetSim.kt:365-366 | one step from the start value gives the published FNV-1a hash of the text `a` |
| PetDigest.KotlinDigest | pet/android/PetSim.kt:358-371 | the signed port prints the sixteen digits of the reference digest |
| PetDigest.SwiftDigest | pet/swift/PetSim.swift:388-408 | the unsigned port prints the same digits, for colours that are not negative |
| PetStability.StartIsForgotten | pet/android/PetSim.kt:336-341 | one fixed quadratic form in position and velocity loses at least 2.1 percent in every frame between two particles that follow the same targets, gains and pauses, whatever these are |
| PetStability.FrameContracts | pet/android/PetSim.kt:322-341 | the same for one frame and every gain between the two extremes |
| PetStability.EnergyBoundsBoth | pet/android/PetSim.kt:336-341 | the form bounds position and velocity |
| PetStability.RunStaysBounded | pet/android/PetSim.kt:322-341 | with targets within a reach, coherence in [0, 1] and motion changing freely, the position stays within 2.969 and the velocity within 4.233 times the reach, for ever |
| PetStability.FrameStaysContained | pet/android/PetSim.kt:335-341 | no frame leaves a fixed polygon in the plane of position and velocity |
| PetGait.TargetIsNear | pet/android/PetSim.kt:126-231 | every gait target, for all channels and both versions, lies within 1.225 of the middle if the body lies within 0.52 |
| PetGait.FieldIsNear | pet/android/PetSim.kt:93-123 | the same for the fields of version 2 |
| PetGait.CrossIsNear | pet/android/PetSim.kt:172-187 | the same for the crossing figures, whose couriers follow a smooth step |
| PetFigures.FullWorkShowsFigure | pet/android/PetSim.kt:138-230 | a pet that works fully has its figure as its target, in both versions |
| PetFigures.NoWorkSwims | pet/android/PetSim.kt:136 | below a work of 0.02 the target is the swimming body, whatever channel, version and pods |
| PetFigures.WayIsWork | pet/android/PetSim.kt:230 | in between the target has gone the part of the way from body to figure that the work says |
| PetFigures.WayGrows | pet/android/PetSim.kt:230 | more work is never nearer to the body nor farther from the figure |
| PetFigures.SwimKeepsTheBody | pet/android/PetSim.kt:129-135 | up to a small sway every particle keeps its distance from the middle; the body breathes by at most 4.8 percent |
| PetFigures.ErrorTears | pet/android/PetSim.kt:204-210 | the halves of a torn pet lie at least 0.145 in x and 0.065 in y from the swimming body, on opposite sides |
| PetFigures.ReasoningTurns | pet/android/PetSim.kt:143-148 | the flattened turn keeps the distance from the middle up to 12 percent |
| PetFigures.MemoryPulses | pet/android/PetSim.kt:140-142 | every particle moves along its ray, by at most a quarter |
| PetFigures.ToolLunges | pet/android/PetSim.kt:149-157 | the body lunges forward by at most 0.11, and exactly the particles above 0.60 reach out along their angle, by at most 0.54 |
| PetFigures.CodeRuns | pet/android/PetSim.kt:158-164 | every particle swings along its own angle, and forward with the crest only |
| PetFigures.FilesystemFans | pet/android/PetSim.kt:165-171 | odd pods fan up and even ones down |
| PetFigures.BrowserSweeps | pet/android/PetSim.kt:172-176 | only particles within 0.08 of a travelling band move, and only to the right |
| PetFigures.CouriersTravel | pet/android/PetSim.kt:177-187 | couriers stay between their home and their side, all to the right or half to each side, and the others swim |
| PetFigures.PodsOrbit | pet/android/PetSim.kt:188-203 | the members of a pod lie on an ellipse about a third of their home |
| PetFigures.PlacesAreEven | pet/android/PetSim.kt:197-198 | the places are a sixth of a turn apart, or a fifth around a hub |
| PetFigures.HubIsTheBody | pet/android/PetSim.kt:192-195 | the hub of an orchestration is the swimming body at 0.7 of its size |
| PetFigures.HumanFaces | pet/android/PetSim.kt:211-222 | a face a little less than half way from the turned body to a ring, a fifth larger |
| PetFigures.OtherDrifts | pet/android/PetSim.kt:223-227 | every particle mills about 0.52 of its home, wider the less coherent the pet is |
| PetFields.HumanLeavesAGap | pet/android/PetSim.kt:117-120 | a gap of 0.15 divides the first half of the cloud from the second |
| PetFields.BrowserKeepsLanes | pet/android/PetSim.kt:111 | the pods run in lanes that never touch |
| PetFields.SharesStandInOrder | pet/android/PetSim.kt:102-111 | from left to right the particles stand in the order of their shares |
| PetFields.FilesystemBranches | pet/android/PetSim.kt:103-106 | a stem, from which one branch for each pod opens |
| PetFields.ToolReaches | pet/android/PetSim.kt:107-110 | six spokes a sixth of a turn apart, on which the shares grow outward |
| PetFields.EllipsesOfPods | pet/android/PetSim.kt:112-116 | an ellipse for each pod; in communication the odd pods run the other way round |
| PetFields.ReasoningRolls | pet/android/PetSim.kt:97-100 | a rolling ring between 0.235 and 0.445, flattened to 0.7 |
| PetSim.Sim.Step | pet/android/PetSim.kt:299-355 | one step turns the state of the object into the stepped value of the old state |
| PetShows.StillPetShowsFigure | pet/android/PetSim.kt:322-338 | a coherent pet that stands still lies exactly on the figure of its channel if it works fully and exactly on the swimming body if it rests, whatever it did before |
| PetShows.StillColour | pet/android/PetSim.kt:344-355 | standing still and fully observed it shows the colour of its channel exactly above an activity of 0.223 and the colour of rest otherwise; unobserved it shows the unknown colour; hollow below 0.92 |
| PetShows.ColourApproaches | pet/android/PetSim.kt:347-348 | in motion every component of the colour comes nearer to its goal by 2.6 times the length of the step and never goes past |
| PetShows.AlphaGrows | pet/android/PetSim.kt:349-352 | more activity, coherence, observation and light never make the pet fainter |
| PetShows.TearCloses | pet/android/PetSim.kt:314-318 | only a change to the errors tears a pet; a tear closes by 1.6 a second |
| PetShows.TearIsClosed | pet/android/PetSim.kt:314-318 | at thirty frames a second a tear is closed after nineteen frames without a new error |
| PetSim.Sim.MoveAll | pet/android/PetSim.kt:325-342 | the loop moves every particle and no other field |
| PetSim.Sim.RestoreValidated | pet/android/PetSim.kt:277-296 | a checkpoint is accepted exactly by the listed guards; a refused one changes nothing and an accepted one replaces the whole state |
| PetShows.AcceptedIsBounded | pet/android/PetSim.kt:277-285 | an accepted checkpoint is of this very body and brings in no value of a particle out of its bounds |
| PetSim.Sim.constructor | pet/android/PetSim.kt:257-273 | a new pet is the hatched value for its points and draws |
| PetRuns.StepStaysOk | pet/android/PetSim.kt:299-355 | one step keeps every bound that a checkpoint must meet: phase, jitter, tear, colours, alpha, work, channel, position, velocity and target |
| PetRuns.EveryCheckpointIsAccepted | pet/android/PetSim.kt:277-296 | every checkpoint of every run of a new pet at thirty frames a second, up to a clock of PET_MAX_SECONDS, passes every guard, the window of eight included, at every pet with the same body |
| PetRuns.RestoringForgetsThePast | pet/android/PetSim.kt:277-296 | two pets that accept the same checkpoint are in the same state and stay so under every later input sequence |
| PetRuns.CheckpointRoundTrip | pet/src/core/pet-sim.ts:302-308 | a pet restored from its own checkpoint is the same pet, and continues alike |
| PetRuns.GeneratorFits | pet/android/PetSim.kt:259-264 | the draws of the generator fit the invariant, for every seed |
| Braille.GlyphFits | scripts/brand/braille-mark.py:210-215 | the glyph is at least one dot and at most the grid on each side, so every write is inside the grid |
| Braille.GlyphKeepsTheShape | scripts/brand/braille-mark.py:210-212 | both sides of the glyph are the sides of the picture under one scale, rounded |
| Braille.GlyphFillsTheGrid | scripts/brand/braille-mark.py:210-212 | the glyph fills the grid along one side at least |
| Braille.BoxesTileIff | scripts/brand/braille-mark.py:217-221 | every pixel of a side lies in exactly one box if and only if there are no more boxes than pixels, and some pixel lies in two boxes if and only if there are more |
| Braille.BoxIsInside | scripts/brand/braille-mark.py:217-226 | no box is empty and none reads beyond the picture |
| Braille.CoverageIsConserved | scripts/brand/braille-mark.py:216-227 | if the glyph is no larger than the source, the sum of cell value times box area is the total coverage |
| Braille.Downsample | scripts/brand/braille-mark.py:205-228 | each dot of the glyph holds the mean of its box and every other dot is 0 |
| Braille.CarveEye | scripts/brand/braille-mark.py:269-281 | exactly the dot under the eye is cleared |
| Braille.EyeIsUnderItsDot | scripts/brand/braille-mark.py:279-280 | that dot belongs to the glyph and its width contains the eye |
| Braille.ToBraille | scripts/brand/braille-mark.py:284-295 | every character is the packed character of its eight dots |
| Braille.CellReadsBack | scripts/brand/braille-mark.py:288-293 | reading the dot bits of a character gives back which dots reach the threshold |
| Braille.TableIsBraille | scripts/brand/braille-mark.py:52-63 | the table is the numbering of braille dots: 1 to 3 down the left column, 4 to 6 down the right, 7 and 8 below, and dot n + 1 is bit n |
| Braille.OneDot | scripts/brand/braille-mark.py:290-293 | a character that shows a single dot stands at the place of that dot in the braille block |
| Braille.DotsDetermineTheCharacter | scripts/brand/braille-mark.py:290-293 | two characters that show the same dots are the same |
| Braille.TrimColumns | scripts/brand/braille-mark.py:298-304 | only blank columns at the two sides are cut off, as many as possible, and a blank picture stays whole |
| Descriptors.InOrder | crates/config/build.rs:132-140 | a table is accepted exactly when its orders are 0 to n - 1, and every row then stands at its order |
| Descriptors.ContiguousIsInjective | crates/config/build.rs:132-139 | with orders 0 to n - 1 no two rows share an order |
| Descriptors.SelectableKinds | crates/config/build.rs:91-145 | the list of selectable kinds is emitted exactly when the rows fit, identities are unique and the orders are contiguous; each kind then stands at its order |
| Descriptors.SelectedAre | crates/config/build.rs:110-114 | every selectable row is in the list that is ordered |
| Descriptors.OnlySelected | crates/config/build.rs:110-114 | and only those |
| Descriptors.PresentationTable | crates/config/build.rs:182-202 | the presentation table is emitted exactly when its orders are contiguous and its ids and tags are unique, and holds every row at its order |
| Descriptors.CompileAliases | crates/config/build.rs:526-540 | the aliases of a group are accepted exactly when the resolved selectors are unique |
| Descriptors.EveryAliasIsReached | crates/config/build.rs:526-540 | then the generated match sends every alias to its own target |
| Descriptors.FirstOccurrencesAre | crates/config/build.rs:566-571 | the de-duplicated roster is the first occurrence of each id ignoring case, in the original order, and no id is lost |
| Descriptors.Retain | crates/config/build.rs:569-570 | `retain` with a set of seen keys keeps exactly the first occurrences |
| Descriptors.CompletionNames | crates/config/build.rs:543-575 | names are given exactly for a known provider whose groups all exist and which, if retired or custom, has none; they are the roster with group references and aliases expanded in order, de-duplicated for one provider |

## Left out

- Text decoding: streams are sequences of characters, so UTF-8 errors and characters split between chunks are not modelled.
- JSON text: a writer and a reader given as functions, with the contract of `Common.Codec.Faithful`. The order of keys in an object is not modelled.
- SHA-256: an injective tag that carries its content, or a function parameter.
- Fetch, HTTP headers and status handling beyond the statuses that the client tells apart.
- Habitat: running out of space or power, and the `fsync` of the directory; every system call may fail, and a crash loses the process but not what a finished call did. The lock file is replaced only while no process is inside its critical section.
- Habitat: migration of older preferences, audio, and the user interface of the host; suspending the host saves like every other caller of `save`.
- HabitatHost.PetHost.Save: one process has the directory to itself; several processes are the subject of HabitatProtocol and HabitatRuns.
- HabitatHost.PetHost.Restart: states what the host holds, not the messages it shows.
- HabitatHost.PetNativeCore.ExportCompleted: exports a base number and a list of events; that chunks of the real recording join to its text is `PetExport.ChunksAreTheRecording`, for texts of any form.
- The world inside the pet core is a base number and a list of events with its own encoding; the JavaScript that runs it is not part of this model. How many events a segment retires is a function that the core is given.
- The owner of the shared pet is known by its receipt contract only (`pet/scripts/check-shared.py:50-53` and `108`); identities, authorization, the validation of frames and the connection file are not modelled.
- SeedCompiler.NormalizeSeedSpec: values of a wrong TOML type; a reason counts as blank if it is empty or only spaces, tabs and line ends. Names, addresses and other keys that do not select rows are not carried.
- Seed: TOML input, key order of the output, provider headers, the text of messages, and `validate_reviewed`, which is one boolean. Case folding is ASCII.
- Frontier: the frontier is a set, so the check that the list is sorted and has no duplicates is part of the document check only. The Rust scanner that finds handlers, and the selectors, are a given assignment of handlers to files.
- Reachability: how edges and roots are found in Rust sources and Cargo files.
- Budget: the shape of documents is modelled by their leaves; tool digests and JSON input are given.
- Floating point: reals, so rounding errors of doubles are not modelled; `sin`, `cos` and `pow` are functions with known bounds, and `atan2` and `hypot` are given.
- Pet: channel texts that name no channel are one value. Non-finite numbers do not exist in the model. The Swift port checks fewer guards when it restores; the Kotlin guards are modelled.
- PetSim.Sim.constructor: takes the sequence of draws, which module Mulberry provides for a seed.
- PetRuns.EveryCheckpointIsAccepted: for steps of one thirtieth of a second, which is what both native cores pass.
- PetDigest.SwiftDigest: requires colours and alpha that are not negative, as every frame of a run has; the conversion stops the program otherwise.
- Layout of the pet on a canvas, sound and drawing.
- Braille: loading, masking and flood filling of pictures, and finding the eye.
- `hero_mask` and `erode` of the brand points.
- Descriptors: the text of the generated Rust source, credentials, wire names and catalog references, which are one check each; the compatible-host rows.
- Release scripts, web pages, and the Rust crates.
