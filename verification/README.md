# Verification of the creator's consolidation, safety and rewriting engines

A Dafny model of the parts of the repository whose correctness is not visible from any single
function, with machine-checked proofs. Every module follows one engine and its source files; the
imperative engines are classes or methods proved against specification functions, and the
theorems are about those functions, about runs of them, or about runs of several processes.
`dafny verify dfyconfig.toml` checks the whole project.

| engine | files |
|---|---|
| build-family consolidation | `FamilyModel`, `FamilyPlanner`, `FamilyPlannerFacts`, `FamilyPlanOrder`, `FamilyMerge`, `FamilyRound`, `FamilyRounds`, `FamilyCover`, `FamilyRoundCover`, `FamilyStore`, `FamilyCounterexample`, `FamilyHash` |
| semantic-edge conflict filter and its chunked writes | `SemanticEdges`, `ConflictFilter`, `EdgeWrites` |
| one-shot review consumption | `ReviewConsume` |
| RePoE snapshot publication and corpus loading | `RepoeSnapshot` |
| DSH preset placement | `PresetInstall` |
| agent-host configuration and ownership receipts | `HostConfig`, `HostRuns` |
| release-seed pruning | `ReleaseSeed` |
| stratified sampling and the paginated collector | `SampleRows`, `Collector` |
| tool-name rewriting | `ToolPrefixes` |
| wiki-extract trimming | `TrimExtract`, `TrimResult` |
| design markers, drafts and reviews | `DraftBinding`, `DraftRuns` |

Conventions. SHA-256 is injective: it is a function parameter required to be injective for family
keys, and elsewhere a digest is represented by what it is a digest of. An operating-system lock
excludes others and is released by a crash; replacing or moving a file or directory is one step,
and a crash may come before or after any step. Strings that are only compared or ordered are
wrapped in small datatypes, ordered ones by their place in string order.

## What the proofs found

Some expectations one could have of the code are false. In each case the model follows the code;
the module holds a concrete run or input that shows it, and the exact condition where one exists.

- Consolidation can move a record under a family that no longer covers the family it came from: a
  join is executed after an expansion of the same round has consumed its target and another one
  has re-created a family with the target's key (`FamilyCounterexample.RecordLosesCover`). A join
  covers if and only if the target as it then is does (`FamilyCover.JoinCoversIff`, and over a whole
  round `FamilyRoundCover.RoundCoversIff`). A plan without such a re-creation never strands a record
  (`FamilyRoundCover.SafePlanCovers`), and stored keys that are digests of the whole primary set
  exclude it (`FamilyCover.TightRun`).
- Pruning the release seed a second time can delete more: the deletes accept evidence of another
  patch, tree or state scope, or with an empty binding issue, and the refresh of the evidence counts
  does not, so such a record is demoted. `ReleaseSeed.StableIff` gives the exact condition. The
  validation that follows refuses such a seed, and two passes always suffice. One surviving
  fragment with a null key, which a text primary key of SQLite allows, keeps every orphaned evidence
  row of a fragment (`ReleaseSeed.FragmentsClosedIff`, `ReleaseSeed.NullKeyKeepsOrphan`).
- A host entry that already equals the desired one gets no receipt. After a crash between writing
  the configuration and writing the receipts, a repeated install therefore repairs nothing, and an
  uninstall is refused (`HostRuns.CrashLeavesNoReceipt`); an entry without a receipt stands until
  the user edits the file (`HostRuns.UnreceiptedStands`). An entry whose value is `null` is overwritten.
- After uninstalling the preset beside a kept backup, `--force` does not help: the orphan backup
  refuses every install (`PresetInstall.PresetHome.ReinstallAfterUninstall`).
- A crash of a review between taking its lock and publishing, or an exception of a deletion there,
  blocks the run for good (`ReviewConsume.CrashOrphansIff`, `ReviewConsume.CrashBlocks`).
- Validating the same blueprint again renews its time, so the unchanged draft is refused as changed
  evidence while the frozen evidence is still in memory (`DraftBinding.SameBlueprintAgain`).
- A review reads the markers at different moments and takes no lock; a review that overlaps with
  validations can accept a candidate the latest markers are not about (`DraftRuns.TornReview`). The
  candidate agrees with the last markers read if and only if the selected attempt fits it
  (`DraftRuns.AcceptedAgreesIffFits`). Stale markers block every review but one that holds an older
  draft marker between its last two reads, which can be accepted (`DraftRuns.AcceptedWhileStale`).
- Substituting tool names one after the other is a simultaneous pass only because longer names go
  first (`ToolPrefixes.SimultaneousIff` is exact for any order); being clean and idempotent needs
  that no prefixed name is itself a tool name (`ToolPrefixes.CleanIff`, `ToolPrefixes.IdempotentIff`).

## Model

| member | source | states |
|---|---|---|
| FamilyModel.CanonUnion | server/knowledge/research_memory.py:3633-3655 | canonical sets distribute over union, so enriching a family only grows its canonical set |
| FamilyModel.LexBeforeIsListOrder | scripts/merge_build_families.py:140 | the set order used for supersets of one size is the order of their sorted token lists |
| FamilyPlanner.MergePlanExpansions | scripts/merge_build_families.py:114-179 | the nested planner loops compute exactly the specified plan, in plan order |
| FamilyPlannerFacts.PlanExact | scripts/merge_build_families.py:132-178 | an entry is planned if and only if it sends a family to its smallest strict superset, or, when it has none, to the richest family of the same canonical set and it is the poorer one |
| FamilyPlannerFacts.PlanWritten | scripts/merge_build_families.py:132-178 | the same in terms of the families' tokens: an expansion goes to the first of the smallest strict supersets, with both primary sets; a join to the richest family of the same tokens, with its primary set |
| FamilyPlannerFacts.PlanSourcesDistinct | scripts/merge_build_families.py:132-178 | no family is the source of two entries of one plan |
| FamilyPlanOrder.PlanInOrder | scripts/merge_build_families.py:127-178 | the entries come group by group as the groups are first listed, and within a group in the order of the families they move |
| FamilyPlannerFacts.EmptyPlanIffIncomparable | scripts/merge_build_families.py:124-179 | the plan is empty exactly when in every group the families with primary keys have pairwise incomparable canonical sets |
| FamilyPlannerFacts.PlanAcyclic | scripts/merge_build_families.py:132-178 | following source to target through any chain of entries of one plan never comes back |
| FamilyMerge.SourcesMerged | server/knowledge/research_memory.py:3684-3790 | a merge loses and invents no source of the group |
| FamilyMerge.MergePrimaryDst | server/knowledge/research_memory.py:3734-3790 | the target gains exactly the primary keys of the records moved to it |
| FamilyMerge.MergeCounts | server/knowledge/research_memory.py:3775-3785 | after a merge the target has both families' sources and their exact number, whatever was counted before; no other count changes unless its family goes |
| FamilyMerge.RunRecounts | scripts/merge_build_families.py:323-400 | over any plan every family whose sources changed is recounted, so counts that are exact at the start stay exact |
| FamilyRound.MergeKeepsRound | server/knowledge/research_memory.py:3656-3820 | a merge within the bounds of the stale plan keeps the round invariant: lived-on families are unchanged, every other stays inside some family of the round's start, keys stay digests of subsets |
| FamilyRound.ExecuteStep | scripts/merge_build_families.py:324-397 | an entry of the stale plan whose source has not run yet never hits the same-family error; only a join whose target is gone is skipped; an executed one keeps the invariant |
| FamilyRounds.StepShrinks | scripts/merge_build_families.py:324-397 | every executed entry, join or expand, even into a freshly computed key, lowers (number of families, elements missing from the universe) lexicographically |
| FamilyRounds.RunKeeps | scripts/merge_build_families.py:324-397 | after any prefix of a stale plan nothing has failed, the invariant holds, and from the first entry on there is progress |
| FamilyRounds.MaximalHasSink | scripts/merge_build_families.py:132-178 | every maximal canonical set has a family that no entry of the plan moves |
| FamilyRounds.RoundKeepsMaximal | scripts/merge_build_families.py:324-397 | a round neither loses nor adds a maximal canonical set of any group |
| FamilyCover.JoinCoversIff | scripts/merge_build_families.py:337-377 | a join leaves its moved records inside a family covering their old one if and only if the target as it is now, with the moved records, covers the source |
| FamilyCover.ExpandCovers | scripts/merge_build_families.py:362-377 | an expansion always covers its source |
| FamilyCover.TightRun | scripts/merge_build_families.py:324-397 | when stored keys are digests of sets as large as the whole primary set, every record ends a round under a family covering its old one, and the keys stay so for the next round |
| FamilyRoundCover.RoundCoversIff | scripts/merge_build_families.py:324-397 | over a whole round, every executed entry leaves its records covered if and only if every join that runs finds its target, as it is at its turn, covering its source |
| FamilyRoundCover.CoveringRun | scripts/merge_build_families.py:324-397 | and then every record is under a family covering its old one after any part of the round |
| FamilyRoundCover.SafePlanCovers | scripts/merge_build_families.py:311-400 | whatever the keys, a plan in which no expansion re-creates the target of a later join with keys too few for it strands no record |
| FamilyRoundCover.TightIsSafe | scripts/merge_build_families.py:324-397 | tight keys make every plan such a plan |
| FamilyCounterexample.RecordLosesCover | scripts/merge_build_families.py:311-400 | without that condition a whole two-round run, ending on an empty plan, leaves a record under a family that does not cover its old one: a join follows an expansion that re-created the target's key |
| FamilyHash.SomeNamesFit | server/knowledge/research_memory.py:3633-3655 | a collision-free digest and six keys with which that run happens exist |
| FamilyStore.RoundKept | scripts/merge_build_families.py:311-400 | a round from a fresh load keeps owners live, groups, sources, families without keys and maximal sets, and strictly progresses unless its plan is empty |
| FamilyStore.EmptyPlanConsolidated | scripts/merge_build_families.py:320-322 | on an empty plan each group has exactly one family per maximal canonical set of the start, and no other with primary keys |
| FamilyStore.BackfillKept | scripts/merge_build_families.py:294-308 | storing the enriched keys before the first round changes nothing that consolidation is about |
| FamilyStore.Store.LoadFamilies | scripts/merge_build_families.py:68-88 | every stored family is loaded once, with its ascendancy and its evidence count, and with its own keys and those of its records |
| FamilyStore.Store.MergeFamilyRecords | server/knowledge/research_memory.py:3680-3790 | given column by column: the target keeps or takes its ascendancy and keys, has both families' sources and their exact number as evidence count, the source is gone, its records are the target's, and every other row is as it was |
| FamilyStore.Store.RunRound | scripts/merge_build_families.py:323-400 | the apply loop on a stale plan computes the specified round |
| FamilyStore.Store.Backfill | scripts/merge_build_families.py:294-308 | every family's stored keys become its own and those of its records, and nothing else changes |
| FamilyStore.Store.Apply | scripts/merge_build_families.py:294-409 | the tables are backfilled and then go through rounds, each the plan of the families as they are, run on them, and each merging something; rounds and merges are counted; success is an empty plan within 51 rounds, with one family per maximal set left, and failure a fifty-first round that merged; it terminates by its own measure and keeps the invariants, exact evidence counts among them |
| SemanticEdges.DeadEnd | scripts/backfill_semantic_edges.py:514-516 | an empty frontier proves that no longer walk exists, so the early exit is sound |
| SemanticEdges.ShortCycle | scripts/backfill_semantic_edges.py:504-516 | the bounded frontier search answers yes exactly when a walk of one to three edges leads from the target back to the source |
| SemanticEdges.ClosesWritten | scripts/backfill_semantic_edges.py:504-516 | a candidate is refused exactly when the graph has an edge, two or three consecutive edges from its target back to its source, the edges named |
| SemanticEdges.InverseCloses | scripts/backfill_semantic_edges.py:497-503 | the separate inverse test never changes a verdict: the first hop subsumes it |
| SemanticEdges.Conflicts | scripts/backfill_semantic_edges.py:479-522 | the loops compute exactly the kept and the dropped candidates, in order, each candidate once |
| ConflictFilter.CutAt | scripts/backfill_semantic_edges.py:504-516 | a closed walk through an edge gives a walk back from its target to its source that avoids the edge |
| ConflictFilter.TurnWritten | scripts/backfill_semantic_edges.py:493-521 | each candidate in its turn is dropped when one, two or three edges of the existing and the kept ones lead from its target to its source, and kept otherwise |
| ConflictFilter.HopLimit | scripts/backfill_semantic_edges.py:504-516 | three edges in a row drop the edge that closes them, four do not |
| ConflictFilter.KeptCycleFreeIff | scripts/backfill_semantic_edges.py:479-522 | no closed walk of at most four edges of the resulting graph passes through a kept edge, if and only if no self-loop was kept |
| ConflictFilter.FilterKeepsAcyclic | scripts/backfill_semantic_edges.py:182-183 | without self-loops among the candidates, a graph free of short cycles stays free of them, for any candidate order and any edge types |
| ConflictFilter.FilterMaximal | scripts/backfill_semantic_edges.py:493-521 | kept and dropped split the candidates, and adding back any dropped edge closes a short walk in the final graph |
| ConflictFilter.KeptIffFinal | scripts/backfill_semantic_edges.py:493-521 | a candidate is kept at its place exactly when it closes nothing in the final graph |
| ConflictFilter.RerunSameSplit | scripts/backfill_semantic_edges.py:493-521 | re-running the same candidates after the kept edges were stored gives the same split |
| ConflictFilter.SelfLoopUnstable | scripts/backfill_semantic_edges.py:182-183 | with self-loops it would not: one is kept once and then closes itself |
| EdgeWrites.DedupeByIdentity | scripts/backfill_semantic_edges.py:438-457 | the loop keeps one candidate per identity and counts the rest |
| EdgeWrites.UniqueDistinct | scripts/backfill_semantic_edges.py:447-457 | no identity is kept twice |
| EdgeWrites.UniqueComplete | scripts/backfill_semantic_edges.py:447-457 | no identity is lost |
| EdgeWrites.UniqueFirst | scripts/backfill_semantic_edges.py:447-457 | each identity is represented by its first bearer |
| EdgeWrites.ChunksConcatenateIff | scripts/backfill_semantic_edges.py:557-558 | the chunks concatenate to the input exactly when the size is positive, or the input is empty and the size is not zero |
| EdgeWrites.ChunkSize | scripts/backfill_semantic_edges.py:557-558 | every chunk is non-empty and at most the size, and all but the last are of that size |
| EdgeWrites.GuardImpliesCloses | server/knowledge/research_memory.py:7102-7208 | whatever the service's guard refuses, in any subset of the graph it can see, the filter refuses as well |
| EdgeWrites.GuardWritten | server/knowledge/research_memory.py:7102-7208 | the guard refuses exactly edges of the six directional types whose target leads back to their source over one to three rows of the type that it can see |
| EdgeWrites.ProposeWritten | server/knowledge/research_memory.py:4391-4475 | a chunk is written edge by edge, each judged on the rows of its turn, up to the first that is refused; what was written stays |
| EdgeWrites.RunWritten | scripts/backfill_semantic_edges.py:561-581 | a run has a trace: every chunk it sends meets the rows the chunks before it left; it goes on after an accepted chunk, after a rejected one only when told to, and reports the identities of the accepted and the places of the rejected ones |
| EdgeWrites.KeptNeverRejected | scripts/backfill_semantic_edges.py:561-581 | writing the kept edges in chunks of any positive size, no chunk is ever rejected, every identity is reported in order, and in apply mode stored |
| EdgeWrites.Memory.ProposeSemanticEdges | server/knowledge/research_memory.py:4391-4475 | edges are written in order up to the first conflict; earlier rows of the chunk stay |
| EdgeWrites.Memory.ValidateSemanticEdges | server/knowledge/research_memory.py:2258-2330 | a chunk is judged against the stored rows alone and nothing is written |
| EdgeWrites.Memory.RunMode | scripts/backfill_semantic_edges.py:561-581 | the loop over the chunks has such a trace for any size, raises exactly for size zero, and with a negative size sends nothing |
| ReviewConsume.NextInv | scripts/create_build.py:851-990 | lock exclusion, the absence of a marker inside the lock, and the winner's result are kept by every step of every call, with crashes anywhere |
| ReviewConsume.AtMostOneAccepted | scripts/create_build.py:972-990 | over all interleavings at most one call returns accepted |
| ReviewConsume.ResultIsWinners | scripts/create_build.py:853-854 | once the marker exists the result exists, is the winner's, and is never rewritten or deleted |
| ReviewConsume.CrashOrphansIff | scripts/create_build.py:972-990 | a crash leaves an orphaned lock exactly when the call held the lock and nothing was consumed yet |
| ReviewConsume.OrphanBlocks | scripts/create_build.py:972-990 | an orphaned lock blocks the run for good: no later call changes anything or is accepted |
| ReviewConsume.CrashBlocks | scripts/create_build.py:972-990 | over every run, a crash or an uncaught exception between taking the lock and publishing freezes the directory as it then is |
| ReviewConsume.RunDirectory.ReviewPacket | scripts/create_build.py:851-993 | one uninterrupted call, with any failing file operation, deletions included, takes only steps of the protocol; it accepts exactly when nothing was consumed or locked and nothing fails; after a failed rename it removes its result again; a failing deletion ends it by exception and leaves an orphaned lock |
| RepoeSnapshot.NextInv | pipeline/repoe_snapshot.py:49-91 | whoever is inside the guard is alone; without the pending marker the directory is untouched or whole; kept by every step of publishers and readers with crashes and retries |
| RepoeSnapshot.NeverMixed | pipeline/repoe_snapshot.py:83-91 | whenever the marker is absent, all files are one commit's export with its manifest, or the directory is what the run began with |
| RepoeSnapshot.VerifyIsHonest | pipeline/repoe_snapshot.py:94-130 | a guarded verification returns nothing only for untouched legacy input, and a manifest only when every file is that commit's |
| RepoeSnapshot.BuildLoadsExpected | pipeline/build_corpus.py:217-231 | a build with an expected commit loads only bytes of that commit, whatever runs beside it |
| RepoeSnapshot.BuildLoadsOneExport | pipeline/build_corpus.py:217-231 | a build without one loads the untouched input or a single export |
| RepoeSnapshot.OwnCheckPasses | pipeline/repoe_snapshot.py:89 | the publisher's own verification inside the guard always passes |
| RepoeSnapshot.VerdictIsWritten | pipeline/repoe_snapshot.py:94-130 | verification is unbound exactly without a manifest or with an old one, returns the manifest exactly when it records every one of the six files as it is, and otherwise raises; a pending marker raises for everyone but the publisher |
| RepoeSnapshot.AuthorisedIff | pipeline/build_corpus.py:214-221 | a build goes on exactly over legacy input or a whole export when no commit is expected, and only over that commit's whole export when one is |
| RepoeSnapshot.MustFetchIff | pipeline/build_corpus.py:187-203 | a fetch is needed exactly when it is asked for, one of the five sources is missing, or a commit is expected that the directory does not hold whole |
| RepoeSnapshot.CompleteIsExported | pipeline/repoe_snapshot.py:66-91 | a published directory has every file of the commit under a manifest that records it |
| RepoeSnapshot.RawDirectory.FetchSnapshot | pipeline/repoe_snapshot.py:49-91 | publication takes eight file operations: a failed staging changes nothing, an interruption before the last of them leaves the marker, and otherwise the directory is the commit's export |
| RepoeSnapshot.RawDirectory.FetchAll | pipeline/build_corpus.py:187-205 | refetches exactly when asked to, when one of the five sources is missing, or when the directory is not the expected commit's export, and then ends with that export or fails; otherwise it leaves the directory as it is and succeeds exactly over legacy input or a whole export |
| RepoeSnapshot.RawDirectory.Build | pipeline/build_corpus.py:214-231 | loads exactly the five source files as they are when the directory may be loaded and they exist, and stops otherwise; without an expected commit that includes untouched legacy input |
| RepoeSnapshot.RawDirectory.FetchThenBuild | pipeline/build_corpus.py:187-231 | a fetch of the expected commit that succeeds is what the build then loads |
| PresetInstall.NextInv | scripts/install_dsh_preset.py:320-413 | what each point of an install knows of target, backup and staging, and that no tree is lost, is kept by every step, failure and crash |
| PresetInstall.LiveTreesSurvive | scripts/install_dsh_preset.py:329-403 | over all runs a tree that was ever live at the target is later whole at the target, the backup or a rotated backup |
| PresetInstall.FailedInstallKeepsTarget | scripts/install_dsh_preset.py:333-413 | a call that ends without success, returned or by exception, leaves the target as it was, unless the restoring move fails itself; then the backup holds it |
| PresetInstall.MidSwapUnhealthy | scripts/install_dsh_preset.py:444-491 | no state from the first staged byte to the end of the swap is reported healthy |
| PresetInstall.HealthyIsWhole | scripts/install_dsh_preset.py:444-491 | healthy means exactly a sound checkout, nothing staged, and at the target a whole tree with all its parts that was installed or there from the start |
| PresetInstall.ResidueStands | scripts/install_dsh_preset.py:322-346 | beside a staging tree, or a backup without a target, no call, forced or not, changes any directory or reports success |
| PresetInstall.CrashStaysUnhealthy | scripts/install_dsh_preset.py:468-491 | after a crash in mid-swap every later moment is unhealthy, until someone repairs the directory by hand |
| PresetInstall.ForeignTargetStands | scripts/install_dsh_preset.py:308-313 | over every run of calls, whatever their flags, failures and crashes, a target without the composition file stops everything: no directory is moved, copied or rotated from then on |
| PresetInstall.StatusIsWritten | scripts/install_dsh_preset.py:294-426 | each refusal and each way to fail, exactly, in terms of the flags, the directories and the failing operations |
| PresetInstall.FilesAreWritten | scripts/install_dsh_preset.py:349-413 | target, backup, rotated backups and staging after a call, directory by directory |
| PresetInstall.InstalledHealthyIff | scripts/install_dsh_preset.py:444-491 | after an install the doctor is content exactly when the checkout is complete and the incoming tree has the two parts the installer does not test for |
| PresetInstall.PresetHome.Install | scripts/install_dsh_preset.py:294-426 | one call with any failing operation takes only steps of the protocol, and answers and leaves exactly what is written out: it installs exactly when nothing refuses or fails, the old target then being the backup and an old backup rotated; a foreign target, an unforced reinstall, residue, a bad checkout and a missing uv each refuse under their own condition and touch nothing |
| PresetInstall.PresetHome.Swap | scripts/install_dsh_preset.py:372-413 | the try block installs, or puts the old target back and removes the staging tree; exactly which files remain when a restoring move or the removal fails |
| PresetInstall.PresetHome.UninstallPreset | scripts/install_dsh_preset.py:429-441 | only a directory that is recognisably the preset is removed |
| PresetInstall.PresetHome.ReinstallAfterUninstall | scripts/install_dsh_preset.py:333-346 | an uninstall beside a kept backup makes the next install, forced or not, refuse |
| HostConfig.Configure | scripts/configure_agent_host.py:219-245 | the loop judges every name as if it had written nothing, up to the first entry that is not its own |
| HostConfig.FilledAll | scripts/configure_agent_host.py:219-245 | over all names it replaces the container entries by the desired ones |
| HostConfig.TakenAll | scripts/configure_agent_host.py:235-243 | and takes new receipts for exactly the entries that differed |
| HostConfig.LoopVerdict | scripts/configure_agent_host.py:201-234 | the loop's refusal after dropping the legacy entry is the refusal of the loaded file, and names the first foreign entry in order |
| HostConfig.StatusIsWritten | scripts/configure_agent_host.py:173-258 | an install answers conflict exactly when an entry that differs from the desired one, or the old entry, has no receipt for this file and its value; unchanged, a dry run and the unreadable cases each under their own condition |
| HostConfig.DiskIsWritten | scripts/configure_agent_host.py:235-270 | entry by entry, receipt by receipt and file by file, what an install that configures leaves |
| HostConfig.HostFiles.Install | scripts/configure_agent_host.py:173-270 | when it configures, the file as found goes to the backup unless one exists, every desired entry is in place, receipts are taken for the entries that changed, and every other entry, file and receipt is as it was; a conflict, an unreadable file, a dry run or an idle call changes no file |
| HostConfig.HostFiles.Uninstall | scripts/configure_agent_host.py:273-335 | when it removes, every entry under the four names and its receipt are gone and every other entry, file, backup and receipt is as it was; otherwise no file changes |
| HostConfig.Strip | scripts/configure_agent_host.py:305-322 | the removal loop refuses exactly when some present entry has no matching receipt |
| HostConfig.RemovalIsWritten | scripts/configure_agent_host.py:273-322 | an uninstall answers conflict exactly when one of the four entries or the old one is there without its receipt |
| HostConfig.RemovalDiskIsWritten | scripts/configure_agent_host.py:305-335 | entry by entry and receipt by receipt, what a removal leaves |
| HostRuns.StepInv | scripts/configure_agent_host.py:235-243 | a receipt always speaks of a value the installer wrote itself under that name |
| HostRuns.UnreceiptedKept | scripts/configure_agent_host.py:106-335 | no step of any call, however far it gets before a crash, alters an entry whose fingerprint the receipts of the host acted for do not name |
| HostRuns.UnreceiptedStands | scripts/configure_agent_host.py:106-335 | over every run, an entry without a matching receipt of the hosts acted for, the user's own or one whose receipt was lost or never written, never gets one and stays until the user edits its file |
| HostRuns.ForeignEntryStands | scripts/configure_agent_host.py:184-335 | so a value the installer never wrote under that name stays until the user edits its file |
| HostRuns.BackupNeverRewritten | scripts/configure_agent_host.py:131-137 | the backup of a file is taken once |
| HostRuns.BackupTaken | scripts/configure_agent_host.py:131-137 | over every run, from the first configuring call on and wherever that call is cut off, a configuration file that was there is in the backup as it was found |
| HostRuns.UndoneIff | scripts/configure_agent_host.py:221-226 | after an install an uninstall goes through exactly when each entry that was already as desired had its own receipt |
| HostRuns.CrashLeavesNoReceipt | scripts/configure_agent_host.py:259-261 | a crash between the two writes leaves entries a repeated install finds already configured, so it writes no receipt; an uninstall then goes through exactly when old receipts happen to cover them |
| HostRuns.InstallThenUninstall | scripts/configure_agent_host.py:184-335 | with none of the managed names present, install then uninstall restores the file up to dropping an empty container, and the schema address an empty opencode file is given |
| HostRuns.NullIsOverwritten | scripts/configure_agent_host.py:223-235 | an entry whose value is null counts as absent and is overwritten |
| HostRuns.LegacyBlocks | scripts/configure_agent_host.py:106-128 | with a first-version receipt file the old entry blocks the install exactly when its receipt does not name this file and value |
| HostRuns.LegacyMigrated | scripts/configure_agent_host.py:106-128 | a migrated install drops the old entry and its receipt and keeps the other hosts' old receipts |
| ReleaseSeed.PruneCloses | scripts/build_research_release_seed.py:104-237 | one pass reaches closure on any database: evidence points at surviving records with the same projection and provenance, records have families, families have records, family evidence has both, counts are exact |
| ReleaseSeed.PruneWritten | scripts/build_research_release_seed.py:104-237 | column by column: a record survives exactly when it is creator-visible, global, copy-safe, valid, of schema 2, hashed, active or agnostic and standard, is not held, and has a row that supports it; the same for evidence, fragments and families, with what the refresh writes |
| ReleaseSeed.SurvivesIff | scripts/build_research_release_seed.py:106-153 | exactly the records that are safe, not held, and supported survive, unchanged but for what the refresh recomputes |
| ReleaseSeed.KeepsEvidenceIff | scripts/build_research_release_seed.py:132-187 | a surviving record keeps an evidence row of its own if and only if it is not superseded |
| ReleaseSeed.FragmentsClosedIff | scripts/build_research_release_seed.py:154-162 | fragment evidence is closed as well if and only if the database has no safe fragment with a null key or no safe evidence row without a safe fragment |
| ReleaseSeed.NullKeyKeepsOrphan | scripts/build_research_release_seed.py:154-162 | one fragment with a null key and one orphaned row: the row survives any number of passes |
| ReleaseSeed.ValidIffBacked | server/knowledge/research_claim_writes.py:121-152 | a survivor stays valid if and only if it is not superseded and some kept row also has its patch, tree and state scope and no binding issue |
| ReleaseSeed.StableIff | scripts/build_research_release_seed.py:104-237 | pruning again deletes nothing if and only if every survivor is so backed, and if and only if no survivor was demoted |
| ReleaseSeed.TwoPasses | scripts/build_research_release_seed.py:104-237 | two passes always reach a fixpoint |
| ReleaseSeed.OldPatchIsNotStable | server/knowledge/research_claim_writes.py:128-147 | a record with evidence of an earlier patch only survives the deletes, is demoted, and is deleted by a second pass |
| ReleaseSeed.Seed.RefreshRecords | server/knowledge/research_claim_writes.py:121-152 | row by row every record gets the sources and references of exactly the rows that speak for it at its patch, tree and state scope, each source counted once, and is deprecated when there is none; recency is kept |
| ReleaseSeed.Seed.Prune | scripts/build_research_release_seed.py:104-237 | the ordered statements leave exactly the written-out seed, and it is closed |
| SampleRows.SortSorts | scripts/run_judge_ninja_samples.py:128-129 | buckets are sorted by falling level, then name |
| SampleRows.SortStable | scripts/run_judge_ninja_samples.py:128-129 | rows equal in level and name stay in their order |
| SampleRows.NextIsNew | scripts/run_judge_ninja_samples.py:133-138 | the next row of a bucket is never one that was already selected |
| SampleRows.EvenInRound | scripts/run_judge_ninja_samples.py:143-160 | after any part of any round no bucket is two ahead of one that still has rows |
| SampleRows.BehindInRound | scripts/run_judge_ninja_samples.py:143-160 | after any part of any round, whatever a bucket has left comes after everything selected: within the minimum by ascendancy, beyond it by place in the bucket and then by ascendancy |
| SampleRows.StuckIsFull | scripts/run_judge_ninja_samples.py:158-159 | a round without progress means that every row is selected |
| SampleRows.FullSelectionIsPermutation | scripts/run_phase45_researcher_batch.py:427-431 | selecting as many as there are rows returns all of them |
| SampleRows.OneSelection | scripts/run_judge_ninja_samples.py:133-161 | the order of picks and the size leave one possible result |
| SampleRows.MinimumPhase | scripts/run_judge_ninja_samples.py:131-141 | the minimum phase picks the first rows of each bucket in ascendancy order, up to the target |
| SampleRows.Round | scripts/run_judge_ninja_samples.py:145-157 | a round deals one row to each bucket that has one, in order, and stops at the target |
| SampleRows.Sample | scripts/run_judge_ninja_samples.py:119-161 | with unique (account, name): as many rows as asked for or all; of an ascendancy the higher levels first, then by name, then as listed, and none left out is better; dealt in the order of the minimum and the rounds, with everything left coming later; a permutation when the target is the number of rows. Without uniqueness still distinct rows within the target |
| Collector.TakenFacts | scripts/run_phase45_researcher_batch.py:486-525 | cases are numbered on from the start index, come from rows, and have distinct identities that were not known |
| Collector.NothingMissed | scripts/run_phase45_researcher_batch.py:486-525 | below the target a row with a payload is passed over only when its source is studied or its content known |
| Collector.Screen | scripts/run_phase45_researcher_batch.py:396-420 | a page yields each new admissible character once, and all of them; a page of repeats yields none |
| Collector.StandingNext | scripts/run_phase45_researcher_batch.py:366-443 | one more page keeps numbering, distinctness, admissibility and the coverage of everything listed |
| Collector.CasesAreWritten | scripts/run_phase45_researcher_batch.py:366-443 | each case is of a named character within the level bounds and of an asked ascendancy and class, with the payload of its row as source and identity; cases come page after page, and on a page the higher levels of an ascendancy first |
| Collector.NothingIsMissed | scripts/run_phase45_researcher_batch.py:390-443 | while there is room, every listed character that may be collected was tried: without a payload, known to research, or with content among the cases |
| Collector.EndIsWritten | scripts/run_phase45_researcher_batch.py:366-426 | the pages end after fifteen, after three empty attempts at one, or with a page whose asked characters were all listed before |
| Collector.Ninja.FetchPage | scripts/run_phase45_researcher_batch.py:378-388 | at most three attempts, the first that finds rows |
| Collector.Ninja.PayloadCases | scripts/run_phase45_researcher_batch.py:469-525 | the loop over rows takes exactly the specified cases and remembers their identities |
| Collector.Ninja.Collect | scripts/run_phase45_researcher_batch.py:305-448 | the cases are as written out above, at most as many as asked for and as there are targets, numbered from 1, of distinct characters and content; untargeted none from the ledger or studied, targeted only requested ones, with matched plus missing equal to requested; at most fifteen pages and three fetches each; with room left nothing was missed and the pages ended for a reason |
| ToolPrefixes.SubstituteMaps | scripts/adapt_skills_for_dsh.py:146-149 | one word-bounded substitution replaces exactly the maximal words equal to the name |
| ToolPrefixes.FoundIsWord | scripts/adapt_skills_for_dsh.py:414-417 | the bare-name search finds a tool exactly when it is a maximal word of the text |
| ToolPrefixes.SequentialIsSimultaneous | scripts/adapt_skills_for_dsh.py:244-245 | longest name first, the substitutions equal one simultaneous pass for every table; in any other order they do when no prefixed name is a tool |
| ToolPrefixes.WrongOrderDiffers | scripts/adapt_skills_for_dsh.py:244-245 | and when a prefixed name is a tool whose turn comes later, they do not |
| ToolPrefixes.SimultaneousIff | scripts/adapt_skills_for_dsh.py:238-246 | in a given order the substitutions equal the simultaneous pass on every text if and only if no prefixed name is a tool whose own turn comes later |
| ToolPrefixes.OtherWordsKept | scripts/adapt_skills_for_dsh.py:146-149 | words keep their number and place, and a word that is no tool is never touched |
| ToolPrefixes.CleanIff | scripts/adapt_skills_for_dsh.py:414-417 | the rewritten text has no bare tool name if and only if no tool in it is prefixed to another tool's name |
| ToolPrefixes.IdempotentIff | scripts/adapt_skills_for_dsh.py:238-246 | a second pass changes nothing under the same condition, and only then |
| ToolPrefixes.RewriteIsWritten | scripts/adapt_skills_for_dsh.py:146-149 | however a text is cut into words of letters, digits and underscores and the gaps between them, the rewriting keeps the gaps and every word that is no tool, and puts the full name in place of each that is |
| ToolPrefixes.CutExists | scripts/adapt_skills_for_dsh.py:146-149 | every text can be so cut |
| ToolPrefixes.TableIsWritten | scripts/adapt_skills_for_dsh.py:132-143 | the table has every tool of every server under mcp__ server __ tool, and nothing else |
| ToolPrefixes.ToolToPrefixed | scripts/adapt_skills_for_dsh.py:132-143 | refuses exactly when two servers of different names register the same tool, and otherwise returns that table |
| ToolPrefixes.TableIsTable | scripts/adapt_skills_for_dsh.py:132-143 | the table of servers and tools with identifier names maps words to longer words |
| ToolPrefixes.RewriteTools | scripts/adapt_skills_for_dsh.py:238-245 | the loop over the sorted tools is the simultaneous pass, and rewrites every cut of the text so |
| ToolPrefixes.BareNames | scripts/adapt_skills_for_dsh.py:414-417 | the check reports exactly the tools that are among the words of any cut of the text |
| TrimExtract.KeptIsPicked | pipeline/wiki.py:107-128 | exactly the lines that are no heading, and the headings with a body line before the next heading, are kept, in order |
| TrimExtract.BodiesKept | pipeline/wiki.py:107-128 | no body line is lost or moved |
| TrimExtract.TrimLines | pipeline/wiki.py:107-127 | the index loops compute the kept lines |
| TrimExtract.PreparationKeepsLines | pipeline/wiki.py:105 | the strip and the collapsing of blank runs change no line of the result |
| TrimExtract.JoinedLines | pipeline/wiki.py:106-128 | splitting the joined result gives the kept lines back |
| TrimExtract.TrimTwice | pipeline/wiki.py:99-128 | trimming is idempotent on every text |
| TrimExtract.LoadAfterFetch | pipeline/wiki.py:155-229 | loading a page that was not cut to the maximal length gives what was fetched; a cut costs at most the torn end and a heading right before it |
| TrimResult.TrimIsWritten | pipeline/wiki.py:99-128 | of the rows of a text exactly those stay that are neither blank nor a heading, and the headings (at most 60 characters, no closing punctuation) with a line of text before the next heading; each without the white space around it, in order, one per line |
| TrimResult.TrimText | pipeline/wiki.py:99-128 | the whole trimmer returns that for every text |
| DraftBinding.AuditFoundAgain | server/generation/evidence_authority.py:130-154 | an accepted audit is found again from any tool list with the same rows for the references the blueprint uses |
| DraftBinding.AuditIsWritten | server/generation/evidence_authority.py:54-110 | an audit is refused exactly for an internal receipt that research does not have or its tool does not issue, a cited reference with neither tool nor receipt, or an unverified one under a stated claim or a hypothesis without verification tasks; an accepted one says of each cited reference where it comes from |
| DraftBinding.RebuiltIffStands | server/generation/evidence_authority.py:130-154 | an audit is found again from a candidate exactly when it has the same cited references with the same rows and kinds, and no claim needs what nobody verified |
| DraftBinding.CheckIsWritten | scripts/create_build.py:1179-1252 | each error of the blueprint check, and passing it, exactly, in terms of the candidate and the marker |
| DraftBinding.CheckDraftIsWritten | scripts/create_build.py:1253-1282 | each error of the draft check, and passing it, exactly |
| DraftBinding.OutcomeIsWritten | scripts/create_build.py:233-475 | a draft is accepted exactly when everything passes and the marker differs from it in some field; recognised, rebuilt or refused as changed evidence by what is frozen |
| DraftBinding.FilesAreWritten | scripts/create_build.py:440-485 | only an accepted draft writes the marker, field by field, with its time; what is frozen when |
| DraftBinding.ValidatedPasses | scripts/create_build.py:1222-1242 | a candidate with the validated blueprint and tools passes the blueprint check |
| DraftBinding.DraftPasses | scripts/create_build.py:360-485 | and, once its draft is accepted, the draft check too: nothing refuses the validated design |
| DraftBinding.AcceptedThenAlready | scripts/create_build.py:452-473 | after an accepted draft one that differs in time and narrative only is recognised and changes nothing |
| DraftBinding.SameBlueprintAgain | server/generation/mechanism_evidence.py:92-107 | validating the same blueprint again makes the equal draft refused while the frozen evidence is kept, and rebuilt once it is gone |
| DraftBinding.StaleBlocks | scripts/create_build.py:1261-1266 | while the draft marker belongs to another blueprint than the blueprint marker no candidate passes, and there is no current binding |
| DraftRuns.OtherBlueprintIsStale | scripts/create_build.py:177-202 | validating a different blueprint makes the draft marker stale |
| DraftRuns.AcceptedAgrees | scripts/create_build.py:1222-1282 | in every run an accepted candidate agrees in blueprint, evidence audit, design tools and (schema 3) research decisions with the markers it was checked against |
| DraftRuns.AcceptedAgreesIffFits | scripts/create_build.py:996-1032 | in every run, whatever is validated meanwhile, an accepted candidate agrees with the last markers its review read if and only if the selected attempt fits it, a condition on the two alone |
| DraftRuns.OneCandidateAgreesIffFits | scripts/create_build.py:1179-1282 | when all blueprints of the run are validated for one candidate, the same condition decides whether both checks would still pass against those markers |
| DraftRuns.AcceptedAgreesWithLatest | scripts/create_build.py:1222-1282 | in particular it agrees with the latest markers, to which its attempt is bound, when no validation changes one during the review |
| DraftRuns.TornReview | scripts/create_build.py:996-1032 | a review that overlaps with validations can accept a candidate the latest markers are not about |
| DraftRuns.BlockedUntilRevalidated | server/generation/run_store.py:83-112 | after a different blueprint is validated no review, new or in flight, is accepted until a draft is validated anew or the old blueprint is, unless it holds an older draft marker between the two reads of its comparison |
| DraftRuns.AcceptedWhileStale | server/generation/run_store.py:83-112 | and such a review can be accepted while the draft marker is stale |
| DraftRuns.RepeatedDraftKeepsMarker | scripts/create_build.py:448-475 | after an accepted draft, any number of submissions of the same design and of its blueprint, with evictions and reviews between, leave the draft marker and its time as they were |
| DraftRuns.ReviewIsWritten | scripts/create_build.py:996-1032 | each answer of an undisturbed review, exactly: it accepts when the candidate is bound to both markers and the selected attempt was made under these very markers |
| DraftRuns.AuditBlueprint | server/generation/evidence_authority.py:74-110 | the loop over the claims refuses exactly what is written out, and returns the audit of the cited references |
| DraftRuns.RunFiles.ValidateBlueprint | scripts/create_build.py:75-202 | under the shared lock the marker is written, field by field, exactly when no artifact is saved and nothing refuses the submission; nothing else changes |
| DraftRuns.RunFiles.ValidateDraft | scripts/create_build.py:233-485 | outcome, marker and frozen evidence are as written out |
| DraftRuns.RunFiles.Review | scripts/create_build.py:1179-1282 | the answer is as written out, and nothing is written |

## Left out

- Deprecation of duplicate records when a merged family already holds the same projection, the
  merge log, secondary skill keys and pattern origins: they change neither owners nor primary keys.
- FamilyStore.Store.Apply: assumes that stored keys that are digests at all are digests of the
  family's ascendancy and a subset of its primary keys, that every record's family exists, and that
  the canonical token of a key does not change during the run; the script's report mode, the
  partial-overlap report and the backup copy are not modelled.
- FamilyStore.Store.MergeFamilyRecords: does not model the deprecation of duplicate records and the
  merge log, as said above.
- EdgeWrites.Memory.ProposeSemanticEdges: payload validation, copy safety and endpoint checks that
  can also reject a chunk are taken as passed; which stored rows are adoptable for an edge's patch is
  an arbitrary relation.
- EdgeWrites.Memory.ValidateSemanticEdges: the same checks are taken as passed.
- EdgeWrites.Memory.RunMode: a rejected chunk is reported by its index; its error code is always that
  of a semantic conflict.
- ReviewConsume.RunDirectory.ReviewPacket: everything a review checks before it takes the lock is one
  verdict here; the marker checks among it are modelled in `DraftBinding` and `DraftRuns`.
- RepoeSnapshot.RawDirectory.FetchSnapshot: downloads and staging are one outcome; the contents of a
  commit's export are a function of the commit; the wiki part of `fetch_all` is not part of this model.
- PresetInstall.PresetHome.Install: calls do not overlap in time; rotation stamps are distinct, which
  the second-resolution timestamps are not by themselves; the tree is its name and the parts the
  installer and the doctor test for.
- HostConfig.HostFiles.Install: JSON values are compared by canonical text, so numbers that are equal
  but written differently count as different; member order and formatting of the files are not
  modelled; `doctor_host` only reads.
- ReleaseSeed.Seed.Prune: tables filtered row by row on their own columns (semantic edges, patterns,
  design observations, meta), patch reviews and the rebuilt secondary skill keys are left out; which
  records have a pending hold is given with the database.
- SampleRows.Sample: characters are compared by account and name as in the source; negative arguments
  do not occur.
- Collector.Ninja.Collect: what a list or detail page yields is a function of the page and attempt or
  of the row; the character reference is any function of account and name, so two spellings of one
  character may share it; malformed target references and the setup of the browser are left out;
  the counters of rows skipped as researched or studied are kept but not specified.
- The queue bookkeeping after the collector (`_next_pending_cases`, `_merge_previous_state`): it sets
  the status of cases one at a time.
- ToolPrefixes.RewriteTools: the rewriting of legacy prefixes and row names after the tool step, and
  the literal wording rules, are fixed patterns without further structure.
- TrimResult.TrimText: white space is the set Python's `isspace` accepts, written out by code point.
- DraftBinding.ValidatedPasses: receipts, research plans, calculation targets and family bindings that
  are also checked are one flag; reviews through a saved artifact selection, which read the frozen
  evidence of a judged attempt instead of the markers, are not modelled, nor is an evaluation lock
  broken for its age.
- The Phase 4 endpoint-review scripts, copy-safety scans, report rendering, bundling, icons, argument
  parsing, the network, the PoB engine and the Judge: no invariant spans them.
- The SQLite engine, backups and schema migration: only the row-level effect of each statement is
  modelled.
