# Flightdeck: verified models of save synchronisation and crash-safe updates

Flightdeck keeps a player's Microsoft Flight Simulator saves in step with the Xbox
cloud, and changes a Wine runtime in place: it installs and removes the Fenix patch,
updates runtime components, edits a compositor configuration for a moment and rewrites
graphics settings. All of this can be stopped anywhere, by a failed call or a loss of
power, and the cloud is shared with other devices. This project models that behaviour in
Dafny 4.11 and proves what it promises.

`dafny verify dfyconfig.toml` checks everything.

## How it is organised

| file | models |
|---|---|
| `Prelude.dfy`, `SaveState.dfy` | options, results, maps; save states and their content digests |
| `CloudPolicy.dfy` | the three-way comparison |
| `CloudServer.dfy` | the storage service: lease, writes, other devices, lost replies |
| `CloudWrite.dfy` | the fenced upload with exact read-back |
| `CloudDisk.dfy` | every durable write of the save tooling as a step, and whole histories of them |
| `CloudImport.dfy`, `CloudSession.dfy`, `CloudFlow.dfy` | imports, the session journal, and what happens before and after a session |
| `CloudInventory.dfy`, `CloudDownload.dfy` | the paged list, cached downloads and reading a snapshot back |
| `SessionGuard.dfy` | the process fence around a play session |
| `Fenix.dfy` | installing, upgrading, retrying and undoing the Fenix patch |
| `Components.dfy` | the journalled component update |
| `DisplayRepair.dfy` | the temporary configuration block |
| `SettingsText.dfy`, `GraphicsSettings.dfy` | text encodings, lines, and the settings rewrite with undo |

Classes stand for what the program changes step by step: `Cloud` (the service as seen
through requests), `Write` (one upload), `Device` (one account's files), `Patcher`,
`Updater`, `Repairer`, `SettingsFile` and `Guard`.

## How failure is modelled

*The cloud.* `CloudServer.Later` summarises any number of steps of other devices and of
the service: they take the lease under fresh owner ids, write while they hold it, and let
it go; a request of ours may be refused, stay in flight and be carried out later under
the very lease it was sent under, or be carried out although its answer is lost or
negative. `RunIsLater` proves the summary from the single steps. Every request returns
any status that the lease state allows, or fails.

*The disk and the profile directories.* A method may stop before any of its durable
writes. In the save tooling this is a nondeterministic early return, and the contract
then speaks of the state it leaves behind; `Device.history` records every write, and the
theorems of `CloudDisk` are about all such histories. In `Fenix`, `Components`,
`DisplayRepair` and `GraphicsSettings` a counter `power` says how many more writes
succeed, so a contract that holds for every `power` holds for every crash point, and a
lower bound on `power` states that an undisturbed call finishes.

*Whole runs.* `CloudFlow.AnyRun`, `SessionGuard.Guard.AnyRun`,
`DisplayRepair.Repairer.AnyRun` and `Fenix.Patcher.UndoChain` take arbitrary sequences of
operations, crashes and outside events and keep the system's invariant throughout.

## Where a property fails

* **Component recovery.** Once the clean-up after a rollback has removed any backup
  entry, the journal can be neither finished nor rolled back
  (`native/components.rs:206-214`, `native/components.rs:261-266`):
  `Components.CleanupStrands`. `Updater.Recover` states exactly when recovery succeeds:
  there is no journal, the new version is completely installed, or the backup is complete.
  What is installed is never mixed when it succeeds.
* **Large compositor configurations.** `repair` appends a block without checking that the
  result stays within the size a later `restore` accepts
  (`native/display_repair.rs:321-336`, `native/display_repair.rs:655-657`). For a
  configuration that is acceptable in every other way, `Repairer.Repair` states that an
  undisturbed repair succeeds exactly if the configuration with the block added fits.
  `Repairer.RepairTooLarge` says what is left otherwise: block, journal and backup stay, and
  every restore fails, until the user shortens the lines around the block.
  `LargeConfigIsTooLarge` is such a configuration.
* **No save is ever lost.** Retention does remove backups of replaced saves
  (`native/save_history.rs:167-208`). A save can be got back exactly if some backup of its
  bytes was spared by every run since it was made (`CloudDisk.RecoverableIff`), and a run
  spares a backup that is among the newest 20, at most 30 days old, referred to by a stored
  record or held by the launcher (`CloudDisk.NoSaveIsLost`). `CloudDisk.ASaveIsLost` is a
  history in which a save is lost: it was replaced by the cloud's, twenty more backups were
  made, an upload moved the baseline to the last of them, and more than thirty days later
  nothing stored has the old content any more.
* **Undo of graphics settings.** Files over 1 MiB are passed over
  (`native/files.rs:149-163`), and compatibility mode can make a file larger, by one or two
  bytes for each Reflex option that is on. `SettingsFile.Prepare` states that a later undo
  gives back what it would have given exactly if the file left behind is within the limit;
  `GraphicsSettings.TransformedSize` gives that size beforehand, from the file's options;
  and `SettingsFile.EnterAndLeave` puts the two together. `CompatibilityOutgrows` is a file
  of exactly the limit that is stuck in compatibility mode afterwards, and `UndoOutgrows`
  one that an undo makes too large for later launches.
* **The fence and other programs.** The fence is meant to keep everything bound to the
  runtime away from comparisons and uploads, but a program that the user starts in the
  profile outside any session needs no fence (`native/cloud_process_guard.rs:414-428`
  looks only at the fence). `SessionGuard.ComparesBesideOutsider` is a comparison with such
  a program bound. Over all runs, `Guard.AnyRun` states the exact condition: whenever
  saves are read or written other than by play, something is bound if and only if something
  was started outside every session since the last moment nothing was bound; and no
  process of a session, nor any that descends from one, is.

## Model

| member | source | states |
|---|---|---|
| CloudPolicy.Decide | native/cloud_policy.rs:88-196 | the comparison, branch by branch, equals the declarative decision that the lemmas below speak about |
| CloudPolicy.MergeByName | native/cloud_policy.rs:149-195 | filling conflicts, target and selections name by name gives the pointwise three-way merge |
| CloudPolicy.TargetKeepsChanges | native/cloud_policy.rs:152-195 | without a conflict the target keeps every change of either side and invents nothing |
| CloudPolicy.SwapMirrors | native/cloud_policy.rs:152-195 | exchanging the sides keeps target and conflicts and exchanges import with upload |
| CloudPolicy.MergeIsSymmetric | native/cloud_policy.rs:152-174 | clashes and merge do not depend on which side is called local |
| CloudPolicy.AdoptionIsStable | native/cloud_policy.rs:115-195 | after the target was adopted locally, comparing again asks for the same target, and for nothing once the cloud has it too |
| CloudServer.RunIsLater | native/cloud_write.rs:22-39 | any number of steps of other devices keep all accepted writes, carry our pending write out at most once and first, and leave the content alone while the lease stays ours |
| CloudServer.ReadBackProves | native/cloud_write.rs:174-184 | reading the wanted content between two confirmations of one lease proves that the uncertain write happened, once, and nothing else did |
| CloudServer.GuardedBuildsOn | native/cloud_write.rs:265-266 | each of our writes continues an unbroken run of our writes that began on content with the expected digest |
| CloudServer.Cloud.Ask | native/cloud_write.rs:22-25 | acquiring and renewing are one request that takes a free lease, confirms ours, and never breaks another's |
| CloudServer.Cloud.Send | native/cloud_write.rs:28-36 | a write is refused, stays in flight or is carried out, whatever the answer says |
| CloudServer.Cloud.Remote | native/cloud_write.rs:37-38 | a complete read is exact if nothing was written meanwhile, and fresh for every forced container |
| CloudWrite.Write.Budget | native/cloud_write.rs:115-120 | every request is paid for before it is made, within the limit |
| CloudWrite.Write.Accept | native/cloud_write.rs:128-165 | the lease counts as ours exactly after an answer that confirmed it; a renewal succeeds only for the same owner without a change of hands |
| CloudWrite.Write.Renew | native/cloud_write.rs:166-173 | a successful renewal proves the lease ours at that moment, with nothing of ours outside it |
| CloudWrite.Write.Confirm | native/cloud_write.rs:174-184 | success proves that the write was carried out once under the lease of the last renewal |
| CloudWrite.Write.Commit | native/cloud_write.rs:185-222 | one container is sent at most once; on success the content differs from the first read in exactly the containers written so far |
| CloudWrite.Write.UploadParts | native/cloud_write.rs:283-298 | all payloads of a container are uploaded under distinct ids, one request each, without touching the content |
| CloudWrite.Write.Open | native/cloud_write.rs:260-267 | the upload goes on only if the content at the moment the lease was granted has the expected digest |
| CloudWrite.Write.ReplaceAll | native/cloud_write.rs:268-300 | exactly the containers whose digests differ are mutated, each once; attempted mutations exceed proved ones by at most one |
| CloudWrite.Write.Finish | native/cloud_write.rs:301-308 | the last read proves that the service holds the local content at the last renewal |
| CloudWrite.Upload | native/cloud_write.rs:224-336 | only content with the expected digest is overwritten, whatever happens; differing containers are sent at most once and no other; proved writes never exceed attempted ones and fall short by at most one; the lease is released only if the last answer confirmed its owner to be the one it was granted to, or granted it anew; a receipt means that from the lease's first confirmation to its last nobody else wrote, and that the cloud then held exactly the local content; the number of requests is exactly 4 + 4 per change + puts + payloads |
| CloudDisk.HistoryIsGood | native/cloud_session.rs:126-231 | after every single durable write, in every history, the stored journal passes its full validation and the baseline loads |
| CloudDisk.NoSaveIsLost | native/save_history.rs:167-208 | whatever the launcher replaced has a backup of its exact bytes, and is recoverable as long as that backup is among the newest 20, at most 30 days old, referred to or held whenever retention runs; each replacement raises the generation by one |
| CloudDisk.RecoverableIff | native/save_history.rs:167-208 | a save can be got back exactly if some backup of its bytes was made and spared by every run of retention since |
| CloudDisk.BackupSurvives | native/save_history.rs:167-208 | a backup is still there, unchanged, exactly if every run of retention spared it |
| CloudDisk.ASaveIsLost | native/save_history.rs:23-25 | a history of an import, twenty backups, an upload and a run of retention, after which neither the replaced save nor its content is stored anywhere |
| CloudDisk.BaselineWasLocal | native/cloud_import.rs:633-661 | the stored baseline always is content the local save had at some time; that the cloud had it too is `CloudFlow.CommonBaseline` |
| CloudDisk.SessionIsSteady | native/cloud_session.rs:333-389 | within a session the revision counts the journal's writes, its fixed parts stay, and the digest expected in the cloud departs from the original only to one proved by a receipt |
| CloudDisk.SessionEndsProved | native/cloud_session.rs:390-408 | a session ends only on the proof of a receipt for the target of the session that was begun, with baseline and local save at that target |
| CloudDisk.StepKeepsGood | native/cloud_session.rs:238-262 | no single write, also of the game or of retention, makes stored evidence unreadable |
| CloudImport.Select | native/cloud_import.rs:471-512 | the loop selects, per container, the side the plan or the choice names, and fails exactly if the choices do not cover the open conflicts |
| CloudImport.AutomaticIsMerge | native/cloud_import.rs:415-443 | plan and policy agree: same conflicts, and without any the automatic selection is the three-way merge |
| CloudImport.SelectionMeetsPolicy | native/cloud_flow.rs:195-225 | carrying out the choice derived from the policy yields exactly the policy's target, for every local save, snapshot and baseline |
| CloudImport.Device.Apply | native/cloud_import.rs:742-824 | an import gives the selected content under the next generation after backing up the exact previous bytes; the baseline follows only if the result is the snapshot's content; on failure the save is untouched |
| CloudImport.Device.Restore | native/cloud_import.rs:825-873 | a restore happens only if the save is still what the backup's import left, and brings the original content back under a higher generation |
| CloudImport.Device.ImportAndUndo | native/cloud_import.rs:742-873 | undoing an import gives back the content from before it |
| CloudImport.Device.CommitState | native/cloud_import.rs:171-191 | the save is replaced only if it is still the one that was backed up |
| CloudImport.Device.PublishCommon | native/cloud_import.rs:633-661 | the baseline is either unchanged or the content of the given backup |
| CloudImport.Device.RecordCommon | native/cloud_import.rs:922-955 | after a proved upload exactly the uploaded content becomes the baseline |
| CloudImport.Device.Prune | native/save_history.rs:120-208 | exactly the backups that are neither among the newest, nor recent, referred to or held go, except those it could not remove; journal, baseline and remaining snapshots stay |
| CloudSession.Load | native/cloud_session.rs:222-231 | a stored journal never fails its validation; only reading it can fail |
| CloudSession.Begin | native/cloud_session.rs:283-332 | a journal is begun only if there is none, on the snapshot's digest and the current save |
| CloudSession.Update | native/cloud_session.rs:333-359 | the newest record is replaced by one with the next revision and the current save as target; the digest expected in the cloud stays |
| CloudSession.Checkpoint | native/cloud_session.rs:373-389 | only a receipt for the recorded target moves the expected digest, to that target |
| CloudSession.Complete | native/cloud_session.rs:390-408 | the journal goes only with a receipt for its target while the save is unchanged |
| CloudFlow.Finish | native/cloud_flow.rs:75-109 | on success local save, baseline and cloud agreed during the call; on failure the journal is still there |
| CloudFlow.Resume | native/cloud_flow.rs:159-187 | with a journal and no review nothing is ever sent; it is a conflict exactly if the cloud is neither what the session started from nor its target, or the save is not the target although nothing was played or the target has reached the cloud |
| CloudFlow.Start | native/cloud_flow.rs:188-236 | without a journal the session opens exactly on the policy's target; it is a conflict exactly if the policy conflicts or blocks, or an offline device was never compared with a cloud that differs |
| CloudFlow.Before | native/cloud_flow.rs:115-236 | without a review the cloud is never written; a session that opens has recorded the local save and what the cloud held during the call; a review is carried out only on the comparison it was given for, and only overwrites that snapshot |
| CloudFlow.After | native/cloud_flow.rs:237-284 | without a review nothing is written unless the cloud still holds what the session started from, and any third content is a conflict; a review is carried out only on the comparison it was given for; the journal ends only when local save, baseline and cloud agree |
| CloudFlow.AnyRun | native/cloud_flow.rs:115-284 | over every run with given reviews, all stored cloud content and all receipts stand for cloud content, all stored evidence loads, and each of our writes falls into one call, identified by the moments of the disk's history at which it began and ended and by the snapshot it stored, that had a review of exactly that snapshot or whose stored journal expected it, and continues from it; without reviews only the latter |
| CloudFlow.NoReviewNoSurprise | native/cloud_flow.rs:237-284 | in a run without reviews every write of ours lies in a call after a session whose stored journal expected exactly what the call downloaded |
| CloudFlow.NoLicenceNoWrite | native/cloud_flow.rs:115-284 | with neither a review nor a stored journal there is no write of ours |
| CloudFlow.NoSnapshotNoWrite | native/cloud_flow.rs:115-284 | nothing is written without a stored snapshot of what is overwritten, whatever was reviewed |
| CloudFlow.CommonBaseline | native/cloud_import.rs:633-661 | in every reachable state the baseline once was the local save and once the cloud's content |
| CloudFlow.ConductedIsLedgered | native/cloud_flow.rs:115-284 | a call that keeps to what `before` and `after` promise explains each of its writes by the snapshot it took itself |
| CloudInventory.Inventory | native/cloud_storage.rs:324-392 | a list is accepted exactly if its pages complete: announced count, distinct names, bounded sizes, distinct tokens; the result is sorted |
| CloudInventory.SplitsAgree | native/cloud_storage.rs:324-392 | however the same rows are split into acceptable pages, the result is the same |
| CloudInventory.OrderedIsUnique | native/cloud_storage.rs:382-385 | sorting rows with distinct names has one result |
| CloudDownload.DownloadAll | native/cloud_storage.rs:462-595 | the nested loops over containers and payloads write exactly the specified manifest and files, or nothing |
| CloudDownload.CacheIsTransparent | native/cloud_storage.rs:508-552 | if equal metadata means equal blobs, a cached download writes the manifest and files of an uncached one |
| CloudDownload.CacheIsExact | native/cloud_storage.rs:508-569 | under the same condition an uncached download succeeds exactly if the cached one does and every cached container could be read again, within its bounds, and unchanged at the end |
| CloudDownload.CacheHidesLoss | native/cloud_storage.rs:515-525 | a cached download accepts a container that is listed but can no longer be read |
| CloudDownload.ForceRepairs | native/cloud_cache.rs:83-101 | only containers that are not forced need a trustworthy cache |
| CloudDownload.ForceOut | native/cloud_cache.rs:94-99 | the loop removes exactly the forced containers from the cache |
| CloudDownload.SnapshotReadsBack | native/cloud_import.rs:197-327 | the snapshot validator returns exactly the containers and payloads that were listed and downloaded |
| SessionGuard.Guard.Check | native/cloud_process_guard.rs:414-428 | nothing starts behind a fence of this boot; success means no fence and no process of a session |
| SessionGuard.Guard.Mark | native/cloud_process_guard.rs:429-461 | afterwards a fence of this boot stands |
| SessionGuard.Guard.Terminate | native/cloud_process_guard.rs:349-375 | only confirmed processes are signalled, and no other application without the user's request |
| SessionGuard.Guard.Clear | native/cloud_process_guard.rs:462-484 | only a fence of this boot is cleared, and only once nobody is left; after a failure it stands as before, or is gone with nobody of a session left |
| SessionGuard.Guard.Recover | native/cloud_process_guard.rs:381-413 | the session is ended and its saves are backed up before the fence goes |
| SessionGuard.Guard.Run | native/cloud_auto.rs:328-500 | comparison, retention and upload only run without a fence and beside nobody but what was started outside every session, play only behind a fence, also with failed spawns and signal exits |
| SessionGuard.Guard.AnyRun | native/cloud_auto.rs:66-110 | the same over every run of sessions, recoveries, launcher restarts and reboots; without a standing fence something is bound exactly if something was started outside every session since nothing last was |
| SessionGuard.ComparesBesideOutsider | native/cloud_process_guard.rs:414-428 | a comparison, backup or upload may begin while a program started outside any session is bound |
| Fenix.PreparationIsRetryable | native/fenix.rs:97-207 | in every reachable state the retry test accepts exactly the interrupted preparations |
| Fenix.MovingKeepsAll | native/fenix.rs:539-540 | a publishing rename keeps every profile directory |
| Fenix.Patcher.Retry | native/fenix.rs:208-255 | a retry goes back to the installed release or to none and changes nothing else |
| Fenix.Patcher.Prepare | native/fenix.rs:398-442 | preparing leaves profile, runner and scripts in use as they are, and its copy is another directory than the original |
| Fenix.Patcher.Commit | native/fenix.rs:523-558 | on success the prepared copy is active with its runner and scripts; stopped anywhere, everything for a restore is still there |
| Fenix.Patcher.Install | native/fenix.rs:307-563 | success means that the release is installed with its runner, scripts and profile copy in use and the original profile put aside; a started commit or restore is refused; an installed release is left alone |
| Fenix.Patcher.Restore | native/fenix.rs:577-664 | with a marker and an idle profile a restore is never refused, wherever anything was interrupted; 11 writes suffice to end with the pre-Fenix profile identity, runner, scripts, manifest and Proton selection |
| Fenix.Patcher.UndoChain | native/fenix.rs:307-664 | after any chain of interrupted installs, upgrades, retries and restores, one undisturbed restore ends as before the first patch, and no profile that was ever active is gone |
| Components.FinishedIsNew | native/components.rs:252-260 | the test for a finished update holds exactly if the new version is installed |
| Components.JournalDescribesUpdate | native/components.rs:307-392 | the journal of an accepted update describes the step from what is installed to the new version, and tells the two apart |
| Components.CleanupStrands | native/components.rs:206-214 | after a rollback, a clean-up that lost any backup entry can be neither finished nor rolled back |
| Components.Updater.RollBack | native/components.rs:283-305 | copying the backup back restores the old version, and stopped anywhere the backup is still complete |
| Components.Updater.Recover | native/components.rs:215-306 | success means old or new, never mixed; with power it succeeds exactly without a journal, with the new version installed, or with a complete backup |
| Components.Updater.Refresh | native/components.rs:307-426 | success installs the new version; a loss of power at any write leaves a state that recovery can resolve |
| DisplayRepair.OnlyMatch | native/display_repair.rs:562-564 | between texts without the marker the block is found exactly where it was put |
| DisplayRepair.CutIsExact | native/display_repair.rs:562-586 | there is exactly one match, and removing it gives back the surrounding text, edited or not |
| DisplayRepair.Repairer.Clear | native/display_repair.rs:517-528 | the backup goes before the journal |
| DisplayRepair.Repairer.Restore | native/display_repair.rs:533-599 | the configuration is untouched or loses exactly the one block; undisturbed, it ends with the original bytes exactly if it can be opened and reloaded; too large a configuration is never restored |
| DisplayRepair.IsKnown | native/display_repair.rs:380-396 | the search finds both required lines exactly if both are there, outside comments |
| DisplayRepair.Repairer.Repair | native/display_repair.rs:601-672 | success leaves the original bytes and neither journal nor backup; undisturbed, a configuration with the required lines is repaired exactly if it fits with the block |
| DisplayRepair.Repairer.RepairTooLarge | native/display_repair.rs:601-672 | a repair that makes the configuration too large leaves block, journal and backup; every restore fails until the user shortens the lines around the block, and then removes exactly the block |
| DisplayRepair.LargeConfigIsTooLarge | native/display_repair.rs:315-396 | a configuration of exactly the limit that has the required lines and no marker, and is too large with any block |
| DisplayRepair.Repairer.AnyRun | native/display_repair.rs:533-672 | over every run without edits, block and backup exist only beside a journal |
| SettingsText.DecodeEncoded | native/graphics_settings.rs:25-66 | encoded text is read back, in the same encoding, for UTF-8 and UTF-16 of both byte orders |
| SettingsText.EncodeDecoded | native/graphics_settings.rs:25-66 | what was read is written back byte for byte |
| SettingsText.SplitJoined | native/graphics_settings.rs:79-79 | joined lines split into the same lines again |
| GraphicsSettings.RenderedParses | native/graphics_settings.rs:103-117 | a rewritten option line is parsed into exactly its parts |
| GraphicsSettings.FindFields | native/graphics_settings.rs:80-123 | the scan accepts the same files and finds the same fields as the line-by-line specification |
| GraphicsSettings.Transform | native/graphics_settings.rs:67-145 | rewriting lines in place field by field gives the specified bytes, saved values and changes |
| GraphicsSettings.CompatibilityThenUndo | native/graphics_settings.rs:67-145 | compatibility mode followed by its undo equals the undo alone, byte for byte, for every accepted file and earlier undo values |
| GraphicsSettings.CompatibilityTwice | native/graphics_settings.rs:67-145 | compatibility mode is idempotent, and so is what it saves |
| GraphicsSettings.UndoTwice | native/graphics_settings.rs:137-141 | undoing twice is undoing once |
| GraphicsSettings.OtherLinesStay | native/graphics_settings.rs:83-144 | only options inside the Video section are ever changed: every other line stays, also an option elsewhere |
| GraphicsSettings.SavedUndoes | native/graphics_settings.rs:279-289 | the saved values undo the unedited file just as the earlier ones did |
| GraphicsSettings.TransformedSize | native/graphics_settings.rs:124-144 | the size of the result is that of the file and, for each option, one or two bytes for each character its value grows |
| GraphicsSettings.SettingsFile.Prepare | native/graphics_settings.rs:264-301 | stopped after any write, file and marker stand for the same bytes as before, and a later undo gives what it would have given exactly if the file is then still within the limit |
| GraphicsSettings.SettingsFile.EnterAndLeave | native/graphics_settings.rs:196-301 | entering and leaving compatibility mode gives back the former file exactly if the file does not outgrow the limit in between |
| GraphicsSettings.CompatibilityOutgrows | native/graphics_settings.rs:178-183 | a file of exactly the limit that compatibility mode makes too large to be undone |
| GraphicsSettings.UndoOutgrows | native/graphics_settings.rs:178-183 | a file of exactly the limit that an undo makes too large to be read again |

## Left out

- CloudServer.Cloud.Send: assumes that a request still on its way is only carried out under the lease it was sent under. The owner id is not seen to be sent with a request (`docs/connected-storage-protocol.md:77-80`), so the service might carry a late one out under a later lease of ours, and a write left over from a failed upload might then replace content that was not compared. That is not excluded here. Header and body checks of the transport are not part of this model.
- CloudServer.Cloud.Download: assumes that a rechecked download is the content at some moment of the call; that equal metadata rows mean equal content is the same assumption as in `CloudDownload.Faithful`.
- CloudServer.Cloud.Settle: between two connections a request in flight is taken to have been carried out or dropped.
- CloudServer.RunIsLater: other devices are taken to write only while they hold the lease, under owner ids that are never reused.
- CloudWrite.Upload: sizes and quotas are one nondeterministic refusal; receipts carry no counts of containers, blobs and bytes.
- CloudFlow.Before: the game is taken not to save during a call, because the launcher holds the runtime's reservation; one account and one title are modelled.
- CloudPolicy.Decide: the order of the selections and the check that bindings are hexadecimal digests are not modelled.
- CloudDisk.NoSaveIsLost: times are whole seconds; which unreferenced snapshots and receipts retention removes is left open, and a backup is removed at once.
- CloudImport.Device.Prune: directories that are only partly removed are not modelled.
- CloudDownload.DownloadAll: the service is read from two fixed states, one for the first reading and one for the recheck; staging names, directory checks and the form of atom ids are left out, and listings are taken to be in the order of their names.
- CloudInventory.Inventory: JSON shapes, text limits of single fields and time stamps are not modelled.
- SessionGuard.Guard.Run: connecting, the display check, and the text shown are not steps; noting that the device may fall behind the cloud is a step that may fail, and what it writes is in `CloudDisk`.
- SessionGuard.Guard.Terminate: a scan sees every process of a session at one moment; attribution from `/proc`, and processes that hide their environment under an unsuspicious name, are left out.
- Fenix.Patcher.Install: setting up the copy, payload hashes, fonts, settings, legacy adoption, migrated profiles and disk space are refusals that may happen at any time; partial copies before the marker exists are not modelled.
- Components.Updater.Refresh: which scripts count as known is a flag; the fixed order of components, scripts and manifest is one loop over 14 places.
- DisplayRepair.Repairer.Repair: the compositor's answers are flags; tokens are taken not to occur in the configuration already; characters stand for bytes; that the file is UTF-8 without NUL, file modes and the home directory check are left out.
- GraphicsSettings.Transform: the list of changed options is a set; its nesting depth is unbounded.
- GraphicsSettings.SettingsFile.Prepare: finding the files and reading the marker's JSON are left out.
- Content digests are modelled by the content they identify, so hash collisions are left out.
- The binary save-state codec, the helper pipe, the Wine client, timeouts and cancellation other than as an early stop, status messages and progress.
- Framework maintenance, game updates and display refresh repeat the journal pattern of the component update with fewer states.
