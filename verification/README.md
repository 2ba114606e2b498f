# Verification of arkiv

arkiv is a self-hosted photo library on a SQLite database and a file tree. This
project models its crash-safe protocols and its two self-contained algorithms
in Dafny and proves what they promise. Check it with
`dafny verify --resource-limit 2000000 --verification-time-limit 0 dfyconfig.toml`.

How the model is built:

- Tables are maps and a transaction is one step; the database allows one
  connection, so transactions are serial. The file tree is a map from paths to
  bytes and times. A crash keeps both.
- Upload handlers (`UploadHandlers`, `OneRequestUpload`, `MediaDeletion`,
  `UploadCleanup`) change `UploadStore.UploadServer` one durable effect at a time, and
  with `healthy == false` may stop before or after each of them. Their `Valid()`
  says that the store is the result of a run of effects, so the results about
  all runs (`UploadRuns`, `UploadLimits`) hold after any interruption. SHA-256 is
  an uninterpreted function there.
- Two layouts of originals are told apart: `Managed` with four segments
  (`user-1/ab/cd/abcd….jpg`) and `Flat` with two. Deletion and quarantine handle
  only the flat one; `MediaDeletion.PassLeaves` and `UploadCleanup.OrphansStay` say
  what follows for each.
- The scanner, the workers and the requests (`Catalog`, `Jobs`, `Scanner`,
  `VideoQueue`) are interleaved statement by statement against generations.
- `IncrementalSha256` is the client's streaming hash, proved against the
  functional `Fips180`, whose operations and constants `Fips180Words` describes
  and whose published example `Fips180Example` derives; `Places` is the k-d tree
  over exact coordinates.

What the proofs found:

- The reservation of a session ends one second before its chunks are refused.
  Sessions that are resumed in that second take a user over the storage limit
  or over fifty active sessions (`UploadExcess.ExpirySecondExceeds`); there are
  exactly three steps that need room which the source does not check
  (`UploadLimits.LimitsRun`).
- A recorded deletion of an original in the four-segment layout stays pending
  and its bytes stay on disk (`MediaDeletion.PassLeaves`), and an orphan in that
  layout is neither removed nor quarantined.
- A cleaning of the cache never removes a valid preview if it takes at most a
  day, and for every longer duration a run exists in which it does
  (`CacheAudit.SafeForADay`).

## Model

| member | source | states |
|---|---|---|
| UploadRuns.TransferIsFaithful | internal/api/upload_sessions.go:384-407 | after every run of effects, the part file of a transfer begins with exactly the acknowledged chunks in order unless acknowledged bytes were lost; a committing session has its verified bytes at exactly one of the two paths; a finished one stored bytes of the declared size and digest |
| UploadRuns.FinalisedOnce | internal/api/upload_sessions.go:488-517 | no run finalises a session twice, so a session never yields two assets or two jobs |
| UploadRuns.QueuedRun | internal/api/upload_sessions.go:488-513 | over every run exactly the stored originals that are not being deleted have got their job |
| UploadRuns.LostRun | internal/api/upload_sessions.go:384-387 | over every run, a transfer that lost acknowledged bytes gets no further chunk, is never marked, renamed or finalised, and stays in that state until it is removed |
| UploadRuns.SessionsRun | internal/api/upload_sessions.go:412-517 | over a run an identifier keeps its declared file, its phase never goes back, its result never changes, and acknowledged bytes stay acknowledged |
| UploadRuns.OriginalsRun | internal/api/upload_cleanup.go:111-193 | an original that is in the library, and not marked for deletion, before and after a run is the same file |
| UploadRuns.QuarantineRun | internal/api/upload_cleanup.go:175-190 | what is in quarantine stays there, with its bytes and its record, over any run |
| UploadRuns.RowGoesLast | internal/api/media_deletion.go:104-118 | an asset row disappears only when its deletion is recorded and its original is absent, and no session, job or intent names it afterwards |
| UploadRuns.InvRun | internal/api/upload_sessions.go:325-517 | every state reachable by any interleaving of session, cleaning, deletion and damage effects satisfies the store invariant |
| UploadSteps.InvFinalised | internal/api/upload_sessions.go:488-513 | the last transaction keeps the invariant: unique paths, one asset a session, and stored bytes that match the row |
| UploadSteps.InvQuarantined | internal/api/upload_cleanup.go:175-190 | moving an orphan to quarantine keeps the invariant, in which every quarantined file has its record |
| UploadHandlers.UploadChunk | internal/api/upload_sessions.go:325-410 | accepts exactly the chunks of at most 8 MiB at the acknowledged offset, in time, within the remaining size, of a part that is long enough; then the file is the acknowledged bytes with the chunk and the row counts it; an interruption leaves one of the listed intermediate states |
| UploadHandlers.AppendChunk | internal/api/upload_sessions.go:388-406 | cuts off unacknowledged bytes, appends, and acknowledges, with a write that may stop anywhere |
| UploadHandlers.FindDuplicate | internal/api/upload_sessions.go:221-269 | finds the first original below the user's directory, by trash time and id, whose stored bytes have the size and the digest, and none exactly if there is none; the only change is filled-in digests |
| UploadHandlers.FinishUpload | internal/api/upload_sessions.go:412-517 | without faults it finishes exactly the sessions whose bytes are all there with the declared size and digest and pass the check; then one new asset with the session's own file, size and digest, not in the trash, holds those bytes and its job is added in the same step, or the session becomes a duplicate, of a matching original, exactly if there is one and no copy is wanted; a refusal or a duplicate adds no job; a committing session never ends in an error; nothing else is touched |
| UploadHandlers.FinishAfterCrashes | internal/api/upload_cleanup.go:65-75 | a complete and verified session is finished by the next undisturbed attempt, however often and wherever the attempts before were cut off, and its asset is queued |
| UploadHandlers.FinishAsDuplicate | internal/api/upload_sessions.go:465-473 | marks the session as a duplicate first and removes its file after that |
| UploadHandlers.Commit | internal/api/upload_sessions.go:476-516 | commits durably, renames and finalises, ending at the new asset and its job, or is interrupted in a state that it can be repeated from |
| UploadHandlers.StoreVerified | internal/api/upload_sessions.go:458-516 | what is done with verified bytes: a duplicate, or the new asset with its job and its file |
| UploadHandlers.CommittingFacts | internal/api/upload_sessions.go:427-434 | a committing session can always be finished: its verified bytes are at exactly one of the part path and the final path, and that is the file that is read |
| UploadHandlers.CompleteUpload | internal/api/upload_sessions.go:518-541 | replies success exactly for finished or ready sessions and changes nothing on a refusal |
| UploadHandlers.CancelUpload | internal/api/upload_sessions.go:542-581 | refuses exactly committing sessions, without a change; otherwise the part and the row are gone |
| UploadHandlers.StartUpload | internal/api/upload_sessions.go:110-217 | a known key replays or conflicts without a change; a new key is admitted exactly if digest, key, file name, format, size and folder pass the checks, it fits the limit or is a duplicate, and fewer than fifty sessions are active |
| UploadHandlers.Usage | internal/api/upload_sessions.go:54-77 | computes used plus reserved bytes and the number of active sessions |
| UploadLimits.LimitsRun | internal/api/upload_sessions.go:180-197 | a run keeps every user within the storage limit and within fifty active sessions at all times if and only if there is room at each step that the source performs without a check: resuming a session whose reservation has ended, and recording a file in quarantine |
| UploadLimits.NoRoomExceeds | internal/api/upload_sessions.go:355-406 | each of these steps, taken without room, brings a user over a limit |
| UploadLimits.StartedLoad | internal/api/upload_sessions.go:180-217 | a new transfer reserves its size, and a receipt of a duplicate nothing |
| UploadLimits.ForgottenLoad | internal/api/upload_sessions.go:75 | a removed session gives its size back exactly if it was committing or used within the retention time |
| UploadLimits.FinalisedLoad | internal/api/upload_sessions.go:488-513 | the last transaction turns the reservation into a stored original of the same size |
| UploadLimits.IntendedLoad | internal/api/upload_sessions.go:66 | a recorded deletion gives the bytes of the owner back at once |
| UploadLimits.RowDeletedLoad | internal/api/media_deletion.go:104-118 | the end of the deletion gives nothing more back |
| UploadLimits.ChunkKeepsLimits | internal/api/upload_sessions.go:75 | an accepted chunk keeps the limits if and only if the session was still reserving its size or there is room to reserve it again |
| UploadLimits.CommitKeepsLimits | internal/api/upload_sessions.go:531 | the same condition, if and only if, for the completion of a session |
| UploadExcess.ExpirySecondExceeds | internal/api/upload_sessions.go:355 | whenever a user has a positive quota and some request of theirs passes the checks, a run of such requests takes them over a limit: the reservation ends (`updated_at > cutoff`) one second before chunks are refused (`updated < cutoff`) |
| OneRequestUpload.Upload | internal/api/uploads.go:28-188 | stores exactly the valid single files whose name, folder and format pass the checks and that fit the format and the remaining storage, and then exactly one file, one row outside the trash and one job are new; a refusal leaves no file; an interruption leaves only its own files |
| OneRequestUpload.TempIsRecognised | internal/api/upload_cleanup.go:141-170 | the temporary file of an upload has a name by which cleaning recognises and removes it |
| OneRequestUpload.Keep | internal/api/uploads.go:147-184 | renames inside the transaction and takes the file back when the commit fails |
| UploadPaths.SplitText | internal/api/uploads.go:24-26 | originals of `managedOriginalPath` have four segments, the older ones two |
| UploadPaths.TextInjective | internal/api/uploads.go:24-26 | different parts, originals and quarantined files have different paths |
| UploadPaths.OwnerByPrefix | internal/api/upload_sessions.go:66 | the prefix test of the queries is true exactly of the originals of that user, in either layout |
| FileNames.NameParts | internal/api/uploads.go:60 | the extension begins at the last dot, and a name is its stem and its extension |
| FileNames.LowerLetters | internal/api/uploads.go:65 | only the letters A to Z are lowered |
| UploadCleanup.CleanUploads | internal/api/upload_cleanup.go:32-194 | stopped after any effect it loses no original of the library, no transfer that may go on, no recent receipt and no complete original without a row; undisturbed, it leaves only sessions that were committing and are finished or that were used within the retention time, parts of sessions and young ones, and of old orphans with a generated name only those of no supported format or with a copy in quarantine |
| UploadCleanup.SettleSession | internal/api/upload_cleanup.go:65-88 | one session is finished, protected, kept or expired by the rule of the source, and everything else stays |
| UploadCleanup.SettleSessions | internal/api/upload_cleanup.go:64-88 | the loop settles every session and protects the files of those that stay open |
| UploadCleanup.RemoveOldParts | internal/api/upload_cleanup.go:89-110 | removes exactly old parts that are not protected; live transfers keep their bytes |
| UploadCleanup.TreatOrphan | internal/api/upload_cleanup.go:148-190 | a flat orphan is removed if partial, else kept or moved to quarantine; nothing else changes |
| UploadCleanup.MoveToQuarantine | internal/api/upload_cleanup.go:175-190 | writes the record before the file is renamed, so an interruption never leaves a quarantined file without its record |
| UploadCleanup.TreatOrphans | internal/api/upload_cleanup.go:113-192 | no old flat orphan is left except unsupported ones and those with a copy in quarantine |
| UploadCleanup.SparesTrans | internal/api/upload_cleanup.go:32-194 | what cleaning spares is spared over repeated and interrupted passes |
| MediaDeletion.RemovableExactly | internal/api/media_deletion.go:51-58 | the path check accepts exactly flat originals of positive owners without a backslash, colon or dot name, and never the four-segment layout |
| MediaDeletion.FinishMediaDeletions | internal/api/media_deletion.go:16-126 | however it is interrupted, exactly some accepted originals are gone, and of these some rows with their receipts; undisturbed, exactly the deletions of plain flat originals are over |
| MediaDeletion.DeleteOne | internal/api/media_deletion.go:50-120 | the original goes first, then the row and the receipts that name it |
| MediaDeletion.PassIsIdempotent | internal/api/media_deletion.go:16-126 | a second pass changes nothing |
| MediaDeletion.PassLeaves | internal/api/media_deletion.go:51-53 | after a pass a deletion is pending if and only if its path has another shape, and then row and original are still there; otherwise both are gone with every receipt |
| IncrementalSha256.HashParts | web/src/sha256.ts:27-122 | for every way of cutting up a message below 2^53 bytes the digest is that of FIPS 180-4 sections 5.1.1, 5.2.1 and 6.2 |
| Fips180Example.AbcDigest | web/src/sha256.ts:27-122 | for "abc" these definitions give the digest that the standard's example publishes, through its schedule and its 64 rounds |
| Fips180Words.ScheduleReadsBack | web/src/sha256.ts:50-58 | the first sixteen words of the schedule are the block, read from left to right |
| Fips180Words.JoinReadsBack | web/src/sha256.ts:53-57 | a word reads back as its four bytes, the first one most significant |
| Fips180Words.Constants | web/src/sha256.ts:3-15 | the constants are the first 32 bits of the fractional parts of the cube roots of the first 64 primes |
| Fips180Words.InitialWords | web/src/sha256.ts:18-21 | the initial words are those of the square roots of the first eight primes |
| Fips180Words.RotrBit | web/src/sha256.ts:16 | a rotation moves every bit, around the end of the word |
| Fips180Words.ShrBit | web/src/sha256.ts:64-66 | a shift moves every bit and fills up with zeros |
| Fips180Words.ChChooses | web/src/sha256.ts:81 | each bit of the first word chooses between the other two |
| Fips180Words.MajDecides | web/src/sha256.ts:87 | each bit is that of at least two of the three words |
| Fips180Words.SigmasOfOneBit | web/src/sha256.ts:64-86 | where the four sigmas put the first and the last bit of a word |
| IncrementalSha256.HashFile | web/src/sha256.ts:124-143 | the digest of a file does not depend on the slice size, and hashing stops exactly if one of the polls says so |
| IncrementalSha256.Sha256.Block | web/src/sha256.ts:48-106 | compresses one block into the state words as section 6.2.2 of FIPS 180-4 says |
| IncrementalSha256.Sha256.Update | web/src/sha256.ts:27-47 | appends any bytes to the message so far, or refuses after the digest was taken |
| IncrementalSha256.Sha256.Digest | web/src/sha256.ts:107-122 | pads and reads the digest once |
| IncrementalSha256.HexStateReadsBack | web/src/sha256.ts:119-121 | the text of the state words reads back as these words |
| IncrementalSha256.DigestIsValid | internal/api/upload_sessions.go:94-97 | every digest of the client passes the check of the server, and no digit of it is lost |
| Places.Build | internal/places/places.go:39-47 | splits in place: the same places, ordered on the axis at every node, of logarithmic height |
| Places.MedianSplits | internal/places/places.go:44-46 | sorting and the two recursive calls only reorder the stretch, with smaller ones left of the median and larger ones right |
| Places.Search.Nearest | internal/places/places.go:76-98 | the search improves on the best place so far exactly as far as the subtree allows |
| Places.FarSide | internal/places/places.go:89-97 | a pruned side holds nothing strictly nearer |
| Places.BuildAndFind | internal/places/places.go:39-98 | for any list of places the found one is in it, no other is nearer by the sum of the squares of the differences, and the distance is that of a linear scan |
| Catalog.InvRun | internal/jobs/jobs.go:35-197 | over every interleaving of workers, scans, uploads, deletions, retries, audits and restarts: one live owner of a current generation, no lost work, ready previews with the current key, bounded attempts |
| Catalog.InvStep | internal/jobs/jobs.go:80-197 | each of these steps keeps that invariant |
| Catalog.StaleWorkerIsHarmless | internal/jobs/jobs.go:164-177 | a worker whose claim is of an older generation changes neither an asset nor a job with it, whatever happened between its loss and its next statement |
| Catalog.AtMostThreeFailures | internal/jobs/jobs.go:182-186 | between two resets an asset records at most three failures |
| Jobs.Database.Start | internal/jobs/jobs.go:48-50 | after a restart no job is running, and every asset that is not fully processed or being deleted has a job |
| Jobs.Database.ClaimNext | internal/jobs/jobs.go:80-95 | claims the first waiting job of an enabled library that is due and not being deleted, by due time and id, and none exactly if there is none; from then on this worker alone owns the asset, with an exact copy of its row |
| Jobs.Database.Persist | internal/jobs/jobs.go:141-191 | an outdated or cancelled worker changes no asset and no job; the owner leaves the key of the current generation, and no job exactly if preview and metadata are ready, else one more attempt, due a minute later for each attempt, and given up exactly at the third |
| Jobs.Outcome | internal/jobs/jobs.go:96-151 | a preview counts as ready exactly if the source had the claimed size and time before and after the work and the previews were made, metadata exactly if it had them before and they were read |
| Jobs.Database.IndexOne | internal/scanner/scanner.go:222-262 | does to rows and jobs what indexing one file means |
| Jobs.IndexedIsDue | internal/scanner/scanner.go:222-262 | indexing leaves one row at the path; a new or changed file starts a generation with nothing ready, and in an enabled library its job is due at once and may fail three times; otherwise no job changes |
| Jobs.UploadIsDue | internal/api/upload_sessions.go:488-513 | the same for the row of a stored upload |
| Jobs.WorkOnce | internal/jobs/jobs.go:80-191 | one turn of a worker beside everybody else: if the asset still has the claimed generation at the end, its preview is ready exactly if the source had the claimed size and time before and after the work, its metadata exactly if it had them before, and its key is that of the claimed file |
| Jobs.Retry | internal/api/api.go:212-225 | after the two statements every asset that is not being deleted has a job, although others go on between them |
| Jobs.Database.Requeue | internal/api/cache_maintenance.go:221-240 | adds a job for a missing preview exactly if the generation is still current and none is there; nobody owns the asset then |
| Jobs.Database.RetryProcessing | internal/api/processing.go:119-141 | what is given up afterwards belongs to a disabled library or was not chosen, and no other job changes |
| Jobs.Database.RetryGivenUp | internal/api/api.go:212-220 | no job is given up afterwards, none is added or removed, and each has an attempt left |
| Jobs.Database.RequeueAllReady | internal/api/api.go:221 | every asset that is not being deleted has a job afterwards, and the jobs that were there are unchanged |
| Jobs.Database.DeleteOwned | internal/api/bulk.go:101-108 | once a deletion is recorded, no worker owns the asset and no later claim can take it |
| Scanner.ScanRoot | internal/scanner/scanner.go:85-193 | a clean scan makes the rows equal the files, as indexing file by file would; it keeps ids, and raises the generation exactly where size or time changed; any other scan removes nothing, while workers, requests and scans of other libraries go on |
| Scanner.UnbatchedReconciles | internal/scanner/scanner.go:222-262 | indexing the files one by one and removing the unseen rows makes the rows equal the files, too |
| Scanner.ReconciledDetermines | internal/scanner/scanner.go:85-193 | the rows before and the files determine the rows after a clean scan, but for the ids of new rows |
| Scanner.RemovalReconciles | internal/scanner/scanner.go:186-192 | removing what was not seen leaves exactly the files |
| Scanner.ForeignRunKeepsRows | internal/scanner/scanner.go:107-132 | what others do between the batches never changes the rows of this library |
| Scanner.Scan.Flush | internal/scanner/scanner.go:107-132 | a batch is indexed completely or not at all |
| VideoQueue.InvRun | internal/api/video_playback.go:33-133 | in every interleaving of requests, rescans, the worker and restarts at most 32 conversions wait or run, and a ready row has a conversion of its generation behind it |
| VideoQueue.Server.Enqueue | internal/api/video_playback.go:54-66 | the guarded insert, refused when the queue is full, after which at most 32 conversions wait or run |
| VideoQueue.Playback | internal/api/video_playback.go:34-71 | a whole request, with others between its statements: the answer ready means that the version it read was converted, and queued that its row is pending |
| VideoQueue.ConvertOnce | internal/api/video_playback.go:101-133 | one turn of the worker beside everybody else takes the first pending row; if the row still has that generation, a failed conversion leaves it failed and a successful one of a current generation ready; at most 32 rows are active, and behind every ready row is a conversion of its generation |
| VideoQueue.Server.StartUp | internal/api/video_playback.go:102-103 | after a restart what was running waits again, and no other row changes |
| VideoQueue.Server.StoreResult | internal/api/video_playback.go:117-125 | stores the result only in the row of the converted generation, leaves every other row, and keeps a conversion behind every ready row |
| VideoQueue.Server.Open | internal/api/video_playback.go:73-90 | opens exactly the converted file of the version it read, if that is ready |
| VideoQueue.PlaybackFile | internal/api/video_playback.go:73-97 | a whole file request serves only a finished conversion of the version that was current when it began |
| ManagedFolders.EnsuredKeepsTree | internal/api/managed_folders.go:30-39 | ensuring a folder adds exactly it and its ancestors |
| ManagedFolders.FolderTables.EnsureUploadFolder | internal/api/managed_folders.go:30-39 | the loop over the prefixes and the grant on the root |
| ManagedFolders.FolderTables.Move | internal/api/managed_folders.go:101-144 | moves exactly if the folder is there and the user's, is no root, has no transfer, and its new place is free and outside it; then everything in it is below the new place and everything else stays, grants follow and nobody gets a new one, nothing outside the user's own tree changes; otherwise nothing changes |
| ManagedFolders.FolderTables.Create | internal/api/managed_folders.go:91-100 | creates exactly folders below the user's own root that did not exist, with their ancestors, changes nothing outside that tree, and gives no grant but the user's on that root |
| ManagedFolders.UploadPathExactly | internal/api/managed_folders.go:13-29 | which folder names are accepted |
| ManagedFolders.UploadPathIsOwn | internal/api/managed_folders.go:13-29 | every accepted name is the user's own root or a folder below it |
| ManagedFolders.UploadPathInjective | internal/api/managed_folders.go:13-29 | different users and different names never give the same folder |
| ManagedFolders.MovedOthers | internal/api/managed_folders.go:134-138 | a move inside a user's tree changes no folder, asset or grant outside it |
| ManagedFolders.FolderTables.Share | internal/api/managed_folders.go:145-160 | succeeds exactly if the folder exists, is the user's, and the recipient is somebody else; then the grant is there and nothing outside the user's tree changed |
| ManagedFolders.FolderTables.Revoke | internal/api/managed_folders.go:145-164 | succeeds under the same condition, and takes exactly that grant away |
| ManagedFolders.RekeyIsInjective | internal/api/managed_folders.go:134-138 | no two folders or grants collide |
| ManagedFolders.MovedKeepsTree | internal/api/managed_folders.go:134-144 | the folder set stays closed under parents and keeps every asset and grant in it |
| ManagedFolders.InsideCoverage | internal/access/access.go:44-46 | a grant inside the subtree covers a moved folder exactly when it did before |
| ManagedFolders.InsideAccess | internal/access/access.go:44-46 | access inside is that of the moved grants and of those on the ancestors of the target |
| ManagedFolders.OutsideAccess | internal/access/access.go:44-46 | access outside is unchanged |
| ManagedFolders.MoveBack | internal/api/managed_folders.go:134-144 | moving back restores every table |
| Paths.PrefixesAreAncestors | internal/api/managed_folders.go:31-33 | the joined prefixes of a path are the path and its ancestors |
| Paths.UnderIsAncestor | internal/access/access.go:44-46 | the prefix test of the statements is the ancestor relation |
| Access.DeletionHides | internal/access/access.go:69-95 | a recorded deletion hides an asset from every list and file request of everybody |
| Access.OneManager | internal/access/access.go:87-92 | at most one user manages an asset |
| Access.ManagesOwnFiles | internal/access/access.go:87-92 | of the stored originals a user manages exactly those in their own directory, in either layout |
| Access.GrantShows | internal/access/access.go:44-46 | a grant on the library for the folder or one above it shows the asset, unless it is in the trash, being deleted or removed by the user |
| Access.MembershipShows | internal/access/access.go:47-66 | a membership that has begun and not ended shows what a publisher with access added |
| Access.StrangersSeeNothing | internal/access/access.go:34-66 | without such a grant and without such a membership or ownership nobody but administrators sees the asset |
| Access.PublicLinkShowsItsAlbum | internal/access/access.go:47-66 | a public link shows assets of its own album only, and manages nothing |
| Access.AlbumsShowWhatPublishersSee | internal/access/access.go:60-66 | an album shows only what the one who added it may see now, while both accounts are enabled |
| Access.TrashIsApart | internal/access/access.go:69-81 | nothing is in the list and in the trash of a user at once |
| Bulk.Media.BulkAssets | internal/api/bulk.go:19-130 | changes every item of a selection of 1 to 240 as the action means for it, and nothing else, if and only if every item is allowed and the folder name acceptable; else nothing |
| Bulk.TrashedIsInTrash | internal/api/bulk.go:86-93 | what is trashed leaves the list of the user and is in their trash, where it can be read |
| Bulk.DestinationIs | internal/api/bulk.go:113-121 | a move ends in the folder that the user's uploads of that name go to |
| Bulk.AfterOneMore | internal/api/bulk.go:86-126 | taken one by one the statements do what is specified for the selection at once |
| Bulk.RestoreUndoesTrash | internal/api/bulk.go:87-99 | trash then restore of a selection restores the whole database, hence every view of it |
| Bulk.OthersUnaffected | internal/access/access.go:68-75 | what a user trashes, restores or removes without managing it stays as it was for everybody else, in any mixed selection |
| Bulk.RemovalIsPermanent | internal/api/bulk.go:109-111 | a removed item never comes back to that user, whatever is requested, shared or completed later |
| Bulk.DeletedForGood | internal/api/bulk.go:101-112 | deleting a borrowed item hides its file from that user for good |
| Bulk.DeletionIsPermanent | internal/api/bulk.go:100-108 | a recorded deletion stands until the row is gone, and only its completion removes the row |
| CachePaths.RecognisesGenerated | internal/thumbnails/thumbnails.go:19-21 | every preview, full image and video copy of a key is recognised with its key |
| CachePaths.RecognisedIsGenerated | internal/api/cache_maintenance.go:73-103 | a path recognised with a key is the path of a generated file of that key |
| CachePaths.RecognisedExactly | internal/api/cache_maintenance.go:70-103 | exactly the paths of previews, copies and the four kinds of leftovers are recognised, with or without a key, so every other file stays untouched |
| CacheAudit.GuardedStep | internal/api/cache_maintenance.go:124-141 | a key that becomes valid after the rows were read is only on younger files, whatever scans and workers do |
| CacheAudit.StaleIsHarmless | internal/api/cache_maintenance.go:174-188 | a stale file carries no valid key, unless it is a copy idle for thirty days or the audit is running for more than a day |
| CacheAudit.SafeForADay | internal/api/cache_maintenance.go:124-188 | audits that take this long find no valid preview stale, over every run of scans, workers and deletions meanwhile, if and only if that is at most a day |
| CacheAudit.Cache.Audit | internal/api/cache_maintenance.go:104-243 | beside others every removal is of a generated file that is more than a day old, and harmless; alone, exactly the files that go by key and age go and every other file stays, the totals are those of what remains, exactly the ready assets without one of their three previews are found, and a cleaning audit queues exactly those again that have no job and no recorded deletion |
| CacheAudit.StaleMeans | internal/api/cache_maintenance.go:174-188 | what goes: previews and copies of no current or shown key and leftovers, a day old, and copies idle for thirty days |
| CacheAudit.Cache.Check | internal/api/cache_maintenance.go:201-241 | the loop over the assets that were read, with its guarded transactions |
| CacheAudit.Cache.Sweep | internal/api/cache_maintenance.go:149-192 | the walk with its three totals |
| Migration.UploadsRoot.MigrateUploads | internal/storage/uploads.go:37-126 | the root changes last and only when every legacy folder and file is at the target with the same digest; nothing at the target is changed; undisturbed, it migrates exactly if nothing is in the way, and what is new is equal to the legacy entry |
| Migration.SamePathFolds | internal/storage/uploads.go:211-214 | paths are the same if they differ in the case of letters only |
| Migration.UploadsRoot.CopyVerified | internal/storage/uploads.go:128-180 | copies, skips or refuses by digest; what exists at the target is never overwritten |
| Migration.UploadsRoot.CopyAll | internal/storage/uploads.go:70-108 | the walk succeeds exactly if there is no conflict |
| Migration.ExtendsKeeps | internal/storage/uploads.go:70-108 | an interrupted attempt neither adds nor removes a conflict and keeps what was copied |
| Migration.UploadsRoot.MigrateAfterCrashes | internal/storage/uploads.go:37-126 | after any number of disturbed attempts one undisturbed attempt completes the migration if and only if there was no conflict at first; the legacy tree never changes |
| Pagination.Assets | internal/api/assets.go:143-169 | a page is the first items after the cursor, by falling time and falling id, and continues with its last item exactly if there are more |
| Pagination.WalkDescends | internal/api/assets.go:95-104 | the pages of a walk are strictly descending, so no item comes twice, whatever changes in between |
| Pagination.WalkVisits | internal/api/assets.go:95-104 | a walk meets every item that was there unchanged all the time |
| Pagination.FollowCursors | internal/api/assets.go:143-169 | on a fixed set the cursors end and the pages are exactly the set in order |
| Pagination.AppendedIsDistinct | web/src/composables/useGallery.ts:223-230 | appending shows no asset twice and loses none |
| Pagination.Gallery.Receive | web/src/composables/useGallery.ts:222-232 | a response to a superseded request changes nothing; a current one replaces or appends |
| Pagination.Gallery.Load | web/src/composables/useGallery.ts:183-216 | a new request supersedes the ones before; views without a list clear it, and a forced password change leaves it |
| Pagination.Gallery.LoadMore | web/src/composables/useGallery.ts:406-409 | asks for a page only with a cursor and nothing under way |
| Pagination.ShownIsFirstOfEach | web/src/composables/useGallery.ts:223-230 | the list is the first appearance of every asset over all pages, in order |
| Pagination.ListFollowsWalk | web/src/composables/useGallery.ts:223-230 | a client that appends the pages of a walk shows no asset twice and everything that was visible throughout, even when dates change, and exactly the walk when no asset moved |

## Left out

- Collisions of SHA-256: `Catalog` and `VideoQueue` take preview keys as their four numbers, `CacheAudit` asks that the digests of tickets issued so far differ, and uploads and `Migration` compare contents by an uninterpreted digest.
- HTTP, JSON, sessions, multipart reading and status texts; only the guards that decide a state change are modelled.
- Cases of letters outside ASCII in the extension of a file name and in root directories that are compared; only ASCII letters are lowered.
- Container checks of formats, external converters and metadata tools: an abstract predicate, or any outcome.
- Symbolic links, directories and permissions in the upload store; a directory that is missing or in the way is one of the failures of an effect.
- A handler reads the clock once; the source reads it for the check and again for the stored time.
- Waiting for the upload lock: handlers that hold it run one after another, and one that does not get it replies at once.
- Lengths of paths and names count characters instead of bytes.
- Rounding: coordinates of places are real numbers; the projection, the 75 km limit and the reading of the gazetteer are not part of this model.
- The counters and the log of a scan, the order of the walk, and ignored or excluded directories: a scan gets the list of eligible files.
- Cached derivatives that a deletion removes, and empty directories of the cache.
- Users, albums and share windows are tables that other requests change; their own handlers are not modelled.
- Sorting inside `build`: `Places.SortSlice` is one sort that gives some ordered permutation, as `sort.Slice` promises.
- Restoring files from quarantine by hand.
- UploadLimits.LimitsRun: asks for a clock that does not go back and a retention of at least one whole second, because without them reservations end at other moments than the code's comparison of seconds.
- Bulk.Media.BulkAssets: gets the folder name of a move without the spaces around it, which the source removes first.
- UploadRuns.QueuedRun: in the upload store a job counts from its insertion until its asset is deleted; what workers do with it is in `Catalog`.
- VideoQueue.ConvertOnce: whether the external conversion and its checks of the source succeed is a parameter.
- CacheAudit.Cache.Sweep: visits the files that were there when the walk began.
- Migration.UploadsRoot.MigrateUploads: asks that random names of temporary files are new at both ends, and of `MigrateAfterCrashes` that those of different attempts differ.
- Pagination.WalkVisits: speaks about the list order and the cursor; the filters of a request are the set of visible items.
- Pagination.Gallery.Load: leaves out the loading of albums and folders after the first page.
