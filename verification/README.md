# A verified model of the ProxS3 daemon

ProxS3 presents an S3 bucket to Proxmox VE (PVE) as a storage. Its daemon keeps a cache directory in
front of the bucket: a read-through cache for objects, and a write-back cache for files that PVE
writes straight into the directory, behind the daemon's back. Background goroutines upload those
files; deletes, renames, copies, downloads and evictions may act on the same path at any time; the
node may crash at any moment. Release 0.7.1 promises that a local write is never lost, a deleted
object is never brought back by a late upload, and the wrong bytes are never served.

This project models that protocol in Dafny and proves those promises, or proves exactly when they
hold where the code does not keep them in full. `dafny verify dfyconfig.toml` checks everything.

## How it is organised

- `Metadata.dfy`: one cache entry (content file, metadata) and the atomic operations on it.
- `Sections.dfy`: the critical sections under `uploadsMu`, one function each.
- `Download.dfy`, `Resync.dfy`: what a download and a resync decide for one key.
- `Protocol.dfy`: the state machine of one path. Uploads, deletes and downloads are split at every lock
  and S3 call and at every access to the cache entry (a download reads its metadata twice), evictions
  between picking a file and unlinking it. Any number of triggers, uploads, retries, delete handlers, downloads,
  evictions, PVE writes, foreign S3 writes, scans, resyncs and crashes interleave. The state carries the history
  the theorems speak about: every local version and its bytes, and every content S3 ever held under
  the key.
- `Coordination.dfy`, `UploadTheorems.dfy`: the upload protocol's inductive invariant and what
  follows for blockers, cancellations, triggers and retries: no attempt without a trigger, every upload
  ends, failed ones are tried again. `Undisturbed.dfy`: what is reached when nothing gets in the way.
- `NoLoss.dfy`, `Durability.dfy`: never lose a local write. `Deletion.dfy`: never resurrect.
  `Agreement.dfy`: never serve the wrong bytes.
- `Counterexamples.dfy`: for each promise that needs a condition, a run from an empty path that
  breaks it. `Runs.dfy`: putting runs together.
- `FileCache.dfy`: the cache directory as an object with mutable trees; eviction and the startup scan.
- `Uploads.dfy`: the server's maps of uploads, blockers and retries; each method is one critical
  section and refines the function the state machine steps by. Retry backoff in int64.
- `Handlers.dfy`, `ResyncWalk.dfy`: delete, download, copy, rename and resync as the source writes
  them, statement by statement, over the cache object and a bucket.
- `Debounce.dfy`: the watcher's queue. `Listing.dfy`, `Volumes.dfy`: the volume listing and the
  round trip of volume names through the Perl plugin. `StorageCfg.dfy`, `Text.dfy`: `storage.cfg`.

A key's path, its cache entry and its object share no state with other keys in the upload protocol, so the
machine of `Protocol.dfy` describes one path, and the daemon is one such machine per path.
Operations over two keys, or over the whole directory, are the classes' methods.

## Assumptions, by name

- `Protocol.FreshFile`: distinct local versions of a path differ in inode or mtime; a file is not
  dated in the future; inode numbers are positive.
- `Protocol.Tellable`: metadata never describes a PVE write it was not recorded for: the size, the inode
  or the mtime tells. `Metadata.WriteIsNoticedIff` says what that means.
- `Protocol.NoneStamping`: PVE does not write the path between a download's rename and its StoreMeta, nor
  between its finding the file in sync and its StoreMeta. `Agreement.StampHidesWriteIff` and
  `Agreement.BackfillHidesWriteIff` say exactly when such a write would be recorded as synced. At every
  other moment of a download, upload, delete or eviction PVE may write.
- `Protocol.FreshObject`: ETags are non-empty and determine content.
- `Protocol.CleanRead`: `PutObject` sends the bytes of the opened version unless that inode was
  written to meanwhile; in that case it may send anything.
- `Agreement.Trusted` (only for the agreement theorems): a file without metadata that is as large as the
  object and not newer has its content, as `internal/api/watcher.go:514` states; when a download records
  metadata, the file then at the path, if it has the recorded size, has the bytes HEAD announced; and no
  older metadata describes a file just renamed into place. `Agreement.StampKeepsEtagIff` and
  `Agreement.LaterDownloadIsRightIff` say exactly what happens otherwise.
- The daemon's cache critical sections (`fc.mu`) are atomic, and so are, in the per-path machine, the
  resync of one file and the copy, rename or upload of a key.
- S3 calls return once their context is canceled; one whose context had ended before has no effect. A failed
  or canceled one may still have taken effect, but not after it has returned: a PutObject that was
  canceled lands before its upload closes `done`, or never.
- A rename has different source and destination keys.

## What the proofs found

These are statements the code does not meet in full. Each is a theorem here, with the exact
condition, and a run that starts on an empty path.

- A deleted object comes back if and only if a download that S3 answered before the deletion is still
  waiting for its rename (a download takes no block): `Deletion.DeletedReturnsIff`,
  `Counterexamples.DeletedObjectCanReturn`.
- An object another node deleted comes back after a download purged its cached file if and only if an
  upload that had opened the file and was not canceled, or another such download, is in flight:
  `Deletion.PurgedReturnsIff`, `Counterexamples.PurgedObjectCanReturn`.
- A pending file is lost if and only if an eviction that picked the file before it was marked, or a download
  that has come too far to see the mark, is still in flight: `Durability.PendingLostIff`,
  `Counterexamples.PendingFileCanBeEvicted`, `Counterexamples.PendingFileCanBeOverwritten`. Too far begins early: a
  download that was about to find its cached file current reads the metadata again to compare ETags,
  a pending mark has none, and so the mark itself makes the download unlink the file:
  `Counterexamples.PendingFileCanBeInvalidated`, `Durability.ComparedIsCondemnedIff`.
- An upload that finishes between a download's HEAD and its reading of the metadata makes the download
  answer 404 and unlink the file although S3 holds the object; `internal/api/api.go:392-395`
  calls that side safe: `Counterexamples.FinishedUploadIsPurged`. The exact condition is in
  `Agreement.DownloadAgreesWithS3`: S3 must still hold what HEAD announced.
- A PVE write the watcher has not seen yet is destroyed by a download that finds the object gone or
  changed, and by an eviction: none of the steps that take a file away asks whether the metadata covers
  it. `Durability.FileStaysIff`, `Durability.SyncedIsReadIff`,
  `Counterexamples.UnnoticedWriteCanBeLost`, `Counterexamples.UnnoticedWriteCanBeEvicted`.
- HEAD and the transfer are two requests: an object that changes in between is cached under the
  wrong ETag, and a later download is right exactly if the object's ETag is another one or the bytes are the
  same: `Agreement.LaterDownloadIsRightIff`, `Agreement.StampedEntryIsRightIff`.
- After an S3-side copy the destination's cache entry agrees with its object exactly if the cached
  source agreed with its own; without a cached source (or if the local copy cannot be made) the
  destination's old entry stays, and if it was due for upload it overwrites the new object:
  `Handlers.Daemon.HandleCopy`. The same holds for a rename, whose source is deleted by then; and when S3 cannot copy,
  a rename uploads the cached file and deletes the object without asking whether they agree:
  `Handlers.Daemon.HandleRename`.
- A leftover that could not be unlinked is uploaded again, bringing the object back, unless its record is of
  this file: `Metadata.LeftoverComesBackIff`. One without metadata always is.
- Resync takes every HEAD error for "missing in S3" and then overwrites a newer object:
  `Resync.OverwritesNewerIff`.
- An image placed directly under `images/` changes its volume name, and stops resolving to its key, once
  its upload finishes: `Volumes.FlatImageNameChanges`.

Where code and comment differ, the model follows the code. The comment on `handleResync` says a
matching size is skipped; the code also asks that the file be covered by metadata or be no newer. The
comment on `mergeLocalFiles` mentions skipping temporary files; inside VM directories the code lists them.

## Model

| member | source | states |
|---|---|---|
| UploadTheorems.ProtocolInvariant | internal/api/watcher.go:276-358 | In every reachable state of every interleaving: one active upload per path, `uploads[p]` present exactly from registration to `close(done)`, `blocked[p]` is the number of outstanding blockers, an upload is canceled (and has no rerun scheduled) exactly while someone blocks, retries count the failures in a row |
| Coordination.StepKeepsCoord | internal/api/watcher.go:276-392 | That invariant is inductive over every single step |
| UploadTheorems.MutualExclusion | internal/api/watcher.go:270-299 | Two active uploads of a path are the same one, and while it is active every blocker is still waiting for exactly it and it is canceled: no handler past `blockUploads` runs beside an upload |
| UploadTheorems.WaitingEnds | internal/api/watcher.go:290-292 | In any crash-free run a canceled upload takes at most 14 more steps of its own, whatever the others do: it finishes at most one uploadOnce |
| UploadTheorems.WaiterProgresses | internal/api/watcher.go:290-292 | A waiting blocker can always go on, or the upload it waits for is canceled and has an enabled step that depends on nobody else |
| UploadTheorems.CancellationNotMissed | internal/api/watcher.go:276-288 | On whichever side of the publication of the cancel function a blocker arrives, stale functions of earlier rounds included, a canceled upload at PutObject has an ended context |
| UploadTheorems.CanceledNeverLands | internal/api/watcher.go:420-428 | A canceled upload that has not begun its PutObject never puts an object, in any run |
| UploadTheorems.NoTriggerLost | internal/api/watcher.go:311-358 | A trigger is handed back only under a block; otherwise, once no upload is left, an attempt has started after it unless a blocker or crash came in |
| UploadTheorems.UploadEnds | internal/api/watcher.go:334-358 | In any crash-free run, canceled or not, an upload takes at most the steps it had left (29 at most) and fifteen more for each trigger: a trigger is used up by the attempt it pays for |
| UploadTheorems.AttemptsPaidFor | internal/api/watcher.go:324-343 | In any crash-free run there are at most as many attempts as accepted triggers |
| UploadTheorems.FailedCallIsRetried | internal/api/watcher.go:338-358 | In any crash-free run from a failed S3 call on, the attempt is followed by another one, or by one more failure and an armed timer, unless it is canceled or not yet at its end |
| UploadTheorems.RetryIffCallFails | internal/api/watcher.go:444-481 | An attempt asks for a retry exactly if its HEAD could not be reached or its PutObject failed |
| UploadTheorems.UnreachedHeadFails | internal/api/watcher.go:444-447 | HEAD counts as failed exactly if S3 was not reached; not-found does not |
| UploadTheorems.RoundEnds | internal/api/watcher.go:338-358 | A round ends with another attempt exactly if one is scheduled, which is thereby used up; otherwise the upload is over, with timer and one more failure exactly if a retry is due, and with neither otherwise |
| UploadTheorems.CanceledNeverMarks | internal/api/watcher.go:483-491 | A canceled upload that has not come to its mark never records anything, in any run |
| Undisturbed.AttemptSyncs | internal/api/watcher.go:394-506 | An uncanceled attempt whose S3 calls succeed, however much time passes between its steps: a file that is to be pushed ends up on S3 byte for byte and recorded under that object's ETag; any other leaves S3 alone and ends up recorded, with the object's ETag if it passes for the same |
| Undisturbed.WinnerIsMarked | internal/api/watcher.go:469-474 | A metadata-less file that wins against S3 is marked before its upload begins, and stays guarded through a crash |
| Undisturbed.HandlerEnds | internal/api/watcher.go:293-299 | A delete handler past its wait can always go on, comes to its end, and lifts its block there; the last one leaves the path free |
| Undisturbed.FailedDeleteRemovesNothing | internal/api/api.go:594-598 | A delete that S3 reports as failed, whether it took effect or not, removes nothing locally |
| Undisturbed.DownloadEnds | internal/api/api.go:375-523 | Every download can always go on and comes closer to its answer with each step |
| Undisturbed.EventSettles | internal/api/watcher.go:58-72 | A watcher event on an unqueued path leaves no write unnoticed and queues the path exactly if the file is then pending |
| Undisturbed.ScanQueuesIff | internal/api/watcher.go:227-256 | The scan queues a path exactly if its metadata does not cover its file, one without metadata included, and guards it |
| Undisturbed.QueuedIsAttempted | internal/api/watcher.go:87-115 | A queued path that is free gets an attempt |
| Undisturbed.RequestIsQueued | internal/api/watcher.go:74-80 | A delivered request gets its path queued |
| Undisturbed.TimerIsQueued | internal/api/watcher.go:381-388 | An armed timer that fires gets its path queued |
| Undisturbed.StoreSyncs | internal/api/api.go:525-574 | An upload through the API leaves object, file and metadata of the key saying the same |
| Coordination.FinishKeeps | internal/api/watcher.go:338-358 | The end of a round keeps the protocol invariant, including that no accepted trigger is dropped with its rerun flag |
| Coordination.BlockKeepsExclusion | internal/api/watcher.go:276-292 | Blocking keeps mutual exclusion with uploads already registered |
| Coordination.UnblockKeeps | internal/api/watcher.go:293-299 | Unblocking keeps the count equal to the number of blockers left |
| Uploads.Server.BeginUpload | internal/api/watcher.go:317-333 | On the maps, the first section acts on its path exactly as the protocol's Trigger and on no other path or upload |
| Uploads.Server.PublishCancel | internal/api/watcher.go:420-428 | On the maps, publication of the cancel function refines the protocol's Publish |
| Uploads.Server.EndRound | internal/api/watcher.go:338-358 | On the maps, the end of a round refines the protocol's Finish; a failed run arms the timer with the backoff of the failures before it |
| Uploads.Server.ScheduleRetryLocked | internal/api/watcher.go:363-380 | One more failure counted; the path's timer, the old one if there is one, armed with exactly the backoff delay |
| Uploads.Server.RetryFires | internal/api/watcher.go:381-387 | A firing timer forgets itself, but not one that took its place |
| Uploads.Server.BlockUploads | internal/api/watcher.go:276-292 | On the maps, blocking refines the protocol's Block and names the upload to wait for |
| Uploads.Server.Unblock | internal/api/watcher.go:293-299 | Deletes the entry exactly when the last blocker leaves |
| Uploads.Server.UploadBlocked | internal/api/watcher.go:301-305 | True exactly while some blocker is counted |
| Uploads.RetryDelay | internal/api/watcher.go:366-372 | For every attempt count and positive int64 base the loop yields min(base * 2^attempt, 30 minutes) without leaving int64 |
| Uploads.BackoffMonotone | internal/api/watcher.go:360-372 | Delays are positive, never shrink with the attempt and never pass the cap |
| Uploads.BackoffDoubles | internal/api/watcher.go:360-372 | Each failure doubles the delay, up to thirty minutes |
| NoLoss.StepKeepsInv | internal/api/watcher.go:394-506 | The durability invariant is inductive over every step of PVE, S3, daemon, uploads and handlers |
| NoLoss.MoveKeeps | internal/api/watcher.go:394-506 | Every lock-free step of uploadOnce keeps the world's invariant and leaves its thread knowing what its next step relies on |
| NoLoss.AcceptedUploadIsCurrent | internal/cache/cache.go:152-173 | If the file at the path still matches the opened one, what landed on S3 is its content |
| NoLoss.PullKeeps | internal/api/api.go:384-523 | Every step of a download, the two readings of the metadata among them, keeps the world's invariant and leaves the download knowing what its next step relies on |
| NoLoss.StepKeepsDowns | internal/api/api.go:375-523 | What a download in flight relies on survives every step of everyone else |
| NoLoss.UploadKeeps | internal/api/resync.go:83-178 | So does whatever a resync does to one file |
| NoLoss.RemoveKeeps | internal/cache/cache.go:300-325 | So does a removal, a failed one included |
| Durability.CoveredNeverLies | internal/cache/cache.go:50-54 | In every reachable state, metadata that covers a file is right: its bytes were on S3 under the key, or S3 held an object not older than it, or a delete, or a download that found the object gone, set out to remove it |
| Durability.RestartQueuesUnaccounted | internal/api/watcher.go:227-256 | After a crash at any step the startup scan queues every file not accounted for and leaves it protected |
| Durability.PendingSurvives | internal/cache/cache.go:33-38 | A pending file keeps its bytes and its mark through any run without an explicit request for the key, until an upload's MarkSynced or a resync of this run accepts it, if no eviction has picked it and no download has come too far to see the mark |
| Durability.PendingLostIff | internal/api/api.go:391-518 | Exactly: a pending file can be lost, or its mark, without acceptance if and only if there is such an eviction or download; too far is past the second reading of the metadata or before it with the first one done, or past finding no metadata with the file no newer than the object |
| Durability.AcceptedIsAccounted | internal/api/watcher.go:492-502 | Acceptance leaves the file in place and accounted for; when an upload marks it, S3 has held its very bytes |
| Durability.GuardedSurvives | internal/api/watcher.go:431-468 | A metadata-less file is kept likewise, until accepted or until a download that found no metadata finds S3 to hold an object not older than it |
| Durability.GuardedLostIff | internal/api/api.go:396-445 | Exactly: it is lost with neither of these if and only if an eviction has picked it or a download is past judging it |
| Durability.MetalessReplacedIff | internal/api/api.go:397-419 | A download that found no metadata goes on towards replacing the file exactly if S3 has a not-older object of a different size, and records it as synced exactly if that object has its size |
| Durability.FileStaysIff | internal/cache/cache.go:358-403 | Every step without an explicit request: a file stays exactly unless the step is an eviction's or download's unlinking or a download's rename, whatever the metadata says |
| Durability.SyncedIsReadIff | internal/api/api.go:405-432 | A synced file, rewritten or not, is purged by a download that reads its metadata exactly if HEAD found no object, and compared exactly if it found one; an eviction may always pick it |
| Durability.ComparedIsCondemnedIff | internal/api/api.go:439-445 | The comparison condemns whatever file is there by then exactly if the record there by then does not match; a pending mark, and no record, never match |
| Durability.PushesIff | internal/api/watcher.go:431-481 | Which entries an undisturbed upload puts over the object: those not covered and, without metadata, newer than it |
| Durability.NothingLostAcrossCrash | internal/api/watcher.go:221-256 | End to end: any run, a crash, the scan, any further run without an explicit request: a file the metadata covered is accounted for; any other is queued and guarded by the scan, and still there and guarded at the end or settled since |
| Durability.SyncedMeansSame | internal/api/watcher.go:492-502 | An upload recorded as synced put the very bytes now at the path on S3, and the metadata carries that object's ETag; otherwise nothing is recorded |
| Durability.RewriteStaysPending | internal/api/watcher.go:492-502 | A PVE write at any time after an upload opened the file makes that upload's MarkSynced fail; and whatever happens before its last step, that step leaves the path pending or with metadata that is right |
| Deletion.NoResurrection | internal/api/api.go:576-608 | If no transferred download waits for its rename when a delete ends, no run of uploads, retries, triggers, downloads, scans, deletes and crashes brings object or file back until someone creates the key anew |
| Deletion.DeletedReturnsIff | internal/api/api.go:576-608 | Exactly: some such run brings the object back if and only if such a download is in flight |
| Deletion.ReturnsIff | internal/api/watcher.go:270-292 | For any reachable state with the key absent: it can come back only if an upload that may still put it or a download that may still install it is in flight; and if, unless metadata left without a file covers what such an upload has opened |
| Deletion.StepKeepsSealed | internal/api/watcher.go:270-292 | The invariant behind it, over every step that does not create the key: absent, and nothing in flight that could put or install it |
| Deletion.StepKeepsDelete | internal/api/api.go:592-599 | While no step has created the object since a handler's DeleteObject took effect, S3 has none |
| Deletion.PurgedReturnsIff | internal/api/api.go:424-432 | After a download's purge of an object deleted elsewhere, the object can come back if and only if an upload that had opened the file, or another transferred download, is in flight |
| Counterexamples.PurgedObjectCanReturn | internal/api/api.go:424-432 | Such a state, reached from an empty path |
| Counterexamples.DeletedObjectCanReturn | internal/api/api.go:486-516 | A delete that ends while a download waits for its rename, reached from an empty path, and the object comes back |
| Counterexamples.PendingFileCanBeEvicted | internal/cache/cache.go:371-397 | A file PVE wrote and the watcher marked after an eviction picked it, reached from an empty path, is lost |
| Counterexamples.PendingFileCanBeOverwritten | internal/api/api.go:486-516 | A file PVE wrote and the watcher marked during a transfer, reached from an empty path, is lost |
| Counterexamples.PendingFileCanBeInvalidated | internal/api/api.go:396-445 | A file PVE moved in and the watcher marked between a download's two readings of the metadata, reached from an empty path, is lost although the download was about to find the cached file current |
| Agreement.DownloadAgreesWithS3 | internal/api/api.go:375-523 | In every interleaved run: bytes answered from a transfer were on S3, and are what HEAD announced if S3 still held that content when the transfer came; every other answer is the bytes of a locally authoritative file, or (no write being unnoticed) S3's own at the decision, 404 exactly when S3 has none, if and only if S3 then still held what HEAD had announced; with S3 out of reach the cached file is served, and an error only for a key that is not cached |
| Agreement.AuthoritativeIsServedIff | internal/api/api.go:397-414 | A locally authoritative file is left untouched, served and requested for upload exactly unless it has no metadata and S3 could not be asked or has an object not older |
| Agreement.UninterruptedDownloadAgrees | internal/api/api.go:375-523 | A download nothing interrupts, in any reachable state without an unnoticed write, answers exactly as S3 with a local write-back file would, or during an outage with the cached file, else an error; it requests an upload exactly for the authoritative files it serves as such |
| Agreement.SecondDownloadIsHit | internal/api/api.go:439-443 | After a download that served an object the next one serves the same bytes, changes nothing and transfers nothing, as long as S3 holds the same object |
| Agreement.ReadThroughDecides | internal/api/api.go:391-446 | Undisturbed, a download's separate readings of the entry come to the decision that the branches make of one state of it |
| Agreement.UninterruptedIsHandleDownload | internal/api/api.go:384-523 | The machine's steps of a download add up to the function the handler refines |
| Agreement.RunStaysSteady | internal/api/api.go:479-518 | Over every run, a download whose transfer finds the content HEAD announced carries exactly that content to its answer |
| Counterexamples.FinishedUploadIsPurged | internal/api/api.go:388-432 | From an empty path: an upload finishes between HEAD and the reading of the metadata, and the download answers 404 and unlinks the file although S3 holds the object |
| Agreement.RunKeepsEtag | internal/cache/cache.go:30-45 | Over every run of `Agreement.Trusted`, covering metadata with an ETag describes the content of that ETag, and every download in flight knows its answer to be right |
| Agreement.StepKeepsEtag | internal/api/watcher.go:431-506 | That invariant is inductive over every step, uploads in flight included |
| Agreement.DownloadKeepsFileIff | internal/api/api.go:424-446 | An uninterrupted download leaves a cached file that is not authoritative alone exactly under the stated conditions; whether the metadata covers the file is not among them |
| Counterexamples.UnnoticedWriteCanBeLost | internal/api/api.go:424-432 | From an empty path: a file moved in over the cached one is destroyed by a 404, its bytes never on S3 |
| Counterexamples.UnnoticedWriteCanBeEvicted | internal/cache/cache.go:366-397 | From an empty path: the same file is destroyed by an eviction |
| Agreement.ChangeDuringDownloadServesWrongBytes | internal/api/api.go:384-386 | An object that changes between HEAD and transfer and back leaves downloads serving the other object's bytes |
| Agreement.LaterDownloadIsRightIff | internal/api/api.go:431-516 | After a download that was announced a and transferred b, a later download of o answers o's bytes if and only if o has another ETag than a, or a and b have the same bytes |
| Agreement.StampedEntryIsRightIff | internal/api/api.go:431-516 | The same for the machine's next look at the entry, whatever happened in between |
| Agreement.StampKeepsEtagIff | internal/api/api.go:514-518 | Recording the ETag keeps it true exactly if the file at the path, when it has the recorded size, has the bytes HEAD announced |
| Agreement.StampHidesWriteIff | internal/api/api.go:503-518 | A file put at the path between rename and metadata is recorded as synced exactly if it has the downloaded size |
| Agreement.BackfillHidesWriteIff | internal/api/api.go:414-419 | A file put at the path before its backfilled metadata is recorded as synced exactly if it has the object's size |
| Metadata.StampedIsCovered | internal/cache/cache.go:107-150 | After the daemon stamps metadata on a file not dated in the future, a late MarkPending answers false and changes nothing |
| Metadata.MarkPendingSettles | internal/cache/cache.go:127-150 | After MarkPending no write is unnoticed, and it answers true exactly when it left the file authoritative with metadata |
| Metadata.LaterMarkWins | internal/cache/cache.go:152-173 | A write marked after an upload started is never recorded as synced by it, even one that stat cannot tell; an earlier mark does not stand in the way |
| Metadata.RecordIsStaleIff | internal/cache/cache.go:202-213 | A record made of one object is stale for another exactly if their ETags differ or, where S3 gives none, the other is newer; no record always is |
| Metadata.WriteIsNoticedIff | internal/cache/cache.go:46-54 | A PVE write over synced metadata is picked up exactly when size, inode or an mtime after the record gives it away |
| Metadata.LeftoverComesBackIff | internal/cache/cache.go:312-320 | A file that could not be unlinked with its deleted object is uploaded again exactly unless its size is on record and the record is of this file |
| Download.DownloadEffects | internal/api/api.go:391-523 | The only things a download can do to an entry: nothing, drop it, backfill it, install the transferred bytes |
| Resync.OutcomeIff | internal/api/resync.go:83-178 | Every outcome of every entry, with metadata or without: uploaded, conflict, same, in use and error exactly when, missing, unreachable, forced and failed uploads included |
| Resync.OutcomeLeaves | internal/api/resync.go:99-178 | What each leaves behind: an uploaded file recorded under its object's ETag, one found the same without a record under that object's, else the entry untouched |
| Resync.ResyncEffects | internal/api/resync.go:83-178 | The only things a resync can do to a key |
| Resync.NeverOverwritesNewer | internal/api/resync.go:96-135 | Without force and with HEAD failing only as not-found, an upload never replaces an object that is not older |
| Resync.OverwritesNewerIff | internal/api/resync.go:99-135 | Exactly when it does replace one: HEAD failed although the object is there, or force with a different size |
| Resync.AgreesWithReconcile | internal/api/resync.go:99-135 | On files without metadata resync uploads exactly when the watcher's reconciliation says missing or newer |
| Resync.SecondPassIsQuiet | internal/api/resync.go:99-178 | A second pass over one file uploads nothing, changes nothing and reports the same conflict |
| ResyncWalk.ResyncIdempotent | internal/api/resync.go:61-178 | Over any tree, after a pass without errors, a second pass uploads nothing and reports as many conflicts |
| Handlers.Daemon.HandleResync | internal/api/resync.go:61-178 | The walk treats every file by its own key's decision, failed uploads that land all the same included, leaves `.tmp` and `.meta` files and everything else alone, and the four counters are the tallies of those decisions |
| Handlers.Daemon.ResyncFile | internal/api/resync.go:80-178 | The callback refines that decision, bucket included |
| Handlers.Daemon.HandleDelete | internal/api/api.go:592-607 | The local copy goes only after the object; a copy that cannot be unlinked stays without a pending mark; a failed delete leaves the cache alone |
| Handlers.Daemon.HandleDownload | internal/api/api.go:384-523 | The handler's statements, with HEAD and transfer seeing objects of their own, refine the function the machine's steps add up to, and touch no other key |
| Handlers.Daemon.HandleCopy | internal/api/api.go:610-673 | From an authoritative source success leaves object, file and covering metadata of the destination with exactly the local bytes and that ETag; after an S3 copy the destination mirrors its object exactly if the cached source agreed with its own; the destination is authoritative afterwards if and only if it was and its entry could not be replaced; it succeeds exactly if S3 copies, or the local copy can be made and uploaded, and what a failure leaves is stated |
| Handlers.Daemon.UploadLocalCopy | internal/api/api.go:654-669 | The local copy is made first and uploaded from: entry and object cannot differ; it succeeds exactly if both work, and if the upload fails the copy goes again with its metadata |
| Handlers.Daemon.HandleRename | internal/api/api.go:691-745 | After every S3 call and file rename, at the end, and on every failure path the bytes are on S3 or in a local file under one of the two names, given the stated proviso, without which they are lost; success moves object and entry, and leaves the destination authoritative if and only if it was and no file moved; failure leaves the source; it succeeds exactly if S3 copies or the local file can be uploaded |
| Handlers.Daemon.CreateObject | internal/api/api.go:704-721 | The destination is created from S3's source, or from the local file when that is authoritative or S3 cannot copy; exactly when it succeeds, and the source is untouched all along |
| Handlers.Daemon.MoveObject | internal/api/api.go:699-724 | The S3 half: the source object is deleted only once the destination exists with the right bytes, and stays if it does not |
| Handlers.Daemon.DeleteObject | internal/api/api.go:722-724 | Removes the one object or nothing, and leaves its trace in the trail |
| Handlers.Daemon.RenameFile | internal/api/api.go:726-731 | Moves one file over another, and leaves its trace in the trail |
| Handlers.Daemon.MoveEntry | internal/api/api.go:726-742 | The local half: the file moves with covering metadata, the source entry is empty |
| Handlers.Daemon.CopyLocalFile | internal/api/api.go:775-797 | A failed copy leaves no partial destination; copying a file onto itself truncates it |
| Handlers.Daemon.PutFile | internal/api/api.go:757-772 | The object gets the file's bytes, and the returned stat describes the file uploaded; without a file an error and no object |
| Handlers.Daemon.RecordOwnWrite | internal/api/api.go:799-810 | Records as synced only the file that info describes |
| Handlers.MirrorIsNotMarked | internal/api/api.go:799-803 | An entry that mirrors its object is not taken for a PVE write by the watcher's late event |
| FileCache.FileCache.EvictIfNeeded | internal/cache/cache.go:421-500 | Only old, synced files (or old partial downloads) go; each removal starts over the limit; sizes are conserved; it ends within the limit or with no candidate left; no survivor that could go is older, in whole seconds, than an evicted file |
| FileCache.FileCache.RemoveOldest | internal/cache/cache.go:474-490 | The loop removes exactly the greedy choice, and its running total is the sum of the sizes left |
| FileCache.FileCache.Survey | internal/cache/cache.go:429-464 | The walk's total is the sum of all sizes, its list exactly the files that may go, none twice |
| FileCache.GreedyMeets | internal/cache/cache.go:474-490 | The greedy choice has the properties EvictIfNeeded promises |
| FileCache.GreedyIsNeeded | internal/cache/cache.go:475-477 | Each chosen file was chosen over the limit |
| FileCache.GreedyIsEnough | internal/cache/cache.go:474-490 | If the total stays over the limit every removable candidate was chosen |
| FileCache.GreedyTakesOldest | internal/cache/cache.go:467-469 | Nothing chosen is more recent than a removable candidate that was not |
| FileCache.Sorted | internal/cache/cache.go:467-469 | A permutation of the candidates, oldest first |
| FileCache.FileCache.EvictByAge | internal/cache/cache.go:358-403 | Removes exactly the synced, removable files of the storage older than the limit, with their metadata, and counts them |
| FileCache.FileCache.AgeOut | internal/cache/cache.go:371-397 | One file of that walk: removed exactly if removable, older than the cutoff and not possibly the only copy |
| FileCache.SecondIs | internal/cache/cache.go:458-463 | Ages are compared in whole seconds |
| FileCache.FileCache.ScanPendingUploads | internal/api/watcher.go:227-256 | Queues exactly the content files whose metadata does not cover them, those without metadata included, leaves each of them protected and all others untouched |
| FileCache.FileCache.StoreMeta | internal/cache/cache.go:104-125 | Stamps time and inode on one key's metadata |
| FileCache.FileCache.MarkPending | internal/cache/cache.go:135-150 | Refines the per-key mark; no other key changes |
| FileCache.FileCache.MarkSynced | internal/cache/cache.go:160-173 | Refines the per-key acceptance test; no other key changes |
| FileCache.FileCache.Invalidate | internal/cache/cache.go:216-226 | Drops file and metadata together, or neither |
| FileCache.FileCache.Remove | internal/cache/cache.go:300-325 | Like Invalidate, but a leftover loses its pending mark |
| Debounce.Watcher.OnEvent | internal/api/watcher.go:58-72 | A write starts a pending episode only if it was marked, and always pushes back a running one |
| Debounce.Watcher.OnRequest | internal/api/watcher.go:74-80 | A request never pushes back what is queued |
| Debounce.Watcher.OnTick | internal/api/watcher.go:87-115 | The range loop dispatches, drops and postpones exactly the paths the verdict says, in any order |
| Debounce.DispatchOnlyWhenQuiet | internal/api/watcher.go:51-116 | For every sequence of inputs, a dispatched path had no handled write and no tick that found it busy in the last 3 seconds and was a regular, closed, unblocked file not ending in `.tmp` |
| Debounce.TickTreats | internal/api/watcher.go:87-115 | What a tick does to every queued path: a quiet, regular, free file is dispatched, a missing one or a directory dropped, a busy one made to wait anew, and the others left |
| Debounce.RequestsWait | internal/api/watcher.go:58-80 | A request queues a path and never pushes back a queued one; a write event always does |
| Debounce.StaysQueued | internal/api/watcher.go:87-115 | A queued path stays queued until dispatched, or found missing or a directory |
| Listing.HandleList | internal/api/api.go:329-371 | Both branches and all loops list exactly what `Listed` says |
| Listing.MergeLocalFiles | internal/api/api.go:895-958 | The merge adds exactly the eligible local files whose key is not on S3 |
| Listing.ListedIff | internal/api/api.go:339-371 | A volume is listed exactly if it is a non-directory object, or an eligible local file whose key no such object has: the object wins |
| Listing.ListedOnce | internal/api/api.go:339-371 | No key is listed twice |
| Listing.LocalFilesIff | internal/api/api.go:895-958 | Which local files are eligible, read off the directory tree |
| Listing.FlatEntryIs | internal/api/api.go:345-364 | A flat object's entry is the same before its upload, as a local file, and after; its volume id is the storage's name, a colon and the volume name, which leads back to the key |
| Listing.ImageEntryIs | internal/api/api.go:345-364 | The same for a disk image in a VM's directory |
| Listing.FormatIff | internal/api/api.go:985-995 | iso, tgz and raw exactly by extension, in either case |
| Volumes.FlatKeyRoundTripIff | perl/S3Plugin.pm:832-858 | The printed name of an object leads back to its key exactly if the object lies directly under its prefix |
| Volumes.ImageKeyRoundTripIff | perl/S3Plugin.pm:832-858 | For images, exactly if it lies in a numeric VM directory |
| Volumes.NamedVolume | perl/S3Plugin.pm:832-858 | The printed name of a flat local file leads back to its key |
| Volumes.PrefixesAgree | internal/api/api.go:966-983 | The daemon's table of prefixes and the plugin's are the same, unknown content types included |
| Volumes.PrefixesAre | perl/S3Plugin.pm:849-858 | Where each kind of content lies |
| Volumes.PlainNameIsIso | perl/S3Plugin.pm:832-846 | A volume name without a slash is an ISO |
| Volumes.FirstComponentDecides | perl/S3Plugin.pm:832-846 | A number in front names a VM directory of images, anything else a content type |
| Volumes.FlatImageNameChanges | internal/api/api.go:349-354 | An image directly under `images/` resolves before its upload and not after |
| StorageCfg.ParseStorageCfg | internal/config/config.go:120-211 | The one-pass loop equals the declarative reading for every list of lines: sections at headers, the s3 ones in file order, the last one included |
| StorageCfg.FoldIsLastWins | internal/config/config.go:163-193 | Applying properties left to right is the same as taking each field's last acceptable value, or the default |
| StorageCfg.ParsesWhatIsPrinted | internal/config/config.go:120-211 | Round trip: for every list of storages, reading what PVE writes for them gives them back, every property of every one, in order |
| StorageCfg.SectionReads | internal/config/config.go:144-163 | An s3 section is read as a storage, a section of another kind passed over with its properties |
| StorageCfg.DefaultsAre | internal/config/config.go:155-159 | A section without properties has the region us-east-1, TLS on and path style off |
| StorageCfg.CommentsSkipped | internal/config/config.go:135-138 | Empty lines and comments say nothing |
| StorageCfg.EndpointIsCleaned | internal/config/config.go:175-181 | An endpoint may carry either scheme and any number of trailing slashes |
| StorageCfg.BadAgeIgnored | internal/config/config.go:189-192 | A cache age that is negative or no number leaves the setting as it was |
| StorageCfg.BadPartsIgnored | internal/config/config.go:193-196 | So does a part size that is not positive or no number |
| StorageCfg.SwitchedOnIff | internal/config/config.go:185-188 | 1, yes and true switch on, anything else off |
| Text.ParsesDecimal | internal/config/config.go:189-196 | What is printed in decimal is read back, unless it is outside int64 |
| Text.ParsesSigned | internal/config/config.go:189-196 | With a sign too, down to the least int64 |
| Text.ParsesOnlyDigits | internal/config/config.go:189-196 | Nothing with another character than digits after its sign is a number |
| Text.TrimSpaceStrips | internal/config/config.go:133-133 | Trimming takes off exactly the surrounding white space |
| StorageCfg.PendingStep | internal/config/config.go:131-195 | Each line saves or changes exactly what moves the rest of the file's meaning into the result |
| StorageCfg.ReadLine | internal/config/config.go:131-195 | The loop's body does to result and open section what the line's class says |

## Left out

- Legacy `.meta` sidecars beside content files, and keys ending in `.meta` (and `.tmp` where the daemon ignores them).
- Failing writes of metadata files: a crash falls between operations, not inside one of them.
- The upload of a key through the API (`handleUpload`, `Link`) as a concurrent actor: it takes no block and appears as the atomic `Store` step, as do copies and renames in the per-path machine.
- S3 requests still in flight when the daemon crashes: a landed request is a step before the crash, or a foreign write after it.
- Identity of upload states is a number; the source uses pointers.
- Two retry timers for one path: a reset that races a firing timer can leave an extra one running, and no claim is made about it.
- Overlapping transfers of one key: the source lets them share a temporary file (`internal/api/api.go:465-476`), here each has its own; and a transfer reads one object, though the SDK may fetch it in parts.
- Age limits and minimum age in the per-path machine: an eviction there may pick any synced file. The classes have them.
- `cacheRelKey` and the path join it inverts: locations are pairs of storage and key throughout; splitting at the first slash would only add an easy member.
- File locks, `/proc` scanning, `chattr`, fsnotify, directory creation and every I/O error are oracles or separate steps.
- AWS SDK calls, proxies, HTTP, JSON, logging, health checks, object tags, `Reload`, credentials and the rest of the Perl plugin.
- Over-long or unreadable lines of `storage.cfg`, newlines in volume names, Unicode digits and Unicode lower-casing in file formats.
- Durability.PendingSurvives: speaks of runs in which PVE does not rewrite or unlink the file and no delete, rename, copy or upload of the key is requested; those are the explicit requests that may replace it.
- Deletion.NoResurrection: stops at the first step that creates the key anew, which includes the upload, copy, rename and resync handlers, because none of them waits for the delete's block.
- Agreement.DownloadAgreesWithS3: for an unnoticed write, when S3 does not answer HEAD, or when the file is removed before the path is answered, it says nothing about S3; the theorems beside it do for the first.
- Deletion.ReturnsIff: where metadata left without a file covers what an upload has opened, that upload ends without a put unless something changes the metadata first; only the "only if" half is stated there.
- Agreement.RunKeepsEtag: over the runs of `Agreement.Trusted`; the exact conditions for the single steps stand beside it.
- UploadTheorems.WaitingEnds: bounds the upload's own steps; that a runnable goroutine is eventually scheduled is Go's promise.
- ResyncWalk.ResyncIdempotent: both passes see S3 answering and the same files in use; files with errors in the first pass are excluded.
- Handlers.Daemon.HandleResync: PVE and other nodes do not write a key between its HEAD and its MarkSynced.
- Handlers.Daemon.HandleRename: PVE does not write to either path inside the call.
- FileCache.FileCache.EvictIfNeeded: nothing else changes the directory between its walk and its removals; the per-path machine says what happens if something does.
