# Verified model of the ic-oss command line's file synchronization

A Dafny model of the parts of ic-oss that move files between a local directory and an ic-oss bucket,
and proofs of what they promise. `dafny verify dfyconfig.toml` checks all of it.

- **Push** (`Paths`, `Manifests`, `Collections`, `ActionOrder`, `Planner`, `PlanMeaning`, `Convergence`,
  `Execution`, `Orders`, `Batches`, `Server`, `Calls`, `LegacyUpload`, `Executor`, `ChildLimit`,
  `PushExcludes`): planning, batching and executing a directory upload. `PlanMeaning` says which plans are
  right in terms of what the bucket accepts. `Convergence.Reached` says how far a run has come;
  replanning, resuming, batching and verification are all about that one relation. `Server` is the bucket
  as the client sees it, with lost messages and deduplication by request id. `LegacyUpload` is the upload
  in several calls to a bucket without upload sessions. `Executor.ExecuteSync` puts everything together.
- **Recovery** (`FileChunks`, `ChunkRanges`, `UploadStatus`, `Journal`, `UploadProtocol`,
  `JournalRefinement`, `UploadProgress`): the durable journal with its interval lists, the resumable upload
  as a protocol between client, journal and bucket in which the client may die and messages may be late,
  repeated or lost, and the journal's operations as steps of that protocol.
- **Concurrent upload** (`ChunksCodec`, `ChunkUploader`, `UploadConcurrency`, `ChunkProgress`): the codec, and
  the uploader with its retries as interleaved steps of loop, tasks, receiver and bucket; how many calls
  are in flight, and when an upload can still succeed.
- **Pull** (`LocalTree`, `PullPlanner`, `PullMeaning`, `PullSync`, `Download`, `DownloadVersions`,
  `PullExecutor`, `PullResume`): the mirror image, with exclusions, the verified download of a file and its
  publication by a rename. `Download.Disk` records every state of the disk, so that contracts can speak
  about what a crash leaves behind.
- **Scans** (`FileNames`, `LocalScan`, `RemoteScan`): both establish what planning assumes, `ScannedLocal` and
  `ScanOf` on one side, `Scanned` on the other.
- **The rest** (`Splitting`, `Permission`, `Grants`, `Utf8`, `ManifestHash`, `TranscodeCleanup`,
  `CandidateLoss`, `TranscodeProgress`): the policy language and what it grants, what the manifest hash
  covers, and the protocol by which transcode outputs are submitted and cleaned up.

How the model reads the code:

- Paths are strings of characters, ordered as the code orders their UTF-8 bytes. The `path` field of an
  entry is its key in the manifest. Reason texts are constructors.
- SHA3-256 is a function parameter. Nothing about it is assumed, except that a begin fingerprint in
  `UploadProtocol` stands for one content.
- Ids, sizes and counters are unbounded integers; the 32-bit chunk numbers of the journal, the 32-bit
  length comparison of the download and the 64-bit fields of the manifest hash are modelled as such.
- Random request ids are ids that have not been used before. Map iteration is an explicit sorted order
  where the order matters and arbitrary where a sort follows.
- Calls to the bucket and the Hub are answered by a model or by arbitrary functions: `Server.Bucket`
  for push, arbitrary reply functions for pull and download, protocol steps elsewhere. An atomic upload
  of one file is one request in `Executor`, because only its commit changes the tree; `UploadProtocol`
  looks inside. An upload in several calls is executed call by call; `ChunkUploader` has their
  interleavings.
- During a push or pull the local tree and the remote tree change only by that run, but for the remote files
  in `DownloadVersions`.
- The calls of one download are numbered through, info and chunk queries alike.

Some promises hold only under conditions, which are stated exactly:

- A push leaves the bucket between two actions of its plan, whatever gets lost, if and only if the
  bucket supports atomic uploads or no file to be uploaded exceeds MAX_FILE_SIZE_PER_CALL
  (`Executor.ExecuteSync`). Otherwise an unfinished file can be left, which blocks the next push
  (`LegacyUpload.ReplanUnfinished`, `Executor.UnfinishedBlocksPush`).
- The configured concurrency bounds the chunk calls of each attempt, but the calls of a failed attempt
  go on beside those of the next one: over all retries it is a bound only if all attempts together fit
  below it (`UploadConcurrency.LimitHoldsIff`, `UploadConcurrency.RetryKeepsLimitIff`).
- A push never meets a full folder if and only if the entries of both trees together respect the limit
  on children; the local scan checks the local ones only (`ChildLimit.NeverFullIff`).
- A complete pull settles only when every wanted remote file has a hash (`PullSync.SettledIffHashed`),
  and it gets through only when no symbolic link or special file stands where something is wanted
  (`PullSync.ActionPossible`, `PullSync.StuckOtherwise`, `PullExecutor.ExecutePull`).
- A downloaded chunk can be misplaced only by a chunk of 4 GiB or more (`Download.AlignedIffShort`,
  `Download.OverlongChunkAccepted`).
- A current candidate of a job that is not cancelled can be lost without a further change of the Hub if
  and only if its deletion is already under way (`CandidateLoss.CandidateLostIff`). It is deleted only
  when the Hub accepts it while that is so, which does happen, or in the cleanup of a cancelled job
  (`TranscodeCleanup.NoCandidateIsDeleted`, `TranscodeCleanup.LateAcceptanceLoses`); that cleanup can
  delete whatever the journal lists (`CandidateLoss.CancelledLostIff`).
- A push with `delete` deletes an excluded remote path unless something excluded or special stands
  locally at it or above it (`PushExcludes.ExcludedIsDeletedIff`); a pull never touches one
  (`PullPlanner.DestructiveOnlyOnRequest`).
- A legacy scan without conflicts has found a tree of complete files if and only if no two reported files
  have the same id, which a bucket that keeps its files by id rules out (`RemoteScan.ScanLegacy`).
- A set of policies survives printing and parsing up to normal form if and only if all its normal forms
  are well-formed (`Permission.PoliciesRoundTripIff`).
- A cleanup is stuck, until something changes from elsewhere, if and only if an output has disappeared without an
  intent or has changed since its intent was saved (`TranscodeProgress.CleanupFinishesIff`); a worker on a
  running job is stuck with a variant if and only if its journal contradicts the Hub's candidate or, without
  one, lists an output that is gone (`TranscodeProgress.OutputPublishedIff`).
- A policy can be removed from a printed and parsed set by naming it only if it is in normal form
  (`Permission.RemovedOnlyIfNormal`).

## Model

| member | source | states |
|---|---|---|
| Paths.SplitJoin | src/sync/types.rs:57-67 | taking parent and name of a joined path gives back the two parts |
| Paths.ParentDepth | src/sync/types.rs:65-75 | an entry is exactly one level deeper than its parent |
| Paths.UnderParent | src/sync/types.rs:26-34 | the textual prefix test of `protects` is the transitive closure of the parent relation, in both directions |
| Paths.PathLessIff | src/sync/planner.rs:190-198 | in path order a beginning comes before the whole, and otherwise the first difference decides |
| Manifests.ListedIsUnprotected | src/sync/local.rs:124-145 | no entry that a completed scan lists is protected: the scan prunes below everything it protects |
| ActionOrder.SortBySorts | src/sync/planner.rs:190-208 | in the list sorted by `compare_actions` no later action compares less than an earlier one |
| Planner.Plan.Push | src/sync/planner.rs:58-74 | one action is appended, and every counter and the byte total still agree with the action list |
| Planner.PlanSync | src/sync/planner.rs:77-176 | the plan is the scan's conflicts plus one decision per path of either tree, sorted; unchanged and retained entries are counted exactly |
| Planner.PlanElements | src/sync/planner.rs:81-172 | a conflict-free plan contains an action if and only if it is the decision for its path |
| Planner.PlanPathsDistinct | src/sync/journal.rs:212-220 | no path occurs in two actions of a conflict-free plan, so the journal's lookup by kind and path is unambiguous |
| PlanMeaning.PlannedIffCalledFor | src/sync/planner.rs:77-188 | a plan holds an action if and only if the two trees and the options call for it and the bucket would accept it, or its parent is still to be created; it holds a conflict if and only if the scan reported it, the bucket would refuse what has to be done, the kinds differ, an archived directory is in the way, or the option that permits the action is not set |
| PlanMeaning.NothingToDoIff | src/sync/planner.rs:77-176 | a plan is empty if and only if the scan had no conflicts, every local entry has its like in the bucket, not archived if a directory, and whatever else is there is to stay: no other status and no other option matters |
| PlanMeaning.PlanOrder | src/sync/planner.rs:190-228 | in a plan conflicts come first, then directories from the top down, uploads, replacements, deletions of files and of directories from the bottom up, by path among equals |
| Planner.DestructiveOnlyOnRequest | src/sync/planner.rs:123-170 | replacements need `overwrite`, deletions need `delete` and an unprotected path that is absent locally, also in plans with conflicts |
| Planner.PlanConservation | src/sync/planner.rs:58-74 | for a conflict-free plan creations, uploads, replacements, deletions, unchanged and retained entries add up to the number of paths in the union of both trees |
| PushExcludes.ExcludedIsDeletedIff | src/sync/planner.rs:147-170 | a push deletes a remote path that matches an exclude pattern, or lies below one that does, if and only if `delete` is set, the entry is writable and nothing excluded or special stands locally at the path or above it |
| Convergence.ReplanPath | src/sync/planner.rs:77-176 | after any part of a run, the decision for a path is gone if its action has been executed and the same as before if not |
| Convergence.ReplanIsRemaining | src/sync/mod.rs:61-164 | whatever part of a plan has been executed, planning again from a rescan is conflict-free and gives exactly the remaining actions in the same order, for all option settings |
| Convergence.ReplanAfterAllIsEmpty | src/sync/mod.rs:320-327 | once every action has been executed, the verification plan is empty |
| Convergence.PlanUnique | src/sync/planner.rs:190-208 | the two manifests determine a conflict-free plan completely, order included |
| Convergence.FinalTree | src/sync/mod.rs:213-318 | at the end every local path exists remotely with its kind and hash, and every other remaining entry is untouched and was to be retained |
| Convergence.OutcomesAgree | src/sync/mod.rs:208-219 | sequential and batched execution leave the same tree up to ids chosen by the bucket |
| Convergence.ResumedRunAgrees | src/sync/mod.rs:166-331 | a run interrupted between two actions, planned and executed again, ends in the same tree as an uninterrupted one |
| Execution.AcceptedPathUnique | src/sync/mod.rs:585-624 | a request names its target unambiguously although it carries only ids and a name |
| Execution.EffectValid | src/sync/mod.rs:213-318 | parent-closedness and uniqueness of ids survive every accepted request |
| Execution.CreationAccepted | src/sync/mod.rs:221-273 | when the turn of a creation or upload comes, its parent is an existing writable folder, the place is free, and the bucket accepts the request |
| Execution.ReplacementAccepted | src/sync/mod.rs:275-304 | a replacement meets the planned file, still writable and below a writable folder |
| Execution.DeletedDirectoryIsEmpty | src/sync/planner.rs:190-208 | a directory is empty when its deletion is reached; this needs the scan's guarantee that the parent of every protected path is a scanned directory |
| Execution.DeletionAccepted | src/sync/mod.rs:305-315 | deletions are accepted, without any demand on the parent's status |
| Execution.StepReached | src/sync/mod.rs:213-318 | carrying out the request of a runnable action reaches the tree in which exactly one more decision has been executed |
| Orders.SortedIsValidOrder | src/sync/planner.rs:190-208 | in planner order no action comes before something it waits for |
| Orders.BatchedIsValidOrder | src/sync/mod.rs:208-219 | the order in which batches and main loop execute the actions is a permutation of the plan that keeps the same precedences |
| Orders.OrderIsReady | src/sync/mod.rs:213-318 | in every such order, what an action waits for has happened when its turn comes |
| Batches.DirectoryBatches | src/sync/mod.rs:488-507 | the batches together are exactly the plan's directories in plan order; each is non-empty, within the item limit and of one depth, and full if the next one has the same depth |
| Batches.BatchHoldsNoParent | src/sync/mod.rs:488-507 | no batch holds a directory and its parent |
| Batches.SmallFileBatches | src/sync/mod.rs:509-537 | the batches concatenate to the in-order subsequence of small uploads, each is non-empty and within item and byte limits, and none could take the first file of the next one |
| Batches.GreedyIsOptimal | src/sync/mod.rs:509-537 | no order-preserving split of the same files within the limits uses fewer batches |
| Batches.ValidateInput | crates/ic-oss-types/src/file.rs:107-130 | a file's input is accepted if and only if its name is valid, its content type is not empty, content is not given as empty, and the status is none, 0 or 1 |
| Batches.ValidateSmallFiles | crates/ic-oss-types/src/batch.rs:49-87 | the loop accepts a call if and only if its request id, its count, every file and the total are acceptable, and names the request id, the count or the total if that is what is wrong |
| Batches.ValidateFolders | crates/ic-oss-types/src/batch.rs:21-36 | a directory call is accepted if and only if its request id, its count and all names are acceptable |
| Batches.InputsAreFiles | src/sync/mod.rs:396-455 | the inputs of a batch call carry the names, contents, sizes and hashes of the batch's files, in order |
| Batches.FileBatchesAccepted | src/sync/mod.rs:396-455 | the bucket's validation accepts every batch of small files that the client forms, if names are as the scan lets them through and the files have not changed |
| Batches.FolderBatchesAccepted | src/sync/mod.rs:332-364 | it accepts every directory batch as well |
| Server.Bucket.Handle | src/sync/mod.rs:851-872 | the bucket contract: a request id that has been answered gets its recorded reply without any further effect |
| Server.RetryCall | src/sync/mod.rs:851-872 | the retry loop makes calls until one is delivered and gives up exactly after `retry + 1` failed ones; whatever gets lost, the request has been served once if any call reached the bucket and not at all otherwise, and an answer is that of the one execution |
| Calls.DirectoryBatchIsOneCall | src/sync/mod.rs:332-394 | no action of a directory batch waits for another one of the same batch |
| Calls.UploadBatchIsOneCall | src/sync/mod.rs:396-486 | no upload of a small-file batch waits for another one of the same batch |
| Calls.ParentIsKnown | src/sync/mod.rs:221-273 | every action of a call finds its parent's id in `folder_ids` |
| Calls.CallServed | src/sync/mod.rs:332-486 | all requests of a call are accepted, the run advances by the whole batch, and recording the replies keeps `folder_ids` equal to the bucket's folders |
| Executor.TakeReplies | src/sync/mod.rs:366-391 | a batch succeeds if and only if every item did, and then all returned ids are recorded; otherwise the first failed item is named |
| Executor.Send | src/sync/mod.rs:332-486 | whether it succeeds or fails, a call leaves the bucket where it was before the call or where it is after the whole call; it succeeds if and only if one of the `retry + 1` calls is delivered |
| Executor.MainLoop | src/sync/mod.rs:213-318 | after the batches the main loop executes exactly the actions that the batches left out; it can only stop within an action in an upload that takes several calls |
| Executor.VerificationPasses | src/sync/mod.rs:320-327 | after a complete run the verification plan is empty |
| Executor.ExecuteSync | src/sync/mod.rs:166-331 | plans with conflicts or unsupported actions change nothing and are refused for that reason; any other run leaves the bucket between two actions of its order or within one upload; always between two actions if the bucket has atomic uploads or no file to be uploaded exceeds the size of one call, and not so otherwise when the chunk calls get lost; success means every action was served exactly once, in order; the run succeeds whenever among any `retry + 1` successive calls one is delivered (every call, if some are sent only once) and of each large file's calls at most `retry` get lost; and only an unanswered call can make it fail |
| Executor.UnfinishedBlocksPush | src/sync/mod.rs:171-199 | after an interruption within an upload, the next push to the same bucket is refused: its plan has a conflict or a replacement that needs atomic uploads |
| LegacyUpload.UnfinishedIsNotBetween | src/sync/mod.rs:263-271 | while a file is being uploaded in several calls, the bucket stands between two actions if and only if the file is filled and has its hash |
| LegacyUpload.SendChunks | crates/ic-oss/src/bucket.rs:756-846 | each chunk not known to be stored is called for once; whatever happens to each call, the file stays part of the run with exactly the bytes of the stored chunks, chunks are reported only if stored, and the attempt succeeds if and only if every call does |
| LegacyUpload.UploadInChunks | src/file.rs:76-132 | creating, filling and completing a file ends with the whole action executed, before it, or within it; if the creation is answered and at most `retry` of the other calls get lost it succeeds; only lost calls make it fail; when all chunk calls are lost an empty file remains, with its hash if the bucket keeps an index of hashes and without it otherwise |
| LegacyUpload.ReplanUnfinished | src/sync/remote.rs:216-224 | planning again after an interruption within an upload: an incomplete file is a conflict; a complete one without its hash is a conflict unless overwriting is allowed, and then it is to be replaced and nothing else is a conflict |
| LegacyUpload.HashFollowsContent | crates/ic-oss/src/bucket.rs:848-863 | in every interleaving with failures and retries, the hash is only sent when the file is filled |
| Server.FilledIffAllStored | crates/ic-oss-types/src/file.rs:73-73 | a file is filled if and only if every one of its chunks is stored |
| ChildLimit.ChildrenBefore | src/sync/planner.rs:190-208 | when a creation's turn comes, a folder holds all its entries of both trees but those still to be created: nothing has been deleted yet |
| ChildLimit.NeverFullIff | src/sync/local.rs:252-257 | in either order of execution, every creation finds room in its folder if and only if no folder in which something is created exceeds the limit counting the entries of both trees |
| FileChunks.ChunksRebuild | src/sync/mod.rs:746-778 | the chunks read at offsets i * CHUNK_SIZE, put together, are the file |
| ChunkRanges.FromSet | src/sync/journal.rs:315-330 | the list built from a set is sorted, disjoint and non-adjacent and denotes the set, for all 32-bit values |
| ChunkRanges.CanonicalUnique | src/sync/journal.rs:315-351 | a set has only one such list |
| ChunkRanges.InsertChunk | src/sync/journal.rs:332-351 | inserting keeps the list sorted, disjoint and non-adjacent and adds exactly the chunk, including the saturating edge |
| ChunkRanges.InsertRefinesAdd | src/sync/journal.rs:315-351 | inserting into the list of a set gives the list of the set with that chunk |
| ChunkRanges.ExpandInverse | src/sync/mod.rs:818-820 | expanding the list of a set gives the set back |
| UploadStatus.GetAllUploadStatus | src/sync/mod.rs:803-834 | following the cursors reads the first page and the union of all pages; when they list a session's chunk set, exactly that set; it fails if and only if one of the queries on the way is not answered |
| Journal.RecoveryJournal.constructor | src/sync/journal.rs:64-103 | a new journal has one entry per action and takes over a checkpoint only from the same action of a journal with the same bucket, target, root and manifest hash |
| Journal.RecoveryJournal.SetState | src/sync/journal.rs:105-115 | what `mark_started` and `mark_completed` do: only the state of the action's own entry changes, and a remote id once known is kept; unknown actions are refused without effect |
| Journal.RecoveryJournal.PrepareUpload | src/sync/journal.rs:117-140 | a checkpoint with the same fingerprint is kept with its begin request id, any other is replaced; the whole new journal is stated |
| Journal.RecoveryJournal.SetUploadSession | src/sync/journal.rs:142-154 | exactly the session id of this action's checkpoint changes; unprepared and unknown actions are refused without effect |
| Journal.RecoveryJournal.SetUploadedChunks | src/sync/journal.rs:156-168 | the recorded list denotes exactly the given set, and nothing else in the journal changes |
| Journal.RecoveryJournal.MarkUploadedChunk | src/sync/journal.rs:170-182 | exactly one chunk is added to the denoted set, and nothing else in the journal changes |
| Journal.RecoveryJournal.ResetUpload | src/sync/journal.rs:184-187 | the checkpoint of this action alone is dropped |
| Journal.TargetIsOwnEntry | src/sync/journal.rs:212-220 | for a conflict-free plan, looking up an action finds its own entry |
| UploadProtocol.CommitIsComplete | src/sync/mod.rs:683-800 | in every run with crashes, late, repeated or lost messages and expired sessions, a commit is only ever sent for a session that holds every chunk, and what it publishes is the local file |
| UploadProtocol.JournalIsTruthful | src/sync/journal.rs:142-182 | at every moment the journalled chunk set is a subset of what the bucket holds for the journalled session, which is a session of the same file |
| UploadProtocol.LoopTurnsTwice | src/sync/mod.rs:683-730 | the session loop turns at most twice per attempt |
| UploadProtocol.SessionsBounded | src/sync/mod.rs:683-730 | there are never more sessions than begin request ids ever made, however often begin is sent or the client dies |
| UploadProtocol.RenewalNeedsNoCheckpoint | src/sync/journal.rs:117-140 | a new begin request id is made only when the journal holds no checkpoint for the file |
| JournalRefinement.UploadReplaced | src/sync/journal.rs:117-187 | replacing the checkpoint of one action in the journal changes what is recorded for that action to the given checkpoint and for no other action |
| JournalRefinement.Prepare | src/sync/mod.rs:680-714 | `prepare_upload` on the journal is the start of an attempt in the protocol, or after a reset its next round |
| JournalRefinement.Resume | src/sync/mod.rs:684-696 | recording the bucket's chunk set is the protocol's resumption of a session |
| JournalRefinement.Drop | src/sync/mod.rs:697-714 | `reset_upload` is the protocol's reset of a lost session, and after an answered commit its end |
| JournalRefinement.SaveSession | src/sync/mod.rs:721-730 | `set_upload_session` is the protocol's recording of an answered begin |
| JournalRefinement.MarkChunk | src/sync/mod.rs:776-778 | `mark_uploaded_chunk` is the protocol's recording of an acknowledged chunk |
| JournalRefinement.Restart | src/sync/journal.rs:64-103 | starting again from the journal on disk is a crash of the protocol's client if version, manifest and target are the same, and otherwise forgets the checkpoint |
| JournalRefinement.RecordedIsStored | src/sync/journal.rs:142-182 | at every moment of a run, every chunk covered by the range list on disk is stored in the recorded session, which belongs to the recorded file |
| UploadProgress.UploadCanFinish | src/sync/mod.rs:626-800 | from every state that a run can reach, crashes, lost messages and expired sessions included, some continuation without further expiry gets the file committed |
| UploadProgress.OneWayOn | src/sync/mod.rs:683-730 | in the session loop an upload without a session begins one, a live session is resumed, a lost one reset, and nothing else is possible |
| UploadProgress.LiveSessionIsKept | src/sync/mod.rs:683-799 | the journal gives up a live session only for another file or another manifest |
| UploadProgress.RecordedIsNotResent | src/sync/mod.rs:739-780 | a chunk is only ever sent if the journal does not record it as stored |
| UploadConcurrency.CallsAreBounded | crates/ic-oss/src/bucket.rs:756-846 | in every interleaving, each attempt has at most as many calls in flight as permits and chunks, also counting what is left of it after it has failed; all attempts together at most as many times that |
| UploadConcurrency.FullAttempts | src/file.rs:97-132 | that bound is reached: for any number of attempts there is a run in which all of them have all their calls in flight |
| UploadConcurrency.LimitHoldsIff | src/file.rs:97-132 | over all runs the configured concurrency bounds the calls in flight if and only if the calls of all possible attempts together fit below it |
| UploadConcurrency.RetryKeepsLimitIff | src/file.rs:97-132 | after a failed attempt, the next one keeps within the configured concurrency if and only if the calls left running and the chunks still missing fit below it together; with enough chunks missing, if and only if no call is left running |
| ChunkUploader.ReportedIsStored | src/file.rs:97-132 | every chunk reported as uploaded, which the next attempt skips, is in the bucket with the bytes of the file |
| ChunkUploader.CommitIsWholeFile | crates/ic-oss/src/bucket.rs:848-863 | a commit is only sent when every chunk of the stream is stored, and carries the given hash or the hash of the whole file, skipped chunks included |
| ChunkUploader.NeverStuck | crates/ic-oss/src/bucket.rs:756-846 | permits, bounded channel and the two halves of the join cannot deadlock: with at least one permit some step other than a failure is possible |
| ChunkUploader.StepsUseUp | crates/ic-oss/src/bucket.rs:756-863 | an attempt ends: every step short of its end lowers a bounded measure |
| ChunkProgress.SuccessPossibleIff | src/file.rs:97-132 | at every point of a run, success is still possible if and only if the last allowed attempt has not met with a failure |
| ChunkProgress.FailureHasCause | crates/ic-oss/src/bucket.rs:756-884 | as long as neither the stream, nor a chunk call, nor a commit has failed, no attempt fails and none is repeated |
| ChunkProgress.StoredWasSent | src/file.rs:97-132 | the bucket stores only chunks that were sent, and there is at most one attempt more than retries |
| ChunkProgress.ChannelIsBounded | crates/ic-oss/src/bucket.rs:756-846 | the channel never holds more results than the configured concurrency |
| ChunkProgress.AcknowledgedIsNotResent | crates/ic-oss/src/bucket.rs:756-846 | a chunk that has been acknowledged is not sent again, in the same attempt or in any later one |
| ChunksCodec.FramesAreChunks | crates/ic-oss/src/bucket.rs:970-990 | there is only one way to cut bytes into full frames with a shorter last one: the chunks of the file |
| ChunksCodec.ReadFrames | crates/ic-oss/src/bucket.rs:970-990 | however the stream splits its reads, the codec yields exactly the chunks of the file, in order |
| Utf8.EncodeInjective | src/sync/mod.rs:887-887 | different paths have different bytes |
| Utf8.OrderOfBytes | src/sync/planner.rs:190-198 | comparing paths character by character is comparing their UTF-8 bytes |
| ManifestHash.EntryLayout | src/sync/mod.rs:886-899 | the bytes of an entry are the length of its path as eight big-endian bytes, the path, the kind, the size as eight bytes, and the hash behind a byte that says whether there is one |
| ManifestHash.EntryInjective | src/sync/mod.rs:886-899 | the bytes of an entry delimit themselves |
| ManifestHash.HashInput | src/sync/mod.rs:882-902 | the hashed bytes are the entries in map order |
| ManifestHash.SameInputIffSameEntries | src/sync/journal.rs:82-87 | two manifests whose lengths and sizes fit 64 bits feed the same bytes to the hash if and only if they have the same entries, so only a hash collision can match a stale journal |
| Download.SortedReply | src/sync/pull.rs:627-634 | however a reply lists a run of chunks, sorting puts them in order |
| Download.DownloadToTemporary | src/sync/pull.rs:605-679 | for arbitrary replies the loop ends; success means that the temporary file is the concatenation of chunks 0, 1, ... as replied, has the expected size and matches a known hash; with an honest bucket only unanswered calls or an existing temporary file can make it fail |
| Download.HonestIsExact | src/sync/pull.rs:605-679 | what passes the tests with an honest bucket is the file, whether or not a hash is known |
| Download.AlignedIffShort | src/sync/pull.rs:638-645 | in a successful download chunk i sits at offset i * CHUNK_SIZE for all i if and only if no chunk before the last is 2^32 bytes or longer |
| Download.OverlongChunkAccepted | src/sync/pull.rs:638-645 | a reply that the loop takes in full, ending with the expected size and number of chunks, although its second chunk is misplaced, because lengths are compared modulo 2^32 |
| Download.EnsureParent | src/sync/pull.rs:467-500 | missing directories above a path are created, nothing is changed or lost, and links or files in the way are refused |
| Download.Fetch | src/sync/pull.rs:514-548 | only the temporary file changes, and it is removed again on every failure |
| Download.Publish | src/sync/pull.rs:549-559 | the destination is replaced by one rename, if and only if it is still free or a regular file as expected |
| Download.DownloadFile | src/sync/pull.rs:502-563 | at every point at which the client may die, the destination holds its old content or fully verified new content, put together from replies between two info replies that agree; a new file is only put where there is none, a replacement only where there is a regular file; a query that is given up has been tried `retry + 1` times |
| DownloadVersions.PublishedIsOneVersion | src/sync/pull.rs:512-563 | if the remote file may change at any moment, each change raising its revision or generation, whatever is published is the whole content of the one version that both info replies describe, and that version is as planned |
| DownloadVersions.PulledIsOneVersion | src/sync/pull.rs:380-427 | so at every moment of a pull, each downloaded path holds one version of the planned file |
| PullPlanner.PlanPull | src/sync/pull.rs:201-287 | the plan is the scan's conflicts outside of excluded paths plus one decision per path, sorted |
| PullMeaning.PlannedIffCalledFor | src/sync/pull.rs:201-287 | a pull plan holds an action if and only if the two trees, the options and the patterns call for it; apart from reported conflicts, one means differing kinds, a path with a stray slash or a component that does not lead down, or a differing file without `overwrite` |
| PullMeaning.ExcludedIff | src/sync/pull.rs:338-349 | a path is excluded if and only if it or a directory above it matches a pattern, as a file or with a slash |
| PullMeaning.AcceptedLeadsDown | src/sync/pull.rs:351-368 | a name that the bucket accepts is only ever refused by a pull for a backslash or a null character |
| PullMeaning.FirstUnsafeIff | src/sync/pull.rs:351-368 | a path is refused for a component if and only if some component does not lead one step down from any directory or holds a backslash or a null character; the first such component is named |
| PullMeaning.PlanOrder | src/sync/pull.rs:301-319 | the order of a pull plan, as for a push |
| PullPlanner.PlanPathsDistinct | src/sync/pull.rs:201-287 | no path occurs in two actions of a conflict-free plan |
| PullPlanner.DestructiveOnlyOnRequest | src/sync/pull.rs:266-299 | excluded paths are never touched; deletions need `delete` and never hit a protected path or a directory above or below one |
| PullSync.ReplanIsRemaining | src/sync/pull.rs:201-287 | whatever part of a pull has been executed, if no temporary file is left and the wanted files have hashes, planning again from a rescan is conflict-free and contains exactly the remaining actions; `PullResume.ReplanAfterCrash` has the other crash states |
| PullResume.ReplanWithTemporary | src/sync/pull.rs:502-563 | the same with the temporary file of an unfinished download in the tree: the plan has one more action, its deletion, if and only if `delete` is set and its name is not excluded |
| PullResume.ReplanAfterCrash | src/sync/pull.rs:380-427 | wherever a pull dies, planning again is conflict-free and contains exactly the actions from the interrupted one on, and the deletion of a temporary file under the same condition |
| PullSync.SettledIffHashed | src/sync/pull.rs:244-256 | after a complete run planning again finds nothing to do if and only if every wanted remote file has a hash |
| PullSync.FinalFiles | src/sync/pull.rs:394-424 | at the end every wanted path is there with its kind and, if one is known, its hash, and everything else that remains is untouched and was to be kept |
| PullSync.ChildIsDeletedToo | src/sync/pull.rs:289-299 | whatever lies below a directory that is deleted is deleted by the plan as well: an excluded or special entry protects the directories above it |
| PullSync.ActionPossible | src/sync/pull.rs:394-424 | every action whose place is not taken by a link or special file is possible for the file system when its turn comes: parents are real directories, destinations are as expected, deleted directories are empty |
| PullSync.StaysInTheWay | src/sync/pull.rs:565-583 | a link or special file in a wanted place is never replaced, and its action is refused |
| PullSync.StuckOtherwise | src/sync/pull.rs:449-465 | the condition is exact: with a symbolic link or special file where something is wanted, some action whose turn can come at once is refused |
| PullSync.OrderIsReady | src/sync/pull.rs:301-319 | in plan order, everything an action waits for has happened |
| PullExecutor.ExecutePull | src/sync/pull.rs:380-427 | refused plans change nothing; success means every action has been executed and nothing special was in the way; at every moment what has been downloaded is verified content, and if the remote files stay as planned it is what the bucket holds, hash or no hash; then, with nothing in the way, the run succeeds if among any `retry + 1` successive queries for a file one is answered, and only unanswered queries can make it fail; at every point at which the client may die the disk is at most one temporary file away from a state between two actions |
| Splitting.SplitJoin | crates/ic-oss-types/src/permission.rs:254-265 | splitting what was joined gives back the parts if none of them holds the separator |
| Permission.PermissionRoundTrip | crates/ic-oss-types/src/permission.rs:226-292 | the text of a permission with well-formed names parses to the permission with constraint `*` dropped |
| Permission.ResourcesRoundTrip | crates/ic-oss-types/src/permission.rs:344-394 | the text of a set of valid names, in any order, parses to the set |
| Permission.PolicyRoundTrip | crates/ic-oss-types/src/permission.rs:453-505 | the text of a policy parses to its normal form |
| Permission.EmptyListIsAll | crates/ic-oss-types/src/permission.rs:344-394 | a policy without a list of resources, with an empty one or with a star is read as the same policy for everything |
| Permission.RoundTripIff | crates/ic-oss-types/src/permission.rs:453-505 | a policy survives printing and parsing up to normal form if and only if the names of its normal form are valid and none is a keyword |
| Permission.PoliciesRoundTrip | crates/ic-oss-types/src/permission.rs:603-648 | the text of any set of policies, printed in any order, parses to the set of normal forms |
| Permission.PoliciesRoundTripIff | crates/ic-oss-types/src/permission.rs:603-648 | the text of a set of policies parses to the set of normal forms if and only if all normal forms are well-formed |
| Permission.NormalPoliciesGrant | crates/ic-oss-types/src/permission.rs:581-601 | normalising changes no answer to a query for one path or for any of several |
| Permission.PrintingKeepsGrants | crates/ic-oss-types/src/permission.rs:581-648 | what is parsed from the printed text grants exactly what the original policies granted |
| Permission.ParsedIsWellFormed | crates/ic-oss-types/src/permission.rs:468-505 | every policy that was parsed from some text is well-formed |
| Permission.ReprintingKeepsGrants | crates/ic-oss-types/src/permission.rs:581-648 | printing what was parsed from any accepted text and parsing it again changes no grant |
| Grants.GrantedIff | crates/ic-oss-types/src/permission.rs:192-223 | a request is granted if and only if some policy names or leaves open each of its parts and holds for its path; for several paths, if one of them is granted or an agreeing policy holds everywhere |
| Grants.OwnPermissionGranted | crates/ic-oss-types/src/permission.rs:420-451 | a policy grants its own permission on each of its resources |
| Grants.GrantsAgree | crates/ic-oss-types/src/permission.rs:118-123 | whatever resource, operation or constraint a policy names, all requests it grants have in common |
| Grants.StarGrantsAll | crates/ic-oss-types/src/permission.rs:468-648 | the text of a star grants every request, the empty text none |
| Grants.ReadingGrants | crates/ic-oss-types/src/permission.rs:517-545 | the reading policies grant reading and listing, anywhere and of anything, and nothing else |
| Permission.Policies.Append | crates/ic-oss-types/src/permission.rs:553-555 | the set becomes the union and the other set empty |
| Permission.AppendGrants | crates/ic-oss-types/src/permission.rs:553-601 | the union grants what one of the two sets grants, for one path and for any of several |
| Permission.Policies.Remove | crates/ic-oss-types/src/permission.rs:562-564 | exactly the listed policies are removed |
| Permission.RemoveGrants | crates/ic-oss-types/src/permission.rs:562-601 | a grant is lost by a removal if and only if a removed policy gave it and no remaining one does, and no grant is gained, for one path and for any of several |
| Permission.RemovedOnlyIfNormal | crates/ic-oss-types/src/permission.rs:562-648 | after printing and parsing, removing a policy by name has no effect if and only if it was not in normal form |
| Permission.RemoveAfterParsing | crates/ic-oss-types/src/permission.rs:562-648 | what remains granted after removing from a printed and parsed set is what those policies granted whose normal form was not removed |
| FileNames.AcceptedNameIff | crates/ic-oss-types/src/file.rs:81-88 | a name is accepted if and only if it is one component other than a dot or two, at most 96 bytes long, with white space at neither end |
| LocalScan.Scan.ScanDirectory | src/sync/local.rs:101-259 | the recursion succeeds if and only if no limit is exceeded below the directory, and then has reported exactly the listed and protected paths below it |
| LocalScan.ScanLocal | src/sync/local.rs:61-99 | a scan succeeds if and only if no limit is exceeded, and an error names an entry that breaks one; cache hits and hashed files add up to the number of files, and the hits are exactly the files that the cache has with their size and time stamp |
| LocalScan.CachedScanIsExact | src/sync/local.rs:184-238 | if equal size and time stamp mean equal content, the report is that of a scan without cache, and the saved cache is sound again |
| LocalScan.NothingHashedTwice | src/sync/local.rs:184-228 | a second scan of an unchanged tree, with the cache that the first one saved, hashes only the files without a time stamp |
| LocalScan.ScanAgainAndAgain | src/sync/local.rs:61-99 | over any sequence of edits and scans, each reading the cache that the last successful one saved, every report is exact |
| LocalScan.ListedIff | src/sync/local.rs:124-145 | a scan lists exactly the entries that neither are excluded or special nor lie below one that is |
| LocalScan.ScanIsParentClosed | src/sync/local.rs:124-176 | every completed scan has the properties that push planning relies on |
| LocalScan.ListedNamesAreValid | src/sync/local.rs:120-127 | a completed scan lists only names that the bucket accepts |
| LocalScan.ScansAgree | src/sync/local.rs:61-99 | two scans of the same tree report the same entries and protected paths |
| RemoteScan.VisitFolder | src/sync/remote.rs:159-227 | one round lists one waiting folder and uses up one unit of the work that bounds the scan |
| RemoteScan.ScanLegacy | src/sync/remote.rs:148-230 | on every finite folder graph, cycles included, the scan ends, lists every reported folder exactly once and reports entries that hang below reported directories; if what hangs below the root is a tree, the result is that tree, with conflicts exactly for incomplete files; and there are no conflicts and no repeated file ids if and only if what hangs below the root is a tree of complete files |
| RemoteScan.TidyIsTree | src/sync/remote.rs:148-230 | whatever the graph, what a finished scan without conflicts has reported is the tree below the root, its files complete, if and only if no two reported files have the same id |
| RemoteScan.KeptByIdIsDistinct | src/sync/remote.rs:191-227 | if a file id stands for one file, a finished scan without conflicts has reported no file id twice |
| RemoteScan.TreeIsUnique | src/sync/remote.rs:148-230 | the listings of a bucket describe at most one tree |
| TranscodeCleanup.NoCandidateIsDeleted | src/transcode.rs:449-470 | however the Hub changes and however late deletes are served, a current candidate is deleted only if the Hub accepted that very file while its deletion was already under way, or in the cleanup of a cancelled job |
| CandidateLoss.CandidateLostIff | src/transcode.rs:449-470 | at any point of any run, a current candidate of a job that is not cancelled can be lost without a further change of the Hub if and only if its deletion is under way: a delete is in flight, or the client has decided to send one |
| CandidateLoss.CancelledLostIff | src/transcode.rs:702-788 | a file of a cancelled job can be lost if the journal lists it or its deletion is under way, and only then unless a worker is still at work |
| TranscodeProgress.CleanupFinishesIff | src/transcode.rs:719-789 | at any point of any run, a cleanup of a failed or cancelled job can be brought to its end without any change from elsewhere if and only if every output it has to delete exists or, once an intent is saved, has been answered for, is gone, or still has the revision of the intent |
| TranscodeProgress.OutputPublishedIff | src/transcode.rs:330-513 | a worker that is started can get a variant's output submitted and recorded, or adopt the candidate, if and only if the job is under way and the journal does not list another output than the candidate; without a candidate, the job must be running and an output in the journal exist |
| TranscodeProgress.ShownIsJournaled | src/transcode.rs:426-448 | once a reply has shown the submitted output as the candidate, the journal lists it as well |
| TranscodeCleanup.LateAcceptanceLoses | src/transcode.rs:449-470 | the exception is real: a run in which a submission accepted after a rejection of the same file comes too late |
| TranscodeCleanup.IntentBelongsToOutput | src/transcode.rs:1287-1368 | a persisted cleanup intent of a variant with an output was prepared for that output and carries its hash |
| TranscodeCleanup.RetriesRepeatTheRequest | src/transcode.rs:722-788 | as long as an output exists, all conditional deletes ever sent for it are one request with one id and the same preconditions |

## Left out

- Overflow of `upload_bytes`, `download_bytes` and of 32-bit file and folder ids.
- The journal's own failures to save, and `mark_started` and `mark_completed` inside `Executor`: they are modelled in `Journal` only (`SetState`), where a save is one atomic step.
- The command line's limit on retries outside of `ChunkUploader`, and a bucket that refuses a second file with a known hash.
- Upload leases: `renew_upload` has no effect in the model; that a lease is renewed every 512 chunks is not what the code does, because the test is skipped with an already stored chunk.
- `ensure_folder` on a folder that already exists, and two clients writing to one bucket at a time.
- A local root that does not exist yet is created before a pull; the model starts with the root in place.
- The counters of a pull plan (`unchanged`, `retained_local`, byte totals): they would repeat `Planner.PlanConservation`.
- The revision-guarded subtree manifest call (src/sync/remote.rs:26-79): paging and revision checks of a single reply.
- Paging of folder and file listings in the legacy remote scan: each listing is one sequence.
- RemoteScan.ScanLegacy: names are assumed to be valid, which the bucket enforces on creation, and the scan does not look for repeated file ids.
- Glob matching: an arbitrary predicate on paths.
- Real file-system behaviour: permissions, canonicalization, fsync and races with other processes; disk changes and renames are atomic, and another process changing the destination between two checks is not modelled.
- Download.EnsureParent: walks the directories recursively instead of by a loop over path components.
- Local files that change while they are scanned, and non-UTF-8 names.
- TranscodeCleanup.NoCandidateIsDeleted: assumes that submitting the current candidate again is not rejected.
- Orphaned files after a crash between a transcode upload and its journal entry: the code does not prevent them.
- ffmpeg, ffprobe, approval reports and the comparison of probes with variant specifications.
- Access tokens, signatures, candid and CBOR encodings, command-line parsing and display.
