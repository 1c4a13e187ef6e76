# fbs-core, verified

fbs-core is an S3-compatible object store: SQLite rows, files named by UUIDs, and many requests at once. This
project models its parts whose correctness rests on the order of steps, and proves what they promise. Nothing was
executed: every statement is about the model, for all inputs and all interleavings.

`dafny verify dfyconfig.toml` checks the project.

## The parts

- **Lifecycle** (`Metadata`, `History`, `Lifecycle`, `Invariant`, `Preservation`, `Guarantees`, `Requests`,
  `Commits`, `Claims`, `Endings`, `Progress`, `UploadProgress`, `UploadRemoval`, `Accounting`, `Orphans`, `Races`). One transition system of rows, files and program counters. The steps are one
  transaction or one file operation each:
  PUT and Copy (internal/s3/object_handlers.go:97-166, internal/s3/copy_object.go:26-131), DELETE and EmptyBucket
  (internal/objectops/cleanup.go:29-70), UploadPart and UploadPartCopy (internal/s3/multipart_part.go:21-174,
  internal/s3/multipart_upload.go:116-132), Complete (internal/s3/multipart_complete.go:22-235), Abort
  (internal/s3/multipart_abort.go:11-50), the stale-upload cleaner (internal/s3/multipart_cleanup.go:28-72), bucket
  deletion, plain and forced (internal/s3/bucket_delete.go:14-80, internal/management/buckets.go:56-114), a process
  crash, and startup. Any request steps at any time, and a step may succeed, fail, or persist and report a failure.
  A ghost history records every commit; results about runs are results about that history. `Requests` ties every commit
  to what a client asked for, and `Progress`, `UploadProgress` and `UploadRemoval` say what each request achieves from
  any reachable state, and that a refused or failed one leaves everything as it was.
- **Cache** (`MetadataCache`, `CacheCoherence`). The LRU as a class that refines a recency sequence, and the
  interleavings of cached reads with writes that commit first and evict later.
- **Listing** (`KeyOrder`, `Listing`, `ObjectOps`, `ContinuationToken`). The grouping query over rows, the cursor,
  and clients that follow it, by key or by token.
- **Storage** (`DurableWrite`, `Reconcile`). Writing under a temporary name, and the startup walk as code whose
  effect is tied to the recovery steps of the lifecycle.
- **Kernels** (`CompletedParts`, `ETags`, `UploadLock`, `Transaction`, `WriteTimeout`, `QueryString`,
  `CanonicalQuery`).

## Assumptions

An immediate transaction is atomic and foreign keys with their cascade are enforced. A failed COMMIT persists
nothing; an autocommitted statement that reports an error may have been persisted. UUIDs are never reused: in the
lifecycle a request draws its own number as its UUID. Stored keys are not empty, as key validation demands
(internal/storage/sanitize.go:9-16). A file operation fails or succeeds as a whole, except that a part file is
visible under its final name while it is being filled and that removing a directory may stop half way. The
connection under the timeout writer may send any prefix, read ahead by any amount and move the file offset anywhere;
a read from the source that reports no error and no bytes means the end of the data.

## Where the code and its documentation differ

- `writeDurably` says that a failure leaves the final path untouched. That holds for every failure before the rename.
  When only the sync of the directory fails, an existing file is lost or replaced: `FailureLeavesFinal` gives the exact
  condition and `ExistingFileIsLost` an input.
- DELETE and EmptyBucket read rows, then delete rows by key, then remove the files they had read. A write in between
  makes them delete a row whose file they do not remove: `OverwrittenDuringDelete` and `WrittenDuringEmptying` say
  exactly when. Before a crash, and unless a later DELETE loads it from the cache, that file can still go if and only
  if another request in flight had loaded or listed it. `DeleteLosesTrack` and `EmptyBucketLosesTrack` are runs in
  which none had.

## Model

| member | source | states |
|---|---|---|
| `Preservation.RunKeeps` | internal/s3/object_handlers.go:117-166 | In every state that any interleaving of requests, cleaner, crashes and restarts reaches: rows name complete files, history, rows and part rows agree, every request finds what it relies on at its program counter, and no upload has two claimers. One lemma per step proves it. |
| `Preservation.StepKeeps` | internal/s3/multipart_complete.go:51-89 | The invariant survives every one of the 41 steps, taken by any request at any time and ending in success, failure or an unreported success. |
| `Guarantees.ReadsSeeTheLastWrite` | internal/s3/object_handlers.go:117-166 | A key has a row exactly when some commit wrote it and nothing has written or removed it since; that row names a complete file with exactly the bytes of that commit. |
| `Guarantees.RowsHaveTheirOwnFiles` | internal/storage/write.go:26-36 | No two rows share a storage path. |
| `Guarantees.NoReferencedFileIsRemoved` | internal/objectops/cleanup.go:29-70 | A step that removes a file removes one that no object row and no part row names, before and after the step. |
| `Guarantees.RetiredPathNeverReturns` | internal/metadata/object_replace.go:7-27 | A committed path that no row has any more is never in the table again, whatever runs afterwards. |
| `Guarantees.HistoryExtends` | internal/metadata/object_replace.go:23-27 | Runs only append to the history of commits. |
| `Guarantees.NoDanglingRows` | migrations/migration.go:32-71 | In every reachable state each object and upload row has its bucket, and each part row its upload. |
| `Guarantees.ClaimsAreExclusive` | internal/s3/multipart_upload.go:137-176 | A claimed upload is never active and has one claimer among all requests in flight. |
| `Guarantees.ClaimUndisturbed` | internal/metadata/multipart.go:232-314 | While a claim is held, no step changes the status or any part row of the upload; others can only make the upload disappear. So giving a claim back never overwrites another claim. |
| `Guarantees.CompleterMeetsOnlyItsClaim` | internal/metadata/multipart.go:402-415 | The commit of a completion never finds its upload active or aborted, even with the cleaner and bucket deletions running unlocked. |
| `Requests.CompletionIsItsParts` | internal/s3/multipart_complete.go:51-82 | A committed completion was asked for by a request with its conditions and a part list that normalizes to the list used; it stored exactly the concatenation, in ascending part number, of the last stored version of each requested part, each with the requested ETag. |
| `Requests.RunAsked` | internal/s3/object_handlers.go:117-166 | In every run, what each object request in flight will commit, and every commit in the history, is what some request asked for. |
| `Requests.UploadWasAsked` | internal/s3/object_handlers.go:117-153 | A committed upload has the key, bytes, ETag and conditions of a PUT. |
| `Requests.CopyWasAsked` | internal/s3/copy_object.go:26-131 | A committed copy has the source, key and conditions of a copy request. |
| `Requests.PartWasAsked` | internal/s3/multipart_part.go:21-174 | A committed part has the upload, number, bytes and ETag of a part upload. |
| `Requests.RemovalWasAsked` | internal/objectops/cleanup.go:29-70 | A row that disappears was named by a DELETE of its key, by EmptyBucket or by the forced deletion of its bucket. |
| `Progress.PutTakesEffect` | internal/s3/object_handlers.go:117-166 | From every reachable state a PUT of any bytes leaves exactly these bytes and this ETag under the key, removes the replaced file and changes nothing else, if and only if the bucket exists, the conditions hold and the commit does not fail; otherwise it changes nothing. |
| `Progress.CopyTakesEffect` | internal/s3/copy_object.go:26-131 | The same for a copy, with the bytes and ETag of any committed version whose file is still there. |
| `Progress.WrongDigestChangesNothing` | internal/s3/object_handlers.go:122-126 | A PUT whose digest is wrong changes nothing. |
| `Progress.DeleteTakesEffect` | internal/objectops/cleanup.go:29-48 | A DELETE removes the row of the key and the file that the row names, and nothing else; a DELETE whose statement fails changes nothing. |
| `Progress.MissingKeyIsNotDeleted` | internal/objectops/cleanup.go:29-41 | A DELETE that loaded a row from the cache and finds none any more changes nothing. |
| `Progress.EmptyTakesEffect` | internal/objectops/cleanup.go:51-70 | EmptyBucket, with any pages, removes all rows of the bucket and exactly their files; if the statement fails, nothing. |
| `Progress.ForceTakesEffect` | internal/management/buckets.go:56-114 | Forced deletion removes the bucket, its rows and exactly their files if and only if the bucket exists and has no upload; otherwise it changes nothing. |
| `UploadProgress.PartTakesEffect` | internal/s3/multipart_part.go:21-111 | An uploaded part is stored with exactly its bytes and ETag and the file it replaced goes, if and only if the upload is active and the commit does not fail; otherwise nothing changes. |
| `UploadProgress.WrongPartDigestChangesNothing` | internal/s3/multipart_part.go:21-111 | A part whose digest is wrong changes nothing. |
| `UploadProgress.UploadIsCreated` | internal/metadata/multipart.go:103-145 | An upload is created, active and for its key, if and only if its bucket exists, and nothing else changes. |
| `UploadProgress.CompletionTakesEffect` | internal/s3/multipart_complete.go:22-102 | A completion of any number of parts takes effect if and only if the upload is active, the list normalizes, every part is stored with its ETag and large enough, the conditions hold and nothing fails. Then the key holds the bytes of the parts in order and upload, part rows, part files and replaced file are gone. Otherwise everything is as before, with the upload active again. |
| `UploadProgress.CopyRun` | internal/storage/write.go:105-124 | The copy loop appends the bytes of all parts that are left, however many. |
| `UploadProgress.ClaimGivenBack` | internal/s3/multipart_upload.go:137-176 | Giving a claim back restores the upload as it was before the claim. |
| `UploadRemoval.AbortTakesEffect` | internal/s3/multipart_abort.go:11-50 | An abort removes the upload, its part rows and part files if and only if the upload is active and its deletion does not fail; otherwise the upload is as it was. |
| `UploadRemoval.CleaningTakesEffect` | internal/s3/multipart_cleanup.go:44-72 | The cleaner removes an upload it has listed, active or claimed, with its part rows and part files, and nothing else. |
| `UploadRemoval.BucketDeletionTakesEffect` | internal/s3/bucket_delete.go:33-76 | Without objects, the active uploads of the bucket go with their part rows and part files, and the bucket goes if and only if it exists and had no claimed upload. |
| `UploadRemoval.FullBucketIsKept` | internal/s3/bucket_delete.go:20-29 | A bucket with objects is refused and keeps its uploads. |
| `Commits.WriteCommits` | internal/metadata/object_replace.go:7-27 | In every reachable state, whatever ran since, the commit of a PUT or copy succeeds if and only if the bucket exists and the conditions hold for the current row; the row then names the complete file with the bytes of the request. |
| `Commits.PartCommits` | internal/metadata/multipart.go:295-364 | In every reachable state a part is stored if and only if its upload is active at that moment. |
| `Commits.CompletionCommits` | internal/metadata/multipart.go:366-415 | In every reachable state the commit of a completion succeeds if and only if the upload is still in the table, its bucket exists and the conditions hold; it appends the commit with the requested list and the assembled bytes, and removes the upload. |
| `Commits.FailureChangesNothing` | internal/metadata/transaction.go:33-45 | A step that fails cleanly changes no row and no file and leaves no commit. |
| `Endings.NextDescends` | internal/s3/multipart_complete.go:69-100 | In any state, a step of a request in which nothing fails ends it or brings it nearer to its end. |
| `Endings.RequestEnds` | internal/s3/multipart_complete.go:22-102 | Whatever the others have done, a request can end with at most as many steps of its own as it has left: nobody is stuck. |
| `Endings.EverybodyEnds` | internal/s3/object_handlers.go:117-166 | The store can always become idle without a crash. |
| `Claims.RunHolds` | internal/s3/multipart_upload.go:137-176 | Without a crash and without a failing release, an upload is claimed exactly while some request holds the claim. |
| `Claims.IdleUploadsAreActive` | internal/s3/multipart_upload.go:162-176 | Along such runs every upload of an idle store is active, so clients can go on with it. |
| `Guarantees.CompletionHasItsParts` | internal/s3/multipart_complete.go:104-144 | For every committed completion the history holds the commits that stored its parts: last before it, with matching tags, and joined to its bytes. |
| `Preservation.SelectedAreLast` | internal/storage/write.go:105-124 | The parts chosen at the start of the assembly are still the last stored versions when the completion commits. |
| `Guarantees.CompletedIsFinal` | internal/metadata/multipart.go:366-399 | An upload completes at most once, and no part of it is stored afterwards. |
| `Guarantees.CopiesAreFaithful` | internal/s3/copy_object.go:26-131 | Every committed copy has the bytes and the ETag of an object version committed before it. |
| `Guarantees.CreateOnlyAfterDelete` | internal/metadata/multipart.go:444-458 | In any run, between two successful If-None-Match: * writes of a key there is a removal of that key. |
| `Guarantees.MatchedWritesReplace` | internal/metadata/multipart.go:373-397 | In any run, a successful write with a specific If-Match replaced the last write of its key, and that had the requested ETag. |
| `Guarantees.ReplacedPathsAreDistinct` | internal/metadata/object_replace.go:7-27 | In any run, no storage path is returned as replaced by two commits. |
| `Guarantees.RecoveryIsExact` | cmd/server/app.go:107-142 | When startup lets requests in after a crash, the object files are exactly those the rows name, part files belong to existing uploads, part rows have their files, and no temporary file is left. |
| `Guarantees.RecoveryIsIdempotent` | internal/storage/reconcile.go:11-148 | On a reconciled store every recovery step changes nothing. |
| `Guarantees.RecoveryCanFinish` | internal/storage/reconcile.go:11-148 | From any state after a crash some finite run of recovery steps finishes, with all rows and the history as they were. |
| `Guarantees.ForcedDeletionIsAllOrNothing` | internal/management/buckets.go:56-114 | The deletion step changes no row, or removes the bucket and goes on to unlink exactly the files of the rows that disappeared. |
| `Accounting.RunAccounts` | internal/objectops/cleanup.go:29-70 | Along any run without a leaking step, every object file and every part file is named by a row or some request in flight still has to commit or remove it. |
| `Accounting.StepAccounts` | internal/s3/object_handlers.go:117-166 | Each step keeps the object files, and the part files, accounted for, unless it is one of the listed leaks: a failed removal or sync, a crash, a deletion that persists but reports an error, a part directory given up before it is empty, or a DELETE or EmptyBucket that lost track. |
| `Accounting.QuietStoreIsExact` | internal/s3/multipart_complete.go:69-89 | From a state whose files are accounted for, such as the empty store, and without a leak, an idle store holds exactly the object files, or the part files, that its rows name. |
| `Accounting.IdleFilesAreTheRows` | internal/s3/multipart_abort.go:11-50 | From the empty store and without a leak of either kind, the files of an idle store are exactly those of its object rows and part rows: conditions, digests, overwrites, deletions, completions and aborts clean up behind themselves. |
| `Accounting.RecoveryAccounts` | cmd/server/app.go:107-142 | A finished recovery has accounted for every object file that leaked before. |
| `Orphans.RunForgets` | internal/objectops/cleanup.go:29-70 | A committed file without a row that no request in flight owes, has loaded or has listed stays on disk along any run without a crash and without a DELETE that loads it again. |
| `Races.StrayCanGo` | internal/objectops/cleanup.go:29-70 | A committed file without a row can be removed before a crash, without being loaded again, if and only if some request in flight owes it, has loaded it or has listed it; the continuation is constructed. |
| `Races.OverwrittenDuringDelete` | internal/objectops/cleanup.go:29-48 | When DELETE has deleted the row, the file of that row is scheduled for removal if and only if it is the file DELETE had loaded; otherwise it can still go before a crash, without being loaded again, if and only if another request had loaded or listed it. |
| `Races.WrittenDuringEmptying` | internal/objectops/cleanup.go:51-70 | When EmptyBucket has deleted the rows, the file of a row that went is scheduled if and only if it had been listed; otherwise as for DELETE. |
| `Races.DeleteLosesTrack` | internal/objectops/cleanup.go:29-48 | For any key of a fresh store: PUT, DELETE that loads, PUT, row deletion is a reachable run after which the second file has no row and cannot go. |
| `Races.EmptyBucketLosesTrack` | internal/objectops/cleanup.go:51-70 | The same for EmptyBucket that has listed the bucket before the second PUT. |
| `History.RowsMeaning` | internal/metadata/objects.go:82-134 | The table obtained by replaying the history is, key by key, the last write that was not removed. |
| `History.CreateOnceUntilDeleted` | internal/metadata/multipart.go:444-458 | Over well-formed histories: an If-None-Match: * commit needs a removal since any earlier write of the key (section 13.1.2 of RFC 9110). |
| `History.MatchedVersionReplaced` | internal/metadata/multipart.go:373-397 | A successful write with a specific If-Match replaced the last write of its key, and that write had the requested ETag (section 13.1.1 of RFC 9110). |
| `History.ReplacedOnce` | internal/metadata/object_replace.go:7-27 | Two commits never replace the same path. |
| `History.RetiredBy` | internal/metadata/object_replace.go:7-27 | Once a commit has replaced a path, no key has that path at any later point of the history. |
| `Metadata.PreconditionsMeaning` | internal/metadata/multipart.go:444-458 | Conditional writes are allowed exactly as the single-value If-Match and If-None-Match rules say; not-found is reported exactly for a missing key under If-Match. |
| `Metadata.ForcedDeletion` | internal/metadata/bucket_cleanup.go:11-72 | Forced deletion fails exactly when an upload is pending or the bucket is missing; otherwise it removes the bucket, returns exactly the rows that disappeared, and leaves nothing that refers to the bucket. |
| `Metadata.CompletionTransaction` | internal/metadata/multipart.go:366-415 | The transaction commits exactly when the upload is still claimed for completion, the bucket exists and the conditions hold; it returns the current row, replaces it, and removes the upload with its parts and nothing else. |
| `Metadata.PlainDeletion` | internal/metadata/bucket.go:187-205 | A plain bucket deletion succeeds exactly when the bucket exists and neither an object nor an upload is in it, and then removes the bucket and nothing else. |
| `ETags.EqualMeaning` | internal/metadata/multipart.go:613-623 | Two tags are equal exactly when, less one pair of quotes each, they have the same length and at each place the same character or one ASCII letter in its two cases. |
| `ETags.EqualIsEquivalence` | internal/metadata/multipart.go:620-623 | The comparison is reflexive, symmetric and transitive. |
| `ETags.EqualIgnoresQuotes` | internal/metadata/multipart.go:613-623 | Quoting a tag changes no comparison if and only if the tag is not itself quoted. |
| `CompletedParts.NormalizeCompletedParts` | internal/s3/multipart_complete.go:156-179 | The loop with its position index returns the specified list: one winner per number in order of first appearance, or the specified error. |
| `CompletedParts.NormalizeSucceeds` | internal/s3/multipart_complete.go:156-179 | Normalization succeeds if and only if the request is not empty and the first entries of its numbers ascend. |
| `CompletedParts.NormalizedMeaning` | internal/s3/multipart_complete.go:156-179 | The result is non-empty and strictly ascending, names exactly the requested numbers, and carries for each the entry given last. |
| `CompletedParts.LastEntryIsLast` | internal/s3/multipart_complete.go:156-179 | The winning entry is one of the request after which its number does not occur again. |
| `CompletedParts.MatchStoredParts` | internal/s3/multipart_complete.go:181-199 | Building the index and matching against it gives the first misfit as an error, or the stored part of every requested number. |
| `CompletedParts.Matched` | internal/s3/multipart_complete.go:181-199 | Matching succeeds if and only if every requested part is stored under the requested tag and all but the last are large enough; the result is the stored parts in request order. |
| `CompletedParts.MatchedMeaning` | internal/s3/multipart_complete.go:187-197 | The first requested part that is unknown or has another ETag, or is too small, gives the error; without one there is none. |
| `CompletedParts.AcceptedSize` | internal/s3/multipart_complete.go:156-199 | An accepted request of n distinct parts holds at least n - 1 times the minimum size. |
| `MetadataCache.Cache.PutLocked` | internal/metadata/cache.go:158-198 | After a put the contents are the longest prefix, by recency, of the new entry and the old ones without its key that fits the budget; index and list stay in bijection and used is the sum of the sizes. |
| `MetadataCache.Cache.EvictOverBudget` | internal/metadata/cache.go:175-183 | The eviction loop leaves the longest prefix that fits. |
| `MetadataCache.Cache.Get` | internal/metadata/cache.go:54-100 | A lookup finds what the sequence holds and moves it to the front; a disabled cache never hits. |
| `MetadataCache.Cache.Publish` | internal/metadata/cache_publication.go:6-43 | A row is published exactly when no eviction happened since its revision was read, and then as a put. |
| `MetadataCache.Cache.EvictObject` | internal/metadata/cache.go:131-140 | Bumps the revision and drops exactly the entry of the object. |
| `MetadataCache.Cache.EvictBucket` | internal/metadata/cache.go:114-129 | Bumps the revision and drops exactly the bucket and all of its objects. |
| `MetadataCache.Cache.EvictObjectsInBucket` | internal/metadata/cache.go:142-156 | Bumps the revision and drops exactly the objects of the bucket. |
| `MetadataCache.FitMeaning` | internal/metadata/cache.go:175-183 | What fits is a prefix within the budget such that every longer prefix exceeds it. |
| `MetadataCache.OversizedClears` | internal/metadata/cache.go:164-183 | An entry larger than the budget leaves the cache empty. |
| `MetadataCache.PutIsFound` | internal/metadata/cache.go:164-183 | An entry that fits alone is at the front right after its put. |
| `MetadataCache.PutEntries` | internal/metadata/cache.go:164-183 | After a put keys are distinct, and every entry is the new one or an old one with another key. |
| `MetadataCache.ScopesMeaning` | internal/metadata/cache.go:114-156 | What each kind of eviction leaves: all but one entry, all but the objects of a bucket, all but a bucket and its objects. |
| `MetadataCache.HitIsMostRecent` | internal/metadata/cache.go:84-100 | After a hit the entry comes first and the others follow in their order. |
| `MetadataCache.FindMeaning` | internal/metadata/cache.go:84-100 | A key is found exactly when an entry has it, with the value of that entry. |
| `CacheCoherence.RunKeeps` | internal/metadata/cache.go:320-375 | Every interleaving of cached reads and writes keeps: a cached or loaded version is the table version, or a write of the key has yet to evict, or the revision has moved on. |
| `CacheCoherence.StaleOnlyDuringAWrite` | internal/metadata/cache_publication.go:35-43 | A cached version differs from the table only while every newer version belongs to a writer between its commit and its eviction. |
| `CacheCoherence.QuietCacheAgrees` | internal/metadata/cache.go:326-375 | With no write in flight, every cached entry equals its row. |
| `CacheCoherence.ReadsAreNotStale` | internal/metadata/cache.go:334-351 | A read returns no version older than one whose write had returned before the read began, and none that nobody has committed. |
| `CacheCoherence.QuietReadIsExact` | internal/metadata/cache.go:334-351 | A read that begins when every write of its key has returned, and during which nobody commits the key, returns exactly the version of the table, hit or miss, in any interleaving. |
| `CacheCoherence.NoWriterMeansSettled` | internal/metadata/cache.go:326-375 | With no write in flight, every write of every key has returned. |
| `CacheCoherence.UndisturbedRead` | internal/metadata/cache.go:334-351 | A read that nobody disturbs returns at once: the cached version, or that of the table, which is then cached unless it is no row or is dropped. |
| `CacheCoherence.CommitMakesVersions` | internal/metadata/object_replace.go:29-32 | A commit makes the next version of each of its keys, tells which of them are no rows, and leaves the cache alone. |
| `CacheCoherence.ReadAfterWrite` | internal/metadata/object_replace.go:29-32 | A read that begins after the eviction of a write returns that write or something newer, whatever runs in between; this covers writes committed outside the wrapper and invalidated afterwards. |
| `CacheCoherence.RetriesAreEvictions` | internal/metadata/cache.go:334-351 | A cached read starts over at most once for every eviction since it began. |
| `CacheCoherence.LookUpSimulates` | internal/metadata/cache.go:84-100 | The lookup step of the transition system hits exactly when the LRU sequence has the key, and returns the version whose row the sequence holds; the sequence, with the entry in front, still represents the cached versions. |
| `CacheCoherence.PublishSimulates` | internal/metadata/cache_publication.go:35-43 | The publication step is a put on the LRU sequence: the new version is cached and the budget drops some. |
| `CacheCoherence.EvictSimulates` | internal/metadata/cache.go:114-156 | The eviction step is an eviction on the LRU sequence: exactly the versions in scope go. |
| `CacheCoherence.HitKeepsMap` | internal/metadata/cache.go:84-100 | A hit moves an entry and changes no value. |
| `CacheCoherence.PutRefinesPublish` | internal/metadata/cache_publication.go:35-43 | On values: after a put the sequence holds the new entry and the old ones, less some that were dropped. |
| `CacheCoherence.WithoutRefinesEvict` | internal/metadata/cache.go:114-156 | On values: an eviction keeps exactly the entries outside its scope. |
| `KeyOrder.AboveInterval` | internal/metadata/objects.go:215-240 | What lies above a prefix without extending it lies above everything that extends the prefix. |
| `KeyOrder.Utf8KeepsOrder` | internal/metadata/objects.go:215-240 | Byte order of the UTF-8 encodings is code-point order. |
| `Listing.VirtualKeyMeaning` | internal/metadata/objects.go:221-227 | The virtual key ends right behind the first delimiter after the prefix; without one it is the whole key. |
| `Listing.GroupIsInterval` | internal/metadata/objects.go:215-240 | A key extending a grouped virtual key has the same virtual key: each common prefix is an interval of the key order. |
| `Listing.GroupIsUniform` | internal/metadata/objects.go:229-232 | A group is one direct object, or entirely keys under one common prefix. |
| `Listing.GroupSurvivesFilter` | internal/metadata/objects.go:215-219 | Filtering rows by key before grouping loses no member of a group that is listed, so the cursor is the greatest key of the whole group. |
| `Listing.EntryMeaning` | internal/metadata/objects.go:221-232 | An entry is a common prefix exactly when the delimiter occurs behind the prefix in the keys of its group, decided by any of them; otherwise it is the stored key itself. |
| `Listing.PageEntries` | internal/metadata/objects.go:229-291 | Every entry of a page of any size is a stored key without a further delimiter and its own cursor, or a common prefix cut behind its first delimiter with the greatest stored key under it as the cursor. |
| `Listing.ObjectsAreListed` | internal/s3/bucket_handlers.go:172-211 | A client that follows the cursors gets every stored key without a further delimiter as an object of its own. |
| `Listing.CommonPrefixesAreListed` | internal/s3/bucket_handlers.go:172-211 | And every other stored key under the common prefix that its first delimiter ends. |
| `Listing.QueryRefinesSpecification` | internal/metadata/objects.go:194-309 | The query returns the entries of the first maxKeys + 1 virtual keys above the marker of all stored keys. |
| `Listing.PageMeaning` | internal/s3/bucket_handlers.go:154-191 | A page is the first maxKeys entries above the marker, and truncated exactly when more remain; the same for the grouped and the plain listing. |
| `Listing.CursorSkipsOwnGroup` | internal/s3/bucket_handlers.go:172-190 | A virtual key is above the cursor of an entry exactly when it is above its virtual key. |
| `Listing.CursorContinues` | internal/management/object_listing.go:120-145 | After the n-th entry, what its cursor leaves is exactly the rest of the list. |
| `Listing.FollowEnumerates` | internal/s3/list_objects_v1.go:92-117 | Following the cursors from any marker gives every virtual key above it once and in order, for any keys, prefix, delimiter and page size of at least 1, and ends. |
| `Listing.PageSizeDoesNotMatter` | internal/s3/bucket_handlers.go:172-211 | Two page sizes give the same enumeration. |
| `Listing.EnumerationIsExact` | internal/metadata/objects.go:194-309 | The list that is enumerated is strictly sorted and holds exactly the virtual keys above the marker of the keys under the prefix. |
| `ObjectOps.ListAllObjects` | internal/objectops/cleanup.go:13-27 | The paging loop ends and returns every row after the empty key. |
| `ObjectOps.ListingIsComplete` | internal/objectops/cleanup.go:13-27 | The loop returns the whole table if and only if no key is empty. |
| `ObjectOps.RowsAfterIsQuery` | internal/metadata/objects.go:147-192 | Over rows in key order the loop reads what the listing query without prefix and delimiter selects. |
| `ObjectOps.SplitEntries` | internal/management/object_listing.go:120-145 | Objects, common prefixes and next cursor of a page, from the entries in order. |
| `ObjectOps.SplitKeepsOrder` | internal/management/object_listing.go:120-145 | Both lists are in key order and hold nothing but entries of their kind. |
| `ObjectOps.SplitLosesNothing` | internal/management/object_listing.go:120-145 | Every entry ends up in exactly one of the two lists. |
| `ContinuationToken.DigitsRoundTrip` | internal/s3/bucket_handlers.go:235-251 | Unpadded base64 is undone by decoding (section 3.2 of RFC 4648), and its length is at most four thirds, rounded up. |
| `ContinuationToken.DigitsAreBits` | internal/s3/bucket_handlers.go:235-237 | Three bytes and their four digits write the same number; one or two bytes at the end are filled up with zero bits. |
| `ContinuationToken.DigitsAreTheAlphabet` | internal/s3/bucket_handlers.go:235-237 | Each digit is written as the URL-safe alphabet says (section 5 of RFC 4648). |
| `ContinuationToken.TextRoundTrip` | internal/s3/bucket_handlers.go:235-251 | The URL-safe alphabet is read back (section 5 of RFC 4648). |
| `ContinuationToken.TokenRoundTrip` | internal/s3/bucket_handlers.go:235-251 | A token for a key of at most 1024 bytes has at most 1500 characters, is accepted, and decodes to that key. |
| `ContinuationToken.AcceptedTokens` | internal/s3/bucket_handlers.go:239-251 | Whatever token is accepted gives a key within the limit that survives another round trip. |
| `ContinuationToken.NextMarkerIsCursor` | internal/s3/bucket_handlers.go:207-210 | The token of a truncated page brings back its cursor unchanged, and strictly less remains behind it. |
| `ContinuationToken.TokensEnumerate` | internal/s3/bucket_handlers.go:193-251 | A client that pages with tokens is never refused and sees exactly the enumeration of the cursors. |
| `DurableWrite.Filesystem.WriteDurably` | internal/storage/write.go:130-159 | Success puts exactly the source bytes under the final name, and is what happens exactly when no call fails and no part is missing. The error tells which call failed: before the rename the final path is as it was; when only the directory sync fails it holds the complete file or nothing. The files are the stated function of the failures. |
| `DurableWrite.FailureLeavesFinal` | internal/storage/write.go:126-159 | A failure leaves the final path untouched if and only if it came before the rename, or the directory sync failed and either the new file was removed from a path that was free, or it stayed and equals what was there. |
| `DurableWrite.FreshNameIsUntouched` | internal/storage/write.go:26-38 | A final path that was free stays free under every failure, unless the directory sync and then the removal fail. |
| `DurableWrite.ExistingFileIsLost` | internal/storage/write.go:155-158 | An existing file under the final path is lost when the directory cannot be synced after the rename. |
| `DurableWrite.WriteTouchesTwoNames` | internal/storage/write.go:130-159 | All other files are as they were, and no temporary file is left after a rename or a removal that worked. |
| `DurableWrite.Filesystem.CopyParts` | internal/storage/write.go:104-124 | There is no error exactly when nothing fails and no part is missing; then the file holds the concatenation of the parts in order and total is its length. |
| `DurableWrite.Filesystem.CopyWithContext` | internal/storage/write.go:174-200 | The file gains exactly the first written bytes of the source, all of them when there is no error, with writes and reads of any size and failures anywhere; an error means that the context, a read or a write failed. |
| `Reconcile.Engine.ReconcileStorage` | cmd/server/app.go:107-142 | Success leaves exactly the files that the rows account for and no temporary file; a failure at any point has removed only leftovers. It stops exactly at the first call that fails. |
| `Reconcile.Engine.WalkBucket` | internal/storage/reconcile.go:42-66 | The walk of one bucket removes only unknown files of that bucket, and all of them unless a removal fails. |
| `Reconcile.Engine.Reconcile` | internal/storage/reconcile.go:11-77 | Unless a call fails, temporary files and all unknown object files go; part files stay. |
| `Reconcile.Engine.ReconcileMultipartTmp` | internal/storage/reconcile.go:112-148 | Unless a call fails, part directories of unknown uploads go; everything else stays. |
| `Reconcile.KnownObjects` | cmd/server/app.go:112-122 | Unless the listing fails, the callback gives exactly the paths of the rows of the bucket; it rests on the paging loop being complete. |
| `Reconcile.WalkIsTidying` | internal/storage/reconcile.go:11-148 | Whatever a walk has removed, finished or not, is a run of recovery steps of the transition system. |
| `Reconcile.WalkAfterAnyCrash` | cmd/server/app.go:107-142 | After any run that ends in a crash a finished walk leaves exactly the files named by rows under the buckets, part files of existing uploads only, and every part row its file. |
| `Reconcile.FinishedWalk` | internal/storage/reconcile.go:11-148 | After a finished walk the server starts, and another walk can remove nothing. |
| `UploadLock.RunKeeps` | internal/s3/object_handlers.go:66-95 | In every run of any number of threads and uploads, references count the threads in the window of an upload, entries exist exactly for uploads in use, and the mutex is held by exactly the thread that is past it. |
| `UploadLock.MutualExclusion` | internal/s3/object_handlers.go:71-95 | At most one thread holds the lock of an upload. |
| `UploadLock.ReferencesCountThreads` | internal/s3/object_handlers.go:71-95 | An entry exists exactly while some thread is in the window, and refs is the number of those threads. |
| `UploadLock.QuietMeansEmpty` | internal/s3/object_handlers.go:71-95 | The map is empty exactly when no thread is in a window. |
| `UploadLock.StepMoves` | internal/s3/object_handlers.go:71-95 | In every run a thread waits, holds, leaves and is gone; it obtains the lock exactly when nobody holds it, and nothing keeps a holder from unlocking and leaving. |
| `UploadLock.WaitersCanProceed` | internal/s3/object_handlers.go:83-86 | A waiting thread can take the mutex, or another thread holds it and can release it, and then it can. |
| `UploadLock.LockTable.Acquire` | internal/s3/object_handlers.go:71-82 | The first critical section takes the protocol step, and hands out the lock object already in the map if there is one: all threads of an upload share it. |
| `UploadLock.LockTable.LockMutex` | internal/s3/object_handlers.go:84-84 | The mutex is obtained exactly when the protocol lets the thread hold it. |
| `UploadLock.LockTable.UnlockMutex` | internal/s3/object_handlers.go:85-86 | Unlocking takes the protocol step. |
| `UploadLock.LockTable.Release` | internal/s3/object_handlers.go:88-94 | The last critical section takes the protocol step; the entry goes exactly when no thread of the upload is left, and the guard on the map entry always holds. |
| `Transaction.ImmediateTransaction.Commit` | internal/metadata/transaction.go:33-45 | Commit reports no error exactly when the pending writes are stored; with an error nothing is stored. COMMIT is called without the context. |
| `Transaction.ErrorsAreKnown` | internal/metadata/transaction.go:37-42 | An error of COMMIT tells that nothing was stored if and only if COMMIT cannot be canceled, or has nothing to store. |
| `Transaction.ImmediateTransaction.Close` | internal/metadata/transaction.go:47-56 | Whatever happened before, the connection goes back without an open transaction or, only if the rollback fails, is discarded. |
| `Transaction.BeginImmediate` | internal/metadata/transaction.go:19-31 | Gives an open transaction on a connection of its own, or fails, because a call failed or the context is done, and leaves the pool clean even when the outcome of BEGIN is unknown. |
| `Transaction.Update` | internal/metadata/object_replace.go:7-27 | The begin, write, commit, close shape: all statements persist, or none does and an error is returned, which means that a call failed or the context is done. |
| `Transaction.UpdateAll` | internal/metadata/transaction.go:19-56 | Over any sequence of updates, what is stored is exactly the batches whose callers saw no error, in order, and the pool stays clean; when no call fails, only updates whose context is done see an error. |
| `WriteTimeout.WriteTimeoutConn.Write` | internal/http/write_timeout.go:73-94 | The wire gains exactly the first total bytes; no error means all; each attempt has its own deadline; a timeout is reported only after an attempt that sent nothing; any error is one of the connection; the loop ends. Without a timeout there is one attempt. |
| `WriteTimeout.WriteTimeoutConn.ReadFrom` | internal/http/write_timeout.go:96-140 | The wire gains exactly the first total bytes of the source, all when there is no error, even over a connection that reads ahead; each attempt starts at the file offset and the limit that match the bytes sent; any error is one of the connection or the source. |
| `WriteTimeout.WriteTimeoutConn.ReadFromRetrying` | internal/http/write_timeout.go:112-139 | The retry loop alone, with the same promises; it ends because every retry sent something. |
| `WriteTimeout.ProgressHasNoError` | internal/http/write_timeout.go:82-93 | On a connection that makes progress the retries end without an error, however often it times out. |
| `WriteTimeout.WriteTimeoutConn.Copy` | internal/http/write_timeout.go:104-108 | The generic fallback through Write also delivers each byte once. |
| `WriteTimeout.WriteTimeoutConn.SetWriteDeadline` | internal/http/write_timeout.go:66-71 | A deadline set by the server ends the policy of the download. |
| `QueryString.UriEncode` | internal/auth/sigv4.go:434-471 | The two passes fill the preallocated buffer exactly and give the percent-encoding of the string. |
| `QueryString.EncodedLength` | internal/auth/sigv4.go:434-452 | The encoding is longer by two for each escaped byte, and the string itself when nothing is escaped. |
| `QueryString.EscapedMeaning` | internal/auth/sigv4.go:454-482 | Exactly the unreserved characters of section 2.3 of RFC 3986 stay; every other byte becomes a percent sign and two upper-case hexadecimal digits. |
| `QueryString.DecodingUndoes` | internal/auth/sigv4.go:434-482 | Percent-decoding gives the string back (sections 2.1 and 2.3 of RFC 3986). |
| `QueryString.JoinedMeaning` | internal/auth/sigv4.go:425-431 | Name and value are joined by =, pairs by &. |
| `QueryString.AtMostMeaning` | internal/auth/sigv4.go:420-424 | Names and values are ordered byte by byte, a prefix first. |
| `QueryString.JoinedInjective` | internal/auth/sigv4.go:425-431 | Different lists of pairs give different strings once encoded and joined. |
| `CanonicalQuery.BuildCanonicalQueryString` | internal/auth/sigv4.go:410-432 | The loops give the canonical string of the multiset of pairs whose names are not excluded, in whatever order the map is walked. |
| `CanonicalQuery.CanonicalDecidesEquality` | internal/auth/sigv4.go:410-432 | Two multisets of pairs have the same canonical string if and only if they are equal. |
| `CanonicalQuery.ListedIsArranged` | internal/auth/sigv4.go:413-431 | Sorted names with their sorted values are the pairs in order. |
| `CanonicalQuery.KeptMeaning` | internal/auth/sigv4.go:413-419 | A pair counts as often as the query has it, unless its name is excluded. |
| `CanonicalQuery.GroupingKeepsPairs` | internal/auth/sigv4.go:411-419 | Grouping a query by name and leaving out the excluded names keeps every other pair as often as it occurs. |

## Left out

- HTTP routing, XML and JSON, headers, logging, activity records, users, grants, share links and setup: they carry no invariant between requests.
- Cryptography: ETags and digests are arbitrary strings; a wrong digest is the step that rejects a written file.
- Power loss: only process crashes are modelled, because the store does not sync every commit.
- Integer widths: sizes, offsets and the cache revision are unbounded, so wrap-around of 64-bit values is not covered.
- The upload lock in the lifecycle: requests do not consult it there, so the lifecycle results hold for more interleavings than the server has, and the lock is proved on its own.
- Time: an upload may be stale at any moment, so the age limits of the cleaner are not modelled; timeouts may strike at any call.
- ETags.EqualMeaning: case folding covers ASCII letters only, not the Unicode folding of the comparison in the source.
- Checks made before a request's first step: validation, permissions, and the early look at an upload, its conditions or its status; a request they refuse takes no step.
- The order in which bucket deletion lists uploads, and its ceiling of ten rounds: each round lists any uploads of the bucket, and the loop may stop after any of them.
- Linearizability of cached reads: while a write is in flight a slow miss may publish the old row again after another reader saw the new one; only the staleness bound is stated.
- Termination of a cached read: it is bounded by evictions, and its exit on a cancelled context is not a step.
- The size estimators of the cache: an entry has any size; a nil cache is the disabled one.
- In-place moves of the linked list in the cache: the list is a sequence of element objects that the methods reassign.
- Object paths that lack their bucket directory: paths are bucket and UUID, so the normalization of older paths in reconciliation is the identity.
- Stray files inside the part directory of an upload that still exists: reconciliation keeps whole directories, and so does the model.
- Pruning of empty directories.
- Keys as bytes: keys are sequences of code points, with the UTF-8 order and encoding proved to agree; markers that are not valid UTF-8 are not followed.
- encodeListValue: the V1 marker is what the client has after undoing the URL encoding of the response.
- The order of AWS canonical queries: names are compared before encoding, so only determinism and injectivity are stated.
- Parsing of the raw query string: a query is the list of its decoded pairs.
- The 64-byte stack buffer of uriEncode: the model allocates the buffer in both cases.
- Accounting.RecoveryAccounts: covers object files only, because reconciliation keeps part directories of existing uploads whole, with any stray file in them.
- Accounting.StepAccounts: an upload deletion that persists but reports an error counts as a leak of part files even if the upload had no parts.
- LockMutex: does not model blocking; a thread that finds the mutex taken tries again in a later step.
- WriteDurably: when temporary and final name are the same, as for parts, a failed write may leave a partial file there; the lifecycle covers it as an incomplete part file.
- ReadFrom: one round of the retry loop is a method of its own, SendOnce, and the bytes of the file do not change while it is sent.
- ListParts and ListByBucket paging, copy ranges and object attributes: easier relatives of what is proved.
